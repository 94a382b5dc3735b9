/**
 * The seam to the generative model. A prompt call is not modelled: each call
 * site receives what awaiting the prompt produced, as an input.
 */
module Genkit {
  import opened Wrappers

  /** A value thrown by a prompt call or a flow, as the catch blocks see it. */
  datatype ThrownError =
      /** An `Error` carrying a `details` property (what Genkit throws); the
          finish reason is `details?.finishReason`. */
    | DetailedError(message: string, finishReason: Option<string>)
      /** Any other `Error`. */
    | PlainError(message: string)
      /** A thrown value that is not an `Error` at all. */
    | NonError

  /** The result of awaiting a prompt: its structured output (which may be
      null), or an exception. */
  datatype ModelCall<+T> = Returned(output: Option<T>) | Threw(error: ThrownError)
}
