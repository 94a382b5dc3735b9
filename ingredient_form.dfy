/**
 * The ingredient form's effects: which of the page's callbacks fire, in
 * which order and with which arguments, for each state the suggestion
 * action returns, and the forwarding of the pending flag.
 */
module IngredientForm {
  import opened Wrappers
  import opened Genkit
  import opened RecipeIdeas
  import opened Types
  import opened Actions

  /** A call of one of the callbacks the page passes to the form. */
  datatype Callback =
    | OnSuggestions(suggestions: seq<RecipeSuggestion>, ingredients: string)
    | OnError(message: string)
    | OnLoading(loading: bool)

  /** The form's state before any submission. */
  const InitialState := ActionState(None, None, None)

  /** The total length of the parts. */
  function TotalLength(parts: seq<string>): nat
  {
    if parts == [] then 0 else |parts[0]| + TotalLength(parts[1..])
  }

  /** `Array.prototype.join`: the parts in order with one separator between
      each neighbouring pair. */
  function Join(parts: seq<string>, separator: string): (r: string)
    ensures parts == [] ==> r == ""
    ensures |parts| == 1 ==> r == parts[0]
    ensures |parts| == 2 ==> r == parts[0] + separator + parts[1]
    ensures |parts| >= 2 ==> |parts[0]| + |separator| <= |r| && r[..|parts[0]| + |separator|] == parts[0] + separator
  {
    if parts == [] then ""
    else if |parts| == 1 then parts[0]
    else parts[0] + separator + Join(parts[1..], separator)
  }

  /** A join is as long as its parts together plus one separator per gap. */
  lemma {:induction false} JoinLength(parts: seq<string>, separator: string)
    requires parts != []
    ensures |Join(parts, separator)| == TotalLength(parts) + (|parts| - 1) * |separator|
  {
    if |parts| >= 2 {
      JoinLength(parts[1..], separator);
      MulStep(|parts| - 2, |separator|);
    }
  }

  /** One more gap adds one more separator. */
  lemma MulStep(n: int, k: int)
    ensures (n + 1) * k == n * k + k
  {
  }

  /** A join ends with its last part. */
  lemma {:induction false} JoinEndsWithLast(parts: seq<string>, separator: string)
    requires parts != []
    ensures var r := Join(parts, separator); var last := parts[|parts| - 1];
      |last| <= |r| && r[|r| - |last|..] == last
  {
    if |parts| >= 2 {
      JoinEndsWithLast(parts[1..], separator);
      var rest := Join(parts[1..], separator);
      var last := parts[|parts| - 1];
      assert parts[1..][|parts[1..]| - 1] == last;
      var r := parts[0] + separator + rest;
      assert r[|r| - |last|..] == rest[|rest| - |last|..];
    }
  }

  /** The recipes the action returned, as the suggestions the form passes on
      (none of them has a client id yet). */
  function AsSuggestions(recipes: seq<DetailedRecipe>): (r: seq<RecipeSuggestion>)
    ensures |r| == |recipes|
    ensures forall i :: 0 <= i < |r| ==> r[i].recipe == recipes[i] && r[i].id.None?
  {
    seq(|recipes|, i requires 0 <= i < |recipes| => RecipeSuggestion(recipes[i], None))
  }

  /** The error text for a state without recipes: the `ingredients` errors,
      else the `_form` errors, each joined with ", ", else the message. */
  function ErrorText(state: ActionState): (t: string)
    ensures state.errors.Some? && state.errors.value.ingredients == Some([]) ==> t == ""
    ensures state.errors.Some? && state.errors.value.ingredients.Some? &&
            |state.errors.value.ingredients.value| == 1
            ==> t == state.errors.value.ingredients.value[0]
    ensures state.errors.Some? && state.errors.value.ingredients.None? && state.errors.value.form.Some? &&
            |state.errors.value.form.value| == 1
            ==> t == state.errors.value.form.value[0]
    ensures state.errors.None? ==> t == (if state.message.Some? then state.message.value else "")
  {
    if state.errors.Some? && state.errors.value.ingredients.Some? then
      Join(state.errors.value.ingredients.value, ", ")
    else if state.errors.Some? && state.errors.value.form.Some? then
      Join(state.errors.value.form.value, ", ")
    else if state.message.Some? then state.message.value
    else ""
  }

  /**
   * The state effect. `textareaValue` is the current text of the
   * ingredients field. A non-null recipe list (even an empty one) is passed
   * on first; an empty list with a message then also reports that message
   * as an error. Without recipes, a message is reported as an error.
   */
  function Dispatch(state: ActionState, textareaValue: string): (r: seq<Callback>)
    ensures |r| <= 2
    ensures state.recipes.Some? ==>
      |r| >= 1 && r[0] == OnSuggestions(AsSuggestions(state.recipes.value), textareaValue)
    ensures state.recipes.Some? && state.recipes.value != [] ==> |r| == 1
    ensures state.recipes == Some([]) ==> (|r| == 2 <==> Truthy(state.message))
    ensures state.recipes == Some([]) && |r| == 2 ==> r[1] == OnError(state.message.value)
    ensures state.recipes.None? ==>
      r == (if Truthy(state.message) then [OnError(ErrorText(state))] else [])
    ensures forall i :: 0 <= i < |r| ==> !r[i].OnLoading?
  {
    match state.recipes
    case Some(recipes) =>
      [OnSuggestions(AsSuggestions(recipes), textareaValue)] +
      (if Truthy(state.message) && |recipes| == 0 then [OnError(state.message.value)] else [])
    case None =>
      if Truthy(state.message) then [OnError(ErrorText(state))] else []
  }

  /** The pending effect: `onLoading` receives the pending flag on the first
      render (`previous` is `None`) and whenever it changes. */
  function PendingEffect(previous: Option<bool>, pending: bool): (r: seq<Callback>)
    ensures r == [] || r == [OnLoading(pending)]
    ensures r == [] <==> previous == Some(pending)
  {
    if previous == Some(pending) then [] else [OnLoading(pending)]
  }

  /** The initial state fires no callback. */
  lemma InitialStateIsQuiet(textareaValue: string)
    ensures Dispatch(InitialState, textareaValue) == []
  {
  }

  /** Rejected input is reported with the schema's `ingredients` errors when
      there are any, else its `_form` errors, else "Validation failed". */
  lemma RejectedInputReportsError(ingredients: Option<string>, fieldErrors: FieldErrors,
                                  generation: ModelCall<GenerateRecipeIdeasOutput>, textareaValue: string)
    requires !IngredientsValid(ingredients)
    ensures Dispatch(GetRecipeSuggestionsAction(ingredients, fieldErrors, generation), textareaValue) ==
      [OnError(if fieldErrors.ingredients.Some? then Join(fieldErrors.ingredients.value, ", ")
               else if fieldErrors.form.Some? then Join(fieldErrors.form.value, ", ")
               else ValidationFailed)]
  {
  }

  /** Generated recipes are passed on with the field's text, and no error is reported. */
  lemma {:induction false} GeneratedRecipesArePassedOn(ingredients: string, fieldErrors: FieldErrors,
                                    output: GenerateRecipeIdeasOutput, textareaValue: string)
    requires |ingredients| >= 3 && output.recipes != []
    ensures Dispatch(GetRecipeSuggestionsAction(Some(ingredients), fieldErrors, Returned(Some(output))), textareaValue) ==
      [OnSuggestions(AsSuggestions(output.recipes), textareaValue)]
  {
    var state := GetRecipeSuggestionsAction(Some(ingredients), fieldErrors, Returned(Some(output)));
    assert state.recipes == Some(output.recipes);
  }

  /** An empty generation result passes on the empty list and then reports
      "No recipes found for these ingredients." as an error. */
  lemma {:induction false} EmptyResultReportsError(ingredients: string, fieldErrors: FieldErrors,
                                                   generation: ModelCall<GenerateRecipeIdeasOutput>, textareaValue: string)
    requires |ingredients| >= 3
    requires generation == Returned(None) || generation == Returned(Some(GenerateRecipeIdeasOutput([])))
    ensures Dispatch(GetRecipeSuggestionsAction(Some(ingredients), fieldErrors, generation), textareaValue) ==
      [OnSuggestions([], textareaValue), OnError(NoRecipesFound)]
  {
    var state := GetRecipeSuggestionsAction(Some(ingredients), fieldErrors, generation);
    assert state.recipes == Some([]) && state.message == Some(NoRecipesFound);
    assert AsSuggestions([]) == [];
  }

  /** A generation error is reported with its message (the single `_form`
      error), unless that message is empty, in which case nothing fires. */
  lemma {:induction false} GenerationErrorIsReported(ingredients: string, fieldErrors: FieldErrors,
                                                     e: ThrownError, textareaValue: string)
    requires |ingredients| >= 3
    ensures var m := GenerationErrorMessage(e);
      Dispatch(GetRecipeSuggestionsAction(Some(ingredients), fieldErrors, Threw(e)), textareaValue) ==
        (if m != "" then [OnError(m)] else [])
  {
    var m := GenerationErrorMessage(e);
    var state := GetRecipeSuggestionsAction(Some(ingredients), fieldErrors, Threw(e));
    assert state == ActionState(Some(m), None, Some(FieldErrors(Some([m]), None)));
    assert ErrorText(state) == Join([m], ", ") == m;
  }
}
