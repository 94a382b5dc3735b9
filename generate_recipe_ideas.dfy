/**
 * The recipe-generation flow: the recipe shapes the model must return, and
 * the flow's substitution of an empty recipe list when the model returns
 * no output.
 */
module RecipeIdeas {
  import opened Wrappers
  import opened Genkit

  /** An ingredient line; `quantity` is an opaque string (amount and unit). */
  datatype Ingredient = Ingredient(name: string, quantity: string)

  /** One generated recipe. Title, description, ingredients and instructions
      are required; the timing, serving, cuisine, difficulty and tag fields
      are optional. */
  datatype DetailedRecipe = DetailedRecipe(
    title: string,
    description: string,
    ingredients: seq<Ingredient>,
    instructions: seq<string>,
    prepTime: Option<string>,
    cookTime: Option<string>,
    totalTime: Option<string>,
    servingSize: Option<string>,
    cuisine: Option<string>,
    difficulty: Option<string>,
    tags: Option<seq<string>>)

  /** The flow's input: the user's free-text ingredient list. */
  datatype GenerateRecipeIdeasInput = GenerateRecipeIdeasInput(ingredients: string)

  /** The flow's output: a record holding one array of recipes. */
  datatype GenerateRecipeIdeasOutput = GenerateRecipeIdeasOutput(recipes: seq<DetailedRecipe>)

  /**
   * The generation flow, given what awaiting the prompt produced. A thrown
   * error propagates; a null output becomes `{recipes: []}`; any other
   * output is returned as the model produced it.
   */
  function GenerateRecipeIdeasFlow(input: GenerateRecipeIdeasInput, call: ModelCall<GenerateRecipeIdeasOutput>)
    : (r: Result<GenerateRecipeIdeasOutput, ThrownError>)
    ensures r.Failure? <==> call.Threw?
    ensures r.Failure? ==> r.error == call.error
    ensures r.Success? && r.value.recipes != [] ==> call == Returned(Some(r.value))
    ensures call.Returned? && call.output.Some? ==> r == Success(call.output.value)
    ensures call == Returned(None) ==> r == Success(GenerateRecipeIdeasOutput([]))
  {
    match call
    case Threw(e) => Failure(e)
    case Returned(output) =>
      Success(if output.Some? then output.value else GenerateRecipeIdeasOutput([]))
  }
}
