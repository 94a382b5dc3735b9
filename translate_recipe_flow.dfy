/**
 * The recipe-translation flow: its input and output records, and the
 * post-processing that forces every translated ingredient to keep the
 * quantity of the input ingredient at the same index.
 */
module TranslateRecipe {
  import opened Wrappers
  import opened Genkit
  import opened RecipeIdeas

  /** The translation input: the recipe's text fields and the target language. */
  datatype TranslateRecipeInput = TranslateRecipeInput(
    recipeTitle: string,
    recipeDescription: Option<string>,
    recipeIngredients: seq<Ingredient>,
    recipeInstructions: seq<string>,
    recipeTags: Option<seq<string>>,
    targetLanguage: string)

  /** The translation output. Description and tags are optional. */
  datatype TranslatedRecipeOutput = TranslatedRecipeOutput(
    translatedTitle: string,
    translatedDescription: Option<string>,
    translatedIngredients: seq<Ingredient>,
    translatedInstructions: seq<string>,
    translatedTags: Option<seq<string>>)

  /** The message of the error the flow throws when the model returns no output. */
  const NoOutputMessage := "Translation failed: AI did not return an output."

  /**
   * The safeguard applied to the model's output: when both ingredient lists
   * have the same length, each translated ingredient keeps its translated
   * name and takes the input quantity at the same index; otherwise the
   * translated ingredients are returned as the model produced them. All
   * other fields pass through.
   */
  function ForceOriginalQuantities(inputIngredients: seq<Ingredient>, output: TranslatedRecipeOutput)
    : (r: TranslatedRecipeOutput)
    ensures |r.translatedIngredients| == |output.translatedIngredients|
    ensures |inputIngredients| == |output.translatedIngredients| ==>
      forall i :: 0 <= i < |inputIngredients| ==>
        r.translatedIngredients[i].quantity == inputIngredients[i].quantity &&
        r.translatedIngredients[i].name == output.translatedIngredients[i].name
    ensures |inputIngredients| != |output.translatedIngredients| ==>
      r.translatedIngredients == output.translatedIngredients
    ensures r.translatedTitle == output.translatedTitle
    ensures r.translatedDescription == output.translatedDescription
    ensures r.translatedInstructions == output.translatedInstructions
    ensures r.translatedTags == output.translatedTags
  {
    var ings := output.translatedIngredients;
    if |inputIngredients| == |ings| then
      output.(translatedIngredients :=
        seq(|ings|, i requires 0 <= i < |ings| => ings[i].(quantity := inputIngredients[i].quantity)))
    else output
  }

  /** Applying the safeguard a second time with the same input changes nothing. */
  lemma ForceOriginalQuantitiesIdempotent(inputIngredients: seq<Ingredient>, output: TranslatedRecipeOutput)
    ensures ForceOriginalQuantities(inputIngredients, ForceOriginalQuantities(inputIngredients, output))
         == ForceOriginalQuantities(inputIngredients, output)
  {
    var once := ForceOriginalQuantities(inputIngredients, output);
    var twice := ForceOriginalQuantities(inputIngredients, once);
    if |inputIngredients| == |output.translatedIngredients| {
      assert twice.translatedIngredients == once.translatedIngredients;
    }
  }

  /**
   * The translation flow, given what awaiting the prompt produced: a thrown
   * error propagates, a null output is the no-output error, and any other
   * output goes through the quantity safeguard.
   */
  function TranslateRecipeFlow(input: TranslateRecipeInput, call: ModelCall<TranslatedRecipeOutput>)
    : (r: Result<TranslatedRecipeOutput, ThrownError>)
    ensures call == Returned(None) ==> r == Failure(PlainError(NoOutputMessage))
    ensures call.Threw? ==> r == Failure(call.error)
    ensures call.Returned? && call.output.Some? ==>
      r == Success(ForceOriginalQuantities(input.recipeIngredients, call.output.value))
    ensures r.Success? ==>
      call.Returned? && call.output.Some? &&
      r.value.translatedTitle == call.output.value.translatedTitle &&
      |r.value.translatedIngredients| == |call.output.value.translatedIngredients|
    ensures r.Success? && |r.value.translatedIngredients| == |input.recipeIngredients| ==>
      forall i :: 0 <= i < |input.recipeIngredients| ==>
        r.value.translatedIngredients[i].quantity == input.recipeIngredients[i].quantity
  {
    match call
    case Threw(e) => Failure(e)
    case Returned(None) => Failure(PlainError(NoOutputMessage))
    case Returned(Some(output)) => Success(ForceOriginalQuantities(input.recipeIngredients, output))
  }
}
