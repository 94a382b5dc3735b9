/**
 * The two server actions: recipe suggestion (input validation, the three
 * outcomes of generation and the choice of error message) and recipe
 * translation (input guard, outcome and choice of error message).
 */
module Actions {
  import opened Wrappers
  import opened Genkit
  import opened RecipeIdeas
  import opened TranslateRecipe

  /** A field-keyed error map: `_form` and `ingredients` message lists. */
  datatype FieldErrors = FieldErrors(form: Option<seq<string>>, ingredients: Option<seq<string>>)

  /** The state the suggestion action returns to the form (its
      `translatedContent` is always null and is not modelled). */
  datatype ActionState = ActionState(
    message: Option<string>,
    recipes: Option<seq<DetailedRecipe>>,
    errors: Option<FieldErrors>)

  const ValidationFailed := "Validation failed"
  const RecipesGenerated := "Recipes generated successfully"
  const NoRecipesFound := "No recipes found for these ingredients."
  const GenerationFailed := "Failed to generate recipes. Please try again."

  /** The ingredients schema: a string of at least three characters. Nothing
      is trimmed. `None` stands for a form value that is not a string. */
  predicate IngredientsValid(ingredients: Option<string>)
  {
    ingredients.Some? && |ingredients.value| >= 3
  }

  /** The user-facing message for an error thrown by the generation flow. */
  function GenerationErrorMessage(e: ThrownError): (m: string)
    ensures m == "" ==> e.PlainError? && e.message == ""
    ensures !e.PlainError? ==> m == GenerationFailed || (|m| >= 27 && m[..27] == "Recipe generation stopped: ")
  {
    match e
    case DetailedError(_, reason) =>
      if Truthy(reason) then
        "Recipe generation stopped: " + reason.value + ". Please try different ingredients or simplify your request."
      else GenerationFailed
    case PlainError(message) => message
    case NonError => GenerationFailed
  }

  /**
   * `getRecipeSuggestionsAction`. `fieldErrors` is what the schema library
   * reports for a rejected value; `generation` is what awaiting the prompt
   * produced (it is consulted only when the input is valid).
   */
  function GetRecipeSuggestionsAction(
    ingredients: Option<string>, fieldErrors: FieldErrors, generation: ModelCall<GenerateRecipeIdeasOutput>)
    : (r: ActionState)
    // Rejected input: fixed message, schema errors, no recipes; the model's result plays no part.
    ensures !IngredientsValid(ingredients) ==>
      r == ActionState(Some(ValidationFailed), None, Some(fieldErrors))
    // Recipes: exactly the model's non-empty list, in order.
    ensures r.recipes.Some? && r.recipes.value != [] <==>
      IngredientsValid(ingredients) && generation.Returned? && generation.output.Some? &&
      generation.output.value.recipes != []
    ensures r.recipes.Some? && r.recipes.value != [] ==>
      r.recipes.value == generation.output.value.recipes &&
      r.message == Some(RecipesGenerated) && r.errors.None?
    // Empty: a null output or an empty list.
    ensures r.recipes == Some([]) <==>
      IngredientsValid(ingredients) && generation.Returned? &&
      (generation.output.None? || generation.output.value.recipes == [])
    ensures r.recipes == Some([]) ==> r.message == Some(NoRecipesFound) && r.errors.None?
    // Error: the thrown error's message, also as the single `_form` error.
    ensures IngredientsValid(ingredients) && generation.Threw? ==>
      var m := GenerationErrorMessage(generation.error);
      r == ActionState(Some(m), None, Some(FieldErrors(Some([m]), None)))
  {
    if !IngredientsValid(ingredients) then
      ActionState(Some(ValidationFailed), None, Some(fieldErrors))
    else
      match GenerateRecipeIdeasFlow(GenerateRecipeIdeasInput(ingredients.value), generation)
      case Success(result) =>
        if |result.recipes| > 0 then ActionState(Some(RecipesGenerated), Some(result.recipes), None)
        else ActionState(Some(NoRecipesFound), Some([]), None)
      case Failure(e) =>
        var m := GenerationErrorMessage(e);
        ActionState(Some(m), None, Some(FieldErrors(Some([m]), None)))
  }

  /** A length check without trimming: three spaces pass, two characters do not. */
  lemma NoTrimming()
    ensures IngredientsValid(Some("   "))
    ensures !IngredientsValid(Some("ab"))
    ensures !IngredientsValid(None)
  {
  }

  /** A generation error with a finish reason names that reason; one without
      falls back to the generic message; a plain error keeps its own message. */
  lemma GenerationErrorMessageCases(e: ThrownError)
    ensures e.DetailedError? && Truthy(e.finishReason) ==>
      GenerationErrorMessage(e)[..27] == "Recipe generation stopped: " &&
      GenerationErrorMessage(e)[27..27 + |e.finishReason.value|] == e.finishReason.value
    ensures e.DetailedError? && !Truthy(e.finishReason) ==> GenerationErrorMessage(e) == GenerationFailed
    ensures e.PlainError? ==> GenerationErrorMessage(e) == e.message
    ensures e.NonError? ==> GenerationErrorMessage(e) == GenerationFailed
  {
  }

  /** The recipe data the translation action receives: the translation
      input without its target language. */
  datatype RecipeTextData = RecipeTextData(
    recipeTitle: string,
    recipeDescription: Option<string>,
    recipeIngredients: seq<Ingredient>,
    recipeInstructions: seq<string>,
    recipeTags: Option<seq<string>>)

  /** What the translation action returns. */
  datatype TranslateActionResult = TranslateActionResult(
    translatedContent: Option<TranslatedRecipeOutput>,
    error: Option<string>)

  const MissingInput := "Missing recipe data or target language."
  const TranslationFailed := "Failed to translate recipe. Please try again."
  const SafetyBlocked := "Translation was blocked due to safety settings. The content might be sensitive."

  /** The translation input built from the recipe data and the language. */
  function WithLanguage(data: RecipeTextData, targetLanguage: string): TranslateRecipeInput
  {
    TranslateRecipeInput(data.recipeTitle, data.recipeDescription, data.recipeIngredients,
                         data.recipeInstructions, data.recipeTags, targetLanguage)
  }

  /** The user-facing message for an error thrown by the translation flow. */
  function TranslationErrorMessage(e: ThrownError): (m: string)
    ensures m == "" ==> e.PlainError? && e.message == ""
    ensures !e.PlainError? ==> m in {SafetyBlocked, TranslationFailed} || (|m| >= 19 && m[..19] == "Translation error: ")
  {
    match e
    case DetailedError(message, reason) =>
      if reason == Some("SAFETY") then SafetyBlocked
      else if message != "" then "Translation error: " + message
      else TranslationFailed
    case PlainError(message) => message
    case NonError => TranslationFailed
  }

  /**
   * `translateRecipeAction`. `data` is `None` when no recipe data is
   * passed; `translation` is what awaiting the prompt produced (consulted
   * only when the guard passes).
   */
  function TranslateRecipeAction(
    data: Option<RecipeTextData>, targetLanguage: string, translation: ModelCall<TranslatedRecipeOutput>)
    : (r: TranslateActionResult)
    ensures r.translatedContent.Some? != r.error.Some?
    ensures data.None? || targetLanguage == "" ==> r == TranslateActionResult(None, Some(MissingInput))
    ensures data.Some? && targetLanguage != "" ==>
      match translation
      case Returned(Some(output)) =>
        r.translatedContent == Some(ForceOriginalQuantities(data.value.recipeIngredients, output))
      case Returned(None) => r.error == Some(NoOutputMessage)
      case Threw(e) => r.error == Some(TranslationErrorMessage(e))
  {
    if data.None? || targetLanguage == "" then
      TranslateActionResult(None, Some(MissingInput))
    else
      match TranslateRecipeFlow(WithLanguage(data.value, targetLanguage), translation)
      case Success(content) => TranslateActionResult(Some(content), None)
      case Failure(e) => TranslateActionResult(None, Some(TranslationErrorMessage(e)))
  }

  /** A safety stop gets the safety message, another detailed error is
      prefixed with "Translation error: ", a plain error keeps its message. */
  lemma TranslationErrorMessageCases(e: ThrownError)
    ensures e.DetailedError? && e.finishReason == Some("SAFETY") ==> TranslationErrorMessage(e) == SafetyBlocked
    ensures e.DetailedError? && e.finishReason != Some("SAFETY") && e.message != "" ==>
      TranslationErrorMessage(e) == "Translation error: " + e.message
    ensures e.DetailedError? && e.finishReason != Some("SAFETY") && e.message == "" ==>
      TranslationErrorMessage(e) == TranslationFailed
    ensures e.PlainError? ==> TranslationErrorMessage(e) == e.message
    ensures e.NonError? ==> TranslationErrorMessage(e) == TranslationFailed
  {
  }

  /**
   * Whatever the model returns, translated content whose ingredient list is
   * as long as the original's carries the original quantities, index by index.
   */
  lemma {:induction false} TranslatedQuantitiesPreserved(
    data: RecipeTextData, targetLanguage: string, translation: ModelCall<TranslatedRecipeOutput>)
    requires TranslateRecipeAction(Some(data), targetLanguage, translation).translatedContent.Some?
    ensures var t := TranslateRecipeAction(Some(data), targetLanguage, translation).translatedContent.value;
      |t.translatedIngredients| == |data.recipeIngredients| ==>
        forall i :: 0 <= i < |t.translatedIngredients| ==>
          t.translatedIngredients[i].quantity == data.recipeIngredients[i].quantity
  {
    var output := translation.output.value;
    assert TranslateRecipeAction(Some(data), targetLanguage, translation).translatedContent
        == Some(ForceOriginalQuantities(data.recipeIngredients, output));
  }
}
