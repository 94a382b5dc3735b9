/**
 * The recipe view page: the recipe read from the URL, the ingredient text it
 * is based on, the "already saved" check, saving, translation and the
 * recipe actually displayed (the translated overlay unless the target is
 * the English sentinel).
 */
module RecipeView {
  import opened Wrappers
  import opened Genkit
  import opened RecipeIdeas
  import opened Types
  import opened TranslateRecipe
  import opened Actions
  import opened SavedRecipes

  /** The recipe in the URL: a suggestion, or a saved recipe (an object
      whose `createdAt` is a string). */
  datatype ViewRecipe = Suggested(suggestion: RecipeSuggestion) | Saved(saved: SavedRecipe)

  /** The `recipe` URL parameter: absent or empty, not valid JSON, or parsed. */
  datatype RecipeParam = NoParam | Unparsable | Parsed(recipe: ViewRecipe)

  /** The sentinel language that shows the original. */
  const English := "English"

  const UnknownTranslationError := "An unknown error occurred during translation."

  /** `isSavedRecipe`: the recipe carries a `createdAt` string. */
  predicate IsSavedRecipe(v: ViewRecipe)
  {
    v.Saved?
  }

  /** The generated recipe inside either kind of view recipe. */
  function Body(v: ViewRecipe): DetailedRecipe
  {
    match v
    case Suggested(s) => s.recipe
    case Saved(r) => r.recipe
  }

  /** The recipe as `handleSave` passes it to the store: a copy without
      `createdAt` and `userInputIngredients` (its id is kept). */
  function AsSuggestion(v: ViewRecipe): (s: RecipeSuggestion)
    ensures s.recipe == Body(v)
    ensures v.Saved? ==> s.id == Some(v.saved.id)
    ensures v.Suggested? ==> s == v.suggestion
  {
    match v
    case Suggested(s) => s
    case Saved(r) => RecipeSuggestion(r.recipe, Some(r.id))
  }

  /** The ingredient text the load effect records: the URL parameter when
      it is non-empty, else a saved recipe's own text, else nothing. */
  function InitialIngredients(ingredientsParam: Option<string>, v: ViewRecipe): (r: Option<string>)
    ensures Truthy(ingredientsParam) ==> r == ingredientsParam
    ensures !Truthy(ingredientsParam) && v.Saved? ==> r == Some(v.saved.userInputIngredients)
    ensures !Truthy(ingredientsParam) && v.Suggested? ==> r.None?
  {
    if Truthy(ingredientsParam) then ingredientsParam
    else if IsSavedRecipe(v) then Some(v.saved.userInputIngredients)
    else None
  }

  /** The ingredient text the saved check compares against. */
  function CurrentIngredients(userInputIngredients: Option<string>, v: ViewRecipe): (r: string)
    ensures Truthy(userInputIngredients) ==> r == userInputIngredients.value
    ensures !Truthy(userInputIngredients) && v.Saved? ==> r == v.saved.userInputIngredients
    ensures !Truthy(userInputIngredients) && v.Suggested? ==> r == ""
  {
    if Truthy(userInputIngredients) then userInputIngredients.value
    else if IsSavedRecipe(v) then v.saved.userInputIngredients
    else ""
  }

  /** The saved-check effect: some stored entry has the recipe's title and
      the current ingredient text. */
  function SavedCheck(saved: seq<SavedRecipe>, v: ViewRecipe, userInputIngredients: Option<string>): (b: bool)
    ensures b <==> HasKey(saved, (Body(v).title, CurrentIngredients(userInputIngredients, v)))
  {
    exists i :: 0 <= i < |saved| && saved[i].recipe.title == Body(v).title &&
                saved[i].userInputIngredients == CurrentIngredients(userInputIngredients, v)
  }

  /** `handleSave` saves something exactly in these cases. */
  predicate CanSave(v: ViewRecipe, userInputIngredients: Option<string>)
  {
    Truthy(userInputIngredients) || IsSavedRecipe(v)
  }

  /** After a save, the saved check holds, whether or not the store already
      had the recipe. */
  lemma {:induction false} SaveMarksSaved(saved: seq<SavedRecipe>, v: ViewRecipe, userInputIngredients: Option<string>,
                                          freshId: string, createdAt: string)
    requires CanSave(v, userInputIngredients)
    ensures SavedCheck(WithRecipe(saved, AsSuggestion(v), CurrentIngredients(userInputIngredients, v), freshId, createdAt),
                       v, userInputIngredients)
  {
    var after := WithRecipe(saved, AsSuggestion(v), CurrentIngredients(userInputIngredients, v), freshId, createdAt);
    assert HasKey(after, (AsSuggestion(v).recipe.title, CurrentIngredients(userInputIngredients, v)));
  }

  /** The data sent for translation: the recipe's text fields, with absent
      tags sent as an empty list. */
  function TranslationRequest(v: ViewRecipe): (d: RecipeTextData)
    ensures d.recipeTitle == Body(v).title && d.recipeDescription == Some(Body(v).description)
    ensures d.recipeIngredients == Body(v).ingredients && d.recipeInstructions == Body(v).instructions
    ensures d.recipeTags == Some(if Body(v).tags.Some? then Body(v).tags.value else [])
  {
    var b := Body(v);
    RecipeTextData(b.title, Some(b.description), b.ingredients, b.instructions,
                   Some(if b.tags.Some? then b.tags.value else []))
  }

  /** The fields the page renders. */
  datatype DisplayedRecipe = DisplayedRecipe(
    title: string,
    description: Option<string>,
    ingredients: seq<Ingredient>,
    instructions: seq<string>,
    tags: Option<seq<string>>,
    prepTime: Option<string>,
    cookTime: Option<string>,
    totalTime: Option<string>,
    servingSize: Option<string>,
    cuisine: Option<string>,
    difficulty: Option<string>)

  /** A recipe's fields as rendered, untranslated. */
  function Untranslated(b: DetailedRecipe): DisplayedRecipe
  {
    DisplayedRecipe(b.title, Some(b.description), b.ingredients, b.instructions, b.tags,
                    b.prepTime, b.cookTime, b.totalTime, b.servingSize, b.cuisine, b.difficulty)
  }

  /** The translation overlaid on the original: the translated text fields,
      and the original's other fields (none when there is no original). */
  function Overlay(original: Option<ViewRecipe>, t: TranslatedRecipeOutput): (d: DisplayedRecipe)
    ensures d.title == t.translatedTitle && d.description == t.translatedDescription
    ensures d.ingredients == t.translatedIngredients && d.instructions == t.translatedInstructions
    ensures d.tags == t.translatedTags
    ensures original.Some? ==>
      var u := Untranslated(Body(original.value));
      d.(title := u.title, description := u.description, ingredients := u.ingredients,
         instructions := u.instructions, tags := u.tags) == u
    ensures original.None? ==>
      d.prepTime.None? && d.cookTime.None? && d.totalTime.None? &&
      d.servingSize.None? && d.cuisine.None? && d.difficulty.None?
  {
    var none: Option<string> := None;
    var base := if original.Some? then Untranslated(Body(original.value))
                else DisplayedRecipe("", None, [], [], None, none, none, none, none, none, none);
    base.(title := t.translatedTitle, description := t.translatedDescription,
          ingredients := t.translatedIngredients, instructions := t.translatedInstructions,
          tags := t.translatedTags)
  }

  /** `recipeToDisplay`. */
  function RecipeToDisplay(original: Option<ViewRecipe>, translated: Option<TranslatedRecipeOutput>,
                           targetLanguage: string): (d: Option<DisplayedRecipe>)
    ensures translated.None? || targetLanguage == English ==>
      d == (if original.Some? then Some(Untranslated(Body(original.value))) else None)
    ensures translated.Some? && targetLanguage != English ==>
      var t := translated.value;
      d.Some? && d.value.title == t.translatedTitle && d.value.description == t.translatedDescription &&
      d.value.ingredients == t.translatedIngredients && d.value.instructions == t.translatedInstructions &&
      d.value.tags == t.translatedTags
    ensures translated.Some? && targetLanguage != English && original.Some? ==>
      var b := Body(original.value);
      d.value.prepTime == b.prepTime && d.value.cookTime == b.cookTime && d.value.totalTime == b.totalTime &&
      d.value.servingSize == b.servingSize && d.value.cuisine == b.cuisine && d.value.difficulty == b.difficulty
  {
    if translated.Some? && targetLanguage != English then Some(Overlay(original, translated.value))
    else if original.Some? then Some(Untranslated(Body(original.value)))
    else None
  }

  /**
   * A translation received for a recipe shows that recipe's quantities
   * whenever the model returned as many ingredients as were sent.
   */
  lemma {:induction false} DisplayedQuantitiesAreOriginal(v: ViewRecipe, targetLanguage: string,
                                                         translation: ModelCall<TranslatedRecipeOutput>)
    requires targetLanguage != English
    requires TranslateRecipeAction(Some(TranslationRequest(v)), targetLanguage, translation).translatedContent.Some?
    ensures var t := TranslateRecipeAction(Some(TranslationRequest(v)), targetLanguage, translation).translatedContent;
      var d := RecipeToDisplay(Some(v), t, targetLanguage).value;
      |t.value.translatedIngredients| == |Body(v).ingredients| ==>
        |d.ingredients| == |Body(v).ingredients| &&
        forall i :: 0 <= i < |d.ingredients| ==> d.ingredients[i].quantity == Body(v).ingredients[i].quantity
  {
    TranslatedQuantitiesPreserved(TranslationRequest(v), targetLanguage, translation);
  }

  /** The view page's state. */
  class Page {
    var originalRecipe: Option<ViewRecipe>
    var userInputIngredients: Option<string>
    var isLoadingRecipe: bool
    var targetLanguage: string
    var translatedContent: Option<TranslatedRecipeOutput>
    var isTranslating: bool
    var translationError: Option<string>

    /** The first render followed by the load effect over the URL parameters. */
    constructor (recipeParam: RecipeParam, ingredientsParam: Option<string>)
      ensures recipeParam.Parsed? ==>
        originalRecipe == Some(recipeParam.recipe) &&
        userInputIngredients == InitialIngredients(ingredientsParam, recipeParam.recipe)
      ensures !recipeParam.Parsed? ==> originalRecipe.None? && userInputIngredients.None?
      ensures !isLoadingRecipe && targetLanguage == English
      ensures translatedContent.None? && !isTranslating && translationError.None?
    {
      originalRecipe := None;
      userInputIngredients := None;
      targetLanguage := English;
      translatedContent := None;
      isTranslating := false;
      translationError := None;
      if recipeParam.Parsed? {
        originalRecipe := Some(recipeParam.recipe);
        if Truthy(ingredientsParam) {
          userInputIngredients := ingredientsParam;
        } else if IsSavedRecipe(recipeParam.recipe) {
          userInputIngredients := Some(recipeParam.recipe.saved.userInputIngredients);
        }
      }
      isLoadingRecipe := false;
    }

    /** The language selector. */
    method SetTargetLanguage(language: string)
      modifies this`targetLanguage
      ensures targetLanguage == language
    {
      targetLanguage := language;
    }

    /** `isRecipeSaved`, as the saved-check effect sets it against the store. */
    function IsRecipeSaved(saved: seq<SavedRecipe>): (b: bool)
      reads this
      ensures b <==> (originalRecipe.Some? &&
                      HasKey(saved, (Body(originalRecipe.value).title,
                                     CurrentIngredients(userInputIngredients, originalRecipe.value))))
    {
      originalRecipe.Some? && SavedCheck(saved, originalRecipe.value, userInputIngredients)
    }

    /**
     * `handleSave`: with a non-empty ingredient text, the recipe (stripped
     * of its saved-only fields) is added under that text; otherwise a saved
     * recipe is added again under its own text; otherwise nothing happens.
     */
    method HandleSave(store: SavedRecipeStore, freshId: string, createdAt: string, writeOk: bool)
      modifies store`savedRecipes, store`storage
      ensures originalRecipe.Some? && CanSave(originalRecipe.value, userInputIngredients) ==>
        store.savedRecipes == WithRecipe(old(store.savedRecipes), AsSuggestion(originalRecipe.value),
                                         CurrentIngredients(userInputIngredients, originalRecipe.value),
                                         freshId, createdAt) &&
        IsRecipeSaved(store.savedRecipes)
      ensures originalRecipe.Some? && CanSave(originalRecipe.value, userInputIngredients) ==>
        var key := (Body(originalRecipe.value).title, CurrentIngredients(userInputIngredients, originalRecipe.value));
        store.storage == (if HasKey(old(store.savedRecipes), key) || !writeOk then old(store.storage)
                          else Holds(store.savedRecipes))
      ensures !(originalRecipe.Some? && CanSave(originalRecipe.value, userInputIngredients)) ==>
        store.savedRecipes == old(store.savedRecipes) && store.storage == old(store.storage)
    {
      if originalRecipe.Some? && Truthy(userInputIngredients) {
        var _, _ := store.AddRecipe(AsSuggestion(originalRecipe.value), userInputIngredients.value,
                                    freshId, createdAt, writeOk);
      } else if originalRecipe.Some? && IsSavedRecipe(originalRecipe.value) {
        var r := originalRecipe.value.saved;
        var _, _ := store.AddRecipe(AsSuggestion(originalRecipe.value), r.userInputIngredients,
                                    freshId, createdAt, writeOk);
      }
      if originalRecipe.Some? && CanSave(originalRecipe.value, userInputIngredients) {
        SaveMarksSaved(old(store.savedRecipes), originalRecipe.value, userInputIngredients, freshId, createdAt);
      }
    }

    /**
     * `handleTranslate`, given what awaiting the translation prompt
     * produced. Without a recipe, or with an empty or English target, the
     * translation and the error are cleared and the action is not called.
     * Otherwise the action's result becomes either the error or the
     * translated content; an action result that has neither (an empty
     * error message) becomes the unknown-error message.
     */
    method HandleTranslate(translation: ModelCall<TranslatedRecipeOutput>)
      modifies this`isTranslating, this`translationError, this`translatedContent
      ensures originalRecipe.None? || targetLanguage == "" || targetLanguage == English ==>
        translatedContent.None? && translationError.None? && isTranslating == old(isTranslating)
      ensures originalRecipe.Some? && targetLanguage != "" && targetLanguage != English ==>
        var result := TranslateRecipeAction(Some(TranslationRequest(originalRecipe.value)), targetLanguage, translation);
        !isTranslating &&
        translatedContent.Some? != translationError.Some? &&
        (translatedContent.Some? ==> translatedContent == result.translatedContent) &&
        (Truthy(result.error) ==> translationError == result.error && translatedContent.None?) &&
        (result.error.None? ==> translatedContent == result.translatedContent && translationError.None?) &&
        (result.error == Some("") ==> translationError == Some(UnknownTranslationError))
    {
      if originalRecipe.None? || targetLanguage == "" || targetLanguage == English {
        translatedContent := None;
        translationError := None;
        return;
      }
      isTranslating := true;
      translationError := None;
      translatedContent := None;
      var data := TranslationRequest(originalRecipe.value);
      var result := TranslateRecipeAction(Some(data), targetLanguage, translation);
      isTranslating := false;
      if Truthy(result.error) {
        translationError := result.error;
      } else if result.translatedContent.Some? {
        translatedContent := result.translatedContent;
      } else {
        translationError := Some(UnknownTranslationError);
      }
    }
  }
}
