/**
 * The home page: the current suggestions, the ingredient text they came
 * from, the loading flag and the error message, plus the one storage entry
 * that caches the most recent search. The handlers the form calls set or
 * clear these step by step; the render conditions choose the panel.
 */
module IngredientClientPage {
  import opened Wrappers
  import opened RecipeIdeas
  import opened Types
  import opened Actions
  import opened IngredientForm

  /** The storage key of the search cache. */
  const CurrentRecipeSearchKey := "flavorMind_currentRecipeSearch"

  /** What reading the cache entry yields: nothing, text that does not parse
      into an object, or an object whose `suggestions` may or may not be an
      array and whose `ingredients` may or may not be a string. */
  datatype StoredSearch =
    | NoSearch
    | Unparsable
    | SearchRecord(suggestions: Option<seq<RecipeSuggestion>>, ingredients: Option<string>)

  /** A cache entry the startup effect restores from. */
  predicate Restorable(stored: StoredSearch)
  {
    stored.SearchRecord? && stored.suggestions.Some? && stored.ingredients.Some?
  }

  /** The panels below the form. */
  datatype Panel = LoadingSkeleton | ErrorAlert | SuggestionList | EmptyHint

  /** The suggestions with ids: an existing non-empty id is kept, any other
      suggestion takes the fresh id drawn for its position. */
  function WithIds(suggestions: seq<RecipeSuggestion>, freshIds: seq<string>): (r: seq<RecipeSuggestion>)
    requires |freshIds| == |suggestions|
    ensures |r| == |suggestions|
    ensures forall i :: 0 <= i < |r| ==> r[i].recipe == suggestions[i].recipe
    ensures forall i :: 0 <= i < |r| && Truthy(suggestions[i].id) ==> r[i].id == suggestions[i].id
    ensures forall i :: 0 <= i < |r| && !Truthy(suggestions[i].id) ==> r[i].id == Some(freshIds[i])
  {
    seq(|suggestions|, i requires 0 <= i < |suggestions| =>
      if Truthy(suggestions[i].id) then suggestions[i] else suggestions[i].(id := Some(freshIds[i])))
  }

  /** When the fresh ids are non-empty, every suggestion ends up with an id. */
  lemma WithIdsIdentifiesAll(suggestions: seq<RecipeSuggestion>, freshIds: seq<string>)
    requires |freshIds| == |suggestions|
    requires forall i :: 0 <= i < |freshIds| ==> freshIds[i] != ""
    ensures forall i :: 0 <= i < |suggestions| ==> Truthy(WithIds(suggestions, freshIds)[i].id)
  {
  }

  class Page {
    var recipeSuggestions: seq<RecipeSuggestion>
    var userInputIngredients: string
    var isLoading: bool
    var error: Option<string>
    /** The cache entry under `CurrentRecipeSearchKey`. */
    var cache: StoredSearch

    /** The page's first render followed by its startup effect: a cache
        entry with an array of suggestions and a string of ingredients is
        restored; any other entry is removed and the state stays empty. */
    constructor (stored: StoredSearch)
      ensures !isLoading && error.None?
      ensures Restorable(stored) ==>
        recipeSuggestions == stored.suggestions.value &&
        userInputIngredients == stored.ingredients.value && cache == stored
      ensures !Restorable(stored) ==>
        recipeSuggestions == [] && userInputIngredients == "" && cache == NoSearch
    {
      recipeSuggestions := [];
      userInputIngredients := "";
      isLoading := false;
      error := None;
      cache := stored;
      match stored {
        case NoSearch =>
        case Unparsable =>
          cache := NoSearch;
        case SearchRecord(suggestions, ingredients) =>
          if suggestions.Some? && ingredients.Some? {
            recipeSuggestions := suggestions.value;
            userInputIngredients := ingredients.value;
          } else {
            cache := NoSearch;
          }
      }
    }

    /** `handleSuggestions`: show the suggestions (each given an id), record
        their ingredient text, clear the error and the loading flag, and
        cache the search. A failed cache write keeps the state as set. */
    method HandleSuggestions(suggestions: seq<RecipeSuggestion>, ingredients: string,
                             freshIds: seq<string>, writeOk: bool) returns (writeFailed: bool)
      requires |freshIds| == |suggestions|
      modifies this
      ensures recipeSuggestions == WithIds(suggestions, freshIds)
      ensures userInputIngredients == ingredients && error.None? && !isLoading
      ensures cache == (if writeOk then SearchRecord(Some(recipeSuggestions), Some(ingredients)) else old(cache))
      ensures writeFailed == !writeOk
    {
      var withIds := WithIds(suggestions, freshIds);
      recipeSuggestions := withIds;
      userInputIngredients := ingredients;
      error := None;
      isLoading := false;
      if writeOk {
        cache := SearchRecord(Some(withIds), Some(ingredients));
      }
      writeFailed := !writeOk;
    }

    /** `handleError`: show the message, drop the suggestions and their
        ingredient text, stop loading, and remove the cache entry. */
    method HandleError(message: string)
      modifies this
      ensures error == Some(message) && recipeSuggestions == [] && userInputIngredients == ""
      ensures !isLoading && cache == NoSearch
    {
      error := Some(message);
      recipeSuggestions := [];
      userInputIngredients := "";
      isLoading := false;
      cache := NoSearch;
    }

    /** `handleLoading`: set the loading flag; when loading starts, also
        clear the error, the suggestions, their ingredient text and the cache. */
    method HandleLoading(loading: bool)
      modifies this
      ensures isLoading == loading
      ensures loading ==> error.None? && recipeSuggestions == [] && userInputIngredients == "" && cache == NoSearch
      ensures !loading ==> error == old(error) && recipeSuggestions == old(recipeSuggestions) &&
                           userInputIngredients == old(userInputIngredients) && cache == old(cache)
    {
      isLoading := loading;
      if loading {
        error := None;
        recipeSuggestions := [];
        userInputIngredients := "";
        cache := NoSearch;
      }
    }

    /** `handleClearSuggestions`: clear the suggestions, their ingredient
        text, the error and the cache; the loading flag is left alone. */
    method HandleClearSuggestions()
      modifies this
      ensures recipeSuggestions == [] && userInputIngredients == "" && error.None? && cache == NoSearch
      ensures isLoading == old(isLoading)
    {
      recipeSuggestions := [];
      userInputIngredients := "";
      error := None;
      cache := NoSearch;
    }

    /** The panels rendered below the form, in render order. */
    function VisiblePanels(): (r: seq<Panel>)
      reads this
      ensures |r| <= 1
      ensures isLoading ==> r == [LoadingSkeleton]
      ensures LoadingSkeleton in r <==> isLoading
      ensures ErrorAlert in r <==> !isLoading && Truthy(error) && recipeSuggestions == []
      ensures SuggestionList in r <==> !isLoading && !Truthy(error) && recipeSuggestions != []
      ensures EmptyHint in r <==>
        !isLoading && !Truthy(error) && recipeSuggestions == [] && userInputIngredients == ""
    {
      (if isLoading then [LoadingSkeleton] else []) +
      (if !isLoading && Truthy(error) && |recipeSuggestions| == 0 then [ErrorAlert] else []) +
      (if !isLoading && !Truthy(error) && |recipeSuggestions| > 0 then [SuggestionList] else []) +
      (if !isLoading && !Truthy(error) && |recipeSuggestions| == 0 && userInputIngredients == "" then [EmptyHint] else [])
    }

    /** One callback call from the form, routed to the handler the page
        passes for it. */
    method Deliver(cb: Callback, freshIds: seq<string>, writeOk: bool)
      requires cb.OnSuggestions? ==> |freshIds| == |cb.suggestions|
      modifies this
      ensures cb.OnSuggestions? ==>
        recipeSuggestions == WithIds(cb.suggestions, freshIds) &&
        userInputIngredients == cb.ingredients && error.None? && !isLoading &&
        cache == (if writeOk then SearchRecord(Some(recipeSuggestions), Some(cb.ingredients)) else old(cache))
      ensures cb.OnError? ==>
        error == Some(cb.message) && recipeSuggestions == [] && userInputIngredients == "" &&
        !isLoading && cache == NoSearch
      ensures cb.OnLoading? ==> isLoading == cb.loading
      ensures cb.OnLoading? && cb.loading ==>
        error.None? && recipeSuggestions == [] && userInputIngredients == "" && cache == NoSearch
      ensures cb.OnLoading? && !cb.loading ==>
        error == old(error) && recipeSuggestions == old(recipeSuggestions) &&
        userInputIngredients == old(userInputIngredients) && cache == old(cache)
    {
      match cb {
        case OnSuggestions(suggestions, ingredients) =>
          var _ := HandleSuggestions(suggestions, ingredients, freshIds, writeOk);
        case OnError(message) =>
          HandleError(message);
        case OnLoading(loading) =>
          HandleLoading(loading);
      }
    }

    /**
     * The form's state effect end to end: the callbacks `Dispatch` chooses
     * for the action's state, delivered in order.
     */
    method ReceiveState(state: ActionState, textareaValue: string, freshIds: seq<string>, writeOk: bool)
      requires state.recipes.Some? ==> |freshIds| == |state.recipes.value|
      modifies this
      ensures state.recipes.Some? && state.recipes.value != [] ==>
        recipeSuggestions == WithIds(AsSuggestions(state.recipes.value), freshIds) &&
        userInputIngredients == textareaValue && error.None? && !isLoading &&
        SuggestionList in VisiblePanels()
      ensures state.recipes == Some([]) && Truthy(state.message) ==>
        error == state.message && recipeSuggestions == [] && cache == NoSearch &&
        VisiblePanels() == [ErrorAlert]
      ensures state.recipes == Some([]) && !Truthy(state.message) ==>
        recipeSuggestions == [] && userInputIngredients == textareaValue && error.None? && !isLoading
      ensures state.recipes.None? && Truthy(state.message) ==>
        error == Some(ErrorText(state)) && recipeSuggestions == [] && !isLoading && cache == NoSearch
      ensures state.recipes.None? && !Truthy(state.message) ==>
        recipeSuggestions == old(recipeSuggestions) && userInputIngredients == old(userInputIngredients) &&
        error == old(error) &&
        isLoading == old(isLoading) && cache == old(cache)
    {
      var cbs := Dispatch(state, textareaValue);
      if |cbs| >= 1 {
        Deliver(cbs[0], freshIds, writeOk);
      }
      if |cbs| == 2 {
        Deliver(cbs[1], freshIds, writeOk);
      }
    }
  }
}
