/**
 * The saved-recipes page: a case-insensitive search over the saved list
 * and the choice between the empty-store panel, the no-match panel and the
 * recipe grid.
 */
module MyRecipes {
  import opened Wrappers
  import opened RecipeIdeas
  import opened Types
  import opened Collections

  /** Lower-casing of one character (ASCII letters only). */
  function LowerChar(c: char): (d: char)
    ensures 'A' <= c <= 'Z' ==> 'a' <= d <= 'z' && d as int - 'a' as int == c as int - 'A' as int
    ensures !('A' <= c <= 'Z') ==> d == c
  {
    if 'A' <= c <= 'Z' then (c as int - 'A' as int + 'a' as int) as char else c
  }

  /** `String.prototype.toLowerCase`. */
  function ToLower(s: string): (r: string)
    ensures |r| == |s|
    ensures forall i :: 0 <= i < |s| ==> r[i] == LowerChar(s[i])
  {
    seq(|s|, i requires 0 <= i < |s| => LowerChar(s[i]))
  }

  /** `needle` occurs in `haystack` starting at index `i`. */
  predicate OccursAt(haystack: string, needle: string, i: int)
  {
    0 <= i && i + |needle| <= |haystack| && haystack[i..i + |needle|] == needle
  }

  /** `String.prototype.includes`. */
  predicate Includes(haystack: string, needle: string)
  {
    exists i :: 0 <= i <= |haystack| - |needle| && OccursAt(haystack, needle, i)
  }

  /** Some tag contains the (lower-cased) term. */
  predicate SomeTagMatches(tags: seq<string>, term: string)
  {
    exists k :: 0 <= k < |tags| && Includes(ToLower(tags[k]), term)
  }

  /** The search predicate for a lower-cased, non-empty term: title,
      description, ingredient text, some tag or cuisine contains it. An
      absent (or empty) description, tag list or cuisine does not match. */
  predicate Matches(r: SavedRecipe, term: string)
  {
    Includes(ToLower(r.recipe.title), term)
    || (r.recipe.description != "" && Includes(ToLower(r.recipe.description), term))
    || Includes(ToLower(r.userInputIngredients), term)
    || (r.recipe.tags.Some? && SomeTagMatches(r.recipe.tags.value, term))
    || (Truthy(r.recipe.cuisine) && Includes(ToLower(r.recipe.cuisine.value), term))
  }

  /** `filteredRecipes`: the whole list for an empty term, else the recipes
      that match the lower-cased term, in order. */
  function FilterRecipes(saved: seq<SavedRecipe>, searchTerm: string): (r: seq<SavedRecipe>)
    ensures searchTerm == "" ==> r == saved
    ensures |r| <= |saved|
  {
    if searchTerm == "" then saved
    else
      var term := ToLower(searchTerm);
      Filter(saved, (x: SavedRecipe) => Matches(x, term))
  }

  /** The result keeps the saved order, and a recipe is kept exactly when
      it matches the lower-cased term. */
  lemma FilterRecipesSpec(saved: seq<SavedRecipe>, searchTerm: string)
    requires searchTerm != ""
    ensures SubsequenceOf(FilterRecipes(saved, searchTerm), saved)
    ensures forall i :: 0 <= i < |saved| ==>
      (saved[i] in FilterRecipes(saved, searchTerm) <==> Matches(saved[i], ToLower(searchTerm)))
    ensures forall x :: x in FilterRecipes(saved, searchTerm) ==> x in saved && Matches(x, ToLower(searchTerm))
    ensures forall x :: multiset(FilterRecipes(saved, searchTerm))[x] ==
                        if Matches(x, ToLower(searchTerm)) then multiset(saved)[x] else 0
  {
    var term := ToLower(searchTerm);
    FilterIsSubsequence(saved, (x: SavedRecipe) => Matches(x, term));
    FilterCounts(saved, (x: SavedRecipe) => Matches(x, term));
  }

  /** Filtering the filtered list with the same term changes nothing. */
  lemma FilterRecipesIdempotent(saved: seq<SavedRecipe>, searchTerm: string)
    ensures FilterRecipes(FilterRecipes(saved, searchTerm), searchTerm) == FilterRecipes(saved, searchTerm)
  {
    if searchTerm != "" {
      var term := ToLower(searchTerm);
      FilterIdempotent(saved, (x: SavedRecipe) => Matches(x, term));
    }
  }

  /** A recipe with no description text, no tags and no cuisine matches
      through its title or ingredient text only. */
  lemma AbsentFieldsNeverMatch(r: SavedRecipe, term: string)
    requires r.recipe.description == "" && r.recipe.tags.None? && r.recipe.cuisine.None?
    ensures Matches(r, term) <==>
      Includes(ToLower(r.recipe.title), term) || Includes(ToLower(r.userInputIngredients), term)
  {
  }

  /** The search matches without regard to the case of ASCII letters. */
  lemma SearchIgnoresCase(saved: seq<SavedRecipe>, a: string, b: string)
    requires ToLower(a) == ToLower(b) && a != "" && b != ""
    ensures FilterRecipes(saved, a) == FilterRecipes(saved, b)
  {
  }

  /** What the page shows. */
  datatype View = LoadingSkeletons | EmptyState | NoMatches | Grid(recipes: seq<SavedRecipe>)

  /** The page's choice of panel. */
  function SelectView(isLoading: bool, saved: seq<SavedRecipe>, searchTerm: string): (v: View)
    ensures isLoading <==> v == LoadingSkeletons
    ensures !isLoading && saved == [] ==> v == EmptyState
    ensures v == NoMatches ==> searchTerm != "" && saved != [] && FilterRecipes(saved, searchTerm) == []
    ensures v.Grid? ==> v.recipes == FilterRecipes(saved, searchTerm) && v.recipes != []
    ensures v == EmptyState ==> !isLoading && saved == []
    ensures !isLoading && saved != [] ==> (v == NoMatches <==> FilterRecipes(saved, searchTerm) == [])
    ensures !isLoading && FilterRecipes(saved, searchTerm) != [] ==> v == Grid(FilterRecipes(saved, searchTerm))
  {
    if isLoading then LoadingSkeletons
    else if |saved| == 0 then EmptyState
    else
      var filtered := FilterRecipes(saved, searchTerm);
      if |filtered| == 0 && searchTerm != "" then NoMatches
      else Grid(filtered)
  }
}
