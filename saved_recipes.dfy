/**
 * The saved-recipe store: an in-memory list of saved recipes and a persisted
 * copy of it (the browser storage entry the store owns). Adding is idempotent
 * on the logical key (title, ingredient text); removing filters out every
 * entry with the given id; every mutation writes the whole list back.
 */
module SavedRecipes {
  import opened Wrappers
  import opened RecipeIdeas
  import opened Types
  import opened Collections

  /** The storage key the store owns. */
  const LocalStorageKey := "flavorMind_savedRecipes"

  /** What reading the storage entry yields: nothing (or an empty string),
      text that does not parse, or a parsed list. */
  datatype StoredValue = Missing | Corrupt | Holds(recipes: seq<SavedRecipe>)

  /** Some entry has the logical key `key`. */
  predicate HasKey(list: seq<SavedRecipe>, key: (string, string))
  {
    exists i :: 0 <= i < |list| && Key(list[i]) == key
  }

  /** No two entries share a logical key. */
  ghost predicate UniqueKeys(list: seq<SavedRecipe>)
  {
    forall i, j :: 0 <= i < j < |list| ==> Key(list[i]) != Key(list[j])
  }

  /** No two entries share an id. */
  ghost predicate UniqueIds(list: seq<SavedRecipe>)
  {
    forall i, j :: 0 <= i < j < |list| ==> list[i].id != list[j].id
  }

  /** The entry `addRecipe` builds: the recipe's fields, its own id when it
      has a non-empty one (else the fresh id), the ingredient text and the
      timestamp. */
  function NewSavedRecipe(recipe: RecipeSuggestion, ingredients: string, freshId: string, createdAt: string)
    : (s: SavedRecipe)
    ensures s.recipe == recipe.recipe
    ensures Key(s) == (recipe.recipe.title, ingredients)
    ensures s.createdAt == createdAt
    ensures Truthy(recipe.id) ==> s.id == recipe.id.value
    ensures !Truthy(recipe.id) ==> s.id == freshId
  {
    SavedRecipe(recipe.recipe, if Truthy(recipe.id) then recipe.id.value else freshId, ingredients, createdAt)
  }

  /** The list after `addRecipe`: unchanged when the key is present, else
      the new entry appended. */
  function WithRecipe(list: seq<SavedRecipe>, recipe: RecipeSuggestion, ingredients: string,
                      freshId: string, createdAt: string): (r: seq<SavedRecipe>)
    ensures HasKey(r, (recipe.recipe.title, ingredients))
    ensures HasKey(list, (recipe.recipe.title, ingredients)) ==> r == list
    ensures !HasKey(list, (recipe.recipe.title, ingredients)) ==>
      |r| == |list| + 1 && r[..|list|] == list && r[|list|] == NewSavedRecipe(recipe, ingredients, freshId, createdAt)
  {
    var entry := NewSavedRecipe(recipe, ingredients, freshId, createdAt);
    if HasKey(list, Key(entry)) then list
    else
      var r := list + [entry];
      assert Key(r[|list|]) == Key(entry);
      r
  }

  /** The list after `removeRecipe`: every entry whose id differs, in order. */
  function WithoutId(list: seq<SavedRecipe>, id: string): (r: seq<SavedRecipe>)
    ensures |r| <= |list|
    ensures forall i :: 0 <= i < |r| ==> r[i] in list && r[i].id != id
    ensures forall i :: 0 <= i < |list| && list[i].id != id ==> list[i] in r
  {
    Filter(list, (e: SavedRecipe) => e.id != id)
  }

  /** `getRecipeById` on a list: the first entry with that id. */
  function FindById(list: seq<SavedRecipe>, id: string): (r: Option<SavedRecipe>)
    ensures r.Some? ==> exists i :: 0 <= i < |list| && list[i] == r.value && r.value.id == id &&
                                    forall j :: 0 <= j < i ==> list[j].id != id
    ensures r.None? <==> forall i :: 0 <= i < |list| ==> list[i].id != id
  {
    var p := (e: SavedRecipe) => e.id == id;
    var r := Find(list, p);
    assert r.Some? ==> p(r.value);
    r
  }

  /** Adding a recipe whose key is already stored, whatever id or timestamp
      the second call is given, leaves the list as the first call left it. */
  lemma AddTwiceIsAddOnce(list: seq<SavedRecipe>, recipe: RecipeSuggestion, ingredients: string,
                          id1: string, at1: string, other: RecipeSuggestion, id2: string, at2: string)
    requires other.recipe.title == recipe.recipe.title
    ensures var once := WithRecipe(list, recipe, ingredients, id1, at1);
            WithRecipe(once, other, ingredients, id2, at2) == once
  {
  }

  /** Adding keeps the logical keys unique. */
  lemma {:induction false} AddKeepsKeysUnique(list: seq<SavedRecipe>, recipe: RecipeSuggestion,
                                              ingredients: string, freshId: string, createdAt: string)
    requires UniqueKeys(list)
    ensures UniqueKeys(WithRecipe(list, recipe, ingredients, freshId, createdAt))
  {
    var key := (recipe.recipe.title, ingredients);
    if !HasKey(list, key) {
      var r := WithRecipe(list, recipe, ingredients, freshId, createdAt);
      forall i, j | 0 <= i < j < |r| ensures Key(r[i]) != Key(r[j]) {
        if j == |list| {
          assert r[i] == list[i];
        } else {
          assert r[i] == list[i] && r[j] == list[j];
        }
      }
    }
  }

  /** Adding with an id not yet in the list keeps the ids unique. */
  lemma {:induction false} AddFreshIdKeepsIdsUnique(list: seq<SavedRecipe>, recipe: RecipeSuggestion,
                                                    ingredients: string, freshId: string, createdAt: string)
    requires UniqueIds(list)
    requires forall i :: 0 <= i < |list| ==> list[i].id != NewSavedRecipe(recipe, ingredients, freshId, createdAt).id
    ensures UniqueIds(WithRecipe(list, recipe, ingredients, freshId, createdAt))
  {
    var r := WithRecipe(list, recipe, ingredients, freshId, createdAt);
    if r != list {
      forall i, j | 0 <= i < j < |r| ensures r[i].id != r[j].id {
        assert r[i] == list[i];
        if j < |list| { assert r[j] == list[j]; }
      }
    }
  }

  /** Removal keeps exactly the entries with a different id, in order, and
      afterwards no entry has the id. */
  lemma RemoveSpec(list: seq<SavedRecipe>, id: string)
    ensures SubsequenceOf(WithoutId(list, id), list)
    ensures forall i :: 0 <= i < |list| && list[i].id != id ==> list[i] in WithoutId(list, id)
    ensures forall e :: e in WithoutId(list, id) ==> e in list && e.id != id
    ensures forall e :: multiset(WithoutId(list, id))[e] == if e.id != id then multiset(list)[e] else 0
    ensures FindById(WithoutId(list, id), id).None?
  {
    FilterIsSubsequence(list, (e: SavedRecipe) => e.id != id);
    FilterCounts(list, (e: SavedRecipe) => e.id != id);
  }

  /** Removing an id that no entry carries leaves the list unchanged. */
  lemma RemoveAbsentIsNoOp(list: seq<SavedRecipe>, id: string)
    requires FindById(list, id).None?
    ensures WithoutId(list, id) == list
  {
    FilterKeepsAll(list, (e: SavedRecipe) => e.id != id);
  }

  /** With unique ids, removing a stored id shrinks the list by exactly one. */
  lemma {:induction false} RemovePresentShrinksByOne(list: seq<SavedRecipe>, id: string)
    requires UniqueIds(list)
    requires FindById(list, id).Some?
    ensures |WithoutId(list, id)| == |list| - 1
  {
    var keep := (e: SavedRecipe) => e.id != id;
    assert Filter(list, keep) == (if keep(list[0]) then [list[0]] else []) + Filter(list[1..], keep);
    if list[0].id == id {
      assert forall i :: 0 <= i < |list[1..]| ==> list[1..][i].id != id by {
        forall i | 0 <= i < |list[1..]| ensures list[1..][i].id != id {
          assert list[1..][i] == list[i + 1];
        }
      }
      RemoveAbsentIsNoOp(list[1..], id);
    } else {
      assert UniqueIds(list[1..]) by {
        forall i, j | 0 <= i < j < |list[1..]| ensures list[1..][i].id != list[1..][j].id {
          assert list[1..][i] == list[i + 1] && list[1..][j] == list[j + 1];
        }
      }
      var w := FindById(list, id).value;
      assert FindById(list[1..], id).Some? by {
        var k :| 0 <= k < |list| && list[k] == w && w.id == id;
        assert k > 0 && list[1..][k - 1] == list[k];
      }
      RemovePresentShrinksByOne(list[1..], id);
    }
  }

  /** Removal keeps the logical keys unique. */
  lemma {:induction false} RemoveKeepsKeysUnique(list: seq<SavedRecipe>, id: string)
    requires UniqueKeys(list)
    ensures UniqueKeys(WithoutId(list, id))
  {
    if list != [] {
      var tail := list[1..];
      UniqueKeysTail(list);
      RemoveKeepsKeysUnique(tail, id);
      var rest := WithoutId(tail, id);
      assert WithoutId(list, id) == (if list[0].id != id then [list[0]] else []) + rest;
      if list[0].id != id {
        HeadKeyNotInTail(list);
        assert forall e :: e in rest ==> e in tail;
        ConsKeepsKeysUnique(list[0], rest);
      }
    }
  }

  /** Dropping the head keeps the keys unique. */
  lemma UniqueKeysTail(list: seq<SavedRecipe>)
    requires list != [] && UniqueKeys(list)
    ensures UniqueKeys(list[1..])
  {
    var tail := list[1..];
    forall i, j | 0 <= i < j < |tail| ensures Key(tail[i]) != Key(tail[j]) {
      assert tail[i] == list[i + 1] && tail[j] == list[j + 1];
    }
  }

  /** With unique keys, no entry after the head shares the head's key. */
  lemma HeadKeyNotInTail(list: seq<SavedRecipe>)
    requires list != [] && UniqueKeys(list)
    ensures forall e :: e in list[1..] ==> Key(e) != Key(list[0])
  {
    forall e | e in list[1..] ensures Key(e) != Key(list[0]) {
      var k :| 0 <= k < |list[1..]| && list[1..][k] == e;
      assert list[k + 1] == e;
    }
  }

  /** Putting an entry with a new key in front keeps the keys unique. */
  lemma ConsKeepsKeysUnique(x: SavedRecipe, rest: seq<SavedRecipe>)
    requires UniqueKeys(rest)
    requires forall e :: e in rest ==> Key(e) != Key(x)
    ensures UniqueKeys([x] + rest)
  {
    var r := [x] + rest;
    forall i, j | 0 <= i < j < |r| ensures Key(r[i]) != Key(r[j]) {
      assert r[j] == rest[j - 1];
      if i > 0 { assert r[i] == rest[i - 1]; }
    }
  }

  /**
   * The store held by `useSavedRecipes`. `storage` is the persisted copy:
   * what the storage entry under `LocalStorageKey` holds.
   */
  class SavedRecipeStore {
    var savedRecipes: seq<SavedRecipe>
    var isLoading: bool
    var storage: StoredValue

    /** A store over a storage entry, before the load effect has run. */
    constructor (stored: StoredValue)
      ensures savedRecipes == [] && isLoading && storage == stored
    {
      savedRecipes := [];
      isLoading := true;
      storage := stored;
    }

    /** The load effect: a parsed list replaces the empty list; a missing
        entry leaves it empty; text that does not parse leaves it empty and
        is reported. Loading ends in every case. */
    method Load() returns (loadFailed: bool)
      modifies this`savedRecipes, this`isLoading
      ensures !isLoading
      ensures loadFailed <==> storage.Corrupt?
      ensures savedRecipes == (if storage.Holds? then storage.recipes else old(savedRecipes))
    {
      loadFailed := false;
      match storage {
        case Missing =>
        case Corrupt => loadFailed := true;
        case Holds(recipes) => savedRecipes := recipes;
      }
      isLoading := false;
    }

    /** Writes the whole list to storage; a failed write leaves the entry as
        it was and is reported. */
    method UpdateLocalStorage(recipes: seq<SavedRecipe>, writeOk: bool) returns (writeFailed: bool)
      modifies this`storage
      ensures storage == (if writeOk then Holds(recipes) else old(storage))
      ensures writeFailed == !writeOk
    {
      if writeOk {
        storage := Holds(recipes);
      }
      writeFailed := !writeOk;
    }

    /**
     * `addRecipe`. A recipe whose key is already stored changes nothing
     * (the "already saved" notice); otherwise the new entry is appended and
     * the whole list written back. A failed write does not undo the append.
     */
    method AddRecipe(recipe: RecipeSuggestion, userInputIngredients: string,
                     freshId: string, createdAt: string, writeOk: bool)
      returns (alreadySaved: bool, writeFailed: bool)
      modifies this`savedRecipes, this`storage
      ensures alreadySaved == HasKey(old(savedRecipes), (recipe.recipe.title, userInputIngredients))
      ensures savedRecipes == WithRecipe(old(savedRecipes), recipe, userInputIngredients, freshId, createdAt)
      ensures alreadySaved ==> storage == old(storage) && !writeFailed
      ensures !alreadySaved ==> storage == (if writeOk then Holds(savedRecipes) else old(storage))
      ensures !alreadySaved ==> writeFailed == !writeOk
      ensures UniqueKeys(old(savedRecipes)) ==> UniqueKeys(savedRecipes)
    {
      var entry := NewSavedRecipe(recipe, userInputIngredients, freshId, createdAt);
      alreadySaved := HasKey(savedRecipes, Key(entry));
      writeFailed := false;
      if UniqueKeys(savedRecipes) {
        AddKeepsKeysUnique(savedRecipes, recipe, userInputIngredients, freshId, createdAt);
      }
      if !alreadySaved {
        var updated := savedRecipes + [entry];
        writeFailed := UpdateLocalStorage(updated, writeOk);
        savedRecipes := updated;
      }
    }

    /**
     * `removeRecipe`. Every entry with the id is dropped and the whole list
     * written back, even when nothing matched. `removed` is the first entry
     * that had the id (the one the notice names).
     */
    method RemoveRecipe(recipeId: string, writeOk: bool) returns (removed: Option<SavedRecipe>, writeFailed: bool)
      modifies this`savedRecipes, this`storage
      ensures removed == FindById(old(savedRecipes), recipeId)
      ensures savedRecipes == WithoutId(old(savedRecipes), recipeId)
      ensures storage == (if writeOk then Holds(savedRecipes) else old(storage))
      ensures writeFailed == !writeOk
      ensures GetRecipeById(recipeId).None?
      ensures UniqueKeys(old(savedRecipes)) ==> UniqueKeys(savedRecipes)
    {
      removed := FindById(savedRecipes, recipeId);
      var updated := WithoutId(savedRecipes, recipeId);
      RemoveSpec(savedRecipes, recipeId);
      if UniqueKeys(savedRecipes) {
        RemoveKeepsKeysUnique(savedRecipes, recipeId);
      }
      writeFailed := UpdateLocalStorage(updated, writeOk);
      savedRecipes := updated;
    }

    /** `getRecipeById`: the first entry with the id, or nothing. */
    function GetRecipeById(recipeId: string): (r: Option<SavedRecipe>)
      reads this
      ensures r.Some? ==> exists i :: 0 <= i < |savedRecipes| && savedRecipes[i] == r.value && r.value.id == recipeId &&
                                      forall j :: 0 <= j < i ==> savedRecipes[j].id != recipeId
      ensures r.None? <==> forall i :: 0 <= i < |savedRecipes| ==> savedRecipes[i].id != recipeId
    {
      FindById(savedRecipes, recipeId)
    }
  }
}
