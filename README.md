# FlavorMind recipe logic, modelled in Dafny

FlavorMind is a Next.js application that asks a language model for recipe
ideas from a free-text list of ingredients. Users can view and translate a
recipe, and keep favourites in browser storage. This project models the
sequential logic around the model calls and proves properties of it:

- **Saved-recipe store** (`saved_recipes.dfy`, module `SavedRecipes`). This is
  the `useSavedRecipes` hook, written as a class. It holds the in-memory list
  and a `storage` field, the persisted copy. `AddRecipe` is idempotent on the
  logical key (title, ingredient text). `RemoveRecipe` drops every entry with
  an id. `GetRecipeById` returns the first entry with an id. Every mutation
  writes the whole list back, and a failed write does not roll anything back.
- **Generation flow and recipe shapes** (`generate_recipe_ideas.dfy`,
  `types.dfy`). These hold `Ingredient`, `DetailedRecipe`, the suggestion and
  saved-recipe extensions, and the flow. The flow turns a null model output
  into `{recipes: []}`.
- **Translation flow** (`translate_recipe_flow.dfy`). After the model returns,
  each translated ingredient's quantity is replaced by the input quantity at
  the same index. This happens only when the two ingredient lists have the
  same length.
- **Server actions** (`actions.dfy`). Suggestion covers input validation, the
  three outcomes (recipes, empty, error) and the choice of error message.
  Translation covers the input guard, the "exactly one of content or error"
  result and the error messages.
- **Ingredient form** (`ingredient_form.dfy`). This decides which page
  callbacks fire, in which order and with which message, for each action
  state. It also forwards the pending flag.
- **Home page** (`ingredient_client_page.dfy`). This is a class with the four
  state fields and the search-cache slot. It has the four handlers, the
  startup restore, and the panel conditions. It also has the end-to-end
  delivery of an action state through the form's callbacks.
- **Saved-recipes page** (`my_recipes.dfy`). This covers the
  case-insensitive, order-preserving search filter and the choice between
  the empty-store panel, the no-match panel and the grid.
- **Recipe view page** (`recipe_view.dfy`). This covers the saved check,
  saving, and translation with its English sentinel. It also builds the
  displayed recipe, which is the translated overlay on the original.

`wrappers.dfy` (Option, Result, JavaScript truthiness of a nullable string),
`genkit.dfy` (the abstract outcome of a model call and the shapes of thrown
errors) and `collections.dfy` (`filter`, `find`, subsequence) are shared.

The model call, browser storage, JSON parsing, random ids and clocks are
inputs. A model call is a `ModelCall` value: the output, which may be null,
or a thrown error. Each storage entry is a field whose value is one of three
things: missing, unparsable, or a parsed value. A write or removal changes
that field. Whether a write succeeds is a boolean parameter. Fresh ids and
timestamps are parameters.

Facts about the code that the model keeps as written:
- `getRecipeSuggestionsAction` checks the raw length of the ingredient text
  and does not trim it (src/app/actions.ts:8,13), so three spaces pass.
- The generation schema requires `description`
  (src/ai/flows/generate-recipe-ideas.ts:28), so every generated recipe has one.
- `addRecipe` never checks ids (src/hooks/useSavedRecipes.ts:48,53): a
  caller's non-empty id is kept, and `removeRecipe` deletes every entry with
  that id (src/hooks/useSavedRecipes.ts:76). Ids stay unique only when the new
  id is fresh (`AddFreshIdKeepsIdsUnique`).
- The translate flow has no separate empty-output code. It throws an ordinary
  error with a fixed message (src/ai/flows/translate-recipe-flow.ts:86-87), and
  the action reports that message.

## Model

| member | source | states |
|---|---|---|
| `Collections.Filter` | src/hooks/useSavedRecipes.ts:76 | `filter`: the result is no longer than the input, every kept element is in the input and passes the test, and every input element that passes is kept (copy counts are in `FilterCounts`) |
| `Collections.Find` | src/hooks/useSavedRecipes.ts:89 | `find`: a result is an element that passes, and no earlier element passes; no result means no element passes |
| `Collections.FilterIsSubsequence` | src/app/my-recipes/page.tsx:22 | filtering keeps the surviving elements in their original order (the result is a subsequence) |
| `Collections.FilterCounts` | src/hooks/useSavedRecipes.ts:76 | filtering keeps every copy of a value that passes and no copy of one that fails: the result's multiset is the input's, restricted to passing values |
| `Collections.FilterKeepsAll` | src/hooks/useSavedRecipes.ts:76 | when every element passes, filtering returns the list unchanged |
| `Collections.FilterIdempotent` | src/app/my-recipes/page.tsx:22-29 | filtering twice with the same test equals filtering once |
| `RecipeIdeas.GenerateRecipeIdeasFlow` | src/ai/flows/generate-recipe-ideas.ts:99-110 | fails exactly when the model call threw, with that error; a present output is returned unchanged; a null output becomes `{recipes: []}`; a non-empty result is the model's own output |
| `TranslateRecipe.ForceOriginalQuantities` | src/ai/flows/translate-recipe-flow.ts:91-98 | the length is unchanged; with equal lengths every quantity[i] is the input quantity[i] and every name[i] is the model's name[i]; with different lengths the model's ingredients are returned as they are; title, description, instructions and tags pass through |
| `TranslateRecipe.ForceOriginalQuantitiesIdempotent` | src/ai/flows/translate-recipe-flow.ts:92-97 | applying the quantity safeguard twice with the same input equals applying it once |
| `TranslateRecipe.TranslateRecipeFlow` | src/ai/flows/translate-recipe-flow.ts:84-99 | a null output fails with "Translation failed: AI did not return an output."; a thrown error propagates; any output succeeds as exactly `ForceOriginalQuantities` of the input ingredients and that output, with the model's title and ingredient count and, whenever the counts match, the input quantities |
| `Actions.GetRecipeSuggestionsAction` | src/app/actions.ts:10-48 | rejected input gives "Validation failed", the schema errors and null recipes, whatever the model would return; the result has non-empty recipes iff the input is valid and the model returned a non-empty list, which is passed on in order with "Recipes generated successfully"; it has empty recipes iff the output was null or empty, with "No recipes found for these ingredients."; a thrown error gives null recipes and its message as both the message and the only `_form` error |
| `Actions.IngredientsValid` | src/app/actions.ts:8-13 | the ingredients schema: a string value of at least three characters, measured without trimming |
| `Actions.NoTrimming` | src/app/actions.ts:8-14 | the ingredients check measures the raw string: three spaces pass, two characters fail, and a non-string value fails |
| `Actions.GenerationErrorMessage` | src/app/actions.ts:36-44 | only a plain error with an empty message yields an empty message; a detailed or non-error value yields the generic message or one starting "Recipe generation stopped: " |
| `Actions.GenerationErrorMessageCases` | src/app/actions.ts:36-44 | a detailed error with a finish reason names the reason; a detailed error without one gets the generic message; a plain error keeps its own message; a non-error gets the generic message |
| `Actions.TranslateRecipeAction` | src/app/actions.ts:51-82 | exactly one of content and error is present; missing data or an empty language gives "Missing recipe data or target language."; otherwise the content is the safeguarded model output, or the error is the no-output message or the message chosen for the thrown error |
| `Actions.TranslationErrorMessage` | src/app/actions.ts:69-79 | only a plain error with an empty message yields an empty message; a detailed or non-error value yields the safety message, the generic message, or one starting "Translation error: " |
| `Actions.TranslationErrorMessageCases` | src/app/actions.ts:69-79 | a SAFETY finish reason gets the safety message; another detailed error with a message gets "Translation error: " plus the message; one with an empty message gets the generic failure; a plain error keeps its message; a thrown non-error gets the generic failure |
| `Actions.TranslatedQuantitiesPreserved` | src/ai/flows/translate-recipe-flow.ts:92-97 | whatever the model returns, translated content with as many ingredients as were sent carries the sent quantities, index by index |
| `SavedRecipes.NewSavedRecipe` | src/hooks/useSavedRecipes.ts:46-51 | the new entry copies the recipe and records the ingredient text and timestamp; its id is the recipe's non-empty id, else the fresh id |
| `SavedRecipes.WithRecipe` | src/hooks/useSavedRecipes.ts:53-66 | afterwards the key is always present; an existing key leaves the list unchanged; a new key appends exactly the new entry and keeps the earlier entries in order |
| `SavedRecipes.WithoutId` | src/hooks/useSavedRecipes.ts:76 | the list after removal: no longer than before, every remaining entry was stored and has another id, and every stored entry with another id remains |
| `SavedRecipes.FindById` | src/hooks/useSavedRecipes.ts:88-90 | a result is the first entry with the id; no result iff no entry has the id |
| `SavedRecipes.AddTwiceIsAddOnce` | src/hooks/useSavedRecipes.ts:53-60 | a second add under the same title and ingredient text changes nothing, whatever id or timestamp it is given |
| `SavedRecipes.AddKeepsKeysUnique` | src/hooks/useSavedRecipes.ts:53-66 | adding keeps the (title, ingredient text) keys pairwise distinct |
| `SavedRecipes.AddFreshIdKeepsIdsUnique` | src/hooks/useSavedRecipes.ts:48 | ids stay unique when the new entry's id is not already stored |
| `SavedRecipes.RemoveSpec` | src/hooks/useSavedRecipes.ts:73-77 | removal keeps exactly the entries with another id, every copy of each, in their original order (subsequence and multiset), and afterwards the id is not found |
| `SavedRecipes.RemoveAbsentIsNoOp` | src/hooks/useSavedRecipes.ts:76 | removing an id that no entry carries leaves the list unchanged |
| `SavedRecipes.RemovePresentShrinksByOne` | src/hooks/useSavedRecipes.ts:76 | with unique ids, removing a stored id shrinks the list by exactly one |
| `SavedRecipes.RemoveKeepsKeysUnique` | src/hooks/useSavedRecipes.ts:76 | removal keeps the keys pairwise distinct |
| `SavedRecipes.SavedRecipeStore.constructor` | src/hooks/useSavedRecipes.ts:11-12 | a new store has an empty list, is loading, and sits over the given storage entry |
| `SavedRecipes.SavedRecipeStore.Load` | src/hooks/useSavedRecipes.ts:15-30 | a parsed entry replaces the list; a missing entry leaves it; an unparsable entry leaves it and is reported; loading ends in every case |
| `SavedRecipes.SavedRecipeStore.UpdateLocalStorage` | src/hooks/useSavedRecipes.ts:32-43 | a successful write stores the whole list; a failed write leaves the entry unchanged and is reported |
| `SavedRecipes.SavedRecipeStore.AddRecipe` | src/hooks/useSavedRecipes.ts:45-71 | reports "already saved" iff the key is present, and then changes neither the list nor storage; otherwise the list is `WithRecipe` of the old list and storage equals the new list unless the write failed; unique keys are preserved |
| `SavedRecipes.SavedRecipeStore.RemoveRecipe` | src/hooks/useSavedRecipes.ts:73-86 | the list is `WithoutId` of the old list; storage equals it unless the write failed; the reported entry is the first that had the id; afterwards `GetRecipeById` finds nothing; unique keys are preserved |
| `SavedRecipes.SavedRecipeStore.GetRecipeById` | src/hooks/useSavedRecipes.ts:88-90 | a result is the first stored entry with the id (no earlier entry has it); no result iff no stored entry has the id |
| `IngredientForm.Join` | src/components/home/IngredientForm.tsx:84 | no parts give ""; one part gives that part; two parts give first + separator + second; with two or more parts the result starts with the first part followed by the separator |
| `IngredientForm.JoinLength` | src/components/home/IngredientForm.tsx:84 | a join is as long as its parts together plus one separator per gap |
| `IngredientForm.JoinEndsWithLast` | src/components/home/IngredientForm.tsx:84 | a join ends with its last part |
| `IngredientForm.AsSuggestions` | src/components/home/IngredientForm.tsx:67 | the action's recipes are passed on in order, as suggestions without an id |
| `IngredientForm.ErrorText` | src/components/home/IngredientForm.tsx:82-87 | the error text for a state without recipes: a single `ingredients` error is the text, else a single `_form` error, and without errors it is the message |
| `IngredientForm.Dispatch` | src/components/home/IngredientForm.tsx:63-95 | at most two callbacks fire; non-null recipes (even empty) first go to `onSuggestions` with the field's text; a non-empty list fires nothing else; an empty list also fires `onError(message)` exactly when the message is non-empty; without recipes, a non-empty message fires `onError` with the `ingredients` errors, else the `_form` errors, else the message |
| `IngredientForm.PendingEffect` | src/components/home/IngredientForm.tsx:59-61 | `onLoading(pending)` fires on the first render and whenever the pending flag changes, and only then |
| `IngredientForm.InitialStateIsQuiet` | src/components/home/IngredientForm.tsx:21-29 | the initial state fires no callback |
| `IngredientForm.RejectedInputReportsError` | src/components/home/IngredientForm.tsx:81-88 | rejected input reaches `onError` with the joined `ingredients` errors, else the joined `_form` errors, else "Validation failed" |
| `IngredientForm.GeneratedRecipesArePassedOn` | src/components/home/IngredientForm.tsx:64-72 | generated recipes reach `onSuggestions` alone, in order, with the field's text |
| `IngredientForm.EmptyResultReportsError` | src/components/home/IngredientForm.tsx:73-80 | an empty or null generation result fires `onSuggestions([])` and then `onError("No recipes found for these ingredients.")` |
| `IngredientForm.GenerationErrorIsReported` | src/components/home/IngredientForm.tsx:81-88 | a generation error reaches `onError` with its message, unless the message is empty, in which case nothing fires |
| `IngredientClientPage.WithIds` | src/components/home/IngredientClientPage.tsx:43 | count and order are kept, each recipe is unchanged, a non-empty id is kept, and any other suggestion takes the fresh id for its position |
| `IngredientClientPage.WithIdsIdentifiesAll` | src/components/home/IngredientClientPage.tsx:43 | with non-empty fresh ids, every suggestion ends up with a non-empty id |
| `IngredientClientPage.Page.constructor` | src/components/home/IngredientClientPage.tsx:17-40 | startup restores the suggestions and ingredient text only from a cache entry with an array and a string; any other entry is removed and the state stays empty; not loading, no error |
| `IngredientClientPage.Page.HandleSuggestions` | src/components/home/IngredientClientPage.tsx:42-59 | the suggestions get ids, the ingredient text is recorded, and error and loading are cleared; the cache holds exactly the suggestions and text, unless the write failed, which leaves the state as set |
| `IngredientClientPage.Page.HandleError` | src/components/home/IngredientClientPage.tsx:61-71 | the error is the message; suggestions and ingredient text are emptied; loading stops; the cache entry is removed |
| `IngredientClientPage.Page.HandleLoading` | src/components/home/IngredientClientPage.tsx:73-85 | the loading flag is set; `true` also clears error, suggestions, ingredient text and cache; `false` changes nothing else |
| `IngredientClientPage.Page.HandleClearSuggestions` | src/components/home/IngredientClientPage.tsx:87-100 | clears suggestions, ingredient text, error and cache; the loading flag is kept |
| `IngredientClientPage.Page.VisiblePanels` | src/components/home/IngredientClientPage.tsx:110-148 | at most one panel shows; while loading only the skeleton shows; each of the error alert, suggestion list and empty hint shows exactly under its render condition |
| `IngredientClientPage.Page.Deliver` | src/components/home/IngredientClientPage.tsx:104-108 | each form callback has the full effect of the handler the page passes for it: suggestions with ids, text, cleared error and loading, and the cache write; the error state with the cache removed; the loading flag, clearing everything on `true` and changing nothing else on `false` |
| `IngredientClientPage.Page.ReceiveState` | src/components/home/IngredientClientPage.tsx:104-108 | end to end: recipes show the suggestion list; an empty result with a message leaves the page in the error state with only the error alert; an empty result without a message (a state the action never returns) leaves no suggestions and no error; an error state shows its error text; a state with no recipes and no message changes nothing |
| `MyRecipes.LowerChar` | src/app/my-recipes/page.tsx:21 | an ASCII capital becomes the lower-case letter at the same alphabet position; every other character is unchanged |
| `MyRecipes.ToLower` | src/app/my-recipes/page.tsx:21 | lower-casing keeps the length and lowers each character |
| `MyRecipes.Matches` | src/app/my-recipes/page.tsx:23-28 | the search test for a lower-cased term: title, non-empty description, ingredient text, some tag or truthy cuisine contains it |
| `MyRecipes.FilterRecipes` | src/app/my-recipes/page.tsx:17-30 | an empty term returns the saved list unchanged; the result is never longer than the list |
| `MyRecipes.FilterRecipesSpec` | src/app/my-recipes/page.tsx:21-29 | for a non-empty term the result is a subsequence of the saved list, a recipe is kept iff the lower-cased term occurs in its lower-cased title, description, ingredient text, some tag or cuisine, and every copy of a matching entry is kept (multiset) |
| `MyRecipes.FilterRecipesIdempotent` | src/app/my-recipes/page.tsx:22-29 | filtering the filtered list with the same term changes nothing |
| `MyRecipes.AbsentFieldsNeverMatch` | src/app/my-recipes/page.tsx:24-27 | without description text, tags or cuisine, a recipe matches only through its title or ingredient text |
| `MyRecipes.SearchIgnoresCase` | src/app/my-recipes/page.tsx:21 | two terms that differ only in letter case give the same result |
| `MyRecipes.SelectView` | src/app/my-recipes/page.tsx:32-80 | the skeleton shows iff loading; the empty state shows iff not loading and the store is empty; with a non-empty store the no-match panel shows iff the filtered list is empty (only possible for a non-empty term); a non-empty filtered list is always shown as the grid |
| `RecipeView.AsSuggestion` | src/app/recipes/view/page.tsx:99-110 | the recipe handed to the store keeps its recipe fields and its id, and loses its saved-only fields |
| `RecipeView.IsSavedRecipe` | src/app/recipes/view/page.tsx:19-21 | a view recipe is a saved recipe exactly when it carries a `createdAt` string, i.e. is the saved variant |
| `RecipeView.InitialIngredients` | src/app/recipes/view/page.tsx:55-63 | the base ingredient text is the URL parameter when non-empty, else a saved recipe's own text, else absent |
| `RecipeView.CurrentIngredients` | src/app/recipes/view/page.tsx:74 | the text the saved check compares with: the non-empty page text, else a saved recipe's own text, else "" |
| `RecipeView.SavedCheck` | src/app/recipes/view/page.tsx:72-78 | saved iff the store has an entry with this title and the current ingredient text |
| `RecipeView.SaveMarksSaved` | src/app/recipes/view/page.tsx:99-110 | after a save the saved check holds, whether or not the store already had the recipe |
| `RecipeView.TranslationRequest` | src/app/recipes/view/page.tsx:126-132 | the request carries the recipe's title, description, ingredients and instructions; absent tags are sent as an empty list |
| `RecipeView.RecipeToDisplay` | src/app/recipes/view/page.tsx:149-161 | with no translation or the English target the original is shown; otherwise title, description, ingredients, instructions and tags come from the translation and the other fields from the original |
| `RecipeView.Overlay` | src/app/recipes/view/page.tsx:150-158 | the translated title, description, ingredients, instructions and tags over the original, whose other fields are unchanged; without an original those fields are absent |
| `RecipeView.DisplayedQuantitiesAreOriginal` | src/app/recipes/view/page.tsx:149-161 | a received translation with as many ingredients as the recipe displays the recipe's own quantities |
| `RecipeView.Page.constructor` | src/app/recipes/view/page.tsx:51-70 | a parsed URL recipe becomes the original with its base ingredient text; an absent or unparsable one leaves no recipe; the target starts as English and nothing is translated |
| `RecipeView.Page.SetTargetLanguage` | src/app/recipes/view/page.tsx:189 | the selector sets the target language |
| `RecipeView.Page.IsRecipeSaved` | src/app/recipes/view/page.tsx:72-78 | the page reads as saved iff it has a recipe and the store has an entry with its title and the current ingredient text |
| `RecipeView.Page.HandleSave` | src/app/recipes/view/page.tsx:99-110 | with base ingredient text, or for a saved recipe, the store's list becomes `WithRecipe` under the current ingredient text and the page then reads as saved; storage is written with the new list unless the key was already stored or the write failed; otherwise the store is untouched |
| `RecipeView.Page.HandleTranslate` | src/app/recipes/view/page.tsx:112-147 | with no recipe, an empty target or English, both translation and error are cleared and the action is not consulted; otherwise translation stops and exactly one of content and error is set: a non-empty action error is shown as the error, an action without an error shows its content, and an empty error message becomes the unknown-error message |

## Left out

- The model calls themselves are not modelled: the prompt templates, the safety settings, the Genkit flow wrapper and `summarize-recipe.ts`. Each call is an input. The "2-3 recipes" and "keep the quantity" wording is prompt text, so no recipe count is asserted.
- What the schema library reports for rejected ingredients is an input (`fieldErrors`), because it comes from library code this model does not contain.
- JSON serialisation is not modelled: a stored list reads back as the list that was written. An arbitrary parse result (for example `null` or a partial object) stands as one of the parse outcomes. A URL recipe is assumed to be a suggestion or a complete saved recipe.
- Failures of `removeItem` on the search cache in the handlers are not modelled (src/components/home/IngredientClientPage.tsx:68, :81, :93). There, and for the removal at :33, a failure is caught and only logged, so the model assumes removal succeeds.
- `IngredientClientPage.Page.constructor`: a storage access that throws in the startup effect is not represented. If reading the cache throws (:25), the catch block calls `removeItem` (:38) outside any try, so a second failure there escapes the effect. The model has no "read threw" outcome: every stored entry is missing, unparsable or a parsed record, and startup always ends quiet.
- Toasts, console logging, clipboard sharing, timers, routing and `Suspense` are not modelled. Neither is the "Recipe not found" and loading rendering of the view page, nor its "your ingredients" fallback caption.
- React effect scheduling is not modelled. Effects are the constructors, functions and methods above. The view page's `isRecipeSaved` field is the derived function `Page.IsRecipeSaved`. Each delivery in `ReceiveState` runs to completion before the next.
- Stale snapshots and separate hook instances are not modelled. In the source, `addRecipe` checks for duplicates against one snapshot and appends to another, and each component holds its own copy of the list. The model has one store and one snapshot.
- Concurrent in-flight generation or translation requests are not modelled. All operations run in sequence.
- `toLowerCase` is modelled for ASCII letters only. String length counts Dafny characters where JavaScript counts UTF-16 code units.
- The suggestion action always returns `translatedContent: null`; that field is not modelled.
- `IngredientClientPage.Page.HandleSuggestions`: the fresh ids are given one per position (`|freshIds| == |suggestions|`). Only the positions without an id use theirs.
- `IngredientForm.PendingEffect`: the pending flag is a free input. In the source, `IngredientForm` calls `useFormStatus` in the same component that renders the `<form>` (src/components/home/IngredientForm.tsx:57). `useFormStatus` only reports the status of a form rendered by a parent component, so `pending` probably stays false and `onLoading(true)` is probably never sent. The loading states of the home page may therefore be unreachable in the program.
