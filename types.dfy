/**
 * The client-side extensions of a generated recipe: a suggestion carries an
 * optional client id; a saved recipe has a mandatory id, the ingredient text
 * it was generated from, and its creation timestamp.
 */
module Types {
  import opened Wrappers
  import opened RecipeIdeas

  /** A generated recipe with an optional client-side id. */
  datatype RecipeSuggestion = RecipeSuggestion(recipe: DetailedRecipe, id: Option<string>)

  /** A recipe in the saved-recipe store. */
  datatype SavedRecipe = SavedRecipe(
    recipe: DetailedRecipe,
    id: string,
    userInputIngredients: string,
    createdAt: string)

  /** The logical key under which the store detects duplicates. */
  function Key(r: SavedRecipe): (string, string)
  {
    (r.recipe.title, r.userInputIngredients)
  }
}
