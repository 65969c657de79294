/** The recipe fetch effect: every fetched recipe gets an `ingredients`
    array, and the list is handed to the store in one SetRecipes action. */
module RecipeEffects {
  import opened Wrappers

  // recipe.model.ts and recipe.actions.ts are not part of this model. An
  // ingredient keeps the shape of the course's Ingredient model; a recipe is
  // its `ingredients` member plus every other property, kept by name.
  datatype Ingredient = Ingredient(name: string, amount: int)

  /** The properties of a recipe other than `ingredients`, by name. A
      JavaScript object has one member per name, so `ingredients` is not
      among them. */
  type Properties = m: map<string, string> | "ingredients" !in m witness map[]

  /** A recipe as the database returns it; `ingredients` is `None` when the
      property is missing (the database drops empty arrays). */
  datatype Recipe = Recipe(properties: Properties, ingredients: Option<seq<Ingredient>>)

  datatype RecipesAction = SetRecipes(recipes: seq<Recipe>)

  /** `{...recipe, ingredients: recipe.ingredients ? recipe.ingredients : []}`:
      an array, even an empty one, is truthy, so only a missing array is
      replaced. */
  function WithIngredients(recipe: Recipe): (r: Recipe)
    ensures r.properties == recipe.properties
    ensures r.ingredients.Some?
    ensures recipe.ingredients.Some? ==> r == recipe
    ensures recipe.ingredients.None? ==> r.ingredients == Some([])
  {
    recipe.(ingredients := if recipe.ingredients.Some? then recipe.ingredients else Some([]))
  }

  /** `recipes.map(...)`: same length, same order, each recipe defaulted in
      place. */
  function Normalize(recipes: seq<Recipe>): (r: seq<Recipe>)
    ensures |r| == |recipes|
    ensures forall i :: 0 <= i < |recipes| ==> r[i] == WithIngredients(recipes[i])
  {
    if recipes == [] then [] else [WithIngredients(recipes[0])] + Normalize(recipes[1..])
  }

  /** Every normalised recipe has its ingredients, and keeps every other
      property; a recipe that had ingredients is left as it was. */
  lemma NormalizeKeepsRecipes(recipes: seq<Recipe>, i: nat)
    requires i < |recipes|
    ensures Normalize(recipes)[i].ingredients.Some?
    ensures Normalize(recipes)[i].properties == recipes[i].properties
    ensures recipes[i].ingredients.Some? ==> Normalize(recipes)[i] == recipes[i]
  {
  }

  /** A list whose recipes all have ingredients is its own normal form. */
  lemma NormalizeFixesComplete(recipes: seq<Recipe>)
    requires forall i :: 0 <= i < |recipes| ==> recipes[i].ingredients.Some?
    ensures Normalize(recipes) == recipes
  {
  }

  /** Normalising twice is normalising once. */
  lemma NormalizeIdempotent(recipes: seq<Recipe>)
    ensures Normalize(Normalize(recipes)) == Normalize(recipes)
  {
  }

  /** `fetchRecipes` once the list has arrived: one SetRecipes action whose
      list is the fetched one, normalised. */
  function FetchRecipes(fetched: seq<Recipe>): (a: RecipesAction)
    ensures a.recipes == Normalize(fetched)
    ensures |a.recipes| == |fetched|
    ensures forall i :: 0 <= i < |fetched| ==>
              a.recipes[i].properties == fetched[i].properties && a.recipes[i].ingredients.Some?
    ensures forall i :: 0 <= i < |fetched| && fetched[i].ingredients.Some? ==> a.recipes[i] == fetched[i]
  {
    SetRecipes(Normalize(fetched))
  }
}
