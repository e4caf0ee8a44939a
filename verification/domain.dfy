/** The entities of the recipe backend, reduced to the fields the modelled logic reads.
    Primary keys are natural numbers; a foreign key is the primary key it points at. */
module Domain {

  type UserId = nat
  type RecipeId = nat
  type IngredientId = nat
  type TagId = nat

  /** An ingredient as the catalogue stores it. Two ingredients are the same when their
      primary keys are equal (Django compares model instances by primary key), so the
      name and unit are looked up through the key. */
  datatype Ingredient = Ingredient(name: string, unit: string)

  type Catalogue = map<IngredientId, Ingredient>

  /** One `RecipeIngredient` row: `amount` of an ingredient needed by a recipe. */
  datatype RecipeIngredient = RecipeIngredient(recipe: RecipeId, ingredient: IngredientId, amount: int)

  datatype Tag = Tag(id: TagId, slug: string)

  /** A recipe row together with the tags linked to it. */
  datatype Recipe = Recipe(
    id: RecipeId,
    author: UserId,
    name: string,
    text: string,
    image: string,
    cookingTime: int,
    tags: set<TagId>)

  /** A `Favorite` or `ShoppingCart` row: `user` has marked `recipe`. */
  datatype Mark = Mark(user: UserId, recipe: RecipeId)

  /** A `Follow` row. The field names follow the source: `user` is the author being
      followed and `following` is the subscriber. */
  datatype Follow = Follow(user: UserId, following: UserId)

  /** A query parameter that the backend reads with `int(...)`: missing, present but empty
      (falsy, so ignored), a text `int()` accepts, or a text it rejects. */
  datatype Flag = Absent | Blank | Number(n: int) | NotANumber

  /** Every line refers to an ingredient the catalogue holds (foreign-key integrity). */
  predicate Resolved(lines: seq<RecipeIngredient>, catalogue: Catalogue) {
    forall l | l in lines :: l.ingredient in catalogue
  }
}
