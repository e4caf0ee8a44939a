/** The write side of the recipe serializers: `create`, `update` and the ingredient rows
    they create. Tags and ingredient lines are replaced wholesale on update; the scalar
    fields keep their old value when the validated data leaves them out. */
module RecipeWrite {
  import opened Wrappers
  import opened Domain
  import opened Seqs
  import opened ShoppingList
  import opened Validators

  /** The recipe rows and the ingredient-line rows the serializers write. */
  datatype Store = Store(recipes: map<RecipeId, Recipe>, lines: seq<RecipeIngredient>)

  /** Validated data of an update; a field the request left out is `None`. */
  datatype RecipeData = RecipeData(
    name: Option<string>,
    text: Option<string>,
    image: Option<string>,
    cookingTime: Option<int>,
    tags: Option<seq<TagId>>,
    ingredients: Option<seq<IngredientAmount>>)

  /** Validated data of a create: the serializer requires every field. */
  datatype NewRecipe = NewRecipe(
    name: string,
    text: string,
    image: string,
    cookingTime: int,
    tags: seq<TagId>,
    ingredients: seq<IngredientAmount>)

  /** The lines for `recipe` that the submitted items describe, one per item, in order. */
  function Rows(recipe: RecipeId, items: seq<IngredientAmount>): (rows: seq<RecipeIngredient>)
    ensures |rows| == |items|
    ensures forall i :: 0 <= i < |items| ==> rows[i] == RecipeIngredient(recipe, items[i].id, items[i].amount)
  {
    seq(|items|, i requires 0 <= i < |items| => RecipeIngredient(recipe, items[i].id, items[i].amount))
  }

  /** The rows belong to their recipe, and read back as the submitted ids and amounts. */
  lemma RowsReadBack(recipe: RecipeId, items: seq<IngredientAmount>)
    ensures LinesOf(Rows(recipe, items), recipe) == Rows(recipe, items)
    ensures Ingredients(Rows(recipe, items)) == Ids(items)
    ensures forall i :: 0 <= i < |items| ==> Rows(recipe, items)[i].amount == items[i].amount
  {
    FilterExtremes(Rows(recipe, items), BelongsTo(recipe));
  }

  /** `create_recipe_ingredients` (backend/api/serializers.py), and the per-item
      `RecipeIngredient.objects.create` loops of backend/recipes/serializers.py. */
  method CreateRecipeIngredients(recipe: RecipeId, items: seq<IngredientAmount>)
    returns (rows: seq<RecipeIngredient>)
    ensures |rows| == |items|
    ensures forall i :: 0 <= i < |items| ==>
              rows[i].recipe == recipe && rows[i].ingredient == items[i].id && rows[i].amount == items[i].amount
    ensures rows == Rows(recipe, items)
  {
    rows := [];
    var k := 0;
    while k < |items|
      invariant 0 <= k <= |items|
      invariant rows == Rows(recipe, items[..k])
    {
      rows := rows + [RecipeIngredient(recipe, items[k].id, items[k].amount)];
      k := k + 1;
    }
    assert items[..k] == items;
  }

  /** `validate_amount` applied to every submitted item, failing on the first refusal. */
  function ValidateAmounts(items: seq<IngredientAmount>): (r: Result<seq<IngredientAmount>>)
    ensures r.Success? <==> forall i :: 0 <= i < |items| ==> ValidateAmount(items[i].amount).Success?
    ensures r.Success? ==> r.value == items && forall i :: 0 <= i < |items| ==> items[i].amount >= 1
    decreases |items|
  {
    if |items| == 0 then Success(items)
    else
      match ValidateAmount(items[0].amount)
      case Failure(e) => Failure(e)
      case Success(_) =>
        var rest := ValidateAmounts(items[1..]);
        if rest.Failure? then
          var i :| 0 <= i < |items[1..]| && ValidateAmount(items[1..][i].amount).Failure?;
          assert ValidateAmount(items[i + 1].amount).Failure?;
          rest
        else
          assert forall i :: 1 <= i < |items| ==> items[i] == items[1..][i - 1];
          Success(items)
  }

  /** Creating a recipe from validated items keeps every stored amount positive. */
  lemma CreateKeepsAmountsPositive(store: Store, newId: RecipeId, author: UserId, data: NewRecipe)
    requires newId !in store.recipes
    requires forall l | l in store.lines :: l.amount >= 1
    requires ValidateAmounts(data.ingredients).Success?
    ensures forall l | l in Create(store, newId, author, data).lines :: l.amount >= 1
  {
  }

  /** The same for an update. */
  lemma UpdateKeepsAmountsPositive(store: Store, id: RecipeId, data: RecipeData)
    requires id in store.recipes
    requires forall l | l in store.lines :: l.amount >= 1
    requires data.ingredients.Some? && ValidateAmounts(data.ingredients.value).Success?
    ensures Update(store, id, data).Success? ==>
              forall l | l in Update(store, id, data).value.lines :: l.amount >= 1
  {
  }

  /** `validated_data.get(field, current)`. */
  function KeepOr<T>(submitted: Option<T>, current: T): (v: T)
    ensures submitted.Some? ==> v == submitted.value
    ensures submitted.None? ==> v == current
  {
    if submitted.Some? then submitted.value else current
  }

  /** The test `recipe != r`: the lines that survive `recipe.recipe_ingredients.all().delete()`. */
  function OtherThan(r: RecipeId): RecipeIngredient -> bool {
    (l: RecipeIngredient) => l.recipe != r
  }

  /** `update`: the ingredients and tags must be present (`pop` without a default); the
      scalar fields take the submitted value or keep the old one; the tags become the
      submitted ones; the recipe's old lines are deleted and the submitted ones created. */
  function Update(store: Store, id: RecipeId, data: RecipeData): (r: Result<Store>)
    requires id in store.recipes
    ensures r.Failure? <==> data.ingredients.None? || data.tags.None?
    ensures r.Failure? ==> r.error == MissingKey
    ensures r.Success? ==>
              var prev := store.recipes[id];
              var s := r.value;
              && s.recipes.Keys == store.recipes.Keys
              && (forall k | k in store.recipes && k != id :: s.recipes[k] == store.recipes[k])
              && s.recipes[id].id == prev.id && s.recipes[id].author == prev.author
              && s.recipes[id].name == KeepOr(data.name, prev.name)
              && s.recipes[id].text == KeepOr(data.text, prev.text)
              && s.recipes[id].image == KeepOr(data.image, prev.image)
              && s.recipes[id].cookingTime == KeepOr(data.cookingTime, prev.cookingTime)
              && s.recipes[id].tags == Elements(data.tags.value)
  {
    match data.ingredients
    case None => Failure(MissingKey)
    case Some(items) =>
      match data.tags
      case None => Failure(MissingKey)
      case Some(tags) =>
        var prev := store.recipes[id];
        var updated := prev.(
          name := KeepOr(data.name, prev.name),
          text := KeepOr(data.text, prev.text),
          image := KeepOr(data.image, prev.image),
          cookingTime := KeepOr(data.cookingTime, prev.cookingTime),
          tags := Elements(tags));
        var kept := Filter(store.lines, OtherThan(id));
        Success(Store(store.recipes[id := updated], kept + Rows(id, items)))
  }

  /** After an update the recipe's lines are exactly the submitted ones, in order, and
      every other recipe's lines are as before. */
  lemma UpdateReplacesLines(store: Store, id: RecipeId, data: RecipeData)
    requires id in store.recipes
    requires data.ingredients.Some? && data.tags.Some?
    ensures LinesOf(Update(store, id, data).value.lines, id) == Rows(id, data.ingredients.value)
    ensures forall other :: other != id ==>
              LinesOf(Update(store, id, data).value.lines, other) == LinesOf(store.lines, other)
  {
    var rows := Rows(id, data.ingredients.value);
    var kept := Filter(store.lines, OtherThan(id));
    assert Update(store, id, data).value.lines == kept + rows;
    FilterConcat(kept, rows, BelongsTo(id));
    FilterExtremes(kept, BelongsTo(id));
    RowsReadBack(id, data.ingredients.value);
    forall other | other != id
      ensures LinesOf(kept + rows, other) == LinesOf(store.lines, other)
    {
      FilterConcat(kept, rows, BelongsTo(other));
      FilterExtremes(rows, BelongsTo(other));
      FilterBoth(store.lines, OtherThan(id), BelongsTo(other), BelongsTo(other));
    }
  }

  /** Updating twice with the same data is the same as updating once: nothing of the old
      lines or tags survives the first update. */
  lemma UpdateIdempotent(store: Store, id: RecipeId, data: RecipeData)
    requires id in store.recipes
    requires data.ingredients.Some? && data.tags.Some?
    ensures Update(Update(store, id, data).value, id, data) == Update(store, id, data)
  {
    var once := Update(store, id, data).value;
    var twice := Update(once, id, data).value;
    KeptAfterUpdate(store, id, data);
    assert twice.lines == once.lines;
    assert twice.recipes[id] == once.recipes[id];
    assert twice.recipes == once.recipes;
  }

  /** The lines an update keeps are the same whether the update runs once or twice. */
  lemma KeptAfterUpdate(store: Store, id: RecipeId, data: RecipeData)
    requires id in store.recipes
    requires data.ingredients.Some? && data.tags.Some?
    ensures Filter(Update(store, id, data).value.lines, OtherThan(id)) == Filter(store.lines, OtherThan(id))
  {
    var rows := Rows(id, data.ingredients.value);
    var kept := Filter(store.lines, OtherThan(id));
    assert Update(store, id, data).value.lines == kept + rows;
    FilterConcat(kept, rows, OtherThan(id));
    FilterExtremes(rows, OtherThan(id));
    FilterExtremes(kept, OtherThan(id));
  }

  /** `create`: a new recipe with the submitted fields and tags, authored by the requesting
      user, followed by its ingredient lines. The new primary key is chosen by the database
      and is a parameter here. */
  function Create(store: Store, newId: RecipeId, author: UserId, data: NewRecipe): (r: Store)
    requires newId !in store.recipes
    ensures r.recipes.Keys == store.recipes.Keys + {newId}
    ensures forall k | k in store.recipes :: r.recipes[k] == store.recipes[k]
    ensures r.recipes[newId] == Recipe(newId, author, data.name, data.text, data.image, data.cookingTime, Elements(data.tags))
    ensures |r.lines| == |store.lines| + |data.ingredients|
    ensures r.lines[..|store.lines|] == store.lines
  {
    var recipe := Recipe(newId, author, data.name, data.text, data.image, data.cookingTime, Elements(data.tags));
    Store(store.recipes[newId := recipe], store.lines + Rows(newId, data.ingredients))
  }

  /** The new recipe's lines are exactly the submitted ones when no line pointed at the new
      key before (the database never reuses it), and no other recipe gains a line. */
  lemma CreateLines(store: Store, newId: RecipeId, author: UserId, data: NewRecipe)
    requires newId !in store.recipes
    requires forall l | l in store.lines :: l.recipe != newId
    ensures LinesOf(Create(store, newId, author, data).lines, newId) == Rows(newId, data.ingredients)
    ensures forall other :: other != newId ==>
              LinesOf(Create(store, newId, author, data).lines, other) == LinesOf(store.lines, other)
  {
    var rows := Rows(newId, data.ingredients);
    FilterConcat(store.lines, rows, BelongsTo(newId));
    FilterExtremes(store.lines, BelongsTo(newId));
    RowsReadBack(newId, data.ingredients);
    forall other | other != newId
      ensures LinesOf(store.lines + rows, other) == LinesOf(store.lines, other)
    {
      FilterConcat(store.lines, rows, BelongsTo(other));
      FilterExtremes(rows, BelongsTo(other));
    }
  }
}
