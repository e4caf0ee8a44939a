/** The computed fields of the user and recipe serializers: `recipes` (with the
    `recipes_limit` slice), `recipes_count`, `is_favorited`, `is_in_shopping_cart` and
    `is_subscribed`. A viewer is `None` when the request is anonymous. */
module Fields {
  import opened Wrappers
  import opened Domain
  import opened Seqs
  import opened Toggles

  /** `instance.recipes.all()`: the author's recipes in the table's order. */
  function AuthorRecipes(all: seq<Recipe>, author: UserId): (rs: seq<Recipe>)
    ensures forall r :: r in rs <==> r in all && r.author == author
    ensures IsSubsequence(rs, all)
  {
    Filter(all, (r: Recipe) => r.author == author)
  }

  /** `get_recipes`: with a truthy `recipes_limit`, the first `int(recipes_limit)` of the
      author's recipes; otherwise all of them. A negative limit is refused by the queryset
      slice, and a text `int()` rejects raises. */
  function GetRecipes(all: seq<Recipe>, author: UserId, recipesLimit: Flag): (r: Result<seq<Recipe>>)
    ensures recipesLimit.Absent? || recipesLimit.Blank? ==> r == Success(AuthorRecipes(all, author))
    ensures recipesLimit == NotANumber ==> r == Failure(BadInteger)
    ensures recipesLimit.Number? ==> (r.Failure? <==> recipesLimit.n < 0)
    ensures recipesLimit.Number? && r.Failure? ==> r.error == NegativeSlice
    ensures r.Success? ==>
              var mine := AuthorRecipes(all, author);
              && |r.value| == (if recipesLimit.Number? && recipesLimit.n < |mine| then recipesLimit.n else |mine|)
              && r.value == mine[..|r.value|]
  {
    var mine := AuthorRecipes(all, author);
    match recipesLimit
    case Absent => Success(mine)
    case Blank => Success(mine)
    case NotANumber => Failure(BadInteger)
    case Number(n) =>
      if n < 0 then Failure(NegativeSlice)
      else if n < |mine| then Success(mine[..n])
      else Success(mine)
  }

  /** `get_recipes_count`: the number of the author's recipes. */
  function GetRecipesCount(all: seq<Recipe>, author: UserId): (n: nat)
    ensures n <= |all|
    ensures n == 0 <==> forall r | r in all :: r.author != author
  {
    var mine := AuthorRecipes(all, author);
    if |mine| > 0 then
      assert mine[0] in mine;
      |mine|
    else
      |mine|
  }

  /** The count agrees with the unlimited list, and bounds every limited one. */
  lemma CountMatchesRecipes(all: seq<Recipe>, author: UserId, limit: Flag)
    ensures GetRecipes(all, author, Absent) == Success(AuthorRecipes(all, author))
    ensures GetRecipesCount(all, author) == |AuthorRecipes(all, author)|
    ensures GetRecipes(all, author, limit).Success? ==>
              |GetRecipes(all, author, limit).value| <= GetRecipesCount(all, author)
  {
  }

  /** A limit of at least the count shows every recipe; a limit of zero shows none. */
  lemma LimitExtremes(all: seq<Recipe>, author: UserId, n: int)
    ensures n >= GetRecipesCount(all, author) ==>
              GetRecipes(all, author, Number(n)) == Success(AuthorRecipes(all, author))
    ensures GetRecipes(all, author, Number(0)) == Success([])
  {
  }

  /** `get_is_favorited`: false for an anonymous viewer, otherwise whether the viewer has
      marked the recipe. */
  function IsFavorited(db: Db, viewer: Option<UserId>, recipe: RecipeId): (b: bool)
    ensures viewer.None? ==> !b
    ensures viewer.Some? ==> (b <==> Mark(viewer.value, recipe) in db.favorites)
  {
    match viewer
    case None => false
    case Some(u) => Mark(u, recipe) in db.favorites
  }

  /** `get_is_in_shopping_cart`: the same on the cart. */
  function IsInShoppingCart(db: Db, viewer: Option<UserId>, recipe: RecipeId): (b: bool)
    ensures viewer.None? ==> !b
    ensures viewer.Some? ==> (b <==> Mark(viewer.value, recipe) in db.cart)
  {
    match viewer
    case None => false
    case Some(u) => Mark(u, recipe) in db.cart
  }

  /** `get_is_subscribed`: false for an anonymous viewer, otherwise whether the viewer
      follows `author` (a `Follow` row with `user = author, following = viewer`). */
  function IsSubscribed(db: Db, viewer: Option<UserId>, author: UserId): (b: bool)
    ensures viewer.None? ==> !b
    ensures viewer.Some? ==> (b <==> Follow(author, viewer.value) in db.follows)
  {
    match viewer
    case None => false
    case Some(u) => Follow(author, u) in db.follows
  }

  /** What the toggles do is what the flags report: after any favourite request on an
      existing recipe the flag says whether the request was a POST, and other viewers'
      flags do not move. */
  lemma FavoriteFlagFollowsToggle(db: Db, user: UserId, recipe: RecipeId, verb: Verb, other: UserId)
    requires recipe in db.recipes
    ensures IsFavorited(Favorite(db, user, recipe, verb).1, Some(user), recipe) <==> verb == Post
    ensures other != user ==>
              IsFavorited(Favorite(db, user, recipe, verb).1, Some(other), recipe)
              == IsFavorited(db, Some(other), recipe)
  {
  }

  lemma CartFlagFollowsToggle(db: Db, user: UserId, recipe: RecipeId, verb: Verb, other: UserId)
    requires recipe in db.recipes
    ensures IsInShoppingCart(ShoppingCart(db, user, recipe, verb).1, Some(user), recipe) <==> verb == Post
    ensures other != user ==>
              IsInShoppingCart(ShoppingCart(db, user, recipe, verb).1, Some(other), recipe)
              == IsInShoppingCart(db, Some(other), recipe)
  {
  }

  /** A subscription that succeeds shows as `is_subscribed`, and an unsubscription that
      succeeds clears it. */
  lemma SubscribedFlagFollowsToggle(db: Db, follower: UserId, author: UserId)
    ensures Subscribe(db, follower, author, Post).0 == Created ==>
              IsSubscribed(Subscribe(db, follower, author, Post).1, Some(follower), author)
    ensures Subscribe(db, follower, author, Delete).0 == NoContent ==>
              !IsSubscribed(Subscribe(db, follower, author, Delete).1, Some(follower), author)
    ensures Subscribe(db, follower, author, Post).0 == BadRequest && follower != author ==>
              IsSubscribed(db, Some(follower), author)
  {
  }
}
