/** The membership toggles of the recipe and user endpoints: favourite, shopping cart and
    subscribe. Each keeps a set of pairs (the unique-together constraint of its table makes
    it a set); POST adds the pair, DELETE removes it, and the wrong one of the two for the
    current state is answered with 400 and changes nothing. */
module Toggles {
  import opened Domain

  datatype Verb = Post | Delete

  /** The HTTP statuses the toggles answer with: 201, 204, 400 and 404. */
  datatype Status = Created | NoContent | BadRequest | NotFound

  /** The rows the toggles read and write, reduced to primary keys and pairs. */
  datatype Db = Db(
    recipes: set<RecipeId>,
    users: set<UserId>,
    favorites: set<Mark>,
    cart: set<Mark>,
    follows: set<Follow>)

  /** The status of a toggle and the set of pairs after it. */
  datatype Toggled<T> = Toggled(status: Status, marks: set<T>)

  /** `add_or_remove_recipe` (backend/api/views.py), and the inline bodies of `favorite`
      and `shopping_cart` in backend/recipes/views.py. */
  function AddOrRemove<T(==)>(marks: set<T>, pair: T, verb: Verb): (r: Toggled<T>)
    ensures r.status != NotFound
    ensures r.status == BadRequest <==> (verb == Post <==> pair in marks)
    ensures r.status == BadRequest ==> r.marks == marks
    ensures r.status == Created ==> verb == Post && pair !in marks && r.marks == marks + {pair}
    ensures r.status == NoContent ==> verb == Delete && pair in marks && r.marks == marks - {pair}
    ensures pair in r.marks <==> verb == Post
    ensures forall p | p in marks + r.marks && p != pair :: p in r.marks <==> p in marks
  {
    match verb
    case Post =>
      if pair in marks then Toggled(BadRequest, marks) else Toggled(Created, marks + {pair})
    case Delete =>
      if pair !in marks then Toggled(BadRequest, marks) else Toggled(NoContent, marks - {pair})
  }

  /** A successful POST is undone by a DELETE of the same pair, and the other way round. */
  lemma ToggleRoundTrip<T>(marks: set<T>, pair: T)
    ensures AddOrRemove(marks, pair, Post).status == Created ==>
              var added := AddOrRemove(marks, pair, Post).marks;
              AddOrRemove(added, pair, Delete).status == NoContent
              && AddOrRemove(added, pair, Delete).marks == marks
    ensures AddOrRemove(marks, pair, Delete).status == NoContent ==>
              var removed := AddOrRemove(marks, pair, Delete).marks;
              AddOrRemove(removed, pair, Post).status == Created
              && AddOrRemove(removed, pair, Post).marks == marks
  {
    if pair !in marks {
      assert marks + {pair} - {pair} == marks;
    } else {
      assert marks - {pair} + {pair} == marks;
    }
  }

  /** Repeating a toggle fails the second time: the second POST (or DELETE) is a 400. */
  lemma ToggleTwiceFails<T>(marks: set<T>, pair: T, verb: Verb)
    ensures AddOrRemove(AddOrRemove(marks, pair, verb).marks, pair, verb).status == BadRequest
  {
  }

  /** `favorite`: 404 for an unknown recipe, otherwise a toggle of `(user, recipe)` on the
      favourites; nothing but the favourites changes. */
  function Favorite(db: Db, user: UserId, recipe: RecipeId, verb: Verb): (r: (Status, Db))
    ensures r.0 == NotFound <==> recipe !in db.recipes
    ensures r.0 == NotFound ==> r.1 == db
    ensures r.1 == db.(favorites := r.1.favorites)
    ensures recipe in db.recipes ==> r.0 == AddOrRemove(db.favorites, Mark(user, recipe), verb).status
    ensures recipe in db.recipes ==> r.1.favorites == AddOrRemove(db.favorites, Mark(user, recipe), verb).marks
    ensures forall m | m in db.favorites + r.1.favorites && m.user != user ::
              m in r.1.favorites <==> m in db.favorites
  {
    if recipe !in db.recipes then (NotFound, db)
    else
      var t := AddOrRemove(db.favorites, Mark(user, recipe), verb);
      (t.status, db.(favorites := t.marks))
  }

  /** `shopping_cart`: the same toggle on the cart. */
  function ShoppingCart(db: Db, user: UserId, recipe: RecipeId, verb: Verb): (r: (Status, Db))
    ensures r.0 == NotFound <==> recipe !in db.recipes
    ensures r.0 == NotFound ==> r.1 == db
    ensures r.1 == db.(cart := r.1.cart)
    ensures recipe in db.recipes ==> r.0 == AddOrRemove(db.cart, Mark(user, recipe), verb).status
    ensures recipe in db.recipes ==> r.1.cart == AddOrRemove(db.cart, Mark(user, recipe), verb).marks
    ensures forall m | m in db.cart + r.1.cart && m.user != user ::
              m in r.1.cart <==> m in db.cart
  {
    if recipe !in db.recipes then (NotFound, db)
    else
      var t := AddOrRemove(db.cart, Mark(user, recipe), verb);
      (t.status, db.(cart := t.marks))
  }

  /** No stored follow has a user following themselves. */
  ghost predicate NoSelfFollow(follows: set<Follow>) {
    forall f | f in follows :: f.user != f.following
  }

  /** `subscribe`: `follower` subscribes to (POST) or unsubscribes from (DELETE) the user
      `target`. The row stored is `Follow(user = target, following = follower)`. POST is
      refused when the two are the same user or the row exists; DELETE when it is absent. */
  function Subscribe(db: Db, follower: UserId, target: UserId, verb: Verb): (r: (Status, Db))
    ensures r.0 == NotFound <==> target !in db.users
    ensures r.0 == NotFound ==> r.1 == db
    ensures r.1 == db.(follows := r.1.follows)
    ensures r.0 == BadRequest <==>
              target in db.users &&
              match verb
              case Post => follower == target || Follow(target, follower) in db.follows
              case Delete => Follow(target, follower) !in db.follows
    ensures r.0 == BadRequest ==> r.1 == db
    ensures r.0 == Created ==> verb == Post
    ensures r.0 == NoContent ==> verb == Delete
    ensures r.0 == Created ==> r.1.follows == db.follows + {Follow(target, follower)}
    ensures r.0 == NoContent ==> r.1.follows == db.follows - {Follow(target, follower)}
  {
    if target !in db.users then (NotFound, db)
    else
      var follow := Follow(target, follower);
      match verb
      case Post =>
        if follower == target || follow in db.follows then (BadRequest, db)
        else (Created, db.(follows := db.follows + {follow}))
      case Delete =>
        if follow !in db.follows then (BadRequest, db)
        else (NoContent, db.(follows := db.follows - {follow}))
  }

  /** Subscribing never stores a self-follow, so a state without one keeps that property. */
  lemma SubscribeKeepsNoSelfFollow(db: Db, follower: UserId, target: UserId, verb: Verb)
    requires NoSelfFollow(db.follows)
    ensures NoSelfFollow(Subscribe(db, follower, target, verb).1.follows)
  {
  }

  /** A user can never subscribe to themselves, whatever the state. */
  lemma NoSubscribingToSelf(db: Db, user: UserId)
    ensures Subscribe(db, user, user, Post).0 != Created
    ensures Follow(user, user) !in db.follows ==> Follow(user, user) !in Subscribe(db, user, user, Post).1.follows
  {
  }

  /** A successful subscription is undone by unsubscribing. */
  lemma SubscribeRoundTrip(db: Db, follower: UserId, target: UserId)
    ensures Subscribe(db, follower, target, Post).0 == Created ==>
              var after := Subscribe(db, follower, target, Post).1;
              Subscribe(after, follower, target, Delete).0 == NoContent
              && Subscribe(after, follower, target, Delete).1 == db
  {
    var follow := Follow(target, follower);
    if follow !in db.follows {
      assert db.follows + {follow} - {follow} == db.follows;
    }
  }
}
