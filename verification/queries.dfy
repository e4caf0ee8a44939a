/** The read-side filters: the favourite / shopping-cart flags of the recipe list, the
    ingredient name search, and the tag filter. A queryset is read as the sequence of its
    rows in the table's order. */
module Queries {
  import opened Wrappers
  import opened Domain
  import opened Text
  import opened Seqs
  import opened OrderedDict

  // ---------------------------------------------------------------------------
  // RecipeViewSet.get_queryset
  // ---------------------------------------------------------------------------

  /** Whether a flag lets a recipe through, given whether the recipe is marked: an absent
      or empty parameter lets everything through, a nonzero number keeps the marked
      recipes, zero keeps the unmarked ones. */
  predicate Admits(flag: Flag, marked: bool) {
    match flag
    case Number(n) => (n != 0) == marked
    case _ => true
  }

  /** One flag of `get_queryset`: `if flag: if bool(int(flag)): filter(...) else: exclude(...)`.
      A text that `int()` rejects raises, which is the failure. */
  function ApplyFlag(rs: seq<RecipeId>, flag: Flag, marked: RecipeId -> bool): (r: Result<seq<RecipeId>>)
    ensures r.Failure? <==> flag == NotANumber
    ensures r.Failure? ==> r.error == BadInteger
    ensures r.Success? ==> IsSubsequence(r.value, rs)
    ensures r.Success? ==> forall id | id in rs :: id in r.value <==> Admits(flag, marked(id))
    ensures r.Success? ==> forall id | id in r.value :: id in rs
    ensures flag.Absent? || flag.Blank? ==> r == Success(rs)
  {
    match flag
    case Absent => SubsequenceRefl(rs); Success(rs)
    case Blank => SubsequenceRefl(rs); Success(rs)
    case NotANumber => Failure(BadInteger)
    case Number(n) =>
      if n != 0 then Success(Filter(rs, marked))
      else Success(Filter(rs, (id: RecipeId) => !marked(id)))
  }

  /** `get_queryset` of `RecipeViewSet`: the favourites flag, then the shopping-cart flag,
      both relative to the requesting user. */
  function RecipeQueryset(
    rs: seq<RecipeId>, user: UserId, favorites: set<Mark>, cart: set<Mark>,
    isFavorited: Flag, isInShoppingCart: Flag): (r: Result<seq<RecipeId>>)
    ensures r.Failure? <==> isFavorited == NotANumber || isInShoppingCart == NotANumber
    ensures r.Success? ==> IsSubsequence(r.value, rs)
    ensures r.Success? ==> forall id ::
              id in r.value <==>
                (id in rs
                 && Admits(isFavorited, Mark(user, id) in favorites)
                 && Admits(isInShoppingCart, Mark(user, id) in cart))
  {
    match ApplyFlag(rs, isFavorited, (id: RecipeId) => Mark(user, id) in favorites)
    case Failure(e) => Failure(e)
    case Success(afterFavorites) =>
      var r := ApplyFlag(afterFavorites, isInShoppingCart, (id: RecipeId) => Mark(user, id) in cart);
      if r.Success? then
        SubsequenceTrans(r.value, afterFavorites, rs);
        r
      else r
  }

  /** The two flags filter independently: applying them in the other order gives the same
      rows, so the result is the intersection of the two filters. */
  lemma FlagsCommute(rs: seq<RecipeId>, f1: Flag, m1: RecipeId -> bool, f2: Flag, m2: RecipeId -> bool)
    requires f1 != NotANumber && f2 != NotANumber
    ensures ApplyFlag(ApplyFlag(rs, f1, m1).value, f2, m2).value
         == ApplyFlag(ApplyFlag(rs, f2, m2).value, f1, m1).value
  {
    var p1 := (id: RecipeId) => if f1.Number? then (f1.n != 0) == m1(id) else true;
    var p2 := (id: RecipeId) => if f2.Number? then (f2.n != 0) == m2(id) else true;
    FlagAsFilter(rs, f1, m1);
    FlagAsFilter(ApplyFlag(rs, f1, m1).value, f2, m2);
    FlagAsFilter(rs, f2, m2);
    FlagAsFilter(ApplyFlag(rs, f2, m2).value, f1, m1);
    FilterAgree(rs, (id: RecipeId) => Admits(f1, m1(id)), p1);
    FilterAgree(rs, (id: RecipeId) => Admits(f2, m2(id)), p2);
    FilterAgree(Filter(rs, p1), (id: RecipeId) => Admits(f2, m2(id)), p2);
    FilterAgree(Filter(rs, p2), (id: RecipeId) => Admits(f1, m1(id)), p1);
    FilterFilter(rs, p1, p2);
  }

  /** A flag that parses is a filter by `Admits`. */
  lemma {:induction false} FlagAsFilter(rs: seq<RecipeId>, flag: Flag, marked: RecipeId -> bool)
    requires flag != NotANumber
    ensures ApplyFlag(rs, flag, marked).value == Filter(rs, (id: RecipeId) => Admits(flag, marked(id)))
  {
    match flag
    case Absent => FilterExtremes(rs, (id: RecipeId) => Admits(flag, marked(id)));
    case Blank => FilterExtremes(rs, (id: RecipeId) => Admits(flag, marked(id)));
    case Number(n) =>
      if n != 0 {
        FilterAgree(rs, marked, (id: RecipeId) => Admits(flag, marked(id)));
      } else {
        FilterAgree(rs, (id: RecipeId) => !marked(id), (id: RecipeId) => Admits(flag, marked(id)));
      }
  }

  // ---------------------------------------------------------------------------
  // IngredientViewSet.get_queryset
  // ---------------------------------------------------------------------------

  /** `get_queryset` of `IngredientViewSet`: with a non-empty `name` parameter, the
      ingredients whose name starts with the decoded parameter, compared after `fold`
      (the database's case folding); otherwise every ingredient. */
  function IngredientSearch(
    all: seq<Ingredient>, name: Option<string>,
    unquote: string -> string, fold: string -> string): (r: seq<Ingredient>)
    ensures IsSubsequence(r, all)
    ensures name.None? || name == Some([]) ==> r == all
    ensures name.Some? && name.value != [] ==>
              forall i :: i in r <==> i in all && StartsWith(fold(i.name), fold(unquote(name.value)))
  {
    SubsequenceRefl(all);
    match name
    case None => all
    case Some(q) =>
      if q == [] then all
      else
        var prefix := fold(unquote(q));
        Filter(all, (i: Ingredient) => StartsWith(fold(i.name), prefix))
  }

  /** Lengthening the search text can only narrow the result when folding and decoding
      keep prefixes. */
  lemma SearchNarrows(
    all: seq<Ingredient>, q: string, more: string,
    unquote: string -> string, fold: string -> string)
    requires q != []
    requires StartsWith(fold(unquote(q + more)), fold(unquote(q)))
    ensures forall i | i in IngredientSearch(all, Some(q + more), unquote, fold) ::
              i in IngredientSearch(all, Some(q), unquote, fold)
  {
    var long := fold(unquote(q + more));
    var short := fold(unquote(q));
    forall i | i in IngredientSearch(all, Some(q + more), unquote, fold)
      ensures StartsWith(fold(i.name), short)
    {
      assert fold(i.name)[..|long|] == long;
      assert fold(i.name)[..|short|] == long[..|short|];
    }
  }

  // ---------------------------------------------------------------------------
  // RecipeFilter.filter_tags
  // ---------------------------------------------------------------------------

  /** The tags of `r` whose slug is one of `slugs`: the rows the join on `tags__slug__in`
      produces for `r`. */
  function MatchingTags(r: Recipe, tagSlugs: map<TagId, string>, slugs: seq<string>): set<TagId> {
    set t | t in r.tags && t in tagSlugs && tagSlugs[t] in slugs
  }

  predicate HasTag(r: Recipe, tagSlugs: map<TagId, string>, slugs: seq<string>) {
    exists t | t in r.tags :: t in tagSlugs && tagSlugs[t] in slugs
  }

  /** The joined rows before `distinct()`: each recipe once per matching tag. */
  function JoinRows(rs: seq<Recipe>, tagSlugs: map<TagId, string>, slugs: seq<string>): (rows: seq<Recipe>)
    ensures forall r :: r in rows <==> r in rs && HasTag(r, tagSlugs, slugs)
  {
    if |rs| == 0 then []
    else
      var m := MatchingTags(rs[0], tagSlugs, slugs);
      var copies := seq(|m|, _ => rs[0]);
      var rest := JoinRows(rs[1..], tagSlugs, slugs);
      assert |m| > 0 <==> HasTag(rs[0], tagSlugs, slugs) by {
        if HasTag(rs[0], tagSlugs, slugs) {
          var t :| t in rs[0].tags && t in tagSlugs && tagSlugs[t] in slugs;
          assert t in m;
        }
        if |m| > 0 {
          var t :| t in m;
        }
      }
      assert |m| > 0 ==> copies[0] == rs[0];
      assert forall r | r in rs :: r == rs[0] || r in rs[1..];
      copies + rest
  }

  /** `filter_tags`: every `tags` query parameter is used; the `value` the filter set
      passes in is ignored. The join is made distinct again. */
  function FilterTags(
    rs: seq<Recipe>, tagSlugs: map<TagId, string>, params: seq<string>, value: seq<string>)
    : (r: seq<Recipe>)
    ensures Distinct(r)
    ensures forall x :: x in r <==> x in rs && HasTag(x, tagSlugs, params)
    ensures FirstSeenOrder(r, JoinRows(rs, tagSlugs, params))
  {
    var rows := JoinRows(rs, tagSlugs, params);
    DedupFirstSeen(rows);
    Dedup(rows)
  }

  /** The result depends on the `tags` parameters only, never on `value`. */
  lemma FilterTagsIgnoresValue(
    rs: seq<Recipe>, tagSlugs: map<TagId, string>, params: seq<string>, v1: seq<string>, v2: seq<string>)
    ensures FilterTags(rs, tagSlugs, params, v1) == FilterTags(rs, tagSlugs, params, v2)
  {
  }
}
