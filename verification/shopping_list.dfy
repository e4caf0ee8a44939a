/** The two shopping-list aggregations of the backend.

    - `CreateShoppingList` (backend/recipes/utilities.py) walks the cart recipe by recipe,
      sums amounts per ingredient in an insertion-ordered dict, then re-keys the result by
      ingredient name.
    - `CreateGroupedShoppingList` (backend/api/utilities.py) takes every line whose recipe
      is in the cart, groups by (name, unit), sums each group, and keys the result by name.

    Both render a total as `'%s %s' % (amount, unit)`. */
module ShoppingList {
  import opened Domain
  import opened Text
  import opened Seqs
  import opened OrderedDict

  /** `'%s %s' % (amount, unit)`. A rendered total can be read back: the text before the
      first space is the amount, the text after it is the unit. */
  function Format(amount: int, unit: string): (s: string)
    ensures FirstIndex(s, ' ') == |IntToString(amount)| < |s|
    ensures IsIntText(s[..FirstIndex(s, ' ')]) && ParseInt(s[..FirstIndex(s, ' ')]) == amount
    ensures s[FirstIndex(s, ' ') + 1..] == unit
  {
    FormatSplits(amount, unit);
    IntToStringRoundTrip(amount);
    IntToString(amount) + " " + unit
  }

  /** The first space of a rendered total is the one after the amount's digits. */
  lemma FormatSplits(amount: int, unit: string)
    ensures var s := IntToString(amount) + " " + unit;
            var n := |IntToString(amount)|;
            && FirstIndex(s, ' ') == n
            && s[..n] == IntToString(amount)
            && s[n + 1..] == unit
  {
    var s := IntToString(amount) + " " + unit;
    var n := |IntToString(amount)|;
    assert s[n] == ' ';
    assert s[..n] == IntToString(amount);
    forall j | 0 <= j < n
      ensures s[j] != ' '
    {
      assert s[j] == IntToString(amount)[j];
    }
  }

  // ---------------------------------------------------------------------------
  // backend/recipes/utilities.py: per-ingredient accumulation, then re-key by name
  // ---------------------------------------------------------------------------

  /** `RecipeIngredient.objects.filter(recipe=r)`: the lines of one recipe in table order. */
  function LinesOf(lines: seq<RecipeIngredient>, r: RecipeId): seq<RecipeIngredient> {
    Filter(lines, BelongsTo(r))
  }

  /** The test `recipe=r`. */
  function BelongsTo(r: RecipeId): RecipeIngredient -> bool {
    (l: RecipeIngredient) => l.recipe == r
  }

  /** The lines the nested loop visits: those of each cart recipe in turn, so a recipe that
      occurs twice in the cart is visited twice. */
  function CartLines(cart: seq<RecipeId>, lines: seq<RecipeIngredient>): (ls: seq<RecipeIngredient>)
    ensures forall l | l in ls :: l in lines && l.recipe in cart
    decreases |cart|
  {
    if |cart| == 0 then []
    else CartLines(cart[..|cart| - 1], lines) + LinesOf(lines, cart[|cart| - 1])
  }

  /** The ingredient keys of some lines, in order. */
  function Ingredients(ls: seq<RecipeIngredient>): (ks: seq<IngredientId>)
    ensures |ks| == |ls|
  {
    seq(|ls|, i requires 0 <= i < |ls| => ls[i].ingredient)
  }

  /** The catalogue names of the ingredients of some lines, in order. */
  function NamesIn(ls: seq<RecipeIngredient>, catalogue: Catalogue): (names: seq<string>)
    requires Resolved(ls, catalogue)
    ensures |names| == |ls|
  {
    seq(|ls|, i requires 0 <= i < |ls| => catalogue[ls[i].ingredient].name)
  }

  /** Each line as an (ingredient, amount) pair. */
  function IdAmounts(ls: seq<RecipeIngredient>): (ps: seq<(IngredientId, int)>)
    ensures KeysOf(ps) == Ingredients(ls)
  {
    seq(|ls|, i requires 0 <= i < |ls| => (ls[i].ingredient, ls[i].amount))
  }

  /** The intermediate dict of lines 16-23: ingredient -> accumulated amount. */
  function Accumulate(cart: seq<RecipeId>, lines: seq<RecipeIngredient>): Dict<IngredientId, int> {
    Sums(IdAmounts(CartLines(cart, lines)))
  }

  /** Reference per-ingredient total: what each cart entry's recipe needs of `k`, added up
      over the cart entries (with repetition). */
  function CartShare(cart: seq<RecipeId>, lines: seq<RecipeIngredient>, k: IngredientId): int
    decreases |cart|
  {
    if |cart| == 0 then 0
    else CartShare(cart[..|cart| - 1], lines, k) + AmountOf(IdAmounts(LinesOf(lines, cart[|cart| - 1])), k)
  }

  lemma IdAmountsConcat(a: seq<RecipeIngredient>, b: seq<RecipeIngredient>)
    ensures IdAmounts(a + b) == IdAmounts(a) + IdAmounts(b)
  {
  }

  lemma {:induction false} AmountOfConcat<K>(p: seq<(K, int)>, q: seq<(K, int)>, k: K)
    ensures AmountOf(p + q, k) == AmountOf(p, k) + AmountOf(q, k)
  {
    if |p| > 0 {
      assert (p + q)[0] == p[0];
      assert (p + q)[1..] == p[1..] + q;
      AmountOfConcat(p[1..], q, k);
    } else {
      assert p + q == q;
    }
  }

  lemma {:induction false} CartLinesConcat(a: seq<RecipeId>, b: seq<RecipeId>, lines: seq<RecipeIngredient>)
    ensures CartLines(a + b, lines) == CartLines(a, lines) + CartLines(b, lines)
    decreases |b|
  {
    if |b| > 0 {
      assert (a + b)[..|a + b| - 1] == a + b[..|b| - 1];
      CartLinesConcat(a, b[..|b| - 1], lines);
    } else {
      assert a + b == a;
    }
  }

  /** The accumulated amount of an ingredient is the sum, over the cart entries, of what
      each entry's recipe needs of it. */
  lemma {:induction false} AccumulateIsCartShare(cart: seq<RecipeId>, lines: seq<RecipeIngredient>, k: IngredientId)
    ensures AmountOf(IdAmounts(CartLines(cart, lines)), k) == CartShare(cart, lines, k)
    decreases |cart|
  {
    if |cart| > 0 {
      var front := cart[..|cart| - 1];
      AccumulateIsCartShare(front, lines, k);
      IdAmountsConcat(CartLines(front, lines), LinesOf(lines, cart[|cart| - 1]));
      AmountOfConcat(IdAmounts(CartLines(front, lines)), IdAmounts(LinesOf(lines, cart[|cart| - 1])), k);
    }
  }

  /** Lines 16-23: the intermediate dict holds exactly the ingredients the cart recipes use,
      in order of first use, each with the sum of its amounts over all cart entries. */
  lemma AccumulateTotals(cart: seq<RecipeId>, lines: seq<RecipeIngredient>)
    ensures var acc := Accumulate(cart, lines);
            && acc.keys == Dedup(Ingredients(CartLines(cart, lines)))
            && FirstSeenOrder(acc.keys, Ingredients(CartLines(cart, lines)))
            && (forall k :: k in acc.vals <==> k in Ingredients(CartLines(cart, lines)))
            && (forall k | k in acc.vals :: acc.vals[k] == CartShare(cart, lines, k))
  {
    var ps := IdAmounts(CartLines(cart, lines));
    SumsKeys(ps);
    SumsValues(ps);
    DedupFirstSeen(Ingredients(CartLines(cart, lines)));
    forall k | k in Accumulate(cart, lines).vals {
      AccumulateIsCartShare(cart, lines, k);
    }
  }

  /** Conservation: the accumulated amounts add up to the amounts of all visited lines. */
  lemma AccumulateConserves(cart: seq<RecipeId>, lines: seq<RecipeIngredient>)
    ensures var acc := Accumulate(cart, lines);
            SumOver(acc.keys, acc.vals) == Total(IdAmounts(CartLines(cart, lines)))
  {
    SumsConserve(IdAmounts(CartLines(cart, lines)));
  }

  /** When every line has a positive amount (what `validate_amount` is meant to ensure),
      every accumulated total is positive. */
  lemma AccumulatePositive(cart: seq<RecipeId>, lines: seq<RecipeIngredient>)
    requires forall l | l in lines :: l.amount >= 1
    ensures forall k | k in Accumulate(cart, lines).vals :: Accumulate(cart, lines).vals[k] >= 1
  {
    var ls := CartLines(cart, lines);
    var ps := IdAmounts(ls);
    SumsValues(ps);
    assert forall i :: 0 <= i < |ps| ==> ps[i].1 == ls[i].amount && ls[i] in lines;
    forall k | k in Accumulate(cart, lines).vals
      ensures Accumulate(cart, lines).vals[k] >= 1
    {
      AmountOfPositive(ps, k);
    }
  }

  /** No deduplication: a recipe listed twice contributes its amounts twice. */
  lemma AccumulateCountsRepeats(lines: seq<RecipeIngredient>, r: RecipeId, k: IngredientId)
    ensures AmountOf(IdAmounts(CartLines([r, r], lines)), k)
         == 2 * AmountOf(IdAmounts(CartLines([r], lines)), k)
  {
    AccumulateIsCartShare([r, r], lines, k);
    AccumulateIsCartShare([r], lines, k);
    assert [r, r][..1] == [r];
  }

  /** Every ingredient the dict holds is in the catalogue, so it can be re-keyed. */
  predicate Known(acc: Dict<IngredientId, int>, catalogue: Catalogue) {
    Valid(acc) && forall k | k in acc.keys :: k in catalogue
  }

  lemma AccumulateKnown(cart: seq<RecipeId>, lines: seq<RecipeIngredient>, catalogue: Catalogue)
    requires Resolved(lines, catalogue)
    ensures Known(Accumulate(cart, lines), catalogue)
  {
    var ls := CartLines(cart, lines);
    AccumulateTotals(cart, lines);
    forall k | k in Accumulate(cart, lines).keys
      ensures k in catalogue
    {
      var i :| 0 <= i < |ls| && Ingredients(ls)[i] == k;
      assert ls[i] in lines;
    }
  }

  /** The names of the accumulated ingredients, in dict order. */
  function NamesOf(acc: Dict<IngredientId, int>, catalogue: Catalogue): (names: seq<string>)
    requires Known(acc, catalogue)
    ensures |names| == |acc.keys|
  {
    seq(|acc.keys|, i requires 0 <= i < |acc.keys| => catalogue[acc.keys[i]].name)
  }

  /** The (name, rendered total) pairs the comprehension of lines 25-28 iterates over. */
  function NameEntries(acc: Dict<IngredientId, int>, catalogue: Catalogue): (es: seq<(string, string)>)
    requires Known(acc, catalogue)
    ensures KeysOf(es) == NamesOf(acc, catalogue)
  {
    seq(|acc.keys|, i requires 0 <= i < |acc.keys| =>
      (catalogue[acc.keys[i]].name, Format(acc.vals[acc.keys[i]], catalogue[acc.keys[i]].unit)))
  }

  /** `create_shopping_list` of backend/recipes/utilities.py: one entry per name of an
      ingredient used by a cart recipe, and no other. */
  function CreateShoppingList(cart: seq<RecipeId>, lines: seq<RecipeIngredient>, catalogue: Catalogue)
    : (r: Dict<string, string>)
    requires Resolved(lines, catalogue)
    ensures Valid(r)
    ensures forall n :: n in r.vals <==> n in NamesIn(CartLines(cart, lines), catalogue)
  {
    AccumulatedNames(cart, lines, catalogue);
    var es := NameEntries(Accumulate(cart, lines), catalogue);
    CollectSpec(es);
    Collect(es)
  }

  /** Lines 25-28: the final dict is keyed by ingredient name, in order of first use of
      each name. When distinct ingredients share a name, the name keeps the position of the
      first of them but holds the rendered total of the last. */
  lemma ShoppingListByName(cart: seq<RecipeId>, lines: seq<RecipeIngredient>, catalogue: Catalogue)
    requires Resolved(lines, catalogue)
    ensures Known(Accumulate(cart, lines), catalogue)
    ensures var acc := Accumulate(cart, lines);
            var names := NamesOf(acc, catalogue);
            var r := CreateShoppingList(cart, lines, catalogue);
            && Valid(r)
            && r.keys == Dedup(names)
            && (forall n :: n in r.vals <==> n in names)
            && (forall n | n in r.vals ::
                  var k := acc.keys[LastIndex(names, n)];
                  catalogue[k].name == n && r.vals[n] == Format(acc.vals[k], catalogue[k].unit))
  {
    AccumulateKnown(cart, lines, catalogue);
    var acc := Accumulate(cart, lines);
    var es := NameEntries(acc, catalogue);
    CollectSpec(es);
    forall n | n in Collect(es).vals
      ensures var k := acc.keys[LastIndex(NamesOf(acc, catalogue), n)];
              catalogue[k].name == n
    {
    }
  }

  /** An empty cart yields an empty shopping list. */
  lemma EmptyCartShoppingList(lines: seq<RecipeIngredient>, catalogue: Catalogue)
    requires Resolved(lines, catalogue)
    ensures CreateShoppingList([], lines, catalogue).keys == []
    ensures CreateShoppingList([], lines, catalogue).vals == map[]
  {
  }

  /** A cart recipe without lines contributes nothing. */
  lemma EmptyRecipeContributesNothing(
    before: seq<RecipeId>, r: RecipeId, after: seq<RecipeId>,
    lines: seq<RecipeIngredient>, catalogue: Catalogue)
    requires Resolved(lines, catalogue)
    requires LinesOf(lines, r) == []
    ensures CreateShoppingList(before + [r] + after, lines, catalogue)
         == CreateShoppingList(before + after, lines, catalogue)
  {
    assert [r][..0] == [];
    assert CartLines([r], lines) == [];
    calc {
      CartLines(before + [r] + after, lines);
    == { CartLinesConcat(before + [r], after, lines); }
      CartLines(before + [r], lines) + CartLines(after, lines);
    == { CartLinesConcat(before, [r], lines); }
      CartLines(before, lines) + CartLines(after, lines);
    == { CartLinesConcat(before, after, lines); }
      CartLines(before + after, lines);
    }
    SameCartLinesSameList(before + [r] + after, before + after, lines, catalogue);
  }

  /** The list depends on the cart only through the lines the loop visits. */
  lemma SameCartLinesSameList(c1: seq<RecipeId>, c2: seq<RecipeId>, lines: seq<RecipeIngredient>, catalogue: Catalogue)
    requires Resolved(lines, catalogue)
    requires CartLines(c1, lines) == CartLines(c2, lines)
    ensures CreateShoppingList(c1, lines, catalogue) == CreateShoppingList(c2, lines, catalogue)
  {
    assert Accumulate(c1, lines) == Accumulate(c2, lines);
  }

  /** The name collision of lines 25-28 on a concrete cart: two ingredients called "salt",
      one in g and one in kg; the list shows only the kilogram total. */
  lemma SameNameKeepsLaterTotal()
    ensures var catalogue := map[1 := Ingredient("salt", "g"), 2 := Ingredient("salt", "kg")];
            var lines := [RecipeIngredient(7, 1, 5), RecipeIngredient(7, 2, 3)];
            var r := CreateShoppingList([7], lines, catalogue);
            r.keys == ["salt"] && r.vals["salt"] == Format(3, "kg")
  {
    var catalogue := map[1 := Ingredient("salt", "g"), 2 := Ingredient("salt", "kg")];
    var lines := [RecipeIngredient(7, 1, 5), RecipeIngredient(7, 2, 3)];
    SaltAccumulate(lines);
    SaltEntries(Accumulate([7], lines), catalogue);
    CollectTwoSameKey("salt", Format(5, "g"), Format(3, "kg"));
  }

  /** The two entries of `SameNameKeepsLaterTotal` before the comprehension. */
  lemma SaltEntries(acc: Dict<IngredientId, int>, catalogue: Catalogue)
    requires acc == Dict([1, 2], map[1 := 5, 2 := 3])
    requires catalogue == map[1 := Ingredient("salt", "g"), 2 := Ingredient("salt", "kg")]
    ensures Known(acc, catalogue)
    ensures NameEntries(acc, catalogue) == [("salt", Format(5, "g"))] + [("salt", Format(3, "kg"))]
  {
    TwoNameEntries(1, 5, 2, 3, catalogue);
  }

  /** Two accumulated ingredients give two entries, in dict order. */
  lemma TwoNameEntries(k1: IngredientId, a1: int, k2: IngredientId, a2: int, catalogue: Catalogue)
    requires k1 != k2 && k1 in catalogue && k2 in catalogue
    ensures Known(Dict([k1, k2], map[k1 := a1, k2 := a2]), catalogue)
    ensures NameEntries(Dict([k1, k2], map[k1 := a1, k2 := a2]), catalogue)
         == [(catalogue[k1].name, Format(a1, catalogue[k1].unit))]
          + [(catalogue[k2].name, Format(a2, catalogue[k2].unit))]
  {
    var es := NameEntries(Dict([k1, k2], map[k1 := a1, k2 := a2]), catalogue);
    assert es[0] == (catalogue[k1].name, Format(a1, catalogue[k1].unit));
  }

  /** The cart `[7]` of `SameNameKeepsLaterTotal` accumulates to {1: 5, 2: 3}. */
  lemma SaltAccumulate(lines: seq<RecipeIngredient>)
    requires lines == [RecipeIngredient(7, 1, 5), RecipeIngredient(7, 2, 3)]
    ensures Accumulate([7], lines) == Dict([1, 2], map[1 := 5, 2 := 3])
  {
    SaltPairs(lines);
    SumsTwoKeys<IngredientId>(1, 5, 2, 3);
    assert Accumulate([7], lines) == Sums<IngredientId>([(1, 5)] + [(2, 3)]);
  }

  lemma SaltPairs(lines: seq<RecipeIngredient>)
    requires lines == [RecipeIngredient(7, 1, 5), RecipeIngredient(7, 2, 3)]
    ensures IdAmounts(CartLines([7], lines)) == [(1, 5)] + [(2, 3)]
  {
    FilterExtremes(lines, BelongsTo(7));
    assert [7][..0] == [];
    assert CartLines([7], lines) == lines;
  }

  /** Two pairs with different keys: two entries, in order. */
  lemma SumsTwoKeys<K>(k1: K, a1: int, k2: K, a2: int)
    requires k1 != k2
    ensures Sums([(k1, a1)] + [(k2, a2)]) == Dict([k1, k2], map[k1 := a1, k2 := a2])
  {
    assert [(k1, a1)] == [] + [(k1, a1)];
    SumsStep([], (k1, a1));
    SumsStep([(k1, a1)], (k2, a2));
    var one := Sums([(k1, a1)]);
    assert one == AddAmount(Empty(), k1, a1);
    assert one.keys == [k1] && one.vals == map[k1 := a1];
  }

  /** Two assignments to the same key: one entry, holding the second value. */
  lemma CollectTwoSameKey<V>(k: string, v1: V, v2: V)
    ensures Collect([(k, v1)] + [(k, v2)]) == Dict([k], map[k := v2])
  {
    assert [(k, v1)] == [] + [(k, v1)];
    CollectStep([], (k, v1));
    CollectStep([(k, v1)], (k, v2));
    var one := Collect([(k, v1)]);
    assert one == Put(Empty(), k, v1);
    assert one.keys == [k] && one.vals == map[k := v1];
    assert one.vals[k := v2] == map[k := v2];
  }


  /** The accumulated keys are the ingredients of the visited lines. */
  lemma AccumulateKeys(cart: seq<RecipeId>, lines: seq<RecipeIngredient>)
    ensures forall k :: k in Accumulate(cart, lines).keys <==> k in Ingredients(CartLines(cart, lines))
  {
    SumsValues(IdAmounts(CartLines(cart, lines)));
  }

  lemma NameOfKeyIsUsed(cart: seq<RecipeId>, lines: seq<RecipeIngredient>, catalogue: Catalogue, q: nat)
    requires Resolved(lines, catalogue)
    requires Known(Accumulate(cart, lines), catalogue)
    requires q < |Accumulate(cart, lines).keys|
    ensures NamesOf(Accumulate(cart, lines), catalogue)[q] in NamesIn(CartLines(cart, lines), catalogue)
  {
    var acc := Accumulate(cart, lines);
    var ls := CartLines(cart, lines);
    AccumulateKeys(cart, lines);
    assert acc.keys[q] in acc.keys;
    var p :| 0 <= p < |ls| && Ingredients(ls)[p] == acc.keys[q];
    assert NamesIn(ls, catalogue)[p] == NamesOf(acc, catalogue)[q];
  }

  lemma UsedNameIsKeyed(cart: seq<RecipeId>, lines: seq<RecipeIngredient>, catalogue: Catalogue, p: nat)
    requires Resolved(lines, catalogue)
    requires Known(Accumulate(cart, lines), catalogue)
    requires p < |CartLines(cart, lines)|
    ensures NamesIn(CartLines(cart, lines), catalogue)[p] in NamesOf(Accumulate(cart, lines), catalogue)
  {
    var acc := Accumulate(cart, lines);
    var ls := CartLines(cart, lines);
    AccumulateKeys(cart, lines);
    assert Ingredients(ls)[p] in Ingredients(ls);
    var q :| 0 <= q < |acc.keys| && acc.keys[q] == ls[p].ingredient;
    assert NamesOf(acc, catalogue)[q] == NamesIn(ls, catalogue)[p];
  }

  /** The names the accumulated dict re-keys to are the names of the visited lines. */
  lemma AccumulatedNames(cart: seq<RecipeId>, lines: seq<RecipeIngredient>, catalogue: Catalogue)
    requires Resolved(lines, catalogue)
    ensures Known(Accumulate(cart, lines), catalogue)
    ensures forall n :: n in NamesOf(Accumulate(cart, lines), catalogue) <==> n in NamesIn(CartLines(cart, lines), catalogue)
  {
    AccumulateKnown(cart, lines, catalogue);
    var names := NamesOf(Accumulate(cart, lines), catalogue);
    var used := NamesIn(CartLines(cart, lines), catalogue);
    forall q | 0 <= q < |names| {
      NameOfKeyIsUsed(cart, lines, catalogue, q);
    }
    forall p | 0 <= p < |used| {
      UsedNameIsKeyed(cart, lines, catalogue, p);
    }
  }

  /** One iteration of the inner loop of lines 16-23 is one accumulation step. */
  lemma AddLineStep(seen: seq<(IngredientId, int)>, recipeLines: seq<RecipeIngredient>, j: nat)
    requires j < |recipeLines|
    ensures Sums(seen + IdAmounts(recipeLines[..j + 1]))
         == AddAmount(Sums(seen + IdAmounts(recipeLines[..j])), recipeLines[j].ingredient, recipeLines[j].amount)
  {
    var line := recipeLines[j];
    assert recipeLines[..j + 1] == recipeLines[..j] + [line];
    IdAmountsConcat(recipeLines[..j], [line]);
    assert seen + IdAmounts(recipeLines[..j + 1]) == seen + IdAmounts(recipeLines[..j]) + [(line.ingredient, line.amount)];
    SumsStep(seen + IdAmounts(recipeLines[..j]), (line.ingredient, line.amount));
  }

  /** The inner loop of lines 16-23: add the amount of each line of one recipe to the entry
      of its ingredient, creating the entry on first sight. */
  method AddLines(acc0: Dict<IngredientId, int>, recipeLines: seq<RecipeIngredient>, ghost seen: seq<(IngredientId, int)>)
    returns (acc: Dict<IngredientId, int>)
    requires acc0 == Sums(seen)
    ensures acc == Sums(seen + IdAmounts(recipeLines))
  {
    acc := acc0;
    var j := 0;
    assert seen + IdAmounts(recipeLines[..0]) == seen;
    while j < |recipeLines|
      invariant 0 <= j <= |recipeLines|
      invariant acc == Sums(seen + IdAmounts(recipeLines[..j]))
    {
      var line := recipeLines[j];
      AddLineStep(seen, recipeLines, j);
      acc := AddAmount(acc, line.ingredient, line.amount);
      j := j + 1;
    }
    assert recipeLines[..j] == recipeLines;
  }

  /** Lines 16-23 as written: for each cart recipe, for each of its lines, add the amount
      to the entry of its ingredient, creating the entry on first sight. */
  method AccumulateLoop(cart: seq<RecipeId>, lines: seq<RecipeIngredient>)
    returns (acc: Dict<IngredientId, int>)
    ensures acc == Accumulate(cart, lines)
    ensures Valid(acc)
    ensures forall k | k in acc.vals :: acc.vals[k] == CartShare(cart, lines, k)
  {
    acc := Empty();
    var i := 0;
    while i < |cart|
      invariant 0 <= i <= |cart|
      invariant acc == Sums(IdAmounts(CartLines(cart[..i], lines)))
    {
      var recipeLines := LinesOf(lines, cart[i]);
      acc := AddLines(acc, recipeLines, IdAmounts(CartLines(cart[..i], lines)));
      assert cart[..i + 1][..i] == cart[..i];
      IdAmountsConcat(CartLines(cart[..i], lines), recipeLines);
      i := i + 1;
    }
    assert cart[..i] == cart;
    AccumulateTotals(cart, lines);
  }

  /** Lines 25-28 as written: one assignment per accumulated ingredient, in dict order. */
  method ReKeyLoop(acc: Dict<IngredientId, int>, catalogue: Catalogue) returns (list: Dict<string, string>)
    requires Known(acc, catalogue)
    ensures list == Collect(NameEntries(acc, catalogue))
    ensures forall n :: n in list.vals <==> n in NamesOf(acc, catalogue)
  {
    ghost var es := NameEntries(acc, catalogue);
    list := Empty();
    var k := 0;
    while k < |acc.keys|
      invariant 0 <= k <= |acc.keys|
      invariant list == Collect(es[..k])
    {
      var ingredient := catalogue[acc.keys[k]];
      ReKeyStep(acc, catalogue, k);
      list := Put(list, ingredient.name, Format(acc.vals[acc.keys[k]], ingredient.unit));
      k := k + 1;
    }
    ReKeyDone(acc, catalogue);
  }

  /** One iteration of the comprehension assigns the next accumulated ingredient's entry. */
  lemma ReKeyStep(acc: Dict<IngredientId, int>, catalogue: Catalogue, k: nat)
    requires Known(acc, catalogue)
    requires k < |acc.keys|
    ensures var es := NameEntries(acc, catalogue);
            var ingredient := catalogue[acc.keys[k]];
            Collect(es[..k + 1]) == Put(Collect(es[..k]), ingredient.name, Format(acc.vals[acc.keys[k]], ingredient.unit))
  {
    var es := NameEntries(acc, catalogue);
    assert es[..k + 1] == es[..k] + [es[k]];
    CollectStep(es[..k], es[k]);
  }

  /** After the last iteration the comprehension holds exactly the accumulated names. */
  lemma ReKeyDone(acc: Dict<IngredientId, int>, catalogue: Catalogue)
    requires Known(acc, catalogue)
    ensures var es := NameEntries(acc, catalogue);
            && es[..|acc.keys|] == es
            && forall n :: n in Collect(es).vals <==> n in NamesOf(acc, catalogue)
  {
    var es := NameEntries(acc, catalogue);
    assert es[..|acc.keys|] == es;
    CollectSpec(es);
  }

  /** `create_shopping_list` of backend/recipes/utilities.py run as its loops. */
  method BuildShoppingList(cart: seq<RecipeId>, lines: seq<RecipeIngredient>, catalogue: Catalogue)
    returns (list: Dict<string, string>)
    requires Resolved(lines, catalogue)
    ensures list == CreateShoppingList(cart, lines, catalogue)
    ensures Valid(list)
    ensures forall n :: n in list.vals <==> n in NamesIn(CartLines(cart, lines), catalogue)
  {
    var acc := AccumulateLoop(cart, lines);
    AccumulatedNames(cart, lines, catalogue);
    list := ReKeyLoop(acc, catalogue);
  }

  // ---------------------------------------------------------------------------
  // backend/api/utilities.py: group by (name, unit) over the cart, then key by name
  // ---------------------------------------------------------------------------

  /** `RecipeIngredient.objects.filter(recipe__in=cart)`: each line at most once, however
      often its recipe occurs in the cart. */
  function InCart(lines: seq<RecipeIngredient>, cart: seq<RecipeId>): seq<RecipeIngredient> {
    Filter(lines, (l: RecipeIngredient) => l.recipe in cart)
  }

  /** Each line as a ((name, unit), amount) pair, the grouping key of `.values(...)`. */
  function NameUnitAmounts(ls: seq<RecipeIngredient>, catalogue: Catalogue): (ps: seq<((string, string), int)>)
    requires Resolved(ls, catalogue)
    ensures |ps| == |ls|
    ensures forall i :: 0 <= i < |ls| ==> ps[i].0.0 == NamesIn(ls, catalogue)[i]
  {
    seq(|ls|, i requires 0 <= i < |ls| =>
      ((catalogue[ls[i].ingredient].name, catalogue[ls[i].ingredient].unit), ls[i].amount))
  }

  /** Lines 16-20: `.values(name, unit).annotate(amount_sum=Sum('amount'))`. The database
      gives the groups no defined order; the model lists them in order of first occurrence. */
  function Groups(cart: seq<RecipeId>, lines: seq<RecipeIngredient>, catalogue: Catalogue)
    : Dict<(string, string), int>
    requires Resolved(lines, catalogue)
  {
    Sums(NameUnitAmounts(InCart(lines, cart), catalogue))
  }

  /** The (name, rendered total) pairs the comprehension of lines 22-29 iterates over. */
  function GroupEntries(groups: Dict<(string, string), int>): (es: seq<(string, string)>)
    requires Valid(groups)
    ensures |es| == |groups.keys|
    ensures forall i :: 0 <= i < |es| ==> KeysOf(es)[i] == groups.keys[i].0
  {
    seq(|groups.keys|, i requires 0 <= i < |groups.keys| =>
      (groups.keys[i].0, Format(groups.vals[groups.keys[i]], groups.keys[i].1)))
  }

  /** `create_shopping_list` of backend/api/utilities.py: one entry per name of an
      ingredient of a line whose recipe is in the cart, and no other. */
  function CreateGroupedShoppingList(cart: seq<RecipeId>, lines: seq<RecipeIngredient>, catalogue: Catalogue)
    : (r: Dict<string, string>)
    requires Resolved(lines, catalogue)
    ensures Valid(r)
    ensures forall n :: n in r.vals <==> n in NamesIn(InCart(lines, cart), catalogue)
  {
    GroupNames(cart, lines, catalogue);
    var es := GroupEntries(Groups(cart, lines, catalogue));
    CollectSpec(es);
    Collect(es)
  }

  /** Lines 16-20: the groups are exactly the (name, unit) pairs of the lines whose recipe
      is in the cart, in order of first occurrence, and each holds the sum of the amounts of
      those of the lines that carry its (name, unit). */
  lemma GroupTotals(cart: seq<RecipeId>, lines: seq<RecipeIngredient>, catalogue: Catalogue)
    requires Resolved(lines, catalogue)
    ensures forall l | l in InCart(lines, cart) :: l in lines && l.recipe in cart
    ensures forall l | l in lines && l.recipe in cart :: l in InCart(lines, cart)
    ensures var ps := NameUnitAmounts(InCart(lines, cart), catalogue);
            var g := Groups(cart, lines, catalogue);
            && g.keys == Dedup(KeysOf(ps))
            && (forall key :: key in g.vals <==> key in KeysOf(ps))
            && (forall key | key in g.vals :: g.vals[key] == AmountOf(ps, key))
  {
    var ps := NameUnitAmounts(InCart(lines, cart), catalogue);
    SumsKeys(ps);
    SumsValues(ps);
  }

  /** Line 17: only the set of cart recipes matters, not their order or repetition. */
  lemma GroupedCartIsASet(c1: seq<RecipeId>, c2: seq<RecipeId>, lines: seq<RecipeIngredient>, catalogue: Catalogue)
    requires Resolved(lines, catalogue)
    requires forall r :: r in c1 <==> r in c2
    ensures CreateGroupedShoppingList(c1, lines, catalogue) == CreateGroupedShoppingList(c2, lines, catalogue)
  {
    FilterAgree(lines, (l: RecipeIngredient) => l.recipe in c1, (l: RecipeIngredient) => l.recipe in c2);
  }

  /** Consequently a recipe listed again adds nothing, unlike the per-recipe loop. */
  lemma GroupedIgnoresRepeats(cart: seq<RecipeId>, r: RecipeId, lines: seq<RecipeIngredient>, catalogue: Catalogue)
    requires Resolved(lines, catalogue)
    requires r in cart
    ensures CreateGroupedShoppingList(cart + [r], lines, catalogue) == CreateGroupedShoppingList(cart, lines, catalogue)
  {
    GroupedCartIsASet(cart + [r], cart, lines, catalogue);
  }

  /** Every group's name is the name of some line it sums. */
  lemma GroupKeyIsUsed(ls: seq<RecipeIngredient>, catalogue: Catalogue, i: nat)
    requires Resolved(ls, catalogue)
    requires i < |Sums(NameUnitAmounts(ls, catalogue)).keys|
    ensures Sums(NameUnitAmounts(ls, catalogue)).keys[i].0 in NamesIn(ls, catalogue)
  {
    var ps := NameUnitAmounts(ls, catalogue);
    var key := Sums(ps).keys[i];
    SumsValues(ps);
    assert key in Sums(ps).vals;
    var p :| 0 <= p < |ps| && KeysOf(ps)[p] == key;
    assert NamesIn(ls, catalogue)[p] == key.0;
  }

  /** Every line's name is the name of some group. */
  lemma UsedNameIsGroupKey(ls: seq<RecipeIngredient>, catalogue: Catalogue, p: nat)
    requires Resolved(ls, catalogue)
    requires p < |ls|
    ensures exists i :: 0 <= i < |Sums(NameUnitAmounts(ls, catalogue)).keys|
                        && Sums(NameUnitAmounts(ls, catalogue)).keys[i].0 == NamesIn(ls, catalogue)[p]
  {
    var ps := NameUnitAmounts(ls, catalogue);
    var g := Sums(ps);
    SumsValues(ps);
    assert KeysOf(ps)[p] in KeysOf(ps);
    assert ps[p].0 in g.vals;
    var i :| 0 <= i < |g.keys| && g.keys[i] == ps[p].0;
    assert g.keys[i].0 == NamesIn(ls, catalogue)[p];
  }

  /** The names the groups re-key to are the names of the cart lines. */
  lemma GroupNames(cart: seq<RecipeId>, lines: seq<RecipeIngredient>, catalogue: Catalogue)
    requires Resolved(lines, catalogue)
    ensures forall n :: n in KeysOf(GroupEntries(Groups(cart, lines, catalogue)))
                   <==> n in NamesIn(InCart(lines, cart), catalogue)
  {
    var ls := InCart(lines, cart);
    var g := Groups(cart, lines, catalogue);
    GroupEntryNames(g);
    forall n | n in KeysOf(GroupEntries(g))
      ensures n in NamesIn(ls, catalogue)
    {
      var i :| 0 <= i < |g.keys| && g.keys[i].0 == n;
      GroupKeyIsUsed(ls, catalogue, i);
    }
    forall n | n in NamesIn(ls, catalogue)
      ensures n in KeysOf(GroupEntries(g))
    {
      var p :| 0 <= p < |ls| && NamesIn(ls, catalogue)[p] == n;
      UsedNameIsGroupKey(ls, catalogue, p);
    }
  }

  /** The names of the entries are the names of the groups. */
  lemma GroupEntryNames(g: Dict<(string, string), int>)
    requires Valid(g)
    ensures forall n :: n in KeysOf(GroupEntries(g)) <==> exists i :: 0 <= i < |g.keys| && g.keys[i].0 == n
  {
    var names := KeysOf(GroupEntries(g));
    forall n | n in names
      ensures exists i :: 0 <= i < |g.keys| && g.keys[i].0 == n
    {
      var i :| 0 <= i < |names| && names[i] == n;
      assert g.keys[i].0 == n;
    }
    forall i | 0 <= i < |g.keys|
      ensures g.keys[i].0 in names
    {
      assert names[i] == g.keys[i].0;
    }
  }

  /** Lines 22-29: the keys are exactly the names of the ingredients of the cart lines; a
      name shared by groups of different units keeps the total of the last such group. */
  lemma GroupedByName(cart: seq<RecipeId>, lines: seq<RecipeIngredient>, catalogue: Catalogue)
    requires Resolved(lines, catalogue)
    ensures var g := Groups(cart, lines, catalogue);
            var names := KeysOf(GroupEntries(g));
            var r := CreateGroupedShoppingList(cart, lines, catalogue);
            && Valid(r)
            && r.keys == Dedup(names)
            && (forall n :: n in r.vals <==> n in NamesIn(InCart(lines, cart), catalogue))
            && (forall n | n in r.vals ::
                  var key := g.keys[LastIndex(names, n)];
                  key.0 == n && r.vals[n] == Format(g.vals[key], key.1))
  {
    CollectSpec(GroupEntries(Groups(cart, lines, catalogue)));
    GroupNames(cart, lines, catalogue);
  }

  /** When every cart line named `n` uses the unit `u`, the entry for `n` is the total of
      those lines rendered with `u`. */
  lemma GroupedSingleUnit(cart: seq<RecipeId>, lines: seq<RecipeIngredient>, catalogue: Catalogue, n: string, u: string)
    requires Resolved(lines, catalogue)
    requires n in NamesIn(InCart(lines, cart), catalogue)
    requires forall l | l in lines && l.recipe in cart && catalogue[l.ingredient].name == n ::
               catalogue[l.ingredient].unit == u
    ensures var r := CreateGroupedShoppingList(cart, lines, catalogue);
            && n in r.vals
            && r.vals[n] == Format(AmountOf(NameUnitAmounts(InCart(lines, cart), catalogue), (n, u)), u)
  {
    GroupedByName(cart, lines, catalogue);
    var ls := InCart(lines, cart);
    var ps := NameUnitAmounts(ls, catalogue);
    var g := Groups(cart, lines, catalogue);
    var i := LastIndex(KeysOf(GroupEntries(g)), n);
    GroupUnit(ls, catalogue, i, n, u);
    SumsValues(ps);
    assert g.keys[i] in g.vals;
  }

  /** A group whose name is used with one unit only is the group of that unit. */
  lemma GroupUnit(ls: seq<RecipeIngredient>, catalogue: Catalogue, i: nat, n: string, u: string)
    requires Resolved(ls, catalogue)
    requires forall l | l in ls && catalogue[l.ingredient].name == n :: catalogue[l.ingredient].unit == u
    requires i < |Sums(NameUnitAmounts(ls, catalogue)).keys|
    requires Sums(NameUnitAmounts(ls, catalogue)).keys[i].0 == n
    ensures Sums(NameUnitAmounts(ls, catalogue)).keys[i] == (n, u)
  {
    var ps := NameUnitAmounts(ls, catalogue);
    var key := Sums(ps).keys[i];
    SumsValues(ps);
    assert key in Sums(ps).vals;
    var p :| 0 <= p < |ps| && KeysOf(ps)[p] == key;
    assert ls[p] in ls;
  }

  /** An empty cart yields an empty shopping list. */
  lemma EmptyCartGroupedShoppingList(lines: seq<RecipeIngredient>, catalogue: Catalogue)
    requires Resolved(lines, catalogue)
    ensures CreateGroupedShoppingList([], lines, catalogue).keys == []
  {
  }
}
