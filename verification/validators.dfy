/** The field validators of the two recipe serializers. */
module Validators {
  import opened Wrappers
  import opened Domain
  import opened OrderedDict

  /** One submitted `ingredients` item: `{"id": ..., "amount": ...}`. */
  datatype IngredientAmount = IngredientAmount(id: IngredientId, amount: int)

  /** `validate_amount` of backend/api/serializers.py: an amount must be positive and is
      kept as given. */
  function ValidateAmount(amount: int): (r: Result<int>)
    ensures r.Success? <==> amount >= 1
    ensures r.Success? ==> r.value == amount
    ensures r.Failure? ==> r.error == ValidationFailed
  {
    if amount <= 0 then Failure(ValidationFailed) else Success(amount)
  }

  /** `validate_amount` of backend/recipes/serializers.py as written: the error object is
      built but not raised, so every amount comes back unchanged. */
  function LenientValidateAmount(amount: int): (r: Result<int>)
    ensures r.Success? && r.value == amount
  {
    Success(amount)
  }

  /** The two `validate_amount`s disagree on every amount that is not positive: the
      lenient one lets zero and negative amounts into the recipe. */
  lemma LenientAcceptsNonPositive(amount: int)
    ensures amount <= 0 <==> LenientValidateAmount(amount).Success? && ValidateAmount(amount).Failure?
    ensures LenientValidateAmount(0) == Success(0) && ValidateAmount(0) == Failure(ValidationFailed)
  {
  }

  /** Wherever the strict validator accepts, the lenient one agrees with it. */
  lemma ValidatorsAgreeOnPositive(amount: int)
    requires amount >= 1
    ensures LenientValidateAmount(amount) == ValidateAmount(amount)
  {
  }

  /** `validate_cooking_time` (identical in both serializers): at least one minute. */
  function ValidateCookingTime(cookingTime: int): (r: Result<int>)
    ensures r.Success? <==> cookingTime >= 1
    ensures r.Success? ==> r.value == cookingTime
    ensures r.Failure? ==> r.error == ValidationFailed
  {
    if cookingTime < 1 then Failure(ValidationFailed) else Success(cookingTime)
  }

  /** The two guards are spelled `cooking_time < 1` and `amount <= 0` but enforce the same
      rule, and a value that passed is accepted again unchanged. */
  lemma CookingTimeRuleIsAmountRule(x: int)
    ensures ValidateCookingTime(x) == ValidateAmount(x)
    ensures ValidateCookingTime(x).Success? ==> ValidateCookingTime(ValidateCookingTime(x).value) == ValidateCookingTime(x)
  {
  }

  /** The ingredient ids of the submitted items, in order. */
  function Ids(items: seq<IngredientAmount>): (ids: seq<IngredientId>)
    ensures |ids| == |items|
    ensures forall i :: 0 <= i < |items| ==> ids[i] == items[i].id
  {
    seq(|items|, i requires 0 <= i < |items| => items[i].id)
  }

  /** `set(s)`. */
  function Elements<T(==)>(s: seq<T>): set<T> {
    set x | x in s
  }

  /** `len(s) == len(set(s))` holds exactly when no element repeats. */
  lemma {:induction false} ElementsCard<T>(s: seq<T>)
    ensures |Elements(s)| <= |s|
    ensures |Elements(s)| == |s| <==> Distinct(s)
    decreases |s|
  {
    if |s| > 0 {
      var p, x := s[..|s| - 1], s[|s| - 1];
      assert s == p + [x];
      ElementsCard(p);
      assert Elements(s) == Elements(p) + {x};
      if x in p {
        var i :| 0 <= i < |p| && p[i] == x;
        assert s[i] == s[|s| - 1];
        assert Elements(s) == Elements(p);
      } else {
        assert x !in Elements(p);
        if Distinct(p) {
          forall i, j | 0 <= i < j < |s|
            ensures s[i] != s[j]
          {
            if j == |s| - 1 {
              assert s[i] == p[i];
            } else {
              assert s[i] == p[i] && s[j] == p[j];
            }
          }
        } else {
          var i, j :| 0 <= i < j < |p| && p[i] == p[j];
          assert s[i] == s[j];
        }
      }
    } else {
      assert Elements(s) == {};
    }
  }

  /** `validate_ingredients` of backend/api/serializers.py: the same ingredient must not be
      listed twice; otherwise the items are returned unchanged. */
  function ValidateIngredients(items: seq<IngredientAmount>): (r: Result<seq<IngredientAmount>>)
    ensures r.Failure? <==> exists i, j :: 0 <= i < j < |items| && items[i].id == items[j].id
    ensures r.Failure? ==> r.error == ValidationFailed
    ensures r.Success? ==> r.value == items
  {
    var ids := Ids(items);
    ElementsCard(ids);
    if |ids| != |Elements(ids)| then
      assert !Distinct(ids);
      var i, j :| 0 <= i < j < |ids| && ids[i] == ids[j];
      assert items[i].id == items[j].id;
      Failure(ValidationFailed)
    else
      Success(items)
  }

  /** `validate_ingredients` of backend/recipes/serializers.py: each id must name an
      existing ingredient (the first missing one is a 404); repeated ids are accepted. */
  function ValidateIngredientsExist(items: seq<IngredientAmount>, catalogue: Catalogue)
    : (r: Result<seq<IngredientAmount>>)
    ensures r.Failure? <==> exists i :: 0 <= i < |items| && items[i].id !in catalogue
    ensures r.Failure? ==> r.error == NotFound
    ensures r.Success? ==> r.value == items
    decreases |items|
  {
    if |items| == 0 then Success(items)
    else if items[0].id !in catalogue then Failure(NotFound)
    else
      var rest := ValidateIngredientsExist(items[1..], catalogue);
      if rest.Failure? then
        var i :| 0 <= i < |items[1..]| && items[1..][i].id !in catalogue;
        assert items[i + 1].id !in catalogue;
        rest
      else
        assert forall i :: 1 <= i < |items| ==> items[i] == items[1..][i - 1];
        Success(items)
  }

  /** The two `validate_ingredients` differ: a repeated existing ingredient passes the
      existence check but not the duplicate check. */
  lemma ExistenceCheckAllowsRepeats(item: IngredientAmount, catalogue: Catalogue)
    requires item.id in catalogue
    ensures ValidateIngredientsExist([item, item], catalogue).Success?
    ensures ValidateIngredients([item, item]).Failure?
  {
    assert [item, item][1..] == [item];
    assert [item][1..] == [];
  }
}
