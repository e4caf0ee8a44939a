/** Python's insertion-ordered `dict`, and the two ways the shopping lists fill one:
    accumulating sums per key, and plain assignment where a later value overwrites an
    earlier one. Keys keep the position of their first insertion in both. */
module OrderedDict {

  predicate Distinct<T(==)>(s: seq<T>) {
    forall i, j :: 0 <= i < j < |s| ==> s[i] != s[j]
  }

  /** A dictionary: the iteration order of its keys and the value stored under each. */
  datatype Dict<K(==), V> = Dict(keys: seq<K>, vals: map<K, V>)

  predicate Valid<K(==), V>(d: Dict<K, V>) {
    && Distinct(d.keys)
    && (forall k | k in d.vals :: k in d.keys)
    && (forall k | k in d.keys :: k in d.vals)
  }

  function Empty<K(==), V>(): (d: Dict<K, V>)
    ensures Valid(d) && d.keys == []
  {
    Dict([], map[])
  }

  /** `d[k] = v`: an existing key keeps its position, a new key goes last. */
  function Put<K(==), V>(d: Dict<K, V>, k: K, v: V): (r: Dict<K, V>)
    requires Valid(d)
    ensures Valid(r)
    ensures r.vals == d.vals[k := v]
    ensures k in d.vals ==> r.keys == d.keys
    ensures k !in d.vals ==> r.keys == d.keys + [k]
  {
    Dict(if k in d.vals then d.keys else d.keys + [k], d.vals[k := v])
  }

  // ---------------------------------------------------------------------------
  // Reference notions over sequences
  // ---------------------------------------------------------------------------

  /** Index of the first `x` in `s`, or `|s|` when `x` does not occur. */
  function FirstIndex<T(==)>(s: seq<T>, x: T): (i: nat)
    ensures i <= |s|
    ensures i < |s| ==> s[i] == x
    ensures i == |s| <==> x !in s
    ensures forall j :: 0 <= j < i ==> s[j] != x
  {
    if |s| == 0 then 0 else if s[0] == x then 0 else 1 + FirstIndex(s[1..], x)
  }

  /** Index of the last `x` in `s`. */
  function LastIndex<T(==)>(s: seq<T>, x: T): (i: nat)
    requires x in s
    ensures i < |s| && s[i] == x
    ensures forall j :: i < j < |s| ==> s[j] != x
  {
    if s[|s| - 1] == x then |s| - 1 else LastIndex(s[..|s| - 1], x)
  }

  /** `r` lists its elements in the order in which they are first met in `s`. */
  predicate FirstSeenOrder<T(==)>(r: seq<T>, s: seq<T>) {
    forall i, j :: 0 <= i < j < |r| ==> FirstIndex(s, r[i]) < FirstIndex(s, r[j])
  }

  /** The distinct elements of `s`, each kept at its first occurrence. */
  function Dedup<T(==)>(s: seq<T>): (r: seq<T>)
    ensures Distinct(r)
    ensures forall x | x in r :: x in s
    ensures forall x | x in s :: x in r
    decreases |s|
  {
    if |s| == 0 then []
    else
      var r := Dedup(s[..|s| - 1]);
      var x := s[|s| - 1];
      assert s == s[..|s| - 1] + [x];
      if x in r then r else r + [x]
  }

  lemma {:induction false} FirstIndexAppend<T>(p: seq<T>, y: T, x: T)
    ensures x in p ==> FirstIndex(p + [y], x) == FirstIndex(p, x)
    ensures x !in p && x == y ==> FirstIndex(p + [y], x) == |p|
  {
    if |p| > 0 && p[0] != x {
      assert (p + [y])[1..] == p[1..] + [y];
      FirstIndexAppend(p[1..], y, x);
    }
  }

  /** Appending an element first met after everything in `r` keeps first-seen order. */
  lemma DedupAppendOrder<T>(r: seq<T>, s: seq<T>, x: T)
    requires FirstSeenOrder(r, s)
    requires forall e | e in r :: FirstIndex(s, e) < FirstIndex(s, x)
    ensures FirstSeenOrder(r + [x], s)
  {
    var r2 := r + [x];
    forall i, j | 0 <= i < j < |r2|
      ensures FirstIndex(s, r2[i]) < FirstIndex(s, r2[j])
    {
      assert r2[i] == r[i];
      if j < |r| {
        assert r2[j] == r[j];
      } else {
        assert r[i] in r;
      }
    }
  }

  lemma {:induction false} DedupFirstSeen<T>(s: seq<T>)
    ensures FirstSeenOrder(Dedup(s), s)
    decreases |s|
  {
    if |s| > 0 {
      var p, y := s[..|s| - 1], s[|s| - 1];
      assert s == p + [y];
      var rp := Dedup(p);
      DedupFirstSeen(p);
      forall e | e in rp
        ensures FirstIndex(s, e) == FirstIndex(p, e) < |p|
      {
        FirstIndexAppend(p, y, e);
      }
      forall i, j | 0 <= i < j < |rp|
        ensures FirstIndex(s, rp[i]) < FirstIndex(s, rp[j])
      {
        assert rp[i] in rp && rp[j] in rp;
      }
      if y !in rp {
        FirstIndexAppend(p, y, y);
        DedupAppendOrder(rp, s, y);
      }
    }
  }

  /** The keys of a sequence of (key, value) pairs, in order. */
  function KeysOf<K, V>(pairs: seq<(K, V)>): (ks: seq<K>)
    ensures |ks| == |pairs|
    ensures forall i :: 0 <= i < |pairs| ==> ks[i] == pairs[i].0
  {
    seq(|pairs|, i requires 0 <= i < |pairs| => pairs[i].0)
  }

  lemma KeysOfPrefix<K, V>(pairs: seq<(K, V)>)
    requires |pairs| > 0
    ensures KeysOf(pairs) == KeysOf(pairs[..|pairs| - 1]) + [pairs[|pairs| - 1].0]
  {
  }

  // ---------------------------------------------------------------------------
  // Accumulating sums: `if k in d: d[k] += a` / `else: d[k] = a`
  // ---------------------------------------------------------------------------

  /** What one pair contributes to the total of key `k`. */
  function Contribution<K(==)>(pair: (K, int), k: K): int {
    if pair.0 == k then pair.1 else 0
  }

  /** Reference total of key `k`: the sum of the amounts of every pair carrying `k`. */
  function AmountOf<K(==)>(pairs: seq<(K, int)>, k: K): int {
    if |pairs| == 0 then 0 else Contribution(pairs[0], k) + AmountOf(pairs[1..], k)
  }

  /** The sum of every amount in `pairs`. */
  function Total<K>(pairs: seq<(K, int)>): int {
    if |pairs| == 0 then 0 else pairs[0].1 + Total(pairs[1..])
  }

  /** One accumulation step: `d[k] += a` when `k` is present, `d[k] = a` otherwise. */
  function AddAmount<K(==)>(d: Dict<K, int>, k: K, a: int): (r: Dict<K, int>)
    requires Valid(d)
    ensures Valid(r)
    ensures r.vals == d.vals[k := (if k in d.vals then d.vals[k] else 0) + a]
    ensures k in d.vals ==> r.keys == d.keys
    ensures k !in d.vals ==> r.keys == d.keys + [k]
  {
    if k in d.vals then Put(d, k, d.vals[k] + a) else Put(d, k, a)
  }

  /** The dictionary the loop `for k, a in pairs: d[k] = d[k] + a if k in d else a`
      builds from an empty one. */
  function Sums<K(==)>(pairs: seq<(K, int)>): (d: Dict<K, int>)
    ensures Valid(d)
    decreases |pairs|
  {
    if |pairs| == 0 then Empty()
    else
      var d := Sums(pairs[..|pairs| - 1]);
      AddAmount(d, pairs[|pairs| - 1].0, pairs[|pairs| - 1].1)
  }

  /** One more pair: the sums grow by exactly one accumulation step. */
  lemma SumsStep<K>(pairs: seq<(K, int)>, x: (K, int))
    ensures Sums(pairs + [x]) == AddAmount(Sums(pairs), x.0, x.1)
  {
    assert (pairs + [x])[..|pairs|] == pairs;
  }

  /** Sum of the values stored under `keys`. */
  function SumOver<K(==)>(keys: seq<K>, vals: map<K, int>): int
    requires forall k :: k in keys ==> k in vals
  {
    if |keys| == 0 then 0 else vals[keys[0]] + SumOver(keys[1..], vals)
  }

  lemma {:induction false} AmountOfAppend<K>(pairs: seq<(K, int)>, x: (K, int), k: K)
    ensures AmountOf(pairs + [x], k) == AmountOf(pairs, k) + Contribution(x, k)
  {
    if |pairs| > 0 {
      assert (pairs + [x])[1..] == pairs[1..] + [x];
      AmountOfAppend(pairs[1..], x, k);
    }
  }

  lemma {:induction false} AmountOfAbsent<K>(pairs: seq<(K, int)>, k: K)
    requires k !in KeysOf(pairs)
    ensures AmountOf(pairs, k) == 0
  {
    if |pairs| > 0 {
      assert pairs[0].0 == KeysOf(pairs)[0];
      assert KeysOf(pairs[1..]) == KeysOf(pairs)[1..];
      AmountOfAbsent(pairs[1..], k);
    }
  }

  lemma {:induction false} TotalAppend<K>(pairs: seq<(K, int)>, x: (K, int))
    ensures Total(pairs + [x]) == Total(pairs) + x.1
  {
    if |pairs| > 0 {
      assert (pairs + [x])[1..] == pairs[1..] + [x];
      TotalAppend(pairs[1..], x);
    }
  }

  lemma {:induction false} SumOverAppend<K>(keys: seq<K>, k: K, vals: map<K, int>)
    requires forall j :: j in keys ==> j in vals
    requires k in vals
    ensures SumOver(keys + [k], vals) == SumOver(keys, vals) + vals[k]
  {
    if |keys| > 0 {
      assert (keys + [k])[1..] == keys[1..] + [k];
      SumOverAppend(keys[1..], k, vals);
    }
  }

  lemma {:induction false} SumOverUpdateAbsent<K>(keys: seq<K>, k: K, v: int, vals: map<K, int>)
    requires forall j :: j in keys ==> j in vals
    requires k !in keys
    ensures SumOver(keys, vals[k := v]) == SumOver(keys, vals)
  {
    if |keys| > 0 {
      SumOverUpdateAbsent(keys[1..], k, v, vals);
    }
  }

  lemma {:induction false} SumOverUpdatePresent<K>(keys: seq<K>, k: K, a: int, vals: map<K, int>)
    requires forall j :: j in keys ==> j in vals
    requires Distinct(keys) && k in keys
    ensures SumOver(keys, vals[k := vals[k] + a]) == SumOver(keys, vals) + a
  {
    if keys[0] == k {
      assert k !in keys[1..];
      SumOverUpdateAbsent(keys[1..], k, vals[k] + a, vals);
    } else {
      SumOverUpdatePresent(keys[1..], k, a, vals);
    }
  }

  /** The keys of the sums are the distinct keys of the pairs, in order of first occurrence. */
  lemma {:induction false} SumsKeys<K>(pairs: seq<(K, int)>)
    ensures Sums(pairs).keys == Dedup(KeysOf(pairs))
    decreases |pairs|
  {
    if |pairs| > 0 {
      KeysOfPrefix(pairs);
      SumsKeys(pairs[..|pairs| - 1]);
      var ks := KeysOf(pairs);
      assert ks[..|ks| - 1] == KeysOf(pairs[..|pairs| - 1]);
    }
  }

  /** Every key that occurs is present, and holds the sum of the amounts paired with it. */
  lemma {:induction false} SumsValues<K>(pairs: seq<(K, int)>)
    ensures forall k :: k in Sums(pairs).vals <==> k in KeysOf(pairs)
    ensures forall k :: k in Sums(pairs).vals ==> Sums(pairs).vals[k] == AmountOf(pairs, k)
    decreases |pairs|
  {
    if |pairs| > 0 {
      var p, x := pairs[..|pairs| - 1], pairs[|pairs| - 1];
      assert pairs == p + [x];
      KeysOfPrefix(pairs);
      SumsValues(p);
      var d := Sums(p);
      forall k | k in Sums(pairs).vals
        ensures Sums(pairs).vals[k] == AmountOf(pairs, k)
      {
        AmountOfAppend(p, x, k);
        if k == x.0 && k !in d.vals {
          AmountOfAbsent(p, k);
        }
      }
    }
  }

  /** With positive amounts only, every key that occurs has a positive total. */
  lemma {:induction false} AmountOfPositive<K>(pairs: seq<(K, int)>, k: K)
    requires forall i :: 0 <= i < |pairs| ==> pairs[i].1 >= 1
    ensures AmountOf(pairs, k) >= 0
    ensures k in KeysOf(pairs) ==> AmountOf(pairs, k) >= 1
  {
    if |pairs| > 0 {
      assert KeysOf(pairs[1..]) == KeysOf(pairs)[1..];
      AmountOfPositive(pairs[1..], k);
    }
  }

  /** Conservation: the values of the sums add up to the sum of all amounts. */
  lemma {:induction false} SumsConserve<K>(pairs: seq<(K, int)>)
    ensures SumOver(Sums(pairs).keys, Sums(pairs).vals) == Total(pairs)
    decreases |pairs|
  {
    if |pairs| > 0 {
      var p, x := pairs[..|pairs| - 1], pairs[|pairs| - 1];
      assert pairs == p + [x];
      var d := Sums(p);
      SumsConserve(p);
      TotalAppend(p, x);
      SumsStep(p, x);
      var r := AddAmount(d, x.0, x.1);
      assert Sums(pairs) == r;
      if x.0 in d.vals {
        assert r.keys == d.keys && r.vals == d.vals[x.0 := d.vals[x.0] + x.1];
        SumOverUpdatePresent(d.keys, x.0, x.1, d.vals);
      } else {
        assert r.keys == d.keys + [x.0] && r.vals == d.vals[x.0 := x.1];
        SumOverUpdateAbsent(d.keys, x.0, x.1, d.vals);
        SumOverAppend(d.keys, x.0, d.vals[x.0 := x.1]);
      }
    }
  }

  // ---------------------------------------------------------------------------
  // Plain assignment: `for k, v in pairs: d[k] = v` (a dict comprehension)
  // ---------------------------------------------------------------------------

  /** The dictionary a comprehension `{k: v for k, v in pairs}` builds. */
  function Collect<K(==), V>(pairs: seq<(K, V)>): (d: Dict<K, V>)
    ensures Valid(d)
    decreases |pairs|
  {
    if |pairs| == 0 then Empty()
    else
      var (k, v) := pairs[|pairs| - 1];
      Put(Collect(pairs[..|pairs| - 1]), k, v)
  }

  /** One more pair: the comprehension performs exactly one more assignment. */
  lemma CollectStep<K, V>(pairs: seq<(K, V)>, x: (K, V))
    ensures Collect(pairs + [x]) == Put(Collect(pairs), x.0, x.1)
  {
    assert (pairs + [x])[..|pairs|] == pairs;
  }

  /** A comprehension keeps each key at its first position but stores its last value. */
  lemma {:induction false} CollectSpec<K, V>(pairs: seq<(K, V)>)
    ensures Collect(pairs).keys == Dedup(KeysOf(pairs))
    ensures forall k :: k in Collect(pairs).vals <==> k in KeysOf(pairs)
    ensures forall k :: k in Collect(pairs).vals ==>
              Collect(pairs).vals[k] == pairs[LastIndex(KeysOf(pairs), k)].1
    decreases |pairs|
  {
    if |pairs| > 0 {
      var p := pairs[..|pairs| - 1];
      KeysOfPrefix(pairs);
      CollectSpec(p);
      var ks := KeysOf(pairs);
      assert ks[..|ks| - 1] == KeysOf(p);
      forall k | k in Collect(pairs).vals && k != pairs[|pairs| - 1].0
        ensures LastIndex(ks, k) == LastIndex(KeysOf(p), k)
      {
      }
    }
  }
}
