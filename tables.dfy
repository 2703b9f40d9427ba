/**
 * Weight tables: maps from an enumerated indicator set to real weights, their
 * totals, weighted sums, and the normalising step that makes a table sum to 1.
 * Every quantity is an exact real, so "sums to 1" holds exactly.
 */
module Tables {

  /** A value lies in the closed unit interval [0, 1]. */
  predicate InUnit(x: real) {
    0.0 <= x <= 1.0
  }

  /** The weight a table gives to `k`; a key the table lacks contributes nothing. */
  function Get<K>(w: map<K, real>, k: K): real {
    if k in w then w[k] else 0.0
  }

  /** Sum of the weights of `keys` (Python's `sum(weights.values())` when `keys` lists the table's keys once each). */
  function Total<K>(w: map<K, real>, keys: seq<K>): real {
    if keys == [] then 0.0
    else Total(w, keys[..|keys| - 1]) + Get(w, keys[|keys| - 1])
  }

  /** The contribution of key `k` to a weighted sum: its weight times its value. */
  function Term<K>(w: map<K, real>, v: K -> real, k: K): real {
    Get(w, k) * v(k)
  }

  /** Weighted sum of the values `v` under the table `w`, accumulated over `keys` in order. */
  function Dot<K>(w: map<K, real>, v: K -> real, keys: seq<K>): real {
    if keys == [] then 0.0
    else Dot(w, v, keys[..|keys| - 1]) + Term(w, v, keys[|keys| - 1])
  }

  /** Every weight of `keys` is non-negative. */
  predicate NonNegative<K>(w: map<K, real>, keys: seq<K>) {
    forall k | k in keys :: 0.0 <= Get(w, k)
  }

  /** Every weight of `keys` is strictly positive. */
  predicate Positive<K>(w: map<K, real>, keys: seq<K>) {
    forall k | k in keys :: 0.0 < Get(w, k)
  }

  /** The normalising comprehension `{k: v / total for k, v in weights.items()}`. */
  function Normalized<K>(w: map<K, real>, total: real): (r: map<K, real>)
    requires total != 0.0
    ensures r.Keys == w.Keys
    ensures forall k | k in r :: r[k] * total == w[k]
    ensures 0.0 < total ==> forall k | k in w && 0.0 < w[k] :: 0.0 < r[k]
  {
    map k | k in w :: w[k] / total
  }

  /** Dividing every weight by `t` divides the total by `t`. */
  lemma {:induction false} TotalNormalized<K>(w: map<K, real>, keys: seq<K>, t: real)
    requires t != 0.0
    ensures Total(Normalized(w, t), keys) == Total(w, keys) / t
  {
    if keys != [] {
      var k := keys[|keys| - 1];
      TotalNormalized(w, keys[..|keys| - 1], t);
      assert Get(Normalized(w, t), k) == Get(w, k) / t;
      DivideSum(Total(w, keys[..|keys| - 1]), Get(w, k), t);
    }
  }

  /** Division distributes over a sum. */
  lemma DivideSum(a: real, b: real, t: real)
    requires t != 0.0
    ensures a / t + b / t == (a + b) / t
  {
    var x, y := a / t, b / t;
    assert x * t == a && y * t == b;
    assert (x + y) * t == a + b;
  }

  /** A non-zero number divided by itself is 1. */
  lemma DivideSelf(t: real)
    requires t != 0.0
    ensures t / t == 1.0
  {
  }

  /** Normalising by a table's own non-zero total gives a table that sums to exactly 1. */
  lemma NormalizedSumsToOne<K>(w: map<K, real>, keys: seq<K>)
    requires Total(w, keys) != 0.0
    ensures Total(Normalized(w, Total(w, keys)), keys) == 1.0
  {
    var t := Total(w, keys);
    TotalNormalized(w, keys, t);
    DivideSelf(t);
  }

  /** The total over a prefix extended by one key is the prefix total plus that key's weight. */
  lemma TotalStep<K>(w: map<K, real>, keys: seq<K>, n: nat)
    requires n < |keys|
    ensures Total(w, keys[..n + 1]) == Total(w, keys[..n]) + Get(w, keys[n])
  {
    assert keys[..n + 1][..n] == keys[..n];
  }

  /** The weighted sum over a prefix extended by one key adds that key's weighted value. */
  lemma DotStep<K>(w: map<K, real>, v: K -> real, keys: seq<K>, n: nat)
    requires n < |keys|
    ensures Dot(w, v, keys[..n + 1]) == Dot(w, v, keys[..n]) + Term(w, v, keys[n])
  {
    assert keys[..n + 1][..n] == keys[..n];
  }

  /** One accumulation step of a weighted sum, for a key the table has and a known value. */
  lemma DotStepWith<K>(w: map<K, real>, v: K -> real, keys: seq<K>, n: nat, x: real)
    requires n < |keys| && keys[n] in w && v(keys[n]) == x
    ensures Dot(w, v, keys[..n + 1]) == Dot(w, v, keys[..n]) + w[keys[n]] * x
  {
    DotStep(w, v, keys, n);
  }

  /** The total over a prefix extended by five keys, written out term by term. */
  lemma TotalRun<K>(w: map<K, real>, keys: seq<K>, n: nat)
    requires n + 5 <= |keys|
    ensures Total(w, keys[..n + 5]) == Total(w, keys[..n])
      + Get(w, keys[n]) + Get(w, keys[n + 1]) + Get(w, keys[n + 2]) + Get(w, keys[n + 3]) + Get(w, keys[n + 4])
  {
    TotalStep(w, keys, n); TotalStep(w, keys, n + 1); TotalStep(w, keys, n + 2);
    TotalStep(w, keys, n + 3); TotalStep(w, keys, n + 4);
  }

  /** The total over a prefix extended by four keys, written out term by term. */
  lemma TotalShortRun<K>(w: map<K, real>, keys: seq<K>, n: nat)
    requires n + 4 <= |keys|
    ensures Total(w, keys[..n + 4]) == Total(w, keys[..n])
      + Get(w, keys[n]) + Get(w, keys[n + 1]) + Get(w, keys[n + 2]) + Get(w, keys[n + 3])
  {
    TotalStep(w, keys, n); TotalStep(w, keys, n + 1); TotalStep(w, keys, n + 2); TotalStep(w, keys, n + 3);
  }

  /** The weighted sum over a prefix extended by five keys, written out term by term. */
  lemma DotRun<K>(w: map<K, real>, v: K -> real, keys: seq<K>, n: nat)
    requires n + 5 <= |keys|
    ensures Dot(w, v, keys[..n + 5]) == Dot(w, v, keys[..n])
      + Term(w, v, keys[n]) + Term(w, v, keys[n + 1]) + Term(w, v, keys[n + 2])
      + Term(w, v, keys[n + 3]) + Term(w, v, keys[n + 4])
  {
    DotStep(w, v, keys, n); DotStep(w, v, keys, n + 1); DotStep(w, v, keys, n + 2);
    DotStep(w, v, keys, n + 3); DotStep(w, v, keys, n + 4);
  }

  /** With non-negative weights, a weighted sum of values in [0, 1] lies between 0 and the table's total. */
  lemma {:induction false} DotBounds<K>(w: map<K, real>, v: K -> real, keys: seq<K>)
    requires NonNegative(w, keys)
    requires forall k | k in keys :: InUnit(v(k))
    ensures 0.0 <= Dot(w, v, keys) <= Total(w, keys)
  {
    if keys != [] {
      var k, init := keys[|keys| - 1], keys[..|keys| - 1];
      assert k in keys && forall j | j in init :: j in keys;
      DotBounds(w, v, init);
      StepBounds(Dot(w, v, init), Total(w, init), Get(w, k), v(k));
    }
  }

  /** One accumulation step keeps a weighted sum between 0 and the running total. */
  lemma StepBounds(d: real, t: real, a: real, x: real)
    requires 0.0 <= d <= t && 0.0 <= a && InUnit(x)
    ensures 0.0 <= d + a * x <= t + a
  {
    ProductBounds(a, x);
  }

  /** All values zero: the weighted sum is zero, whatever the weights. */
  lemma {:induction false} DotOfZeros<K>(w: map<K, real>, v: K -> real, keys: seq<K>)
    requires forall k | k in keys :: v(k) == 0.0
    ensures Dot(w, v, keys) == 0.0
  {
    if keys != [] {
      DotOfZeros(w, v, keys[..|keys| - 1]);
    }
  }

  /** All values one: the weighted sum is the table's total. */
  lemma {:induction false} DotOfOnes<K>(w: map<K, real>, v: K -> real, keys: seq<K>)
    requires forall k | k in keys :: v(k) == 1.0
    ensures Dot(w, v, keys) == Total(w, keys)
  {
    if keys != [] {
      DotOfOnes(w, v, keys[..|keys| - 1]);
    }
  }

  /** With non-negative weights, raising values never lowers the weighted sum. */
  lemma {:induction false} DotMonotone<K>(w: map<K, real>, v1: K -> real, v2: K -> real, keys: seq<K>)
    requires NonNegative(w, keys)
    requires forall k | k in keys :: v1(k) <= v2(k)
    ensures Dot(w, v1, keys) <= Dot(w, v2, keys)
  {
    if keys != [] {
      var k, init := keys[|keys| - 1], keys[..|keys| - 1];
      assert k in keys && forall j | j in init :: j in keys;
      DotMonotone(w, v1, v2, init);
      ProductMonotone(Get(w, k), v1(k), v2(k));
    }
  }

  /** A non-negative weight preserves the order of the values it multiplies. */
  lemma ProductMonotone(a: real, x: real, y: real)
    requires 0.0 <= a && x <= y
    ensures a * x <= a * y
  {
    assert a * y - a * x == a * (y - x);
  }

  /** A non-negative weight times a value in [0, 1] lies between 0 and the weight. */
  lemma ProductBounds(a: real, x: real)
    requires 0.0 <= a && InUnit(x)
    ensures 0.0 <= a * x <= a
  {
    assert a * x <= a * 1.0;
  }

  /** The product of two positive numbers is positive. */
  lemma PositiveProduct(x: real, y: real)
    requires 0.0 < x && 0.0 < y
    ensures 0.0 < x * y
  {
  }

  /** Comparing two fractions with positive denominators by cross-multiplication. */
  lemma FractionLess(a1: real, b1: real, a2: real, b2: real)
    requires 0.0 < b1 && 0.0 < b2
    requires a1 * b2 < a2 * b1
    ensures a1 / b1 < a2 / b2
  {
    var x, y := a1 / b1, a2 / b2;
    assert a1 == x * b1 && a2 == y * b2;
    assert (x - y) * (b1 * b2) < 0.0;
  }

  /** A total over exactly ten keys, written out term by term. */
  lemma TotalOfTen<K>(w: map<K, real>, keys: seq<K>)
    requires |keys| == 10
    ensures Total(w, keys) ==
      Get(w, keys[0]) + Get(w, keys[1]) + Get(w, keys[2]) + Get(w, keys[3]) + Get(w, keys[4])
      + Get(w, keys[5]) + Get(w, keys[6]) + Get(w, keys[7]) + Get(w, keys[8]) + Get(w, keys[9])
  {
    assert keys[..0] == [];
    TotalRun(w, keys, 0);
    TotalRun(w, keys, 5);
    assert keys[..10] == keys;
  }

  /** A weighted sum over exactly ten keys, written out term by term. */
  lemma DotOfTen<K>(w: map<K, real>, v: K -> real, keys: seq<K>)
    requires |keys| == 10
    ensures Dot(w, v, keys) ==
      Term(w, v, keys[0]) + Term(w, v, keys[1]) + Term(w, v, keys[2]) + Term(w, v, keys[3])
      + Term(w, v, keys[4]) + Term(w, v, keys[5]) + Term(w, v, keys[6]) + Term(w, v, keys[7])
      + Term(w, v, keys[8]) + Term(w, v, keys[9])
  {
    assert keys[..0] == [];
    DotRun(w, v, keys, 0);
    DotRun(w, v, keys, 5);
    assert keys[..10] == keys;
  }

  /** A total over exactly fourteen keys, written out term by term. */
  lemma TotalOfFourteen<K>(w: map<K, real>, keys: seq<K>)
    requires |keys| == 14
    ensures Total(w, keys) ==
      Get(w, keys[0]) + Get(w, keys[1]) + Get(w, keys[2]) + Get(w, keys[3]) + Get(w, keys[4])
      + Get(w, keys[5]) + Get(w, keys[6]) + Get(w, keys[7]) + Get(w, keys[8]) + Get(w, keys[9])
      + Get(w, keys[10]) + Get(w, keys[11]) + Get(w, keys[12]) + Get(w, keys[13])
  {
    assert keys[..0] == [];
    TotalRun(w, keys, 0);
    TotalRun(w, keys, 5);
    TotalShortRun(w, keys, 10);
    assert keys[..14] == keys;
  }

  /** A weighted sum over fourteen keys: the first nine, then the last five term by term. */
  lemma DotAfterNine<K>(w: map<K, real>, v: K -> real, keys: seq<K>)
    requires |keys| == 14
    ensures Dot(w, v, keys) == Dot(w, v, keys[..9])
      + Term(w, v, keys[9]) + Term(w, v, keys[10]) + Term(w, v, keys[11]) + Term(w, v, keys[12]) + Term(w, v, keys[13])
  {
    DotRun(w, v, keys, 9);
    assert keys[..14] == keys;
  }
}
