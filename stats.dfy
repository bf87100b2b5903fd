/** Arithmetic shared by the baseline builder and the risk engine: the sums,
    means and standard deviations of Python's `statistics` module, the dot
    products and norms of the vector metrics, and sums over finite key sets.
    Everything is over mathematical reals; `math.sqrt` is not definable here
    (Dafny's reals have no completeness axiom), so the square-root routine is
    a parameter and `IsSqrt` says when it is the true non-negative root. */
module Stats {

  function Abs(x: real): (r: real)
    ensures r >= 0.0 && (r == x || r == -x)
  {
    if x < 0.0 then -x else x
  }

  function Max(x: real, y: real): (r: real)
    ensures r >= x && r >= y && (r == x || r == y)
  {
    if x >= y then x else y
  }

  function Min(x: nat, y: nat): (r: nat)
    ensures r <= x && r <= y && (r == x || r == y)
  {
    if x <= y then x else y
  }

  /** The routine passed for `math.sqrt` returns the non-negative square root. */
  ghost predicate IsSqrt(sqrt: real -> real)
  {
    forall x: real :: x >= 0.0 ==> sqrt(x) >= 0.0 && sqrt(x) * sqrt(x) == x
  }

  lemma SquareNonNegative(x: real)
    ensures x * x >= 0.0
  {
  }

  /** A square that is not positive is the square of zero. The square is
      written x * y with y == x, and the proof concludes on the sign of x
      rather than on the square: the solver's non-linear reasoning fails to
      refute two opposite facts about one square. */
  lemma SquareZero(x: real, y: real)
    requires y == x && x * y <= 0.0
    ensures x == 0.0
  {
    if x > 0.0 {
      NonPositiveFactor(x, y);
    } else if x < 0.0 {
      NonNegativeFactor(x, y);
    }
  }

  lemma SquareMonotone(x: real, y: real)
    ensures 0.0 <= x < y ==> x * x < y * y
  {
    if 0.0 <= x < y {
      assert y * y - x * x == (y - x) * (y + x);
      ProductPositive(y - x, y + x);
    }
  }

  lemma ProductPositive(x: real, y: real)
    ensures x > 0.0 && y > 0.0 ==> x * y > 0.0
  {
  }

  lemma DivSelf(x: real)
    requires x != 0.0
    ensures x / x == 1.0
  {
  }

  /** A product with a positive factor that is not positive has a
      non-positive other factor. */
  lemma NonPositiveFactor(x: real, p: real)
    requires p > 0.0 && x * p <= 0.0
    ensures x <= 0.0
  {
  }

  lemma NonNegativeFactor(x: real, p: real)
    requires p < 0.0 && x * p <= 0.0
    ensures x >= 0.0
  {
  }

  lemma SqrtZero(sqrt: real -> real)
    requires IsSqrt(sqrt)
    ensures sqrt(0.0) == 0.0
  {
    var r := sqrt(0.0);
    assert r * r == 0.0;
    SquareZero(r, r);
  }

  lemma SqrtPositive(sqrt: real -> real, x: real)
    requires IsSqrt(sqrt) && x > 0.0
    ensures sqrt(x) > 0.0
  {
    var r := sqrt(x);
    assert r >= 0.0 && r * r == x;
  }

  // ---------------------------------------------------------------------
  // Sums over sequences (each peels off the last element, the one an
  // append adds)
  // ---------------------------------------------------------------------

  function Sum(s: seq<real>): real
  {
    if s == [] then 0.0 else Sum(s[..|s| - 1]) + s[|s| - 1]
  }

  /** statistics.mean over a non-empty list. */
  function Mean(s: seq<real>): (r: real)
    requires |s| > 0
    ensures r * (|s| as real) == Sum(s)
  {
    Sum(s) / (|s| as real)
  }

  /** sum(x * y for x, y in zip(a, b)) */
  function Dot(a: seq<real>, b: seq<real>): real
    requires |a| == |b|
  {
    if a == [] then 0.0 else Dot(a[..|a| - 1], b[..|b| - 1]) + a[|a| - 1] * b[|b| - 1]
  }

  /** sum(x ** 2 for x in a) */
  function SumSq(a: seq<real>): real
  {
    Dot(a, a)
  }

  /** sum((x - y) ** 2 for x, y in zip(a, b)) */
  function SqDiffSum(a: seq<real>, b: seq<real>): real
    requires |a| == |b|
  {
    if a == [] then 0.0
    else SqDiffSum(a[..|a| - 1], b[..|b| - 1]) + (a[|a| - 1] - b[|b| - 1]) * (a[|a| - 1] - b[|b| - 1])
  }

  /** Sum of squared deviations from m, the numerator of the sample variance. */
  function SumSqDev(s: seq<real>, m: real): real
  {
    if s == [] then 0.0 else SumSqDev(s[..|s| - 1], m) + (s[|s| - 1] - m) * (s[|s| - 1] - m)
  }

  /** statistics.stdev: the sample standard deviation (n - 1 in the
      denominator), defined for two or more samples. */
  function Stdev(s: seq<real>, sqrt: real -> real): (r: real)
    requires |s| >= 2
    requires IsSqrt(sqrt)
    ensures r >= 0.0
    ensures r * r * ((|s| - 1) as real) == SumSqDev(s, Mean(s))
  {
    SumSqDevNonNegative(s, Mean(s));
    var variance := SumSqDev(s, Mean(s)) / ((|s| - 1) as real);
    assert variance * ((|s| - 1) as real) == SumSqDev(s, Mean(s));
    sqrt(variance)
  }

  lemma {:induction false} SumSqDevNonNegative(s: seq<real>, m: real)
    ensures SumSqDev(s, m) >= 0.0
  {
    if s != [] {
      SumSqDevNonNegative(s[..|s| - 1], m);
      SquareNonNegative(s[|s| - 1] - m);
    }
  }

  lemma {:induction false} SumSqNonNegative(a: seq<real>)
    ensures SumSq(a) >= 0.0
  {
    if a != [] {
      SumSqNonNegative(a[..|a| - 1]);
      SquareNonNegative(a[|a| - 1]);
    }
  }

  lemma {:induction false} SqDiffSumNonNegative(a: seq<real>, b: seq<real>)
    requires |a| == |b|
    ensures SqDiffSum(a, b) >= 0.0
  {
    if a != [] {
      SqDiffSumNonNegative(a[..|a| - 1], b[..|b| - 1]);
      SquareNonNegative(a[|a| - 1] - b[|b| - 1]);
    }
  }

  /** Identical vectors are at squared distance zero. */
  lemma {:induction false} SqDiffSumSelf(a: seq<real>)
    ensures SqDiffSum(a, a) == 0.0
  {
    if a != [] {
      SqDiffSumSelf(a[..|a| - 1]);
    }
  }

  /** Squared distance zero means the vectors are identical. */
  lemma {:induction false} SqDiffSumZero(a: seq<real>, b: seq<real>)
    requires |a| == |b| && SqDiffSum(a, b) == 0.0
    ensures a == b
  {
    if a != [] {
      var n := |a| - 1;
      SqDiffSumNonNegative(a[..n], b[..n]);
      var d := a[n] - b[n];
      SquareNonNegative(d);
      assert SqDiffSum(a[..n], b[..n]) == 0.0 && d * d == 0.0;
      SquareZero(d, d);
      SqDiffSumZero(a[..n], b[..n]);
      assert a == a[..n] + [a[n]] && b == b[..n] + [b[n]];
    }
  }

  /** Every element at most c bounds the mean by c: the mean lies among its samples. */
  lemma {:induction false} SumBounds(s: seq<real>, lo: real, hi: real)
    requires forall i :: 0 <= i < |s| ==> lo <= s[i] <= hi
    ensures (|s| as real) * lo <= Sum(s) <= (|s| as real) * hi
  {
    if s != [] {
      SumBounds(s[..|s| - 1], lo, hi);
    }
  }

  lemma MeanBounds(s: seq<real>, lo: real, hi: real)
    requires |s| > 0
    requires forall i :: 0 <= i < |s| ==> lo <= s[i] <= hi
    ensures lo <= Mean(s) <= hi
  {
    SumBounds(s, lo, hi);
    var n := |s| as real;
    assert Mean(s) * n == Sum(s);
    NonPositiveFactor(lo - Mean(s), n);
    NonPositiveFactor(Mean(s) - hi, n);
  }

  /** An upper bound on every element bounds the mean (for sequences without a
      known lower bound the sequence's own minimum serves as one). */
  lemma MeanUpperBound(s: seq<real>, hi: real)
    requires |s| > 0
    requires forall i :: 0 <= i < |s| ==> s[i] <= hi
    ensures Mean(s) <= hi
  {
    var lo := Minimum(s);
    MeanBounds(s, lo, hi);
  }

  function Minimum(s: seq<real>): (r: real)
    requires |s| > 0
    ensures forall i :: 0 <= i < |s| ==> r <= s[i]
  {
    if |s| == 1 then s[0]
    else
      var m := Minimum(s[1..]);
      if s[0] <= m then s[0] else m
  }

  // ---------------------------------------------------------------------
  // Cauchy-Schwarz, which bounds the cosine similarity
  // ---------------------------------------------------------------------

  /** One induction step: appending (x, y) keeps D^2 <= A * B. */
  lemma CauchySchwarzStep(a: real, b: real, d: real, x: real, y: real)
    requires a >= 0.0 && b >= 0.0 && d * d <= a * b
    ensures (d + x * y) * (d + x * y) <= (a + x * x) * (b + y * y)
  {
    // It suffices that 2dxy <= a y^2 + b x^2.
    if a == 0.0 {
      assert d * d <= 0.0;
      SquareZero(d, d);
      SquareNonNegative(x);
      assert b * (x * x) >= 0.0;
    } else {
      var gap := a * (y * y) + b * (x * x) - 2.0 * d * x * y;
      assert a * gap == (a * y - d * x) * (a * y - d * x) + (x * x) * (a * b - d * d);
      SquareNonNegative(a * y - d * x);
      SquareNonNegative(x);
      assert (x * x) * (a * b - d * d) >= 0.0;
      NonPositiveFactor(-gap, a);
    }
  }

  lemma {:induction false} CauchySchwarz(a: seq<real>, b: seq<real>)
    requires |a| == |b|
    ensures Dot(a, b) * Dot(a, b) <= SumSq(a) * SumSq(b)
  {
    if a != [] {
      var n := |a| - 1;
      CauchySchwarz(a[..n], b[..n]);
      SumSqNonNegative(a[..n]);
      SumSqNonNegative(b[..n]);
      CauchySchwarzStep(SumSq(a[..n]), SumSq(b[..n]), Dot(a[..n], b[..n]), a[n], b[n]);
    }
  }

  /** |d| <= p when d^2 <= p^2 and p > 0: the quotient d / p lies in [-1, 1]. */
  lemma QuotientInUnit(d: real, p: real)
    requires p > 0.0 && d * d <= p * p
    ensures -1.0 <= d / p <= 1.0
  {
    SquareMonotone(p, d);
    SquareMonotone(p, -d);
    assert -p <= d <= p;
    var q := d / p;
    assert q * p == d;
    NonPositiveFactor(q - 1.0, p);
    NonPositiveFactor(-1.0 - q, p);
  }

  // ---------------------------------------------------------------------
  // Sums over finite key sets (a dict's values, a set of bigrams)
  // ---------------------------------------------------------------------

  ghost function SetSum<K>(keys: set<K>, f: K -> real): real
    decreases keys
  {
    if keys == {} then 0.0
    else
      var k :| k in keys;
      f(k) + SetSum(keys - {k}, f)
  }

  /** The sum does not depend on which key is taken out first. */
  lemma {:induction false} SetSumRemove<K>(keys: set<K>, f: K -> real, x: K)
    requires x in keys
    ensures SetSum(keys, f) == f(x) + SetSum(keys - {x}, f)
    decreases keys
  {
    var k :| k in keys && SetSum(keys, f) == f(k) + SetSum(keys - {k}, f);
    if k != x {
      SetSumRemove(keys - {k}, f, x);
      SetSumRemove(keys - {x}, f, k);
      assert keys - {k} - {x} == keys - {x} - {k};
    }
  }

  /** Two term functions that agree on the keys have the same sum. */
  lemma {:induction false} SetSumCongruence<K>(keys: set<K>, f: K -> real, g: K -> real)
    requires forall k :: k in keys ==> f(k) == g(k)
    ensures SetSum(keys, f) == SetSum(keys, g)
    decreases keys
  {
    if keys != {} {
      var k :| k in keys;
      SetSumRemove(keys, f, k);
      SetSumRemove(keys, g, k);
      SetSumCongruence(keys - {k}, f, g);
    }
  }

  lemma {:induction false} SetSumNonNegative<K>(keys: set<K>, f: K -> real)
    requires forall k :: k in keys ==> f(k) >= 0.0
    ensures SetSum(keys, f) >= 0.0
    decreases keys
  {
    if keys != {} {
      var k :| k in keys;
      SetSumRemove(keys, f, k);
      SetSumNonNegative(keys - {k}, f);
    }
  }

  /** A sum of non-negative terms is zero exactly when every term is. */
  lemma {:induction false} SetSumZeroIff<K>(keys: set<K>, f: K -> real)
    requires forall k :: k in keys ==> f(k) >= 0.0
    ensures SetSum(keys, f) == 0.0 <==> forall k :: k in keys ==> f(k) == 0.0
    decreases keys
  {
    if keys != {} {
      var k :| k in keys;
      SetSumRemove(keys, f, k);
      SetSumNonNegative(keys - {k}, f);
      SetSumZeroIff(keys - {k}, f);
    }
  }

  /** Adding a fresh key adds its term. */
  lemma SetSumInsert<K>(keys: set<K>, f: K -> real, x: K)
    requires x !in keys
    ensures SetSum(keys + {x}, f) == SetSum(keys, f) + f(x)
  {
    SetSumRemove(keys + {x}, f, x);
    assert keys + {x} - {x} == keys;
  }
}
