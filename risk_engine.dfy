/** The multi-factor risk scorer (risk_engine.py): vector alignment, the
    Euclidean and cosine rhythm metrics, the flight, dwell and bigram
    deviations, the weighted risk score, the adaptive threshold and the
    TRUSTED/SUSPICIOUS decision. Values are reals; `math.sqrt` is the
    parameter `sqrt`, assumed by every caller to satisfy `IsSqrt`. */
module RiskEngine {
  import opened Wrappers
  import opened Stats
  import Config
  import opened Keystroke

  // ---------------------------------------------------------------------
  // Vector utilities
  // ---------------------------------------------------------------------

  /** `_align_vectors`: both inputs truncated to the shorter length. */
  function AlignVectors(v1: seq<real>, v2: seq<real>): (r: (seq<real>, seq<real>))
    ensures |r.0| == |r.1|
    ensures r.0 <= v1 && r.1 <= v2
    ensures r.0 == v1 || r.1 == v2
  {
    var n := Min(|v1|, |v2|);
    (v1[..n], v2[..n])
  }

  /** A vector aligned against one it is a prefix of is compared with that
      prefix of the other: nothing of itself is cut. */
  lemma AlignPrefix(v1: seq<real>, v2: seq<real>)
    requires v1 <= v2 || v2 <= v1
    ensures AlignVectors(v1, v2).0 == AlignVectors(v1, v2).1
  {
  }

  /** Vectors of equal length are left as they are. */
  lemma AlignEqualLengths(a: seq<real>, b: seq<real>)
    requires |a| == |b|
    ensures AlignVectors(a, b) == (a, b)
  {
    assert a[..|a|] == a && b[..|b|] == b;
  }

  /** `euclidean_distance`: 0 when either vector is empty, otherwise the
      root of the summed squared differences of the aligned prefixes. */
  function EuclideanDistance(v1: seq<real>, v2: seq<real>, sqrt: real -> real): (r: real)
    requires IsSqrt(sqrt)
    ensures r >= 0.0
    ensures |v1| == 0 || |v2| == 0 ==> r == 0.0
    ensures r * r == SqDiffSum(AlignVectors(v1, v2).0, AlignVectors(v1, v2).1)
  {
    if |v1| == 0 || |v2| == 0 then 0.0
    else
      var a, b := AlignVectors(v1, v2).0, AlignVectors(v1, v2).1;
      SqDiffSumNonNegative(a, b);
      sqrt(SqDiffSum(a, b))
  }

  /** The distance is zero exactly when the aligned prefixes coincide. */
  lemma EuclideanZeroIff(v1: seq<real>, v2: seq<real>, sqrt: real -> real)
    requires IsSqrt(sqrt)
    ensures EuclideanDistance(v1, v2, sqrt) == 0.0 <==> AlignVectors(v1, v2).0 == AlignVectors(v1, v2).1
  {
    var a, b := AlignVectors(v1, v2).0, AlignVectors(v1, v2).1;
    var r := EuclideanDistance(v1, v2, sqrt);
    if r == 0.0 {
      assert SqDiffSum(a, b) == 0.0;
      SqDiffSumZero(a, b);
    }
    if a == b {
      SqDiffSumSelf(a);
      assert r * r <= 0.0;
      SquareZero(r, r);
    }
  }

  /** `cosine_similarity`: 1.0 when either vector is empty; on the aligned
      prefixes, 1.0 when both norms are zero, 0.0 when exactly one is, and
      otherwise the dot product over the product of the norms. */
  function CosineSimilarity(v1: seq<real>, v2: seq<real>, sqrt: real -> real): (r: real)
    requires IsSqrt(sqrt)
    ensures |v1| == 0 || |v2| == 0 ==> r == 1.0
  {
    if |v1| == 0 || |v2| == 0 then 1.0
    else
      var a, b := AlignVectors(v1, v2).0, AlignVectors(v1, v2).1;
      var normA := sqrt(SumSq(a));
      var normB := sqrt(SumSq(b));
      if normA == 0.0 || normB == 0.0 then
        (if normA == normB then 1.0 else 0.0)
      else
        Dot(a, b) / (normA * normB)
  }

  /** The similarity lies in [-1, 1] (Cauchy-Schwarz). */
  lemma CosineBounded(v1: seq<real>, v2: seq<real>, sqrt: real -> real)
    requires IsSqrt(sqrt)
    ensures -1.0 <= CosineSimilarity(v1, v2, sqrt) <= 1.0
  {
    if |v1| > 0 && |v2| > 0 {
      var a, b := AlignVectors(v1, v2).0, AlignVectors(v1, v2).1;
      SumSqNonNegative(a);
      SumSqNonNegative(b);
      var normA := sqrt(SumSq(a));
      var normB := sqrt(SumSq(b));
      if normA != 0.0 && normB != 0.0 {
        ProductPositive(normA, normB);
        var p := normA * normB;
        assert p * p == (normA * normA) * (normB * normB);
        assert p * p == SumSq(a) * SumSq(b);
        CauchySchwarz(a, b);
        QuotientInUnit(Dot(a, b), p);
        assert CosineSimilarity(v1, v2, sqrt) == Dot(a, b) / p;
      }
    }
  }

  /** A vector is perfectly aligned with itself. */
  lemma CosineSelf(v: seq<real>, sqrt: real -> real)
    requires IsSqrt(sqrt)
    ensures CosineSimilarity(v, v, sqrt) == 1.0
  {
    if |v| > 0 {
      AlignEqualLengths(v, v);
      assert AlignVectors(v, v).0 == v && AlignVectors(v, v).1 == v;
      SumSqNonNegative(v);
      var n := sqrt(SumSq(v));
      if n != 0.0 {
        var d := Dot(v, v);
        assert n * n == d;
        if d == 0.0 {
          SquareZero(n, n);
          assert false;
        }
        DivSelf(d);
        assert CosineSimilarity(v, v, sqrt) == d / (n * n);
      }
    }
  }

  /** With a zero aligned vector the similarity is the degenerate value:
      1.0 when both are zero, 0.0 when only one is. */
  lemma CosineDegenerate(v1: seq<real>, v2: seq<real>, sqrt: real -> real)
    requires IsSqrt(sqrt)
    requires |v1| > 0 && |v2| > 0
    requires SumSq(AlignVectors(v1, v2).0) == 0.0 || SumSq(AlignVectors(v1, v2).1) == 0.0
    ensures CosineSimilarity(v1, v2, sqrt) ==
      if SumSq(AlignVectors(v1, v2).0) == SumSq(AlignVectors(v1, v2).1) then 1.0 else 0.0
  {
    var a, b := AlignVectors(v1, v2).0, AlignVectors(v1, v2).1;
    SumSqNonNegative(a);
    SumSqNonNegative(b);
    SqrtZero(sqrt);
    if SumSq(a) > 0.0 {
      SqrtPositive(sqrt, SumSq(a));
    }
    if SumSq(b) > 0.0 {
      SqrtPositive(sqrt, SumSq(b));
    }
  }

  // ---------------------------------------------------------------------
  // Individual signal deviations
  // ---------------------------------------------------------------------

  /** `flight_deviation`: how far the session's mean flight time is from the
      baseline mean; 0 for an empty session. */
  function FlightDeviation(baselineAvg: real, current: seq<real>): (r: real)
    ensures r >= 0.0
    ensures |current| == 0 ==> r == 0.0
    ensures |current| > 0 ==> r == Mean(current) - baselineAvg || r == baselineAvg - Mean(current)
    ensures |current| > 0 ==> (r == 0.0 <==> Mean(current) == baselineAvg)
  {
    if |current| == 0 then 0.0 else Abs(Mean(current) - baselineAvg)
  }

  /** `dwell_deviation`: as for flights, and also 0 when the baseline mean
      is exactly 0.0 (no dwell samples at registration). */
  function DwellDeviation(baselineAvg: real, current: seq<real>): (r: real)
    ensures r >= 0.0
    ensures |current| == 0 || baselineAvg == 0.0 ==> r == 0.0
    ensures |current| > 0 && baselineAvg != 0.0 ==>
      r == Mean(current) - baselineAvg || r == baselineAvg - Mean(current)
    ensures |current| > 0 && baselineAvg != 0.0 ==> (r == 0.0 <==> Mean(current) == baselineAvg)
  {
    if |current| == 0 || baselineAvg == 0.0 then 0.0 else Abs(Mean(current) - baselineAvg)
  }

  /** The bigrams `bigram_deviation` actually compares: in both maps, with a
      non-empty current list. */
  function UsableBigrams(b: map<string, real>, c: map<string, seq<real>>): (r: set<string>)
    ensures forall k :: k in r <==> k in b && k in c && |c[k]| > 0
  {
    set k | k in b && k in c && |c[k]| > 0
  }

  function BigramTerm(b: map<string, real>, c: map<string, seq<real>>): string -> real
  {
    k => if k in b && k in c && |c[k]| > 0 then Abs(b[k] - Mean(c[k])) else 0.0
  }

  /** `bigram_deviation`: the mean, over the usable bigrams, of the absolute
      difference between the baseline average and the session's mean; 0
      when no bigram is usable. */
  ghost function BigramDeviation(b: map<string, real>, c: map<string, seq<real>>): (r: real)
    ensures r >= 0.0
    ensures UsableBigrams(b, c) == {} ==> r == 0.0
  {
    var used := UsableBigrams(b, c);
    if used == {} then 0.0
    else
      SetSumNonNegative(used, BigramTerm(b, c));
      SetSum(used, BigramTerm(b, c)) / (|used| as real)
  }

  /** The deviation is zero exactly when every usable bigram's session mean
      equals its baseline average. */
  lemma BigramDeviationZeroIff(b: map<string, real>, c: map<string, seq<real>>)
    ensures BigramDeviation(b, c) == 0.0 <==>
      forall k :: k in b && k in c && |c[k]| > 0 ==> Mean(c[k]) == b[k]
  {
    var used := UsableBigrams(b, c);
    var f := BigramTerm(b, c);
    if used != {} {
      var total := SetSum(used, f);
      var n := |used| as real;
      assert (total / n) * n == total;
      SetSumZeroIff(used, f);
      assert forall k :: k in used ==> (f(k) == 0.0 <==> Mean(c[k]) == b[k]);
    }
  }

  /** A bigram the session did not produce does not change the deviation,
      whatever its baseline average. */
  lemma BigramDeviationIgnoresBaselineOnly(b: map<string, real>, c: map<string, seq<real>>, k: string, v: real)
    requires k !in c
    ensures BigramDeviation(b[k := v], c) == BigramDeviation(b, c)
  {
    assert UsableBigrams(b[k := v], c) == UsableBigrams(b, c);
    SetSumCongruence(UsableBigrams(b, c), BigramTerm(b[k := v], c), BigramTerm(b, c));
  }

  /** A bigram the baseline does not have does not change the deviation,
      whatever the session recorded for it. */
  lemma BigramDeviationIgnoresSessionOnly(b: map<string, real>, c: map<string, seq<real>>, k: string, times: seq<real>)
    requires k !in b
    ensures BigramDeviation(b, c[k := times]) == BigramDeviation(b, c)
  {
    assert UsableBigrams(b, c[k := times]) == UsableBigrams(b, c);
    forall x | x in UsableBigrams(b, c)
      ensures BigramTerm(b, c[k := times])(x) == BigramTerm(b, c)(x)
    {
      assert x != k;
    }
    SetSumCongruence(UsableBigrams(b, c), BigramTerm(b, c[k := times]), BigramTerm(b, c));
  }

  /** The deviation is the visited sum over the visited count. */
  lemma BigramDeviationOfTotals(b: map<string, real>, c: map<string, seq<real>>, total: real, count: nat)
    requires total == SetSum(UsableBigrams(b, c), BigramTerm(b, c))
    requires count == |UsableBigrams(b, c)|
    ensures BigramDeviation(b, c) == if count > 0 then total / (count as real) else 0.0
  {
  }

  /** The loop of `bigram_deviation`: over the shared keys, skipping empty
      session lists, collecting the absolute differences, then their mean. */
  method ComputeBigramDeviation(b: map<string, real>, c: map<string, seq<real>>) returns (r: real)
    ensures r == BigramDeviation(b, c)
  {
    var shared := b.Keys * c.Keys;
    if shared == {} {
      return 0.0;
    }
    ghost var used := UsableBigrams(b, c);
    ghost var f := BigramTerm(b, c);
    var total := 0.0;
    var count: nat := 0;
    var remaining := shared;
    ghost var counted: set<string> := {};
    while remaining != {}
      invariant remaining <= shared
      invariant forall x :: x in counted <==> x in used && x !in remaining
      invariant total == SetSum(counted, f)
      invariant count == |counted|
      decreases remaining
    {
      var k :| k in remaining;
      var times := c[k];
      if |times| > 0 {
        SetSumInsert(counted, f, k);
        total := total + Abs(b[k] - Mean(times));
        count := count + 1;
        counted := counted + {k};
      }
      remaining := remaining - {k};
    }
    assert counted == used;
    r := if count > 0 then total / (count as real) else 0.0;
    BigramDeviationOfTotals(b, c, total, count);
  }

  /** `rhythm_vector_distance`: the Euclidean distance of the aligned
      prefixes divided by the root of their length; 0 when either vector
      is empty. */
  function RhythmVectorDistance(bv: seq<real>, cv: seq<real>, sqrt: real -> real): (r: real)
    requires IsSqrt(sqrt)
    ensures r >= 0.0
    ensures |bv| == 0 || |cv| == 0 ==> r == 0.0
  {
    if |bv| == 0 || |cv| == 0 then 0.0
    else
      var a, b := AlignVectors(bv, cv).0, AlignVectors(bv, cv).1;
      SqrtPositive(sqrt, |a| as real);
      EuclideanDistance(a, b, sqrt) / sqrt(|a| as real)
  }

  /** The normalised distance is zero exactly when the aligned prefixes
      coincide. */
  lemma RhythmVectorDistanceZeroIff(bv: seq<real>, cv: seq<real>, sqrt: real -> real)
    requires IsSqrt(sqrt)
    ensures RhythmVectorDistance(bv, cv, sqrt) == 0.0 <==> AlignVectors(bv, cv).0 == AlignVectors(bv, cv).1
  {
    if |bv| > 0 && |cv| > 0 {
      var a, b := AlignVectors(bv, cv).0, AlignVectors(bv, cv).1;
      AlignEqualLengths(a, b);
      EuclideanZeroIff(a, b, sqrt);
      SqrtPositive(sqrt, |a| as real);
      var raw := EuclideanDistance(a, b, sqrt);
      var s := sqrt(|a| as real);
      assert (raw / s) * s == raw;
    }
  }

  /** One rhythm vector being a prefix of the other counts as no deviation. */
  lemma RhythmVectorDistancePrefix(bv: seq<real>, cv: seq<real>, sqrt: real -> real)
    requires IsSqrt(sqrt)
    requires bv <= cv || cv <= bv
    ensures RhythmVectorDistance(bv, cv, sqrt) == 0.0
  {
    AlignPrefix(bv, cv);
    RhythmVectorDistanceZeroIff(bv, cv, sqrt);
  }

  // ---------------------------------------------------------------------
  // Dynamic threshold
  // ---------------------------------------------------------------------

  /** `dynamic_threshold`: the flight spread, floored at FLOOR_STD, times k. */
  function DynamicThreshold(flightStd: real, k: real): (r: real)
    ensures flightStd >= Config.FloorStd ==> r == flightStd * k
    ensures flightStd <= Config.FloorStd ==> r == Config.FloorStd * k
  {
    Max(flightStd, Config.FloorStd) * k
  }

  /** The floor: no threshold is below FLOOR_STD * k. */
  lemma DynamicThresholdFloor(flightStd: real, k: real)
    requires k >= 0.0
    ensures DynamicThreshold(flightStd, k) >= Config.FloorStd * k
  {
    var m := Max(flightStd, Config.FloorStd);
    assert (m - Config.FloorStd) * k >= 0.0;
  }

  /** A looser typist never gets a tighter threshold. */
  lemma DynamicThresholdMonotone(s1: real, s2: real, k: real)
    requires s1 <= s2 && k >= 0.0
    ensures DynamicThreshold(s1, k) <= DynamicThreshold(s2, k)
  {
    var m1, m2 := Max(s1, Config.FloorStd), Max(s2, Config.FloorStd);
    assert (m2 - m1) * k >= 0.0;
  }

  /** With the configured multiplier every threshold is at least 0.05. */
  lemma DefaultThresholdPositive(flightStd: real)
    ensures DynamicThreshold(flightStd, Config.ThresholdK) >= 0.05 > 0.0
  {
    DynamicThresholdFloor(flightStd, Config.ThresholdK);
  }

  // ---------------------------------------------------------------------
  // Multi-factor risk
  // ---------------------------------------------------------------------

  datatype Status = Trusted | Suspicious

  /** The dict `compute_multifactor_risk` returns. */
  datatype Assessment = Assessment(
    flightDev: real,
    dwellDev: real,
    bigramDev: real,
    vectorDist: real,
    cosineSim: real,
    riskScore: real,
    threshold: real,
    status: Status)

  /** A stored baseline profile as read back from its JSON document: any
      key may be missing, and readers fall back to a default. */
  datatype BaselineRecord = BaselineRecord(
    flightAvg: Option<real>,
    flightStd: Option<real>,
    dwellAvg: Option<real>,
    dwellStd: Option<real>,
    bigramAvg: Option<map<string, real>>,
    rhythmVector: Option<seq<real>>)
  {
    function FlightAvgOrDefault(): (r: real)
      ensures flightAvg.Some? ==> r == flightAvg.value
      ensures flightAvg.None? ==> r == 0.0
    { flightAvg.GetOr(0.0) }

    function FlightStdOrDefault(): (r: real)
      ensures flightStd.Some? ==> r == flightStd.value
      ensures flightStd.None? ==> r == 0.05
    { flightStd.GetOr(DefaultFlightStd) }

    function DwellAvgOrDefault(): (r: real)
      ensures dwellAvg.Some? ==> r == dwellAvg.value
      ensures dwellAvg.None? ==> r == 0.0
    { dwellAvg.GetOr(0.0) }

    function BigramAvgOrDefault(): (r: map<string, real>)
      ensures bigramAvg.Some? ==> r == bigramAvg.value
      ensures bigramAvg.None? ==> r == map[]
    { bigramAvg.GetOr(map[]) }

    function RhythmVectorOrDefault(): (r: seq<real>)
      ensures rhythmVector.Some? ==> r == rhythmVector.value
      ensures rhythmVector.None? ==> r == []
    { rhythmVector.GetOr([]) }
  }

  /** The spread assumed for a baseline that does not record one. */
  const DefaultFlightStd: real := 0.05

  /** The weighted sum of the four deviation signals and the decision
      against the threshold. */
  function Decide(fDev: real, dDev: real, bgDev: real, vDist: real, cosSim: real, threshold: real): (r: Assessment)
    ensures r.riskScore == Config.W1 * fDev + Config.W2 * dDev + Config.W3 * bgDev + Config.W4 * vDist
    ensures r.status == Trusted <==> r.riskScore < threshold
    ensures r.threshold == threshold && r.cosineSim == cosSim
    ensures r.flightDev == fDev && r.dwellDev == dDev && r.bigramDev == bgDev && r.vectorDist == vDist
  {
    var risk := Config.W1 * fDev + Config.W2 * dDev + Config.W3 * bgDev + Config.W4 * vDist;
    Assessment(fDev, dDev, bgDev, vDist, cosSim, risk, threshold,
      if risk < threshold then Trusted else Suspicious)
  }

  /** `compute_multifactor_risk`, as a specification. */
  ghost function MultifactorRisk(baseline: BaselineRecord, current: Sample, sqrt: real -> real): (r: Assessment)
    requires IsSqrt(sqrt)
    ensures r.riskScore >= 0.0
    ensures r.threshold == DynamicThreshold(baseline.FlightStdOrDefault(), Config.ThresholdK)
    ensures r.status == Trusted <==> r.riskScore < r.threshold
  {
    Decide(
      FlightDeviation(baseline.FlightAvgOrDefault(), current.flightTimes),
      DwellDeviation(baseline.DwellAvgOrDefault(), current.dwellTimes),
      BigramDeviation(baseline.BigramAvgOrDefault(), current.bigrams),
      RhythmVectorDistance(baseline.RhythmVectorOrDefault(), current.rhythmVector, sqrt),
      CosineSimilarity(baseline.RhythmVectorOrDefault(), current.rhythmVector, sqrt),
      DynamicThreshold(baseline.FlightStdOrDefault(), Config.ThresholdK))
  }

  /** `compute_multifactor_risk`, executable. */
  method ComputeMultifactorRisk(baseline: BaselineRecord, current: Sample, sqrt: real -> real) returns (r: Assessment)
    requires IsSqrt(sqrt)
    ensures r == MultifactorRisk(baseline, current, sqrt)
  {
    var bgDev := ComputeBigramDeviation(baseline.BigramAvgOrDefault(), current.bigrams);
    r := Decide(
      FlightDeviation(baseline.FlightAvgOrDefault(), current.flightTimes),
      DwellDeviation(baseline.DwellAvgOrDefault(), current.dwellTimes),
      bgDev,
      RhythmVectorDistance(baseline.RhythmVectorOrDefault(), current.rhythmVector, sqrt),
      CosineSimilarity(baseline.RhythmVectorOrDefault(), current.rhythmVector, sqrt),
      DynamicThreshold(baseline.FlightStdOrDefault(), Config.ThresholdK));
  }

  /** The weights sum to one, so the risk never exceeds its largest signal. */
  lemma RiskWithinSignals(baseline: BaselineRecord, current: Sample, sqrt: real -> real, m: real)
    requires IsSqrt(sqrt)
    requires var r := MultifactorRisk(baseline, current, sqrt);
      r.flightDev <= m && r.dwellDev <= m && r.bigramDev <= m && r.vectorDist <= m
    ensures MultifactorRisk(baseline, current, sqrt).riskScore <= m
  {
    Config.WeightsSumToOne();
  }

  /** A session with no deviation on any signal is TRUSTED, whatever the
      baseline's spread. */
  lemma NoDeviationIsTrusted(baseline: BaselineRecord, current: Sample, sqrt: real -> real)
    requires IsSqrt(sqrt)
    requires var r := MultifactorRisk(baseline, current, sqrt);
      r.flightDev == 0.0 && r.dwellDev == 0.0 && r.bigramDev == 0.0 && r.vectorDist == 0.0
    ensures MultifactorRisk(baseline, current, sqrt).status == Trusted
  {
    DefaultThresholdPositive(baseline.FlightStdOrDefault());
  }
}
