/** The profile manager (trust_engine.py): building a baseline profile from
    one captured sample, keeping it in the store, and the guarded calls into
    the risk scorer. The JSON file is the optional record `stored`. */
module TrustEngine {
  import opened Wrappers
  import opened Stats
  import opened Keystroke
  import opened RiskEngine

  /** The profile `create_baseline` builds (trust_engine.py:88-95). */
  datatype Profile = Profile(
    flightAvg: real,
    flightStd: real,
    dwellAvg: real,
    dwellStd: real,
    bigramAvg: map<string, real>,
    rhythmVector: seq<real>)
  {
    /** The document `save_baseline` writes: every key present. */
    function ToRecord(): (r: BaselineRecord)
      ensures r.flightAvg.Some? && r.flightStd.Some? && r.dwellAvg.Some?
      ensures r.dwellStd.Some? && r.bigramAvg.Some? && r.rhythmVector.Some?
    {
      BaselineRecord(Some(flightAvg), Some(flightStd), Some(dwellAvg), Some(dwellStd),
        Some(bigramAvg), Some(rhythmVector))
    }
  }

  /** The exceptions of the profile manager: `ValueError` from
      `create_baseline` and from `compute_risk`, `FileNotFoundError` from
      `load_baseline`. */
  datatype Error = NoFlightData | NoKeystrokeData | BaselineNotFound

  /** The spreads used when there are too few samples for a standard
      deviation (trust_engine.py:69, 76, 79). */
  const SingleFlightStd: real := 0.05
  const FallbackDwellStd: real := 0.02

  /** The readers' defaults give back exactly what was saved: every value the
      risk scorer reads from a saved profile is the profile's own. */
  lemma ToRecordRoundTrip(p: Profile)
    ensures p.ToRecord().FlightAvgOrDefault() == p.flightAvg
    ensures p.ToRecord().FlightStdOrDefault() == p.flightStd
    ensures p.ToRecord().DwellAvgOrDefault() == p.dwellAvg
    ensures p.ToRecord().BigramAvgOrDefault() == p.bigramAvg
    ensures p.ToRecord().RhythmVectorOrDefault() == p.rhythmVector
  {
  }

  // ---------------------------------------------------------------------
  // Baseline construction
  // ---------------------------------------------------------------------

  /** `flight_std`: the sample standard deviation, or 0.05 for one sample. */
  function FlightSpread(flights: seq<real>, sqrt: real -> real): (r: real)
    requires IsSqrt(sqrt)
    ensures r >= 0.0
    ensures |flights| <= 1 ==> r == SingleFlightStd
    ensures |flights| >= 2 ==> r * r * ((|flights| - 1) as real) == SumSqDev(flights, Mean(flights))
  {
    if |flights| > 1 then Stdev(flights, sqrt) else SingleFlightStd
  }

  /** `(dwell_avg, dwell_std)`: (0.0, 0.02) with no dwell samples, the mean
      and 0.02 with one, the mean and the standard deviation otherwise. */
  function DwellStats(dwells: seq<real>, sqrt: real -> real): (r: (real, real))
    requires IsSqrt(sqrt)
    ensures r.1 >= 0.0
    ensures |dwells| == 0 ==> r == (0.0, FallbackDwellStd)
    ensures |dwells| > 0 ==> r.0 == Mean(dwells)
    ensures |dwells| == 1 ==> r.1 == FallbackDwellStd
    ensures |dwells| >= 2 ==> r.1 * r.1 * ((|dwells| - 1) as real) == SumSqDev(dwells, Mean(dwells))
  {
    if |dwells| > 0 then
      (Mean(dwells), if |dwells| > 1 then Stdev(dwells, sqrt) else FallbackDwellStd)
    else
      (0.0, FallbackDwellStd)
  }

  /** `bigram_avg`: the mean of every non-empty bigram list; bigrams whose
      list is empty are dropped. */
  ghost function BigramAverages(bigrams: map<string, seq<real>>): (r: map<string, real>)
    ensures forall k :: k in r <==> k in bigrams && |bigrams[k]| > 0
  {
    map k | k in bigrams && |bigrams[k]| > 0 :: Mean(bigrams[k])
  }

  /** `create_baseline`, as a specification: it fails exactly when the
      sample holds no flight time. */
  ghost function Baseline(data: Sample, sqrt: real -> real): (r: Result<Profile, Error>)
    requires IsSqrt(sqrt)
    ensures r.Err? <==> |data.flightTimes| == 0
    ensures r.Err? ==> r.error == NoFlightData
  {
    if |data.flightTimes| == 0 then Err(NoFlightData)
    else
      var dwell := DwellStats(data.dwellTimes, sqrt);
      Ok(Profile(
        Mean(data.flightTimes),
        FlightSpread(data.flightTimes, sqrt),
        dwell.0,
        dwell.1,
        BigramAverages(data.bigrams),
        data.rhythmVector))
  }

  /** The loop that fills `bigram_avg`, one bigram at a time. */
  method BuildBigramAverages(bigrams: map<string, seq<real>>) returns (avg: map<string, real>)
    ensures avg == BigramAverages(bigrams)
  {
    avg := map[];
    var remaining := bigrams.Keys;
    while remaining != {}
      invariant remaining <= bigrams.Keys
      invariant forall k :: k in avg <==> k in bigrams && k !in remaining && |bigrams[k]| > 0
      invariant forall k :: k in avg ==> avg[k] == Mean(bigrams[k])
      decreases remaining
    {
      var key :| key in remaining;
      var times := bigrams[key];
      if |times| > 0 {
        avg := avg[key := Mean(times)];
      }
      remaining := remaining - {key};
    }
  }

  /** Every average of a well-formed sample respects the capture's outlier
      filter, the spreads are non-negative, and the rhythm vector is carried
      over with its length and order. */
  lemma BaselineOfWellFormedSample(data: Sample, sqrt: real -> real)
    requires IsSqrt(sqrt)
    requires WellFormed(data)
    requires |data.flightTimes| > 0
    ensures var p := Baseline(data, sqrt).value;
      && p.flightAvg <= CaptureMaxInterval
      && 0.0 <= p.dwellAvg <= CaptureMaxInterval
      && p.flightStd >= 0.0 && p.dwellStd >= 0.0
      && (forall k :: k in p.bigramAvg ==> IsTargetBigram(k) && p.bigramAvg[k] <= CaptureMaxInterval)
      && p.rhythmVector == data.flightTimes
  {
    var p := Baseline(data, sqrt).value;
    MeanUpperBound(data.flightTimes, CaptureMaxInterval);
    if |data.dwellTimes| > 0 {
      MeanBounds(data.dwellTimes, 0.0, CaptureMaxInterval);
    }
    forall k | k in p.bigramAvg
      ensures p.bigramAvg[k] <= CaptureMaxInterval
    {
      MeanUpperBound(data.bigrams[k], CaptureMaxInterval);
    }
  }

  /** Verifying with the very sample a profile was built from finds no
      deviation on any signal, so that sample is TRUSTED. */
  lemma RegistrationSampleIsTrusted(data: Sample, sqrt: real -> real)
    requires IsSqrt(sqrt)
    requires |data.flightTimes| > 0
    ensures var a := MultifactorRisk(Baseline(data, sqrt).value.ToRecord(), data, sqrt);
      a.riskScore == 0.0 && a.status == Trusted
  {
    var p := Baseline(data, sqrt).value;
    var b := p.ToRecord();
    ToRecordRoundTrip(p);
    var a := MultifactorRisk(b, data, sqrt);
    BigramDeviationZeroIff(p.bigramAvg, data.bigrams);
    AlignEqualLengths(data.rhythmVector, data.rhythmVector);
    RhythmVectorDistanceZeroIff(data.rhythmVector, data.rhythmVector, sqrt);
    assert a.flightDev == 0.0 && a.dwellDev == 0.0 && a.bigramDev == 0.0 && a.vectorDist == 0.0;
    NoDeviationIsTrusted(b, data, sqrt);
  }

  // ---------------------------------------------------------------------
  // The engine object
  // ---------------------------------------------------------------------

  class TrustEngine {
    /** `math.sqrt`, as the risk scorer uses it. */
    const sqrt: real -> real
    /** The baseline file: absent, or the document it holds. */
    var stored: Option<BaselineRecord>

    ghost predicate Valid()
    {
      IsSqrt(sqrt)
    }

    /** An engine over whatever baseline file already exists. */
    constructor (sqrt: real -> real, existing: Option<BaselineRecord>)
      requires IsSqrt(sqrt)
      ensures Valid() && this.sqrt == sqrt && stored == existing
    {
      this.sqrt := sqrt;
      stored := existing;
    }

    /** `create_baseline`. */
    method CreateBaseline(data: Sample) returns (r: Result<Profile, Error>)
      requires Valid()
      ensures r == Baseline(data, sqrt)
    {
      if |data.flightTimes| == 0 {
        return Err(NoFlightData);
      }
      var flightAvg := Mean(data.flightTimes);
      var flightStd := FlightSpread(data.flightTimes, sqrt);
      var dwell := DwellStats(data.dwellTimes, sqrt);
      var bigramAvg := BuildBigramAverages(data.bigrams);
      r := Ok(Profile(flightAvg, flightStd, dwell.0, dwell.1, bigramAvg, data.rhythmVector));
    }

    /** `save_baseline`: the file is overwritten unconditionally. */
    method SaveBaseline(profile: Profile)
      modifies this`stored
      ensures stored == Some(profile.ToRecord())
    {
      stored := Some(profile.ToRecord());
    }

    /** `load_baseline`: not-found when no file exists. */
    method LoadBaseline() returns (r: Result<BaselineRecord, Error>)
      ensures stored.None? ==> r == Err(BaselineNotFound)
      ensures stored.Some? ==> r == Ok(stored.value)
    {
      if stored.None? {
        return Err(BaselineNotFound);
      }
      return Ok(stored.value);
    }

    /** `compute_risk`: refuses a session without flight times, otherwise
        the multi-factor assessment against the given baseline. */
    method ComputeRisk(current: Sample, baseline: BaselineRecord) returns (r: Result<Assessment, Error>)
      requires Valid()
      ensures |current.flightTimes| == 0 ==> r == Err(NoKeystrokeData)
      ensures |current.flightTimes| > 0 ==> r == Ok(MultifactorRisk(baseline, current, sqrt))
    {
      if |current.flightTimes| == 0 {
        return Err(NoKeystrokeData);
      }
      var assessment := ComputeMultifactorRisk(baseline, current, sqrt);
      return Ok(assessment);
    }

    /** `verify_user`: load, then compute. A missing baseline is reported as
        an error result; a session without flight times fails as in
        `compute_risk`. */
    method VerifyUser(current: Sample) returns (r: Result<Assessment, Error>)
      requires Valid()
      ensures stored.None? ==> r == Err(BaselineNotFound)
      ensures stored.Some? && |current.flightTimes| == 0 ==> r == Err(NoKeystrokeData)
      ensures stored.Some? && |current.flightTimes| > 0 ==> r == Ok(MultifactorRisk(stored.value, current, sqrt))
    {
      var loaded := LoadBaseline();
      if loaded.Err? {
        return Err(loaded.error);
      }
      r := ComputeRisk(current, loaded.value);
    }
  }
}
