/** The authentication console's decision flow (main.py): registering a
    baseline, a one-shot verification, and the continuous session monitor
    with its periodic re-verification and lock-out.

    Each capture the console would request is an input `Sample`, and the
    countdown between rechecks is an input `Tick`: interrupted by the user,
    or completed and followed by the recheck's capture. The monitor reads a
    finite sequence of ticks, the run so far; when it runs out while the
    session is still trusted the outcome is `StillActive`. */
module Session {
  import opened Wrappers
  import opened Stats
  import Config
  import opened Keystroke
  import opened RiskEngine
  import opened TrustEngine

  // main.py's own copies of the phrases and of the interval (main.py:39-42).
  const RegistrationText: string := "zero trust systems rely on continuous verification"
  const VerificationText: string := "continuous authentication enhances security posture"
  const ReverificationText: string := "trust no one verify always"
  const ReVerifyInterval: nat := 30

  lemma CopiesAgreeWithConfig()
    ensures RegistrationText == Config.RegistrationText
    ensures VerificationText == Config.VerificationText
    ensures ReverificationText == Config.ReverificationText
    ensures ReVerifyInterval == Config.ReVerifyInterval
  {
  }

  /** One countdown of the monitor: cut short by the user, or completed and
      followed by the recheck capture. */
  datatype Tick = Interrupted | Completed(capture: Sample)

  /** How `session_monitor` returned; the counts are `recheck_count`. */
  datatype MonitorOutcome =
    | NoBaseline
    | NoInitialData
    | InitialRejected
    | EndedByUser(rechecks: nat)
    | LockedNoData(rechecks: nat)
    | LockedSuspicious(rechecks: nat)
    | StillActive(rechecks: nat)

  /** The first n countdowns completed and each recheck was TRUSTED. */
  ghost predicate PassedRechecks(baseline: BaselineRecord, ticks: seq<Tick>, n: nat, sqrt: real -> real)
    requires IsSqrt(sqrt)
  {
    && n <= |ticks|
    && forall j :: 0 <= j < n ==>
         && ticks[j].Completed?
         && |ticks[j].capture.flightTimes| > 0
         && MultifactorRisk(baseline, ticks[j].capture, sqrt).status == Trusted
  }

  /** The assessment computed last after n completed countdowns: the
      initial one, or that of the n-th recheck. */
  ghost function Latest(baseline: BaselineRecord, initial: Sample, ticks: seq<Tick>, n: nat, sqrt: real -> real): Assessment
    requires IsSqrt(sqrt)
    requires n <= |ticks| && (n > 0 ==> ticks[n - 1].Completed?)
  {
    if n == 0 then MultifactorRisk(baseline, initial, sqrt)
    else MultifactorRisk(baseline, ticks[n - 1].capture, sqrt)
  }

  /** What each way out of the re-verification loop means, with the
      session flag and the last assessment it leaves. */
  ghost predicate LoopResult(outcome: MonitorOutcome, baseline: BaselineRecord, initial: Sample,
                             ticks: seq<Tick>, sqrt: real -> real, active: bool, last: Option<Assessment>)
    requires IsSqrt(sqrt)
  {
    match outcome
    case EndedByUser(n) =>
      && !active && n < |ticks| && ticks[n].Interrupted?
      && PassedRechecks(baseline, ticks, n, sqrt)
      && last == Some(Latest(baseline, initial, ticks, n, sqrt))
    case LockedNoData(n) =>
      && !active && 1 <= n <= |ticks|
      && PassedRechecks(baseline, ticks, n - 1, sqrt)
      && ticks[n - 1].Completed? && |ticks[n - 1].capture.flightTimes| == 0
      && last == Some(Latest(baseline, initial, ticks, n - 1, sqrt))
    case LockedSuspicious(n) =>
      && !active && 1 <= n <= |ticks|
      && PassedRechecks(baseline, ticks, n - 1, sqrt)
      && ticks[n - 1].Completed? && |ticks[n - 1].capture.flightTimes| > 0
      && MultifactorRisk(baseline, ticks[n - 1].capture, sqrt).status == Suspicious
      && last == Some(Latest(baseline, initial, ticks, n, sqrt))
    case StillActive(n) =>
      && active && n == |ticks|
      && PassedRechecks(baseline, ticks, n, sqrt)
      && last == Some(Latest(baseline, initial, ticks, n, sqrt))
    case _ => false
  }

  /** The countdown at which a loop result stops passing rechecks. */
  function Stop(o: MonitorOutcome): int
  {
    match o
    case EndedByUser(n) => n
    case StillActive(n) => n
    case LockedNoData(n) => n - 1
    case LockedSuspicious(n) => n - 1
    case _ => 0
  }

  /** A run cannot have passed more rechecks than where its loop result
      stops. */
  lemma PassedNotBeyondStop(o: MonitorOutcome, baseline: BaselineRecord, initial: Sample,
                            ticks: seq<Tick>, sqrt: real -> real, active: bool, last: Option<Assessment>, m: nat)
    requires IsSqrt(sqrt)
    requires LoopResult(o, baseline, initial, ticks, sqrt, active, last)
    requires PassedRechecks(baseline, ticks, m, sqrt)
    ensures m <= Stop(o)
  {
    match o
    case EndedByUser(n) =>
      if m > n { assert false; }
    case StillActive(n) =>
    case LockedNoData(n) =>
      if m > n - 1 { assert false; }
    case LockedSuspicious(n) =>
      if m > n - 1 { assert false; }
  }

  /** The outcome of a run that passed its first s rechecks and stops at
      countdown s. */
  function OutcomeAt(ticks: seq<Tick>, s: nat): MonitorOutcome
    requires s <= |ticks|
  {
    if s == |ticks| then StillActive(s)
    else match ticks[s]
      case Interrupted => EndedByUser(s)
      case Completed(data) =>
        if |data.flightTimes| == 0 then LockedNoData(s + 1) else LockedSuspicious(s + 1)
  }

  /** A loop result is the outcome at its stop, after passing every recheck
      before it. */
  lemma LoopResultAtStop(o: MonitorOutcome, baseline: BaselineRecord, initial: Sample,
                         ticks: seq<Tick>, sqrt: real -> real, active: bool, last: Option<Assessment>)
    requires IsSqrt(sqrt)
    requires LoopResult(o, baseline, initial, ticks, sqrt, active, last)
    ensures 0 <= Stop(o) <= |ticks|
    ensures PassedRechecks(baseline, ticks, Stop(o), sqrt)
    ensures o == OutcomeAt(ticks, Stop(o))
  {
  }

  /** The loop's outcome is determined by the ticks: no two outcomes fit the
      same run. */
  lemma LoopResultUnique(o1: MonitorOutcome, o2: MonitorOutcome, baseline: BaselineRecord, initial: Sample,
                         ticks: seq<Tick>, sqrt: real -> real,
                         a1: bool, a2: bool, l1: Option<Assessment>, l2: Option<Assessment>)
    requires IsSqrt(sqrt)
    requires LoopResult(o1, baseline, initial, ticks, sqrt, a1, l1)
    requires LoopResult(o2, baseline, initial, ticks, sqrt, a2, l2)
    ensures o1 == o2
  {
    // The first countdown that did not end in a TRUSTED recheck fixes both.
    LoopResultAtStop(o1, baseline, initial, ticks, sqrt, a1, l1);
    LoopResultAtStop(o2, baseline, initial, ticks, sqrt, a2, l2);
    PassedNotBeyondStop(o1, baseline, initial, ticks, sqrt, a1, l1, Stop(o2));
    PassedNotBeyondStop(o2, baseline, initial, ticks, sqrt, a2, l2, Stop(o1));
    var s: nat := Stop(o1);
    assert Stop(o2) == s;
    calc {
      o1;
      OutcomeAt(ticks, s);
      o2;
    }
  }

  /** A run whose every recheck is TRUSTED is never locked and never ends by
      itself: the session stays active through all of it. */
  lemma TrustedRunStaysActive(o: MonitorOutcome, baseline: BaselineRecord, initial: Sample,
                              ticks: seq<Tick>, sqrt: real -> real, active: bool, last: Option<Assessment>)
    requires IsSqrt(sqrt)
    requires PassedRechecks(baseline, ticks, |ticks|, sqrt)
    requires LoopResult(o, baseline, initial, ticks, sqrt, active, last)
    ensures o == StillActive(|ticks|) && active
  {
    if !o.StillActive? {
      assert false;
    }
  }

  // One step of the re-verification loop, from a run that has passed its
  // first n rechecks.

  lemma StepInterrupted(baseline: BaselineRecord, initial: Sample, ticks: seq<Tick>, n: nat, sqrt: real -> real)
    requires IsSqrt(sqrt)
    requires PassedRechecks(baseline, ticks, n, sqrt) && n < |ticks| && ticks[n].Interrupted?
    ensures LoopResult(EndedByUser(n), baseline, initial, ticks, sqrt, false,
                       Some(Latest(baseline, initial, ticks, n, sqrt)))
  {
  }

  lemma StepNoData(baseline: BaselineRecord, initial: Sample, ticks: seq<Tick>, n: nat, sqrt: real -> real)
    requires IsSqrt(sqrt)
    requires PassedRechecks(baseline, ticks, n, sqrt) && n < |ticks|
    requires ticks[n].Completed? && |ticks[n].capture.flightTimes| == 0
    ensures LoopResult(LockedNoData(n + 1), baseline, initial, ticks, sqrt, false,
                       Some(Latest(baseline, initial, ticks, n, sqrt)))
  {
  }

  lemma StepTrusted(baseline: BaselineRecord, initial: Sample, ticks: seq<Tick>, n: nat, sqrt: real -> real)
    requires IsSqrt(sqrt)
    requires PassedRechecks(baseline, ticks, n, sqrt) && n < |ticks|
    requires ticks[n].Completed? && |ticks[n].capture.flightTimes| > 0
    requires MultifactorRisk(baseline, ticks[n].capture, sqrt).status == Trusted
    ensures PassedRechecks(baseline, ticks, n + 1, sqrt)
    ensures Latest(baseline, initial, ticks, n + 1, sqrt) == MultifactorRisk(baseline, ticks[n].capture, sqrt)
  {
  }

  lemma StepSuspicious(baseline: BaselineRecord, initial: Sample, ticks: seq<Tick>, n: nat, sqrt: real -> real)
    requires IsSqrt(sqrt)
    requires PassedRechecks(baseline, ticks, n, sqrt) && n < |ticks|
    requires ticks[n].Completed? && |ticks[n].capture.flightTimes| > 0
    requires MultifactorRisk(baseline, ticks[n].capture, sqrt).status != Trusted
    ensures LoopResult(LockedSuspicious(n + 1), baseline, initial, ticks, sqrt, false,
                       Some(MultifactorRisk(baseline, ticks[n].capture, sqrt)))
  {
  }

  lemma RunExhausted(baseline: BaselineRecord, initial: Sample, ticks: seq<Tick>, sqrt: real -> real, last: Option<Assessment>)
    requires IsSqrt(sqrt)
    requires PassedRechecks(baseline, ticks, |ticks|, sqrt)
    requires last == Some(Latest(baseline, initial, ticks, |ticks|, sqrt))
    ensures LoopResult(StillActive(|ticks|), baseline, initial, ticks, sqrt, true, last)
  {
  }

  class ZeroTrustAuthSystem {
    const trustEngine: TrustEngine
    var sessionActive: bool
    var lastAssessment: Option<Assessment>

    ghost predicate Valid()
    {
      trustEngine.Valid()
    }

    constructor (engine: TrustEngine)
      requires engine.Valid()
      ensures Valid() && trustEngine == engine
      ensures !sessionActive && lastAssessment == None
    {
      trustEngine := engine;
      sessionActive := false;
      lastAssessment := None;
    }

    /** `register_baseline` on the captured registration sample: nothing is
        saved without flight times; otherwise the profile built from the
        sample replaces any stored one. */
    method RegisterBaseline(data: Sample)
      requires Valid()
      modifies trustEngine`stored
      ensures |data.flightTimes| == 0 ==> trustEngine.stored == old(trustEngine.stored)
      ensures |data.flightTimes| > 0 ==>
        trustEngine.stored == Some(Baseline(data, trustEngine.sqrt).value.ToRecord())
    {
      if |data.flightTimes| == 0 {
        return;
      }
      var baseline := trustEngine.CreateBaseline(data);
      if baseline.Ok? {
        trustEngine.SaveBaseline(baseline.value);
      }
    }

    /** `login_and_verify` on the captured verification sample: None without
        a baseline or without flight times, otherwise the assessment, which
        is also remembered as the last one. */
    method LoginAndVerify(data: Sample) returns (r: Option<Assessment>)
      requires Valid()
      modifies this`lastAssessment
      ensures trustEngine.stored.None? || |data.flightTimes| == 0 ==>
        r == None && lastAssessment == old(lastAssessment)
      ensures trustEngine.stored.Some? && |data.flightTimes| > 0 ==>
        && r == Some(MultifactorRisk(trustEngine.stored.value, data, trustEngine.sqrt))
        && lastAssessment == r
    {
      var loaded := trustEngine.LoadBaseline();
      if loaded.Err? {
        return None;
      }
      if |data.flightTimes| == 0 {
        return None;
      }
      var result := trustEngine.ComputeRisk(data, loaded.value);
      r := if result.Ok? then Some(result.value) else None;
      if result.Ok? {
        lastAssessment := r;
      }
    }

    /** `_lock_session`: the session is no longer active. */
    method LockSession()
      modifies this`sessionActive
      ensures !sessionActive
    {
      sessionActive := false;
    }

    /** `session_monitor`: load the baseline, verify the initial sample,
        then re-verify after every completed countdown until the user
        interrupts, a recheck has no data or is SUSPICIOUS. */
    method SessionMonitor(initial: Sample, ticks: seq<Tick>) returns (outcome: MonitorOutcome)
      requires Valid()
      modifies this`sessionActive, this`lastAssessment
      // no baseline: return before any capture
      ensures trustEngine.stored.None? ==>
        outcome == NoBaseline && sessionActive == old(sessionActive) && lastAssessment == old(lastAssessment)
      // no initial data: return before any assessment
      ensures trustEngine.stored.Some? && |initial.flightTimes| == 0 ==>
        outcome == NoInitialData && sessionActive == old(sessionActive) && lastAssessment == old(lastAssessment)
      // the initial assessment decides whether the session starts
      ensures trustEngine.stored.Some? && |initial.flightTimes| > 0 ==>
        var first := MultifactorRisk(trustEngine.stored.value, initial, trustEngine.sqrt);
        && (first.status != Trusted ==>
              outcome == InitialRejected && sessionActive == old(sessionActive)
              && lastAssessment == Some(first))
        && (first.status == Trusted ==>
              LoopResult(outcome, trustEngine.stored.value, initial, ticks, trustEngine.sqrt,
                         sessionActive, lastAssessment))
    {
      var loaded := trustEngine.LoadBaseline();
      if loaded.Err? {
        return NoBaseline;
      }
      var baseline := loaded.value;
      if |initial.flightTimes| == 0 {
        return NoInitialData;
      }
      var first := trustEngine.ComputeRisk(initial, baseline);
      var assessment := first.value;
      lastAssessment := Some(assessment);
      if assessment.status != Trusted {
        return InitialRejected;
      }

      // the re-verification loop
      sessionActive := true;
      var recheckCount: nat := 0;
      outcome := StillActive(0);
      while sessionActive && recheckCount < |ticks|
        invariant recheckCount <= |ticks|
        invariant sessionActive ==>
          && outcome == StillActive(recheckCount)
          && PassedRechecks(baseline, ticks, recheckCount, trustEngine.sqrt)
          && lastAssessment == Some(Latest(baseline, initial, ticks, recheckCount, trustEngine.sqrt))
        invariant !sessionActive ==>
          LoopResult(outcome, baseline, initial, ticks, trustEngine.sqrt, sessionActive, lastAssessment)
        decreases |ticks| - recheckCount, sessionActive
      {
        ghost var n := recheckCount;
        match ticks[recheckCount]
        case Interrupted =>
          StepInterrupted(baseline, initial, ticks, n, trustEngine.sqrt);
          sessionActive := false;
          outcome := EndedByUser(recheckCount);
        case Completed(data) =>
          recheckCount := recheckCount + 1;
          if |data.flightTimes| == 0 {
            StepNoData(baseline, initial, ticks, n, trustEngine.sqrt);
            LockSession();
            outcome := LockedNoData(recheckCount);
          } else {
            var check := trustEngine.ComputeRisk(data, baseline);
            var assessment := check.value;
            lastAssessment := Some(assessment);
            if assessment.status == Trusted {
              StepTrusted(baseline, initial, ticks, n, trustEngine.sqrt);
              outcome := StillActive(recheckCount);
            } else {
              StepSuspicious(baseline, initial, ticks, n, trustEngine.sqrt);
              LockSession();
              outcome := LockedSuspicious(recheckCount);
            }
          }
      }
      if sessionActive {
        RunExhausted(baseline, initial, ticks, trustEngine.sqrt, lastAssessment);
      }
    }
  }
}
