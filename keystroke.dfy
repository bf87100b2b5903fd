/** The feature extractor (keystroke.py): a state machine over timestamped
    key press and release events that accumulates flight times, dwell times,
    per-bigram flight times and the rhythm vector of one typing session.

    The pynput listener, its thread and `time.time()` are replaced by an
    explicit event sequence whose events carry their own timestamps. */
module Keystroke {
  import opened Wrappers
  import opened Stats
  import Config

  /** The capture's own copy of the interval limit (keystroke.py:55). */
  const CaptureMaxInterval: real := 3.0

  lemma MaxIntervalAgreesWithConfig()
    ensures CaptureMaxInterval == Config.MaxInterval
  {
  }

  /** The bigrams whose flight times are recorded (keystroke.py:20-25). */
  const TargetBigrams: set<string> := {
    "ze", "er", "ro", "co", "on", "nt", "ti", "in",
    "se", "ec", "ur", "ri", "it", "tr", "ru", "us",
    "st", "em", "au", "th", "he", "en", "ca", "at",
    "io", "an"
  }

  /** Membership in TargetBigrams decided on the two characters, by the
      first character and then the second. */
  predicate IsTargetBigram(k: string)
  {
    |k| == 2 &&
    match k[0]
    case 'z' => k[1] == 'e'
    case 'e' => k[1] in "rcmn"
    case 'r' => k[1] in "oiu"
    case 'c' => k[1] in "oa"
    case 'o' => k[1] == 'n'
    case 'n' => k[1] == 't'
    case 't' => k[1] in "irh"
    case 'i' => k[1] in "nto"
    case 's' => k[1] in "et"
    case 'u' => k[1] in "rs"
    case 'a' => k[1] in "utn"
    case 'h' => k[1] == 'e'
    case _ => false
  }

  lemma IsTargetBigramAgrees(k: string)
    ensures IsTargetBigram(k) <==> k in TargetBigrams
  {
    if |k| == 2 {
      assert k == [k[0], k[1]];
    }
  }

  /** A key as the listener reports it: one with a character, or a special
      key (Shift, Ctrl, ...) whose `char` is missing or None. */
  datatype Key = Printable(ch: char) | Special

  datatype Event = KeyPress(key: Key, at: real) | KeyRelease(key: Key, at: real)

  /** A press not yet matched by a release: its character and timestamp. */
  datatype PendingPress = PendingPress(ch: char, at: real)

  /** The dict a capture returns (keystroke.py:130-136). */
  datatype Sample = Sample(
    flightTimes: seq<real>,
    dwellTimes: seq<real>,
    bigrams: map<string, seq<real>>,
    rhythmVector: seq<real>,
    chars: string)

  /** str.lower() on one character, for the ASCII letters. */
  function Lower(c: char): (r: char)
    ensures 'A' <= c <= 'Z' ==> r as int == c as int + 32
    ensures !('A' <= c <= 'Z') ==> r == c
  {
    if 'A' <= c <= 'Z' then (c as int + 32) as char else c
  }

  /** `_empty_result`: every list, the map and the string empty (keystroke.py:235-242). */
  function EmptyResult(): (r: Sample)
    ensures r.flightTimes == [] && r.dwellTimes == [] && r.rhythmVector == []
    ensures r.bigrams == map[] && r.chars == []
  {
    Sample([], [], map[], [], [])
  }

  // ---------------------------------------------------------------------
  // Bigram lists
  // ---------------------------------------------------------------------

  /** bigrams.setdefault(key, []).append(x) */
  function AppendSample(m: map<string, seq<real>>, key: string, x: real): (r: map<string, seq<real>>)
    ensures r.Keys == m.Keys + {key}
    ensures key in m ==> r[key] == m[key] + [x]
    ensures key !in m ==> r[key] == [x]
    ensures forall k :: k in m && k != key ==> r[k] == m[k]
  {
    m[key := (if key in m then m[key] else []) + [x]]
  }

  function SampleCount(m: map<string, seq<real>>): string -> real
  {
    k => if k in m then |m[k]| as real else 0.0
  }

  /** The total number of bigram samples, sum(len(v) for v in bigrams.values()). */
  ghost function BigramSamples(m: map<string, seq<real>>): real
  {
    SetSum(m.Keys, SampleCount(m))
  }

  /** One setdefault/append adds exactly one bigram sample. */
  lemma BigramSamplesAppend(m: map<string, seq<real>>, key: string, x: real)
    ensures BigramSamples(AppendSample(m, key, x)) == BigramSamples(m) + 1.0
  {
    var m' := AppendSample(m, key, x);
    var f, f' := SampleCount(m), SampleCount(m');
    SetSumRemove(m'.Keys, f', key);
    assert f'(key) == f(key) + 1.0;
    SetSumCongruence(m.Keys - {key}, f, f');
    if key in m {
      assert m'.Keys == m.Keys;
      SetSumRemove(m.Keys, f, key);
    } else {
      assert m'.Keys - {key} == m.Keys;
      assert f(key) == 0.0;
      assert m.Keys - {key} == m.Keys;
    }
  }

  /** What every sample the extractor produces satisfies: the outlier filter
      bounds flights and dwells, the rhythm vector repeats the flights, and
      bigram samples are non-empty lists of target bigrams, no more of them
      than there are flights. */
  ghost predicate WellFormed(s: Sample)
  {
    && (forall i :: 0 <= i < |s.flightTimes| ==> s.flightTimes[i] <= CaptureMaxInterval)
    && s.rhythmVector == s.flightTimes
    && (forall i :: 0 <= i < |s.dwellTimes| ==> 0.0 < s.dwellTimes[i] <= CaptureMaxInterval)
    && (forall k :: k in s.bigrams ==> IsTargetBigram(k) && |s.bigrams[k]| > 0)
    && (forall k, i :: k in s.bigrams && 0 <= i < |s.bigrams[k]| ==> s.bigrams[k][i] <= CaptureMaxInterval)
    && BigramSamples(s.bigrams) <= |s.flightTimes| as real
  }

  /** A kept flight, and its bigram sample when the pair is a target,
      keep a sample well formed. */
  lemma WellFormedAfterFlight(s: Sample, flight: real, withBigram: bool, key: string)
    requires WellFormed(s)
    requires flight <= CaptureMaxInterval
    requires withBigram ==> IsTargetBigram(key)
    ensures WellFormed(Sample(s.flightTimes + [flight], s.dwellTimes,
      if withBigram then AppendSample(s.bigrams, key, flight) else s.bigrams,
      s.flightTimes + [flight], s.chars))
  {
    if withBigram {
      BigramSamplesAppend(s.bigrams, key, flight);
    }
  }

  /** A dwell inside the plausibility window keeps a sample well formed. */
  lemma WellFormedAfterDwell(s: Sample, dwell: real)
    requires WellFormed(s)
    ensures WellFormed(s.(dwellTimes := s.dwellTimes + KeptDwell(dwell)))
  {
  }

  // ---------------------------------------------------------------------
  // Pending presses and their matching
  // ---------------------------------------------------------------------

  /** Recording a press: the source keys the table by character and
      timestamp, so a second press of the same character at the same
      instant overwrites the first entry instead of adding one. */
  function AddPending(p: seq<PendingPress>, x: PendingPress): (r: seq<PendingPress>)
    ensures x in r && forall y :: y in p ==> y in r
    ensures |r| <= |p| + 1
    ensures forall y :: y in r <==> y in p || y == x
    ensures x in p ==> r == p
    ensures |p| <= |r| && r[..|p|] == p
  {
    if x in p then p else p + [x]
  }

  function RemoveAt(p: seq<PendingPress>, i: nat): seq<PendingPress>
    requires i < |p|
  {
    p[..i] + p[i + 1..]
  }

  /** Index i holds the press a release of ch consumes: of the same
      character, with the least timestamp, and the first such (the sort is
      stable). */
  ghost predicate IsEarliest(p: seq<PendingPress>, ch: char, i: nat)
  {
    && i < |p| && p[i].ch == ch
    && (forall j :: 0 <= j < |p| && p[j].ch == ch ==> p[i].at <= p[j].at)
    && (forall j :: 0 <= j < i && p[j].ch == ch ==> p[i].at < p[j].at)
  }

  /** The candidates of `_on_key_release`, sorted by press time, first taken. */
  function Earliest(p: seq<PendingPress>, ch: char): (r: Option<nat>)
    ensures r.None? <==> forall j :: 0 <= j < |p| ==> p[j].ch != ch
    ensures r.Some? ==> IsEarliest(p, ch, r.value)
  {
    if p == [] then None
    else
      var rest := Earliest(p[1..], ch);
      if p[0].ch != ch then
        (if rest.None? then None else Some(rest.value + 1))
      else if rest.None? || p[0].at <= p[1 + rest.value].at then Some(0)
      else Some(rest.value + 1)
  }

  /** The earliest pending press is unique. */
  lemma EarliestUnique(p: seq<PendingPress>, ch: char, i: nat, j: nat)
    requires IsEarliest(p, ch, i) && IsEarliest(p, ch, j)
    ensures i == j
  {
  }

  /** When presses were recorded in time order, the earliest pending press of
      a character is its first pending press: matching is first-in first-out. */
  lemma EarliestIsFirstWhenOrdered(p: seq<PendingPress>, ch: char, i: nat)
    requires forall a, b :: 0 <= a < b < |p| ==> p[a].at <= p[b].at
    requires i < |p| && p[i].ch == ch
    requires forall j :: 0 <= j < i ==> p[j].ch != ch
    ensures Earliest(p, ch) == Some(i)
  {
    var r := Earliest(p, ch);
    assert r.Some?;
    assert IsEarliest(p, ch, i);
    EarliestUnique(p, ch, r.value, i);
  }

  // ---------------------------------------------------------------------
  // Escape window
  // ---------------------------------------------------------------------

  /** Append, then drop the oldest character once there are more than two. */
  function PushRecent(w: seq<char>, c: char): (r: seq<char>)
    ensures |r| > 0 && r[|r| - 1] == c
    ensures |w| <= 2 ==> |r| <= 2
    ensures |w| < 2 ==> r == w + [c]
    ensures |w| >= 2 ==> r == w[1..] + [c]
  {
    var s := w + [c];
    if |s| > 2 then s[1..] else s
  }

  predicate IsEscape(w: seq<char>)
  {
    |w| == 2 && w[0] == ':' && w[1] == 'q'
  }

  /** The window ends the capture exactly when a 'q' is typed directly
      after a ':'. */
  lemma EscapeIsColonThenQ(w: seq<char>, c: char)
    requires |w| <= 2
    ensures IsEscape(PushRecent(w, c)) <==> |w| > 0 && w[|w| - 1] == ':' && c == 'q'
  {
  }

  /** The dwell appended for a release: only one inside the plausibility
      window (0, 3.0]. */
  function KeptDwell(dwell: real): (r: seq<real>)
    ensures 0.0 < dwell <= CaptureMaxInterval ==> r == [dwell]
    ensures !(0.0 < dwell <= CaptureMaxInterval) ==> r == []
  {
    if 0.0 < dwell <= CaptureMaxInterval then [dwell] else []
  }

  // ---------------------------------------------------------------------
  // The capture as a function of its events
  // ---------------------------------------------------------------------

  /** Every field of a capture object, as a value. */
  datatype CaptureState = CaptureState(
    flightTimes: seq<real>,
    dwellTimes: seq<real>,
    bigrams: map<string, seq<real>>,
    rhythmVector: seq<real>,
    pressTimes: seq<PendingPress>,
    lastPressTime: Option<real>,
    prevChar: Option<char>,
    typedChars: seq<char>,
    capturing: bool,
    recentChars: seq<char>)
  {
    /** The dict `capture_keystrokes` returns from this state: the rhythm
        vector is a fresh copy of the flight list (keystroke.py:130-136). */
    function Extract(): (r: Sample)
      ensures r.rhythmVector == r.flightTimes == flightTimes
      ensures r.dwellTimes == dwellTimes && r.bigrams == bigrams && r.chars == typedChars
    {
      Sample(flightTimes, dwellTimes, bigrams, flightTimes, typedChars)
    }
  }

  /** The state the reset block of `capture_keystrokes` leaves. */
  const Reset: CaptureState := CaptureState([], [], map[], [], [], None, None, [], true, [])

  /** The flight-time block of `_on_key_press` on the state: the interval
      since the previous press, kept when it is at most the limit, and
      recorded under its bigram when the pair is a target. */
  function FlightStep(s: CaptureState, ch: char, now: real): (r: CaptureState)
    // only the timing accumulators change
    ensures r.(flightTimes := s.flightTimes, rhythmVector := s.rhythmVector, bigrams := s.bigrams) == s
    // a flight is kept exactly when there was a previous press at most the limit ago
    ensures s.lastPressTime.Some? && now - s.lastPressTime.value <= CaptureMaxInterval ==>
      r.flightTimes == s.flightTimes + [now - s.lastPressTime.value]
      && r.rhythmVector == s.rhythmVector + [now - s.lastPressTime.value]
    ensures !(s.lastPressTime.Some? && now - s.lastPressTime.value <= CaptureMaxInterval) ==> r == s
  {
    if s.lastPressTime.None? then s
    else
      var flight := now - s.lastPressTime.value;
      if flight > CaptureMaxInterval then s
      else
        var pair := if s.prevChar.Some? then [s.prevChar.value, ch] else [];
        s.(flightTimes := s.flightTimes + [flight],
           rhythmVector := s.rhythmVector + [flight],
           bigrams := if s.prevChar.Some? && IsTargetBigram(pair)
                      then AppendSample(s.bigrams, pair, flight) else s.bigrams)
  }

  /** What `_on_key_press` does to the state, for a press at time `now`. */
  function PressStep(s: CaptureState, key: Key, now: real): (r: CaptureState)
    ensures !s.capturing || key.Special? ==> r == s
    ensures r.dwellTimes == s.dwellTimes
    ensures s.flightTimes <= r.flightTimes
    ensures s.capturing && key.Printable? ==> r.typedChars == s.typedChars + [Lower(key.ch)]
  {
    if !s.capturing || key.Special? then s
    else
      var ch := Lower(key.ch);
      var typed := s.(typedChars := s.typedChars + [ch], recentChars := PushRecent(s.recentChars, ch));
      if IsEscape(typed.recentChars) then typed.(capturing := false)
      else
        FlightStep(typed, ch, now).(lastPressTime := Some(now), prevChar := Some(ch),
          pressTimes := AddPending(s.pressTimes, PendingPress(ch, now)))
  }

  /** The effect of one press on the state: what is typed, what ':' 'q'
      stops, and the flight, bigram and pending-press rules. */
  lemma PressStepEffect(s: CaptureState, key: Key, now: real)
    requires ValidState(s)
    // not capturing, or no character: nothing changes
    ensures !s.capturing || key.Special? ==> PressStep(s, key, now) == s
    // every printable press is typed and enters the escape window
    ensures s.capturing && key.Printable? ==>
      var r := PressStep(s, key, now);
      && r.typedChars == s.typedChars + [Lower(key.ch)]
      && r.recentChars == PushRecent(s.recentChars, Lower(key.ch))
      && r.dwellTimes == s.dwellTimes
    // ':' then 'q' ends the capture and records nothing for the 'q'
    ensures s.capturing && key.Printable? && IsEscape(PressStep(s, key, now).recentChars) ==>
      var r := PressStep(s, key, now);
      && !r.capturing
      && r.flightTimes == s.flightTimes && r.rhythmVector == s.rhythmVector
      && r.bigrams == s.bigrams && r.pressTimes == s.pressTimes
      && r.lastPressTime == s.lastPressTime && r.prevChar == s.prevChar
    // any other printable press
    ensures s.capturing && key.Printable? && !IsEscape(PressStep(s, key, now).recentChars) ==>
      var r := PressStep(s, key, now);
      var ch := Lower(key.ch);
      var flight := if s.lastPressTime.Some? then now - s.lastPressTime.value else 0.0;
      var kept := s.lastPressTime.Some? && flight <= CaptureMaxInterval;
      var pair := if s.prevChar.Some? then [s.prevChar.value, ch] else [];
      && r.capturing
      && r.flightTimes == s.flightTimes + (if kept then [flight] else [])
      && r.rhythmVector == r.flightTimes
      && r.bigrams == (if kept && s.prevChar.Some? && IsTargetBigram(pair)
                       then AppendSample(s.bigrams, pair, flight) else s.bigrams)
      && r.lastPressTime == Some(now) && r.prevChar == Some(ch)
      && r.pressTimes == AddPending(s.pressTimes, PendingPress(ch, now))
  {
  }

  /** What `_on_key_release` does to the state, for a release at time `now`. */
  function ReleaseStep(s: CaptureState, key: Key, now: real): (r: CaptureState)
    // only the pending presses and the dwells change
    ensures r.(pressTimes := s.pressTimes, dwellTimes := s.dwellTimes) == s
    ensures s.dwellTimes <= r.dwellTimes && |r.dwellTimes| <= |s.dwellTimes| + 1
    ensures !s.capturing || key.Special? ==> r == s
  {
    if !s.capturing || key.Special? then s
    else
      var found := Earliest(s.pressTimes, Lower(key.ch));
      if found.None? then s
      else
        s.(pressTimes := RemoveAt(s.pressTimes, found.value),
           dwellTimes := s.dwellTimes + KeptDwell(now - s.pressTimes[found.value].at))
  }

  /** The effect of one release on the state: the earliest pending press of
      the character is consumed, and its dwell kept when plausible. */
  lemma ReleaseStepEffect(s: CaptureState, key: Key, now: real)
    ensures s.capturing && key.Printable? ==>
      var r := ReleaseStep(s, key, now);
      var found := Earliest(s.pressTimes, Lower(key.ch));
      && r.capturing
      // no pending press of this character: nothing changes
      && (found.None? ==> r == s)
      // otherwise the earliest is consumed, and its dwell kept if plausible
      && (found.Some? ==>
            && r.pressTimes == RemoveAt(s.pressTimes, found.value)
            && |r.pressTimes| == |s.pressTimes| - 1
            && r.dwellTimes == s.dwellTimes + KeptDwell(now - s.pressTimes[found.value].at))
  {
  }

  /** Delivering one event: a stopped capture ignores it, and each
      accumulator only grows, by at most one typed character. */
  function Step(s: CaptureState, e: Event): (r: CaptureState)
    ensures !s.capturing ==> r == s
    ensures s.flightTimes <= r.flightTimes && s.dwellTimes <= r.dwellTimes
    ensures s.typedChars <= r.typedChars && |r.typedChars| <= |s.typedChars| + 1
  {
    match e
    case KeyPress(key, at) => PressStep(s, key, at)
    case KeyRelease(key, at) => ReleaseStep(s, key, at)
  }

  /** The state after delivering the events in order. */
  function Run(s: CaptureState, events: seq<Event>): (r: CaptureState)
    // the accumulators only grow, and at most one character is typed per event
    ensures s.flightTimes <= r.flightTimes && s.dwellTimes <= r.dwellTimes
    ensures s.typedChars <= r.typedChars && |r.typedChars| <= |s.typedChars| + |events|
    decreases |events|
  {
    if events == [] then s
    else Step(Run(s, events[..|events| - 1]), events[|events| - 1])
  }

  /** The invariant of a capture state: a short escape window, the rhythm
      vector equal to the flight list, and a well-formed extracted sample. */
  ghost predicate ValidState(s: CaptureState)
  {
    && |s.recentChars| <= 2
    && s.rhythmVector == s.flightTimes
    && WellFormed(s.Extract())
  }

  /** A capture that receives no event returns what a failed listener
      returns. */
  lemma NoEventsGivesEmptyResult()
    ensures Run(Reset, []).Extract() == EmptyResult()
    ensures Run(Reset, []).capturing
  {
  }

  lemma ResetValid()
    ensures ValidState(Reset)
  {
    assert BigramSamples(map[]) == 0.0;
  }

  lemma FlightStepValid(s: CaptureState, ch: char, now: real)
    requires ValidState(s)
    ensures ValidState(FlightStep(s, ch, now))
  {
    if s.lastPressTime.Some? && now - s.lastPressTime.value <= CaptureMaxInterval {
      var pair := if s.prevChar.Some? then [s.prevChar.value, ch] else [];
      WellFormedAfterFlight(s.Extract(), now - s.lastPressTime.value,
        s.prevChar.Some? && IsTargetBigram(pair), pair);
    }
  }

  lemma PressStepValid(s: CaptureState, key: Key, now: real)
    requires ValidState(s)
    ensures ValidState(PressStep(s, key, now))
  {
    if s.capturing && key.Printable? {
      var ch := Lower(key.ch);
      var typed := s.(typedChars := s.typedChars + [ch], recentChars := PushRecent(s.recentChars, ch));
      assert typed.Extract().(chars := s.typedChars) == s.Extract();
      assert ValidState(typed);
      if !IsEscape(typed.recentChars) {
        FlightStepValid(typed, ch, now);
      }
    }
  }

  lemma ReleaseStepValid(s: CaptureState, key: Key, now: real)
    requires ValidState(s)
    ensures ValidState(ReleaseStep(s, key, now))
  {
    if s.capturing && key.Printable? {
      var found := Earliest(s.pressTimes, Lower(key.ch));
      if found.Some? {
        WellFormedAfterDwell(s.Extract(), now - s.pressTimes[found.value].at);
      }
    }
  }

  /** Every sample the capture produces is well formed, whatever the events. */
  lemma {:induction false} RunValid(s: CaptureState, events: seq<Event>)
    requires ValidState(s)
    ensures ValidState(Run(s, events))
    decreases |events|
  {
    if events != [] {
      var n := |events| - 1;
      RunValid(s, events[..n]);
      match events[n]
      case KeyPress(key, at) => PressStepValid(Run(s, events[..n]), key, at);
      case KeyRelease(key, at) => ReleaseStepValid(Run(s, events[..n]), key, at);
    }
  }

  /** Once capturing has stopped, no further event changes anything. */
  lemma {:induction false} RunAfterStop(s: CaptureState, events: seq<Event>)
    requires !s.capturing
    ensures Run(s, events) == s
    decreases |events|
  {
    if events != [] {
      RunAfterStop(s, events[..|events| - 1]);
    }
  }

  /** The events of a capture that ends with ':' 'q' add nothing after it:
      what was captured up to the escape is the result. */
  lemma RunStopsAtEscape(s: CaptureState, before: seq<Event>, after: seq<Event>)
    requires !Run(s, before).capturing
    ensures Run(s, before + after) == Run(s, before)
  {
    RunAppend(s, before, after);
    RunAfterStop(Run(s, before), after);
  }

  lemma {:induction false} RunAppend(s: CaptureState, a: seq<Event>, b: seq<Event>)
    ensures Run(s, a + b) == Run(Run(s, a), b)
    decreases |b|
  {
    if b == [] {
      assert a + b == a;
    } else {
      var n := |b| - 1;
      assert (a + b)[..|a + b| - 1] == a + b[..n];
      assert (a + b)[|a + b| - 1] == b[n];
      RunAppend(s, a, b[..n]);
    }
  }

  // ---------------------------------------------------------------------
  // The capture object
  // ---------------------------------------------------------------------

  class KeystrokeCapture {
    // timing accumulators
    var flightTimes: seq<real>
    var dwellTimes: seq<real>
    var bigrams: map<string, seq<real>>
    var rhythmVector: seq<real>
    // internal state
    var pressTimes: seq<PendingPress>
    var lastPressTime: Option<real>
    var prevChar: Option<char>
    var typedChars: seq<char>
    var capturing: bool
    var recentChars: seq<char>

    /** This object's fields, as a value. */
    function State(): CaptureState
      reads this
    {
      CaptureState(flightTimes, dwellTimes, bigrams, rhythmVector, pressTimes,
        lastPressTime, prevChar, typedChars, capturing, recentChars)
    }

    ghost predicate Valid()
      reads this
    {
      ValidState(State())
    }

    constructor ()
      ensures Valid() && !capturing
      ensures State().Extract() == EmptyResult() && rhythmVector == []
      ensures pressTimes == [] && lastPressTime == None && prevChar == None && recentChars == []
    {
      flightTimes, dwellTimes, bigrams, rhythmVector := [], [], map[], [];
      pressTimes, lastPressTime, prevChar, typedChars := [], None, None, [];
      capturing, recentChars := false, [];
      new;
      assert BigramSamples(bigrams) == 0.0;
    }

    /** The reset block at the start of `capture_keystrokes` (keystroke.py:79-89). */
    method Start()
      modifies this
      ensures State() == Reset
      ensures Valid() && capturing
      ensures State().Extract() == EmptyResult() && rhythmVector == []
      ensures pressTimes == [] && lastPressTime == None && prevChar == None && recentChars == []
    {
      flightTimes, dwellTimes, bigrams, rhythmVector := [], [], map[], [];
      pressTimes, lastPressTime, prevChar, typedChars := [], None, None, [];
      recentChars := [];
      capturing := true;
      assert BigramSamples(bigrams) == 0.0;
    }

    /** `_finish_capture`, state part: the listener stops accepting events. */
    method FinishCapture()
      modifies this`capturing
      ensures !capturing
    {
      capturing := false;
    }

    /** The flight-time block of `_on_key_press`: the interval since the
        previous press, kept when it is at most the limit, and recorded
        under its bigram when the pair is a target. */
    method RecordFlight(ch: char, now: real)
      modifies this`flightTimes, this`rhythmVector, this`bigrams
      ensures State() == FlightStep(old(State()), ch, now)
      ensures
        var flight := if lastPressTime.Some? then now - lastPressTime.value else 0.0;
        var kept := lastPressTime.Some? && flight <= CaptureMaxInterval;
        var pair := if prevChar.Some? then [prevChar.value, ch] else [];
        && flightTimes == old(flightTimes) + (if kept then [flight] else [])
        && rhythmVector == old(rhythmVector) + (if kept then [flight] else [])
        && bigrams == (if kept && prevChar.Some? && IsTargetBigram(pair)
                       then AppendSample(old(bigrams), pair, flight) else old(bigrams))
    {
      if lastPressTime.Some? {
        var flight := now - lastPressTime.value;
        if flight <= CaptureMaxInterval {
          flightTimes := flightTimes + [flight];
          rhythmVector := rhythmVector + [flight];
          if prevChar.Some? {
            var bigramKey := [prevChar.value, ch];
            if IsTargetBigram(bigramKey) {
              bigrams := AppendSample(bigrams, bigramKey, flight);
            }
          }
        }
      }
    }

    /** `_on_key_press` with the press timestamp `now`. */
    method OnKeyPress(key: Key, now: real)
      requires Valid()
      modifies this
      ensures Valid()
      ensures State() == PressStep(old(State()), key, now)
      // not capturing, or no character: nothing changes
      ensures !old(capturing) || key.Special? ==> unchanged(this)
    {
      if !capturing {
        return;
      }
      if key.Special? {
        return;
      }
      // the invariant holds of the state this press leads to
      PressStepValid(State(), key, now);
      PressCharacter(key, now);
    }

    /** The body of `_on_key_press` once a character was pressed while
        capturing. */
    method PressCharacter(key: Key, now: real)
      requires capturing && key.Printable?
      modifies this
      ensures State() == PressStep(old(State()), key, now)
    {
      var ch := Lower(key.ch);
      typedChars := typedChars + [ch];

      // escape sequence detection (:q)
      recentChars := PushRecent(recentChars, ch);
      if IsEscape(recentChars) {
        FinishCapture();
        return;
      }

      RecordFlight(ch, now);

      // state for the next press, and the press time for the dwell
      lastPressTime := Some(now);
      prevChar := Some(ch);
      pressTimes := AddPending(pressTimes, PendingPress(ch, now));
    }

    /** `_on_key_release` with the release timestamp `now`. */
    method OnKeyRelease(key: Key, now: real)
      requires Valid()
      modifies this
      ensures Valid()
      ensures State() == ReleaseStep(old(State()), key, now)
      ensures !old(capturing) || key.Special? ==> unchanged(this)
      ensures old(capturing) && key.Printable? ==>
        var ch := Lower(key.ch);
        var found := Earliest(old(pressTimes), ch);
        && capturing
        && flightTimes == old(flightTimes) && rhythmVector == old(rhythmVector)
        && bigrams == old(bigrams) && typedChars == old(typedChars)
        && lastPressTime == old(lastPressTime) && prevChar == old(prevChar)
        && recentChars == old(recentChars)
        // no pending press of this character: nothing changes
        && (found.None? ==> pressTimes == old(pressTimes) && dwellTimes == old(dwellTimes))
        // otherwise the earliest is consumed, and its dwell kept if plausible
        && (found.Some? ==>
              && pressTimes == RemoveAt(old(pressTimes), found.value)
              && dwellTimes == old(dwellTimes) + KeptDwell(now - old(pressTimes)[found.value].at))
    {
      if !capturing {
        return;
      }
      if key.Special? {
        return;
      }
      var ch := Lower(key.ch);
      var found := Earliest(pressTimes, ch);
      if found.Some? {
        var press := pressTimes[found.value];
        pressTimes := RemoveAt(pressTimes, found.value);
        var dwell := now - press.at;
        if 0.0 < dwell <= CaptureMaxInterval {
          dwellTimes := dwellTimes + [dwell];
        }
      }
    }

    /** `capture_keystrokes` on this object: reset, deliver the events the
        listener reports before it stops, return what was captured. When the
        listener cannot be started the result is `_empty_result()`. */
    method Capture(events: seq<Event>, listenerStarted: bool) returns (sample: Sample)
      modifies this
      ensures Valid()
      ensures WellFormed(sample)
      ensures !listenerStarted ==> sample == EmptyResult() && State() == Reset
      ensures listenerStarted ==> State() == Run(Reset, events) && sample == Run(Reset, events).Extract()
    {
      Start();
      if !listenerStarted {
        return EmptyResult();
      }
      for n := 0 to |events|
        invariant Valid()
        invariant State() == Run(Reset, events[..n])
      {
        assert events[..n + 1][..n] == events[..n];
        match events[n]
        case KeyPress(key, at) => OnKeyPress(key, at);
        case KeyRelease(key, at) => OnKeyRelease(key, at);
      }
      assert events[..|events|] == events;
      sample := State().Extract();
    }
  }

  /** The module-level `capture_keystrokes` that the console calls: a fresh
      capture object per prompt (keystroke.py:249-257). */
  method CaptureKeystrokes(events: seq<Event>, listenerStarted: bool) returns (sample: Sample)
    ensures WellFormed(sample)
    ensures !listenerStarted ==> sample == EmptyResult()
    ensures listenerStarted ==> sample == Run(Reset, events).Extract()
  {
    var capture := new KeystrokeCapture();
    sample := capture.Capture(events, listenerStarted);
  }
}
