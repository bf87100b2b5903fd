# Keystroke-dynamics zero-trust authentication, modelled in Dafny

The system authenticates a user by how they type. A capture object turns timestamped key press and release events into a sample. A sample holds:

- flight times (press to press);
- dwell times (press to release);
- flight times per target bigram;
- a rhythm vector.

A trust engine builds a baseline profile from one registration sample and keeps it in a store. A risk engine compares a later sample with the baseline on four signals:

- mean flight time;
- mean dwell time;
- shared-bigram timing;
- normalised rhythm distance.

It weights the four into a risk score. The session is TRUSTED exactly when the score is strictly below an adaptive threshold, `max(flight_std, 0.02) * 2.5`. The console uses this to:

- register a baseline;
- verify once;
- run a monitored session that re-verifies after every countdown and locks on an empty or SUSPICIOUS recheck.

Modules, one per source file:

- `Config` (config.dfy): the shared constants and the facts about them.
- `Keystroke` (keystroke.dfy): the capture object `KeystrokeCapture`, a class whose handlers update its fields. Each handler is proved against a step function on `CaptureState`, the object's fields as a value (`PressStep`, `ReleaseStep`). `Run` folds the steps over an event sequence, so a capture's result is a function of its events. `WellFormed` is the invariant every produced sample satisfies.
- `RiskEngine` (risk_engine.dfy): the metrics and the decision. Pure functions, plus the method `ComputeBigramDeviation`, which carries the source's loop over shared bigrams, and `ComputeMultifactorRisk`, which calls it.
- `TrustEngine` (trust_engine.dfy): baseline construction, the store and the guarded risk calls. The class `TrustEngine` holds the store as `stored: Option<BaselineRecord>`.
- `Session` (session.dfy): the console's decision flow, as the class `ZeroTrustAuthSystem`. The monitor reads a sequence of countdown outcomes and proves what each way out of its loop means.
- `Stats` (stats.dfy) and `Wrappers` (wrappers.dfy): sums, means, the sample standard deviation, sums over finite sets, and Option/Result.

`math.sqrt` is a parameter `sqrt: real -> real`. Every member that uses it requires `IsSqrt(sqrt)`: the result is non-negative and squares back to its argument.

Where the code and the design description differ, the model follows the code:

- The escape sequence is `:` then `q`. The `:` is recorded as an ordinary key (flight, bigram, pending press). Only the `q` is dropped (keystroke.py:160-168).
- `verify_user` catches only `FileNotFoundError`. The `ValueError` for a sample without flight times propagates, so it is `Err(NoKeystrokeData)` here, as in `compute_risk` (trust_engine.py:170-177).

## Model

| member | source | states |
|---|---|---|
| Config.WeightsSumToOne | config.py:13-19 | the four weights add up to exactly 1 |
| Config.WeightsInUnitInterval | config.py:13-16 | each weight lies strictly between 0 and 1 |
| Config.FloorThresholdPositive | config.py:24-25 | FLOOR_STD times THRESHOLD_K is 0.05, strictly positive |
| Keystroke.MaxIntervalAgreesWithConfig | keystroke.py:55 | the capture's hard-coded 3.0 s limit equals MAX_INTERVAL |
| Session.CopiesAgreeWithConfig | main.py:39-42 | main.py's phrases and re-verify interval equal the config constants |
| Keystroke.IsTargetBigramAgrees | keystroke.py:20-25 | the per-character bigram test holds exactly for the 26 target bigrams |
| Keystroke.EmptyResult | keystroke.py:234-242 | the empty result has every list, the map and the string empty |
| Keystroke.BigramSamplesAppend | keystroke.py:177-181 | one setdefault/append adds exactly one bigram sample to the total |
| Keystroke.WellFormedAfterFlight | keystroke.py:170-181 | a kept flight (at most 3.0), and its bigram sample when the pair is a target, keep the sample invariant: flights at most 3.0, rhythm equals flights, bigram samples no more than flights |
| Keystroke.WellFormedAfterDwell | keystroke.py:218-220 | appending a dwell only when 0 < dwell <= 3.0 keeps the invariant |
| Keystroke.AddPending | keystroke.py:188 | the pending presses afterwards are exactly the old ones plus the new one, in their old order with the new one last; a press already pending (same character and instant, so the same dict key) leaves the table unchanged |
| Keystroke.Earliest | keystroke.py:208-214 | None exactly when no press of the character is pending; otherwise the index of the earliest press, the first among equal timestamps |
| Keystroke.EarliestUnique | keystroke.py:212-214 | the press a release consumes is uniquely determined |
| Keystroke.EarliestIsFirstWhenOrdered | keystroke.py:208-216 | with presses recorded in time order, a release consumes the first pending press of its character |
| Keystroke.PushRecent | keystroke.py:160-163 | the escape window holds at most two characters, ends with the new one, and drops the oldest only when full |
| Keystroke.Lower | keystroke.py:157 | ASCII upper-case letters map to lower case; every other character is unchanged |
| Keystroke.KeystrokeCapture.constructor | keystroke.py:37-55 | a new capture is idle, with every accumulator and all internal state empty |
| Keystroke.KeystrokeCapture.Start | keystroke.py:79-90 | the reset empties every accumulator, the pending table, the previous press and character and the escape window, and starts capturing |
| Keystroke.KeystrokeCapture.FinishCapture | keystroke.py:222-225 | capturing stops |
| Keystroke.AppendSample | keystroke.py:181 | setdefault-then-append: the key's list gains exactly the new value at its end (a new key starts a one-element list); every other key is unchanged and no key is lost |
| Keystroke.EscapeIsColonThenQ | keystroke.py:160-166 | the escape window ends the capture exactly when the new character is 'q' and the previous one was ':' |
| Keystroke.KeptDwell | keystroke.py:218-220 | a dwell is kept exactly when 0 < dwell <= 3.0, and is then the only value appended |
| Keystroke.CaptureState.Extract | keystroke.py:130-136 | the returned sample carries the flights, dwells, bigram map and typed characters, and its rhythm vector is the flight list |
| Keystroke.FlightStep | keystroke.py:170-181 | only the flight list, rhythm vector and bigram map change; a flight is appended to both lists exactly when a previous press exists and the gap is at most 3.0, otherwise nothing changes |
| Keystroke.PressStep | keystroke.py:142-188 | a press leaves the dwells alone and never shortens the flights; nothing changes when idle or for a special key; a printable press is typed, lower-cased (its full effect is PressStepEffect) |
| Keystroke.ReleaseStep | keystroke.py:190-220 | a release changes only the pending presses and the dwells, appends at most one dwell, and changes nothing when idle or for a special key |
| Keystroke.ReleaseStepEffect | keystroke.py:190-220 | for a release while capturing: no change with no pending press of the character; otherwise exactly the earliest such press is removed, and its dwell is appended only if 0 < dwell <= 3.0 |
| Keystroke.Step | keystroke.py:64-136 | delivering one event to a stopped capture changes nothing; otherwise flights, dwells and typed characters only grow, by at most one typed character |
| Keystroke.Run | keystroke.py:64-136 | delivering events in order only extends the flights, dwells and typed characters, by at most one typed character per event |
| Keystroke.NoEventsGivesEmptyResult | keystroke.py:79-90 | the reset state, before any event, still capturing, yields exactly the empty result |
| Keystroke.PressStepEffect | keystroke.py:142-188 | for the press step: no change when idle or for a special key; every printable press is typed and enters the escape window; ':' then 'q' stops capture and records nothing for the 'q'; otherwise the flight is appended only when a previous press exists and the gap is at most 3.0, and also to its bigram list when the pair is a target; the last press time, previous character and pending press are updated even when the flight was discarded; dwells never change |
| Keystroke.ResetValid | keystroke.py:79-90 | the state after the reset satisfies the capture invariant |
| Keystroke.FlightStepValid | keystroke.py:170-181 | the flight rule keeps the capture invariant |
| Keystroke.PressStepValid | keystroke.py:142-188 | every press keeps the capture invariant |
| Keystroke.ReleaseStepValid | keystroke.py:190-220 | every release keeps the capture invariant |
| Keystroke.RunValid | keystroke.py:64-136 | every event sequence delivered after the reset leaves a state satisfying the invariant, so every captured sample is well formed |
| Keystroke.RunAfterStop | keystroke.py:142-145 | once capturing has stopped, no further event changes the state |
| Keystroke.RunStopsAtEscape | keystroke.py:164-168 | events after the one that stops capture do not change the result |
| Keystroke.RunAppend | keystroke.py:64-136 | delivering two event sequences one after the other is delivering their concatenation |
| Keystroke.KeystrokeCapture.RecordFlight | keystroke.py:170-181 | the fields become the flight step of the old state: the flight is appended to flights and rhythm only when a previous press exists and the gap is at most 3.0; it is appended to a bigram list only when also a previous character exists and the pair is a target |
| Keystroke.KeystrokeCapture.OnKeyPress | keystroke.py:142-188 | the fields become the press step of the old state (its effect is PressStepEffect); nothing changes when idle or for a special key; the invariant is kept |
| Keystroke.KeystrokeCapture.PressCharacter | keystroke.py:157-188 | for a character pressed while capturing, the fields become the press step of the old state |
| Keystroke.KeystrokeCapture.OnKeyRelease | keystroke.py:190-220 | the fields become the release step of the old state: no change when idle, for a special key, or with no pending press of the character; otherwise exactly the earliest such press is removed, and its dwell is appended only if 0 < dwell <= 3.0; the invariant is kept |
| Keystroke.KeystrokeCapture.Capture | keystroke.py:64-136 | after the reset, the object's state is the fold of the step functions over the delivered events, and the result is that state's sample (the rhythm vector a copy of the flights), which is well formed; the empty result when the listener fails |
| Keystroke.CaptureKeystrokes | keystroke.py:249-257 | the sample the console receives is the one determined by the events from a fresh reset, is well formed, and is empty when the listener fails |
| Stats.Mean | trust_engine.py:67 | the mean times the number of values is their sum (statistics.mean) |
| Stats.Stdev | trust_engine.py:69 | the sample standard deviation is non-negative, and its square times n-1 is the sum of squared deviations from the mean (statistics.stdev) |
| RiskEngine.AlignVectors | risk_engine.py:38-44 | both results are prefixes of the inputs, of equal length, one of them the whole input (length min(len v1, len v2)) |
| RiskEngine.AlignPrefix | risk_engine.py:38-44 | when one vector is a prefix of the other, the aligned vectors are equal |
| RiskEngine.AlignEqualLengths | risk_engine.py:38-44 | vectors of equal length are left unchanged |
| RiskEngine.EuclideanDistance | risk_engine.py:47-68 | non-negative, 0 when either input is empty, and its square is the sum of squared differences of the aligned prefixes |
| RiskEngine.EuclideanZeroIff | risk_engine.py:60-68 | the distance is 0 exactly when the aligned prefixes are equal |
| RiskEngine.CosineSimilarity | risk_engine.py:82-85 | 1.0 when either input is empty |
| RiskEngine.CosineBounded | risk_engine.py:71-98 | the similarity always lies in [-1, 1] |
| RiskEngine.CosineSelf | risk_engine.py:71-98 | a vector's similarity with itself is 1 |
| RiskEngine.CosineDegenerate | risk_engine.py:93-96 | when an aligned norm is 0, the result is 1.0 if both norms are 0 and 0.0 otherwise |
| RiskEngine.FlightDeviation | risk_engine.py:105-119 | non-negative; 0 for no current flights; otherwise the absolute difference of the mean and the baseline, 0 exactly when they agree |
| RiskEngine.DwellDeviation | risk_engine.py:122-136 | as for flights, and also 0 whenever the baseline average is 0 |
| RiskEngine.UsableBigrams | risk_engine.py:155-164 | a bigram counts exactly when it is in both maps with a non-empty current list |
| RiskEngine.BigramDeviation | risk_engine.py:139-168 | non-negative, and 0 when no usable bigram remains |
| RiskEngine.BigramDeviationZeroIff | risk_engine.py:159-168 | the deviation is 0 exactly when every usable bigram's current mean equals its baseline |
| RiskEngine.BigramDeviationIgnoresBaselineOnly | risk_engine.py:155 | a baseline bigram absent from the session does not affect the deviation |
| RiskEngine.BigramDeviationIgnoresSessionOnly | risk_engine.py:155 | a session bigram absent from the baseline does not affect the deviation |
| RiskEngine.BigramDeviationOfTotals | risk_engine.py:159-168 | the deviation is the sum of absolute differences over the usable bigrams divided by their number, or 0 |
| RiskEngine.ComputeBigramDeviation | risk_engine.py:139-168 | the loop over shared bigrams computes exactly the deviation |
| RiskEngine.RhythmVectorDistance | risk_engine.py:171-193 | non-negative, and 0 when either vector is empty |
| RiskEngine.RhythmVectorDistanceZeroIff | risk_engine.py:185-193 | the distance is 0 exactly when the aligned prefixes are equal |
| RiskEngine.RhythmVectorDistancePrefix | risk_engine.py:185-193 | the distance is 0 when one vector is a prefix of the other |
| RiskEngine.DynamicThreshold | risk_engine.py:277-294 | flight_std times k above the floor, FLOOR_STD times k at or below it |
| RiskEngine.DynamicThresholdFloor | risk_engine.py:293-294 | the threshold is never below FLOOR_STD times k |
| RiskEngine.DynamicThresholdMonotone | risk_engine.py:293-294 | the threshold does not decrease as flight_std grows |
| RiskEngine.DefaultThresholdPositive | risk_engine.py:256 | with THRESHOLD_K the threshold is at least 0.05, so every threshold is strictly positive |
| RiskEngine.Decide | risk_engine.py:248-269 | risk is W1·f + W2·d + W3·bg + W4·v, independent of the cosine similarity; TRUSTED exactly when risk < threshold, strictly |
| RiskEngine.MultifactorRisk | risk_engine.py:200-270 | the risk is non-negative; the threshold is the dynamic threshold of the baseline flight_std, 0.05 when missing; TRUSTED exactly when risk < threshold |
| RiskEngine.ComputeMultifactorRisk | risk_engine.py:200-270 | the computed assessment is exactly the specified one |
| RiskEngine.RiskWithinSignals | risk_engine.py:248-253 | a bound on all four signals bounds the risk, because the weights add up to 1 |
| RiskEngine.NoDeviationIsTrusted | risk_engine.py:248-259 | a session with no deviation on any of the four signals is TRUSTED |
| RiskEngine.BaselineRecord.FlightAvgOrDefault | risk_engine.py:228 | the stored flight average, or 0.0 when the key is missing |
| RiskEngine.BaselineRecord.FlightStdOrDefault | risk_engine.py:229 | the stored flight spread, or 0.05 when the key is missing |
| RiskEngine.BaselineRecord.DwellAvgOrDefault | risk_engine.py:230 | the stored dwell average, or 0.0 when the key is missing |
| RiskEngine.BaselineRecord.BigramAvgOrDefault | risk_engine.py:231 | the stored bigram averages, or the empty map when the key is missing |
| RiskEngine.BaselineRecord.RhythmVectorOrDefault | risk_engine.py:232 | the stored rhythm vector, or the empty list when the key is missing |
| TrustEngine.ToRecordRoundTrip | trust_engine.py:103-130 | every value the risk engine reads from a saved profile is the profile's own |
| TrustEngine.FlightSpread | trust_engine.py:67-70 | 0.05 for at most one flight, otherwise the sample standard deviation (its square times n-1 is the sum of squared deviations) |
| TrustEngine.DwellStats | trust_engine.py:73-79 | (0.0, 0.02) with no dwells; the mean and 0.02 with one; the mean and the sample standard deviation otherwise |
| TrustEngine.BigramAverages | trust_engine.py:82-85 | its keys are exactly the bigrams with a non-empty list |
| TrustEngine.Baseline | trust_engine.py:41-97 | profile creation fails exactly when there is no flight time |
| TrustEngine.BuildBigramAverages | trust_engine.py:82-85 | the loop builds exactly the map of the means of the non-empty lists |
| TrustEngine.BaselineOfWellFormedSample | trust_engine.py:88-95 | a profile built from a captured sample has averages within the 3.0 s limit, non-negative spreads, target-bigram keys only, and the rhythm vector unchanged in length and order |
| TrustEngine.RegistrationSampleIsTrusted | trust_engine.py:88-95 | verifying the registration sample against its own profile gives risk 0 and TRUSTED (over unrounded values) |
| TrustEngine.TrustEngine.constructor | trust_engine.py:33-35 | the engine starts with whatever baseline is already stored |
| TrustEngine.TrustEngine.CreateBaseline | trust_engine.py:41-97 | the method computes exactly the specified profile, or the no-flight-data error |
| TrustEngine.TrustEngine.SaveBaseline | trust_engine.py:103-112 | the stored profile is overwritten unconditionally |
| TrustEngine.TrustEngine.LoadBaseline | trust_engine.py:114-130 | not-found when nothing is stored, otherwise the stored profile |
| TrustEngine.TrustEngine.ComputeRisk | trust_engine.py:136-157 | the no-data error for an empty flight list, otherwise exactly the multi-factor assessment |
| TrustEngine.TrustEngine.VerifyUser | trust_engine.py:163-177 | an error result when no baseline is stored, otherwise what compute_risk gives |
| Session.ZeroTrustAuthSystem.constructor | main.py:55-59 | the session is inactive and there is no last assessment |
| Session.ZeroTrustAuthSystem.RegisterBaseline | main.py:82-99 | an empty capture saves nothing; otherwise the stored profile becomes the one built from the capture, replacing any previous one |
| Session.ZeroTrustAuthSystem.LoginAndVerify | main.py:125-169 | None without a baseline or for an empty capture; otherwise the assessment, which also becomes the last assessment |
| Session.ZeroTrustAuthSystem.LockSession | main.py:263-265 | the session becomes inactive |
| Session.ZeroTrustAuthSystem.SessionMonitor | main.py:175-255 | it returns before any capture without a baseline, and before the session starts on an empty or non-TRUSTED initial check; otherwise the loop's result is LoopResult, which says that each exit is one of: interrupted, empty recheck, SUSPICIOUS recheck (each with the session inactive), or still active after every recheck passed; the count is one per completed countdown and the last assessment is the latest computed |
| Session.StepInterrupted | main.py:217-221 | an interrupted countdown ends the loop with the session inactive and the last assessment unchanged |
| Session.StepNoData | main.py:226-236 | an empty recheck capture locks the session after counting the countdown |
| Session.StepTrusted | main.py:239-246 | a TRUSTED recheck extends the passed rechecks by one and becomes the latest assessment |
| Session.StepSuspicious | main.py:239-250 | a SUSPICIOUS recheck locks the session and is the last assessment |
| Session.RunExhausted | main.py:211-250 | after every recheck passed, the session is still active |
| Session.PassedNotBeyondStop | main.py:211-250 | no run passes more rechecks than the countdown at which its loop exits |
| Session.LoopResultAtStop | main.py:211-250 | every loop result is decided by the tick at its exit countdown, after all earlier rechecks passed |
| Session.LoopResultUnique | main.py:211-250 | a run of countdowns has exactly one loop outcome |
| Session.TrustedRunStaysActive | main.py:211-250 | when every recheck of the run is TRUSTED, the session is never locked and stays active |

## Left out

- `round(x, 4)` is not modelled. It is applied to flights, dwells, the profile values, the reported scores and the threshold. Everything is over unrounded reals. The source compares risk with the threshold after rounding the threshold only (risk_engine.py:256-259), so near the threshold the model's decision can differ from the source's.
- `Keystroke.WellFormed`: its `0 < dwell` holds of the model's unrounded dwells only. In the source a kept dwell below 0.00005 is stored as 0.0 (keystroke.py:218-220).
- IEEE floating point is modelled as exact real arithmetic.
- `math.sqrt` and `statistics.stdev` are a parameter `sqrt` constrained by `IsSqrt`. Real square roots are foreign numeric code here.
- The pynput listener, its thread, the 90 s wait, `sys.stdin.flush`, the sleeps and `time.time()` are left out. A capture is a given event sequence with timestamps, and `listenerStarted` says whether the listener could be started.
- `_finish_capture`'s summary printout is left out. Only its state change is modelled.
- Pending presses are a sequence of (character, time) entries instead of the `char + str(time)` string keys. A release's prefix match on the key is the match on the character. A repeated identical entry collapses, as a dict key does.
- `Keystroke.Lower`: only ASCII letters are lower-cased. `str.lower` on other alphabets (including characters that lower to two characters) is not modelled.
- JSON serialisation and the filesystem are left out. The baseline file is the optional record `stored`, whose fields may each be missing as in the loaded dict.
- `MIN_SAMPLES` is imported but never used, so no minimum-sample rule is modelled.
- Console presentation is left out. This covers ui_console.py entirely, the menu, `run`, log viewing, diagnostics, colour printing and the logging in every operation. The threshold printed after registration (main.py:102) is display only.
- The captures and countdowns of main.py are inputs. Each capture is a `Sample`, and a countdown is a `Tick`, interrupted or completed with the recheck's capture. The monitor sees a finite prefix of the run, and `StillActive` means the prefix ran out while the session was trusted.
- `session_monitor`'s `if not self._session_active: break` right after a completed countdown is not modelled: the flag is always true there. The final "ended normally" block is not modelled either, because every `break` clears the flag first. So the model reports a run that is `StillActive` with the session active instead of ending it.
- The module-level wrappers (trust_engine.py:184-201, keystroke.py:261-263) are left out. `Keystroke.CaptureKeystrokes` stands for the one at keystroke.py:249-257.
- The session methods take each capture's `Sample` as an input instead of calling `Keystroke.CaptureKeystrokes`. Any sample they receive from a real capture is well formed and is `Run(Reset, events).Extract()` for its events, by the contract of `CaptureKeystrokes`.
- Exceptions other than the ones the source raises on purpose are left out. This covers the broad `except Exception` handlers in main.py for I/O failures.
