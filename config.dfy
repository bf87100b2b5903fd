/** The tunable constants of the authentication pipeline (config.py): the
    risk weights, the dynamic-threshold constants, the capture interval
    limit, the re-verification interval and the three prompt phrases. */
module Config {

  // Risk engine weights (config.py:13-16).
  const W1: real := 0.30  // flight time deviation
  const W2: real := 0.20  // dwell time deviation
  const W3: real := 0.30  // bigram timing deviation
  const W4: real := 0.20  // rhythm vector distance

  // Dynamic threshold (config.py:24-25).
  const ThresholdK: real := 2.5
  const FloorStd: real := 0.02

  // Keystroke capture (config.py:30).
  const MaxInterval: real := 3.0

  // Session monitor (config.py:36).
  const ReVerifyInterval: nat := 30

  // Authentication phrases (config.py:41-43).
  const RegistrationText: string := "zero trust systems rely on continuous verification"
  const VerificationText: string := "continuous authentication enhances security posture"
  const ReverificationText: string := "trust no one verify always"

  /** The import-time assertion of config.py: the weights sum to one (exactly, over the reals). */
  lemma WeightsSumToOne()
    ensures W1 + W2 + W3 + W4 == 1.0
  {
  }

  lemma WeightsInUnitInterval()
    ensures 0.0 < W1 < 1.0 && 0.0 < W2 < 1.0 && 0.0 < W3 < 1.0 && 0.0 < W4 < 1.0
  {
  }

  /** The smallest threshold the floor allows is 0.05 seconds, strictly positive. */
  lemma FloorThresholdPositive()
    ensures FloorStd * ThresholdK == 0.05 && FloorStd * ThresholdK > 0.0
  {
  }
}
