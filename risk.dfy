/** Per-reading risk classification of a dose-rate in microsieverts per hour.
    The thresholds are exclusive upper bounds tried in ascending order; the first
    one that matches decides the level. Negative readings are not rejected: they
    fall into the lowest band. */
module Risk {

  /** The five risk levels, from least to most severe. The same names are used
      for a single reading and for the verdict on a whole survey. */
  datatype Level = Safe | Low | Moderate | High | Severe

  /** Ordinal position of a level, Safe = 0 .. Severe = 4. */
  function Rank(l: Level): (r: nat)
    ensures r < 5
  {
    match l
    case Safe => 0
    case Low => 1
    case Moderate => 2
    case High => 3
    case Severe => 4
  }

  /** What the classifier reports for one reading. */
  datatype Assessment = Assessment(level: Level, color: string, action: string, description: string)

  /** The thresholds, in microsieverts per hour. */
  const LowThreshold: real := 0.15
  const ModerateThreshold: real := 0.3
  const HighThreshold: real := 0.5
  const SevereThreshold: real := 1.0

  /** The fixed colour, recommended action and description that go with each level. */
  function Describe(l: Level): (a: Assessment)
    ensures a.level == l
  {
    match l
    case Safe => Assessment(Safe, "green", "No restrictions needed", "Within natural background range")
    case Low => Assessment(Low, "yellow", "Monitor regularly", "Slightly above natural background")
    case Moderate => Assessment(Moderate, "orange", "Investigate possible sources", "Above normal levels")
    case High => Assessment(High, "red", "Restrict prolonged access", "Requires attention")
    case Severe => Assessment(Severe, "purple", "Immediate action required", "Emergency situation")
  }

  /** The level of one reading: a first-match chain over the ascending
      thresholds. */
  function LevelOf(dose: real): (l: Level)
    ensures l == Safe <==> dose < LowThreshold
    ensures l == Low <==> LowThreshold <= dose < ModerateThreshold
    ensures l == Moderate <==> ModerateThreshold <= dose < HighThreshold
    ensures l == High <==> HighThreshold <= dose < SevereThreshold
    ensures l == Severe <==> SevereThreshold <= dose
  {
    if dose < LowThreshold then Safe
    else if dose < ModerateThreshold then Low
    else if dose < HighThreshold then Moderate
    else if dose < SevereThreshold then High
    else Severe
  }

  /** The classifier: the level of the reading with that level's metadata. Its
      contract states the partition of the reals into half-open bands, each
      boundary belonging to the upper band. */
  function AssessRisk(dose: real): (a: Assessment)
    ensures a == Describe(a.level)
    ensures a.level == Safe <==> dose < LowThreshold
    ensures a.level == Low <==> LowThreshold <= dose < ModerateThreshold
    ensures a.level == Moderate <==> ModerateThreshold <= dose < HighThreshold
    ensures a.level == High <==> HighThreshold <= dose < SevereThreshold
    ensures a.level == Severe <==> SevereThreshold <= dose
  {
    Describe(LevelOf(dose))
  }

  /** The risk level never decreases as the dose-rate increases. */
  lemma AssessRiskMonotone(a: real, b: real)
    requires a <= b
    ensures Rank(LevelOf(a)) <= Rank(LevelOf(b))
  {
  }

  /** Every level is reached: the lower bound of each band classifies into it. */
  lemma AssessRiskBoundaries()
    ensures LevelOf(0.0) == Safe
    ensures LevelOf(0.14999) == Safe
    ensures LevelOf(0.15) == Low
    ensures LevelOf(0.3) == Moderate
    ensures LevelOf(0.5) == High
    ensures LevelOf(1.0) == Severe
    ensures LevelOf(-1.0) == Safe
  {
  }

  /** Two readings with the same level get the same colour, action and description. */
  lemma AssessmentDeterminedByLevel(a: real, b: real)
    requires LevelOf(a) == LevelOf(b)
    ensures AssessRisk(a) == AssessRisk(b)
  {
  }
}
