/**
 * From the regression model's raw output to the reported score and its
 * performance tier: the fallback estimate for degenerate outputs, the clamp
 * into [0, 100] and the threshold ladder 85/75/65/50.
 */
module Scoring {
  import opened Inputs

  /** Python's `min(a, b)`: `b` only when it is strictly smaller. */
  function PyMin(a: real, b: real): real {
    if b < a then b else a
  }

  /** Python's `max(a, b)`: `b` only when it is strictly larger. */
  function PyMax(a: real, b: real): real {
    if b > a then b else a
  }

  function Abs(x: real): real {
    if x < 0.0 then -x else x
  }

  /** `max(0, min(100, x))`: the nearest point of [0, 100]. */
  function Clamp(x: real): (r: real)
    ensures 0.0 <= r <= 100.0
    ensures 0.0 <= x <= 100.0 ==> r == x
    ensures x < 0.0 ==> r == 0.0
    ensures x > 100.0 ==> r == 100.0
  {
    PyMax(0.0, PyMin(100.0, x))
  }

  /** The income adjustment of the fallback estimate. */
  function IncomeTerm(l: Level): real {
    if l == High then 7.0 else if l == Medium then 3.0 else -3.0
  }

  /** The resource adjustment of the fallback estimate. */
  function ResourceTerm(l: Level): real {
    if l == High then 5.0 else if l == Medium then 0.0 else -5.0
  }

  /** The rule-based estimate used when the model's output is degenerate. */
  function FallbackScore(s: StudentInput): real {
    s.previousScores * 0.4
    + (s.hoursStudied / 20.0 * 30.0)
    + (s.attendance / 100.0 * 20.0)
    + IncomeTerm(s.familyIncome)
    + ResourceTerm(s.accessToResources)
  }

  /** A raw output whose magnitude exceeds 1000 is taken as degenerate. */
  predicate Degenerate(raw: real) {
    Abs(raw) > 1000.0
  }

  /** The final prediction derived from the model's raw output. */
  function NormaliseScore(raw: real, s: StudentInput): (r: real)
    ensures 0.0 <= r <= 100.0
    ensures 0.0 <= raw <= 100.0 ==> r == raw
    ensures 100.0 < raw <= 1000.0 ==> r == 100.0
    ensures -1000.0 <= raw < 0.0 ==> r == 0.0
  {
    if Degenerate(raw) then Clamp(FallbackScore(s)) else Clamp(raw)
  }

  /** On a valid input the fallback estimate lies in [-8, 102], so both ends of the clamp can act. */
  lemma FallbackRange(s: StudentInput)
    requires ValidInput(s)
    ensures -8.0 <= FallbackScore(s) <= 102.0
  {
  }

  /**
   * The fallback estimate never decreases when previous scores, study hours,
   * attendance, income tier or resource tier increase.
   */
  lemma FallbackMonotone(s: StudentInput, t: StudentInput)
    requires s.previousScores <= t.previousScores
    requires s.hoursStudied <= t.hoursStudied
    requires s.attendance <= t.attendance
    requires IncomeTerm(s.familyIncome) <= IncomeTerm(t.familyIncome)
    requires ResourceTerm(s.accessToResources) <= ResourceTerm(t.accessToResources)
    ensures FallbackScore(s) <= FallbackScore(t)
  {
  }

  /**
   * For a degenerate raw output the score is the clamped fallback estimate:
   * it ignores the raw value and reads only previous scores, study hours,
   * attendance, family income and access to resources.
   */
  lemma DegenerateUsesFallback(raw1: real, raw2: real, s: StudentInput, t: StudentInput)
    requires Degenerate(raw1) && Degenerate(raw2)
    requires s.previousScores == t.previousScores && s.hoursStudied == t.hoursStudied
    requires s.attendance == t.attendance
    requires s.familyIncome == t.familyIncome && s.accessToResources == t.accessToResources
    ensures NormaliseScore(raw1, s) == NormaliseScore(raw2, t) == Clamp(FallbackScore(s))
  {
  }

  /** For a raw output that is not degenerate the input plays no part. */
  lemma DirectPathIgnoresInput(raw: real, s: StudentInput, t: StudentInput)
    requires !Degenerate(raw)
    ensures NormaliseScore(raw, s) == NormaliseScore(raw, t) == Clamp(raw)
  {
  }

  /** Normalising an already normalised score changes nothing. */
  lemma NormaliseIdempotent(raw: real, s: StudentInput)
    ensures NormaliseScore(NormaliseScore(raw, s), s) == NormaliseScore(raw, s)
  {
  }

  /** The performance tier and the confidence label of a score. */
  datatype Tier = Tier(performanceLevel: string, confidence: string)

  /**
   * The first threshold the score reaches decides: 85 Excellent/High,
   * 75 Good/High, 65 Average/Medium, 50 Below Average/Medium, otherwise
   * Needs Significant Improvement/Low.
   */
  function Classify(score: real): (r: Tier)
    ensures r.performanceLevel == "Excellent" <==> score >= 85.0
    ensures r.performanceLevel == "Good" <==> 75.0 <= score < 85.0
    ensures r.performanceLevel == "Average" <==> 65.0 <= score < 75.0
    ensures r.performanceLevel == "Below Average" <==> 50.0 <= score < 65.0
    ensures r.performanceLevel == "Needs Significant Improvement" <==> score < 50.0
    ensures r.confidence == "High" <==> score >= 75.0
    ensures r.confidence == "Medium" <==> 50.0 <= score < 75.0
    ensures r.confidence == "Low" <==> score < 50.0
  {
    if score >= 85.0 then Tier("Excellent", "High")
    else if score >= 75.0 then Tier("Good", "High")
    else if score >= 65.0 then Tier("Average", "Medium")
    else if score >= 50.0 then Tier("Below Average", "Medium")
    else Tier("Needs Significant Improvement", "Low")
  }

  /** The boundary: 85 is already Excellent, 84.99 is still Good, both with high confidence. */
  lemma ClassifyBoundary()
    ensures Classify(85.0) == Tier("Excellent", "High")
    ensures Classify(84.99) == Tier("Good", "High")
  {
  }
}
