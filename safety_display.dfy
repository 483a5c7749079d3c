/**
 * The two score classifiers of the SafeRoute AI web page: the CSS class of a
 * route card and the word shown on it.  Both take whatever number the
 * backend reported as the route's safety score.
 */
module SafetyDisplay {

  const SAFETY_HIGH := "safety-high"
  const SAFETY_MEDIUM := "safety-medium"
  const SAFETY_LOW := "safety-low"

  const SAFE := "Safe"
  const MODERATE := "Moderate"
  const RISKY := "Risky"

  /** `getSafetyClass`: 7 and above is high, 4 and above medium, the rest low. */
  function GetSafetyClass(score: real): (cls: string)
    ensures cls in {SAFETY_HIGH, SAFETY_MEDIUM, SAFETY_LOW}
    ensures cls == SAFETY_HIGH <==> score >= 7.0
    ensures cls == SAFETY_MEDIUM <==> 4.0 <= score < 7.0
    ensures cls == SAFETY_LOW <==> score < 4.0
  {
    if score >= 7.0 then SAFETY_HIGH
    else if score >= 4.0 then SAFETY_MEDIUM
    else SAFETY_LOW
  }

  /** `getSafetyText`: the same thresholds, as a word. */
  function GetSafetyText(score: real): (text: string)
    ensures text in {SAFE, MODERATE, RISKY}
    ensures text == SAFE <==> score >= 7.0
    ensures text == MODERATE <==> 4.0 <= score < 7.0
    ensures text == RISKY <==> score < 4.0
  {
    if score >= 7.0 then SAFE
    else if score >= 4.0 then MODERATE
    else RISKY
  }

  /** Class and text of a card always name the same tier. */
  lemma ClassAndTextAgree(score: real)
    ensures GetSafetyClass(score) == SAFETY_HIGH <==> GetSafetyText(score) == SAFE
    ensures GetSafetyClass(score) == SAFETY_MEDIUM <==> GetSafetyText(score) == MODERATE
    ensures GetSafetyClass(score) == SAFETY_LOW <==> GetSafetyText(score) == RISKY
  {
  }
}
