/**
 * The web page and the backend classify a score into the same three tiers:
 * a high / "Safe" card is a Low-risk route, a medium / "Moderate" card a
 * Medium-risk route, and a low / "Risky" card a High-risk route.
 */
module TierAgreement {
  import opened SafetyScorer
  import opened SafetyDisplay
  import opened RouteFinder

  lemma FrontendMatchesBackend(score: real)
    ensures GetSafetyClass(score) == SAFETY_HIGH <==> GetRiskLevel(score) == RiskLevel.Low
    ensures GetSafetyClass(score) == SAFETY_MEDIUM <==> GetRiskLevel(score) == RiskLevel.Medium
    ensures GetSafetyClass(score) == SAFETY_LOW <==> GetRiskLevel(score) == RiskLevel.High
    ensures GetSafetyText(score) == SAFE <==> GetRiskLevel(score) == RiskLevel.Low
    ensures GetSafetyText(score) == MODERATE <==> GetRiskLevel(score) == RiskLevel.Medium
    ensures GetSafetyText(score) == RISKY <==> GetRiskLevel(score) == RiskLevel.High
  {
  }

  /**
   * Every route the backend sends shows a card whose class and text agree
   * with the route's own risk level.
   */
  lemma RouteCardsMatchRiskLevel(timeOfDay: string)
    ensures forall route | route in MockRoutes(timeOfDay) ::
      && (GetSafetyClass(TenthsValue(route.safetyScore)) == SAFETY_HIGH <==> route.riskLevel == RiskLevel.Low)
      && (GetSafetyClass(TenthsValue(route.safetyScore)) == SAFETY_LOW <==> route.riskLevel == RiskLevel.High)
      && (GetSafetyText(TenthsValue(route.safetyScore)) == MODERATE <==> route.riskLevel == RiskLevel.Medium)
  {
  }
}
