/**
 * The route-safety scorer of the SafeRoute AI backend: a fixed table of
 * area profiles, the mean day/night score of a list of areas rounded to one
 * decimal, the three risk tiers, and the ordered list of feature strings.
 *
 * A score is kept as an integer number of tenths (`Tenths`): 83 stands for
 * the backend's 8.3.  Every per-area score in the table is an integer, so the
 * mean of a route is a rational number and its rounding to one decimal is an
 * integer number of tenths.
 */
module SafetyScorer {

  /** A score counted in tenths: 50 is 5.0. */
  type Tenths = int

  datatype CrowdDensity = Low | Medium | High

  datatype Lighting = Poor | Moderate | Good | Excellent

  /** One row of the area table. */
  datatype AreaProfile = AreaProfile(dayScore: int, nightScore: int, crowdDensity: CrowdDensity, lighting: Lighting)

  /** The result of `GetRiskLevel`; the backend sends it as "Low", "Medium" or "High". */
  datatype RiskLevel = Low | Medium | High

  /** The static area table, keyed by area identifier. */
  const AREA_SAFETY_DATA: map<string, AreaProfile> := map[
    "connaught_place" := AreaProfile(8, 6, CrowdDensity.High, Good),
    "karol_bagh" := AreaProfile(7, 5, CrowdDensity.Medium, Moderate),
    "lajpat_nagar" := AreaProfile(7, 4, CrowdDensity.Medium, Poor),
    "nehru_place" := AreaProfile(6, 3, CrowdDensity.Low, Poor),
    "rajouri_garden" := AreaProfile(8, 7, CrowdDensity.High, Good),
    "dwarka" := AreaProfile(9, 8, CrowdDensity.High, Excellent),
    "gurgaon" := AreaProfile(8, 6, CrowdDensity.Medium, Good),
    "noida" := AreaProfile(7, 5, CrowdDensity.Medium, Moderate)
  ]

  /** Day and night score the scorer falls back to for an area not in the table. */
  const DEFAULT_DAY_SCORE := 5
  const DEFAULT_NIGHT_SCORE := 3

  /** Score of an empty route (the division guard). */
  const EMPTY_ROUTE_SCORE: Tenths := 50

  /** The six entries a feature list can hold. */
  datatype Feature = WellLitStreets | CrowdedAreas | DaytimeTravel | NightTravel | MainRoads | PolicePatrolAreas
  {
    /** The string the backend sends for this entry. */
    function Text(): string {
      match this
      case WellLitStreets => "Well-lit streets"
      case CrowdedAreas => "Crowded areas"
      case DaytimeTravel => "Daytime travel"
      case NightTravel => "Night travel - extra caution"
      case MainRoads => "Main roads"
      case PolicePatrolAreas => "Police patrol areas"
    }
  }

  // ---------------------------------------------------------------------
  // Safety score
  // ---------------------------------------------------------------------

  function DayScore(area: string): int {
    if area in AREA_SAFETY_DATA then AREA_SAFETY_DATA[area].dayScore else DEFAULT_DAY_SCORE
  }

  function NightScore(area: string): int {
    if area in AREA_SAFETY_DATA then AREA_SAFETY_DATA[area].nightScore else DEFAULT_NIGHT_SCORE
  }

  /** The per-area score the scorer adds up: the night score only for exactly "night". */
  function SelectedScore(area: string, timeOfDay: string): int {
    if timeOfDay == "night" then NightScore(area) else DayScore(area)
  }

  /** Sum of the selected scores, in list order (the accumulator of the scoring loop). */
  function SelectedTotal(areas: seq<string>, timeOfDay: string): int {
    if areas == [] then 0
    else SelectedTotal(areas[..|areas| - 1], timeOfDay) + SelectedScore(areas[|areas| - 1], timeOfDay)
  }

  function Abs(x: int): nat {
    if x < 0 then -x else x
  }

  /** `r` tenths is at most half a tenth away from `total / n`. */
  predicate IsNearestTenth(r: Tenths, total: int, n: nat) {
    2 * Abs(10 * total - r * n) <= n
  }

  /**
   * `total / n` rounded to one decimal, in tenths.  An exact tie goes to the
   * even number of tenths, which is how `round` treats a tie it sees exactly.
   */
  function RoundToTenth(total: int, n: nat): (r: Tenths)
    requires n > 0
    ensures IsNearestTenth(r, total, n)
    ensures 2 * Abs(10 * total - r * n) == n ==> r % 2 == 0
  {
    var q := (10 * total) / n;
    var rem := (10 * total) % n;
    assert 10 * total - q * n == rem;
    assert 10 * total - (q + 1) * n == rem - n;
    if 2 * rem < n then q
    else if 2 * rem > n then q + 1
    else if q % 2 == 0 then q
    else q + 1
  }

  /** The score of a route: the rounded mean of the selected scores, 5.0 for no areas. */
  function SafetyScore(areas: seq<string>, timeOfDay: string): (score: Tenths)
    ensures |areas| == 0 ==> score == EMPTY_ROUTE_SCORE
    ensures |areas| > 0 ==> IsNearestTenth(score, SelectedTotal(areas, timeOfDay), |areas|)
  {
    if |areas| > 0 then RoundToTenth(SelectedTotal(areas, timeOfDay), |areas|) else EMPTY_ROUTE_SCORE
  }

  /** `calculate_safety_score`: accumulate the selected scores, then average and round. */
  method CalculateSafetyScore(routeAreas: seq<string>, timeOfDay: string) returns (score: Tenths)
    ensures score == SafetyScore(routeAreas, timeOfDay)
  {
    var totalScore := 0;
    var areaCount := |routeAreas|;
    for i := 0 to |routeAreas|
      invariant totalScore == SelectedTotal(routeAreas[..i], timeOfDay)
    {
      var area := routeAreas[i];
      assert routeAreas[..i + 1][..i] == routeAreas[..i];
      if timeOfDay == "night" {
        totalScore := totalScore + NightScore(area);
      } else {
        totalScore := totalScore + DayScore(area);
      }
    }
    assert routeAreas[..|routeAreas|] == routeAreas;
    score := if areaCount > 0 then RoundToTenth(totalScore, areaCount) else EMPTY_ROUTE_SCORE;
  }

  // ---------------------------------------------------------------------
  // Risk level
  // ---------------------------------------------------------------------

  /** A score, in the backend's own units, from a number of tenths. */
  function TenthsValue(t: Tenths): real {
    t as real / 10.0
  }

  /** `get_risk_level`: two thresholds, 7 and 4. */
  function GetRiskLevel(safetyScore: real): (level: RiskLevel)
    ensures level == RiskLevel.Low <==> safetyScore >= 7.0
    ensures level == RiskLevel.Medium <==> 4.0 <= safetyScore < 7.0
    ensures level == RiskLevel.High <==> safetyScore < 4.0
  {
    if safetyScore >= 7.0 then RiskLevel.Low
    else if safetyScore >= 4.0 then RiskLevel.Medium
    else RiskLevel.High
  }

  /** How bad a risk level is: Low 0, Medium 1, High 2. */
  function Severity(level: RiskLevel): nat {
    match level
    case Low => 0
    case Medium => 1
    case High => 2
  }

  // ---------------------------------------------------------------------
  // Safety features
  // ---------------------------------------------------------------------

  /** A known area lit "good" or "excellent"; an unknown area has no lighting. */
  predicate IsWellLit(area: string) {
    area in AREA_SAFETY_DATA && AREA_SAFETY_DATA[area].lighting in {Good, Excellent}
  }

  /** A known area of "high" crowd density; an unknown area has no density. */
  predicate IsCrowded(area: string) {
    area in AREA_SAFETY_DATA && AREA_SAFETY_DATA[area].crowdDensity == CrowdDensity.High
  }

  function GoodLightingCount(areas: seq<string>): nat {
    if areas == [] then 0
    else GoodLightingCount(areas[..|areas| - 1]) + (if IsWellLit(areas[|areas| - 1]) then 1 else 0)
  }

  function HighCrowdCount(areas: seq<string>): nat {
    if areas == [] then 0
    else HighCrowdCount(areas[..|areas| - 1]) + (if IsCrowded(areas[|areas| - 1]) then 1 else 0)
  }

  /** The time-of-day feature: daytime only for exactly "day". */
  function TimeLabel(timeOfDay: string): (feature: Feature)
    ensures feature == DaytimeTravel <==> timeOfDay == "day"
    ensures feature == NightTravel <==> timeOfDay != "day"
  {
    if timeOfDay == "day" then DaytimeTravel else NightTravel
  }

  /** The feature list for the outcome of the two checks, in the order the backend builds it. */
  function FeatureList(wellLit: bool, crowded: bool, timeOfDay: string): seq<Feature> {
    (if wellLit then [WellLitStreets] else [])
    + (if crowded then [CrowdedAreas] else [])
    + [TimeLabel(timeOfDay)]
    + [MainRoads, PolicePatrolAreas]
  }

  /** The feature list of a route. */
  function SafetyFeatures(areas: seq<string>, timeOfDay: string): seq<Feature> {
    FeatureList(2 * GoodLightingCount(areas) > |areas|, HighCrowdCount(areas) > 0, timeOfDay)
  }

  /**
   * `get_safety_features`: two counting passes over the areas, then the list
   * is grown feature by feature.  `count > n / 2` on Python's true division is
   * `2 * count > n` on integers.
   */
  method GetSafetyFeatures(routeAreas: seq<string>, timeOfDay: string) returns (features: seq<Feature>)
    ensures features == SafetyFeatures(routeAreas, timeOfDay)
  {
    features := [];

    var goodLightingCount := 0;
    for i := 0 to |routeAreas|
      invariant goodLightingCount == GoodLightingCount(routeAreas[..i])
    {
      assert routeAreas[..i + 1][..i] == routeAreas[..i];
      if IsWellLit(routeAreas[i]) {
        goodLightingCount := goodLightingCount + 1;
      }
    }
    assert routeAreas[..|routeAreas|] == routeAreas;
    if 2 * goodLightingCount > |routeAreas| {
      features := features + [WellLitStreets];
    }

    var highCrowdCount := 0;
    for i := 0 to |routeAreas|
      invariant highCrowdCount == HighCrowdCount(routeAreas[..i])
    {
      assert routeAreas[..i + 1][..i] == routeAreas[..i];
      if IsCrowded(routeAreas[i]) {
        highCrowdCount := highCrowdCount + 1;
      }
    }
    if highCrowdCount > 0 {
      features := features + [CrowdedAreas];
    }

    if timeOfDay == "day" {
      features := features + [DaytimeTravel];
    } else {
      features := features + [NightTravel];
    }

    features := features + [MainRoads, PolicePatrolAreas];
  }

  // ---------------------------------------------------------------------
  // Properties of the score
  // ---------------------------------------------------------------------

  /** An area missing from the table scores 5 by day and 3 by night. */
  lemma UnknownAreaScore(area: string, timeOfDay: string)
    requires area !in AREA_SAFETY_DATA
    ensures SafetyScore([area], timeOfDay) == if timeOfDay == "night" then 30 else 50
  {
    assert [area][..0] == [];
    assert SelectedTotal([area], timeOfDay) == SelectedScore(area, timeOfDay);
  }

  /** The worked values: no areas, and "dwarka" alone by day and by night. */
  lemma ScoreExamples()
    ensures SafetyScore([], "day") == 50
    ensures SafetyScore(["dwarka"], "day") == 90
    ensures SafetyScore(["dwarka"], "night") == 80
  {
    assert ["dwarka"][..0] == [];
  }

  /** Any time of day other than exactly "night" is scored as the day. */
  lemma {:induction false} NonNightTotalIsDayTotal(areas: seq<string>, timeOfDay: string)
    requires timeOfDay != "night"
    ensures SelectedTotal(areas, timeOfDay) == SelectedTotal(areas, "day")
  {
    if areas != [] {
      NonNightTotalIsDayTotal(areas[..|areas| - 1], timeOfDay);
    }
  }

  lemma NonNightScoreIsDayScore(areas: seq<string>, timeOfDay: string)
    requires timeOfDay != "night"
    ensures SafetyScore(areas, timeOfDay) == SafetyScore(areas, "day")
  {
    NonNightTotalIsDayTotal(areas, timeOfDay);
  }

  lemma {:induction false} SelectedTotalBetween(areas: seq<string>, timeOfDay: string, lo: int, hi: int)
    requires forall i :: 0 <= i < |areas| ==> lo <= SelectedScore(areas[i], timeOfDay) <= hi
    ensures lo * |areas| <= SelectedTotal(areas, timeOfDay) <= hi * |areas|
  {
    if areas != [] {
      var init := areas[..|areas| - 1];
      assert forall i :: 0 <= i < |init| ==> init[i] == areas[i];
      SelectedTotalBetween(init, timeOfDay, lo, hi);
      MulSucc(lo, |init|);
      MulSucc(hi, |init|);
    }
  }

  lemma MulSucc(a: int, n: nat)
    ensures a * (n + 1) == a * n + a
  {
  }

  lemma MulLe(a: int, b: int, n: nat)
    requires a <= b
    ensures a * n <= b * n
  {
  }

  /** Rounding a mean that lies between two whole numbers stays between them. */
  lemma RoundToTenthBetween(total: int, n: nat, lo: int, hi: int)
    requires n > 0
    requires lo * n <= total <= hi * n
    ensures 10 * lo <= RoundToTenth(total, n) <= 10 * hi
  {
    var q := (10 * total) / n;
    var rem := (10 * total) % n;
    assert 10 * total == q * n + rem;
    if q < 10 * lo {
      MulLe(q + 1, 10 * lo, n);
      assert false;
    }
    if q > 10 * hi {
      MulLe(10 * hi + 1, q, n);
      assert false;
    }
    if q == 10 * hi {
      assert 10 * hi * n == 10 * (hi * n);
      assert rem == 0;
    }
  }

  /**
   * A non-empty route scores between the smallest and the largest of its
   * selected per-area scores; the bounds are whole numbers, so no rounding
   * slack is needed.
   */
  lemma ScoreBetweenSelectedScores(areas: seq<string>, timeOfDay: string, lo: int, hi: int)
    requires |areas| > 0
    requires forall i :: 0 <= i < |areas| ==> lo <= SelectedScore(areas[i], timeOfDay) <= hi
    ensures 10 * lo <= SafetyScore(areas, timeOfDay) <= 10 * hi
  {
    SelectedTotalBetween(areas, timeOfDay, lo, hi);
    RoundToTenthBetween(SelectedTotal(areas, timeOfDay), |areas|, lo, hi);
  }

  /** Every per-area score, defaults included, is between 3 and 9. */
  lemma SelectedScoreInTableRange(area: string, timeOfDay: string)
    ensures 3 <= SelectedScore(area, timeOfDay) <= 9
  {
  }

  /** With this table every route scores between 3.0 and 9.0. */
  lemma ScoreInTableRange(areas: seq<string>, timeOfDay: string)
    ensures 30 <= SafetyScore(areas, timeOfDay) <= 90
  {
    if |areas| > 0 {
      forall i | 0 <= i < |areas|
        ensures 3 <= SelectedScore(areas[i], timeOfDay) <= 9
      {
        SelectedScoreInTableRange(areas[i], timeOfDay);
      }
      ScoreBetweenSelectedScores(areas, timeOfDay, 3, 9);
    }
  }

  /** Appending an area adds its selected score and its lit and crowded marks. */
  lemma AppendArea(areas: seq<string>, area: string, timeOfDay: string)
    ensures SelectedTotal(areas + [area], timeOfDay) == SelectedTotal(areas, timeOfDay) + SelectedScore(area, timeOfDay)
    ensures GoodLightingCount(areas + [area]) == GoodLightingCount(areas) + if IsWellLit(area) then 1 else 0
    ensures HighCrowdCount(areas + [area]) == HighCrowdCount(areas) + if IsCrowded(area) then 1 else 0
  {
    assert (areas + [area])[..|areas|] == areas;
  }

  /** Nearest tenths coincide unless the mean lies exactly half-way between two tenths. */
  lemma NearestTenthIsUnique(a: Tenths, b: Tenths, total: int, n: nat)
    requires n > 0
    requires IsNearestTenth(a, total, n) && IsNearestTenth(b, total, n)
    requires 2 * Abs(10 * total - a * n) < n
    ensures a == b
  {
    if a != b {
      var d := if a < b then b - a else a - b;
      MulLe(1, d, n);
      assert false;
    }
  }

  // ---------------------------------------------------------------------
  // Properties of the risk level
  // ---------------------------------------------------------------------

  /** A higher score never gives a worse tier. */
  lemma RiskLevelMonotone(lower: real, higher: real)
    requires lower <= higher
    ensures Severity(GetRiskLevel(higher)) <= Severity(GetRiskLevel(lower))
  {
  }

  lemma RiskLevelExamples()
    ensures GetRiskLevel(7.0) == RiskLevel.Low
    ensures GetRiskLevel(6.9) == RiskLevel.Medium
    ensures GetRiskLevel(3.9) == RiskLevel.High
  {
  }

  // ---------------------------------------------------------------------
  // Properties of the feature list
  // ---------------------------------------------------------------------

  /** Position of an entry in the fixed order lit, crowded, time, defaults. */
  function FeatureRank(feature: Feature): nat {
    match feature
    case WellLitStreets => 0
    case CrowdedAreas => 1
    case DaytimeTravel => 2
    case NightTravel => 2
    case MainRoads => 3
    case PolicePatrolAreas => 4
  }

  /** The entries come in the fixed order with no repetition. */
  predicate InFeatureOrder(f: seq<Feature>) {
    forall i, j :: 0 <= i < j < |f| ==> FeatureRank(f[i]) < FeatureRank(f[j])
  }

  /** Position `k` holds the one time-of-day entry of the list. */
  predicate OnlyTimeLabelAt(f: seq<Feature>, k: int) {
    forall i :: 0 <= i < |f| ==> (f[i].DaytimeTravel? || f[i].NightTravel? <==> i == k)
  }

  /** Different entries are sent as different strings (no two have the same length). */
  lemma TextIsInjective(a: Feature, b: Feature)
    requires a.Text() == b.Text()
    ensures a == b
  {
    assert |a.Text()| == |b.Text()|;
  }

  /** The list lays out as the checks say: optional lit, optional crowded, time, defaults. */
  lemma FeatureListCases(wellLit: bool, crowded: bool, timeOfDay: string)
    ensures var f, t := FeatureList(wellLit, crowded, timeOfDay), TimeLabel(timeOfDay);
      f == if wellLit && crowded then [WellLitStreets, CrowdedAreas, t, MainRoads, PolicePatrolAreas]
           else if wellLit then [WellLitStreets, t, MainRoads, PolicePatrolAreas]
           else if crowded then [CrowdedAreas, t, MainRoads, PolicePatrolAreas]
           else [t, MainRoads, PolicePatrolAreas]
  {
  }

  /** The list has 3 to 5 entries and ends with the time-of-day string and the two fixed strings. */
  lemma FeatureListEnds(wellLit: bool, crowded: bool, timeOfDay: string)
    ensures var f := FeatureList(wellLit, crowded, timeOfDay);
      && 3 <= |f| <= 5
      && f[|f| - 2..] == [MainRoads, PolicePatrolAreas]
      && f[|f| - 3] == TimeLabel(timeOfDay)
  {
    FeatureListCases(wellLit, crowded, timeOfDay);
  }

  /** The list holds one time-of-day string and follows the fixed order with no repetition. */
  lemma FeatureListOrder(wellLit: bool, crowded: bool, timeOfDay: string)
    ensures var f := FeatureList(wellLit, crowded, timeOfDay);
      OnlyTimeLabelAt(f, |f| - 3) && InFeatureOrder(f)
  {
    FeatureListCases(wellLit, crowded, timeOfDay);
  }

  /** The lit and crowded entries are listed exactly when their checks hold. */
  lemma FeatureListMembers(wellLit: bool, crowded: bool, timeOfDay: string)
    ensures WellLitStreets in FeatureList(wellLit, crowded, timeOfDay) <==> wellLit
    ensures CrowdedAreas in FeatureList(wellLit, crowded, timeOfDay) <==> crowded
  {
    FeatureListCases(wellLit, crowded, timeOfDay);
  }

  /** The shape of a route's feature list. */
  lemma FeaturesShape(areas: seq<string>, timeOfDay: string)
    ensures var f := SafetyFeatures(areas, timeOfDay);
      && 3 <= |f| <= 5
      && f[|f| - 2..] == [MainRoads, PolicePatrolAreas]
      && f[|f| - 3] == TimeLabel(timeOfDay)
      && OnlyTimeLabelAt(f, |f| - 3)
      && InFeatureOrder(f)
  {
    var wellLit, crowded := 2 * GoodLightingCount(areas) > |areas|, HighCrowdCount(areas) > 0;
    assert SafetyFeatures(areas, timeOfDay) == FeatureList(wellLit, crowded, timeOfDay);
    FeatureListEnds(wellLit, crowded, timeOfDay);
    FeatureListOrder(wellLit, crowded, timeOfDay);
  }

  /** "Well-lit streets" is listed iff more than half of the areas are well lit. */
  lemma WellLitIff(areas: seq<string>, timeOfDay: string)
    ensures WellLitStreets in SafetyFeatures(areas, timeOfDay) <==> 2 * GoodLightingCount(areas) > |areas|
  {
    FeatureListMembers(2 * GoodLightingCount(areas) > |areas|, HighCrowdCount(areas) > 0, timeOfDay);
  }

  /** The positions of the well-lit areas of a route. */
  function WellLitPositions(areas: seq<string>): set<nat> {
    set i: nat | i < |areas| && IsWellLit(areas[i])
  }

  /** The lighting count is the number of positions holding a well-lit area. */
  lemma {:induction false} GoodLightingCountIsPositionCount(areas: seq<string>)
    ensures GoodLightingCount(areas) == |WellLitPositions(areas)|
  {
    if areas != [] {
      var init := areas[..|areas| - 1];
      var last: nat := |areas| - 1;
      GoodLightingCountIsPositionCount(init);
      assert forall i :: 0 <= i < |init| ==> init[i] == areas[i];
      if IsWellLit(areas[last]) {
        assert WellLitPositions(areas) == WellLitPositions(init) + {last};
        assert last !in WellLitPositions(init);
      } else {
        assert WellLitPositions(areas) == WellLitPositions(init);
      }
    }
  }

  /** "Well-lit streets" is listed iff well-lit areas hold more than half of the positions. */
  lemma WellLitIffMajority(areas: seq<string>, timeOfDay: string)
    ensures WellLitStreets in SafetyFeatures(areas, timeOfDay) <==> 2 * |WellLitPositions(areas)| > |areas|
  {
    GoodLightingCountIsPositionCount(areas);
    WellLitIff(areas, timeOfDay);
  }

  lemma {:induction false} HighCrowdCountPositive(areas: seq<string>)
    ensures HighCrowdCount(areas) > 0 <==> exists i :: 0 <= i < |areas| && IsCrowded(areas[i])
  {
    if areas != [] {
      var init := areas[..|areas| - 1];
      HighCrowdCountPositive(init);
      assert forall i :: 0 <= i < |init| ==> init[i] == areas[i];
      if HighCrowdCount(init) > 0 {
        var k :| 0 <= k < |init| && IsCrowded(init[k]);
        assert IsCrowded(areas[k]);
      }
    }
  }

  /** "Crowded areas" is listed iff some area of the route has high crowd density. */
  lemma CrowdedIff(areas: seq<string>, timeOfDay: string)
    ensures CrowdedAreas in SafetyFeatures(areas, timeOfDay) <==> exists i :: 0 <= i < |areas| && IsCrowded(areas[i])
  {
    HighCrowdCountPositive(areas);
    FeatureListMembers(2 * GoodLightingCount(areas) > |areas|, HighCrowdCount(areas) > 0, timeOfDay);
  }

  /** An area missing from the table, wherever it stands, counts toward neither aggregate. */
  lemma {:induction false} UnknownAreaCountsTowardNeither(before: seq<string>, area: string, after: seq<string>)
    requires area !in AREA_SAFETY_DATA
    ensures GoodLightingCount(before + [area] + after) == GoodLightingCount(before + after)
    ensures HighCrowdCount(before + [area] + after) == HighCrowdCount(before + after)
  {
    if after == [] {
      assert before + [area] + after == before + [area];
      assert (before + [area])[..|before|] == before;
      assert before + after == before;
    } else {
      var init := after[..|after| - 1];
      var last := after[|after| - 1];
      UnknownAreaCountsTowardNeither(before, area, init);
      assert (before + [area] + after)[..|before + [area] + after| - 1] == before + [area] + init;
      assert (before + after)[..|before + after| - 1] == before + init;
    }
  }

  /** A time of day such as "evening" is scored as the day but labelled as the night. */
  lemma OtherTimeScoredAsDayLabelledNight(areas: seq<string>, timeOfDay: string)
    requires timeOfDay != "day" && timeOfDay != "night"
    ensures SafetyScore(areas, timeOfDay) == SafetyScore(areas, "day")
    ensures NightTravel in SafetyFeatures(areas, timeOfDay)
    ensures DaytimeTravel !in SafetyFeatures(areas, timeOfDay)
  {
    NonNightScoreIsDayScore(areas, timeOfDay);
    FeaturesShape(areas, timeOfDay);
    var f := SafetyFeatures(areas, timeOfDay);
    assert f[|f| - 3] == NightTravel;
  }
}
