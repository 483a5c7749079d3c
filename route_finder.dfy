/**
 * The route list of the SafeRoute AI backend: three fixed routes, each
 * scored by the safety scorer, and the `/find-routes` decision that rejects
 * a request without source or destination and otherwise returns the routes
 * sorted by safety score, highest first.
 *
 * The request body is a map from field name to string value; a missing
 * field is read with the same default the backend gives it.
 */
module RouteFinder {
  import opened SafetyScorer

  /** One entry of the route list; coordinates, distance and duration are left out. */
  datatype Route = Route(name: string, safetyScore: Tenths, riskLevel: RiskLevel, safetyFeatures: seq<Feature>)

  datatype Response =
    | Found(routes: seq<Route>, totalRoutes: nat, timeOfDay: string)
    | BadRequest(error: string)

  const MAIN_ROAD_AREAS := ["connaught_place", "rajouri_garden", "dwarka"]
  const ALTERNATIVE_AREAS := ["karol_bagh", "lajpat_nagar"]
  const FASTEST_AREAS := ["nehru_place", "lajpat_nagar"]

  const MISSING_FIELDS_ERROR := "Source and destination are required"

  /** HTTP status of a response. */
  function StatusCode(response: Response): nat {
    if response.BadRequest? then 400 else 200
  }

  // ---------------------------------------------------------------------
  // The three mock routes
  // ---------------------------------------------------------------------

  /** A route over the given areas, scored, tiered and described for the time of day. */
  function ScoredRoute(name: string, areas: seq<string>, timeOfDay: string): Route {
    var score := SafetyScore(areas, timeOfDay);
    Route(name, score, GetRiskLevel(TenthsValue(score)), SafetyFeatures(areas, timeOfDay))
  }

  /** The three routes `generate_mock_routes` builds, in the order it appends them. */
  function MockRoutes(timeOfDay: string): (routes: seq<Route>)
    ensures |routes| == 3
  {
    [ ScoredRoute("Main Road Route", MAIN_ROAD_AREAS, timeOfDay),
      ScoredRoute("Alternative Route", ALTERNATIVE_AREAS, timeOfDay),
      ScoredRoute("Fastest Route", FASTEST_AREAS, timeOfDay) ]
  }

  /** The names of the fixed routes, in the order they are appended. */
  lemma MockRouteNames(timeOfDay: string)
    ensures var routes := MockRoutes(timeOfDay);
      routes[0].name == "Main Road Route" && routes[1].name == "Alternative Route" && routes[2].name == "Fastest Route"
  {
  }

  /** Every fixed route carries the risk level of its own score. */
  lemma MockRoutesRiskLevels(timeOfDay: string)
    ensures forall route | route in MockRoutes(timeOfDay) :: route.riskLevel == GetRiskLevel(TenthsValue(route.safetyScore))
  {
  }

  /**
   * `generate_mock_routes`: score the three fixed area lists and append one
   * route each.  Source and destination are accepted and not used.
   */
  method GenerateMockRoutes(source: string, destination: string, timeOfDay: string) returns (routes: seq<Route>)
    ensures routes == MockRoutes(timeOfDay)
  {
    routes := [];

    var route1Areas := MAIN_ROAD_AREAS;
    var safetyScore1 := CalculateSafetyScore(route1Areas, timeOfDay);
    var features1 := GetSafetyFeatures(route1Areas, timeOfDay);
    routes := routes + [Route("Main Road Route", safetyScore1, GetRiskLevel(TenthsValue(safetyScore1)), features1)];

    var route2Areas := ALTERNATIVE_AREAS;
    var safetyScore2 := CalculateSafetyScore(route2Areas, timeOfDay);
    var features2 := GetSafetyFeatures(route2Areas, timeOfDay);
    routes := routes + [Route("Alternative Route", safetyScore2, GetRiskLevel(TenthsValue(safetyScore2)), features2)];

    var route3Areas := FASTEST_AREAS;
    var safetyScore3 := CalculateSafetyScore(route3Areas, timeOfDay);
    var features3 := GetSafetyFeatures(route3Areas, timeOfDay);
    routes := routes + [Route("Fastest Route", safetyScore3, GetRiskLevel(TenthsValue(safetyScore3)), features3)];
  }

  // ---------------------------------------------------------------------
  // Stable sort by safety score, highest first
  // ---------------------------------------------------------------------

  /** Each route scores no higher than the one before it. */
  predicate NonIncreasing(routes: seq<Route>) {
    forall i :: 0 < i < |routes| ==> routes[i].safetyScore <= routes[i - 1].safetyScore
  }

  /** An ordered list has no later route that outscores an earlier one. */
  lemma {:induction false} NonIncreasingPairwise(routes: seq<Route>, i: nat, j: nat)
    requires NonIncreasing(routes)
    requires i <= j < |routes|
    ensures routes[j].safetyScore <= routes[i].safetyScore
  {
    if i < j {
      NonIncreasingPairwise(routes, i, j - 1);
    }
  }

  lemma OrderedListPairwise(routes: seq<Route>)
    requires NonIncreasing(routes)
    ensures forall i, j :: 0 <= i < j < |routes| ==> routes[j].safetyScore <= routes[i].safetyScore
  {
    forall i, j | 0 <= i < j < |routes|
      ensures routes[j].safetyScore <= routes[i].safetyScore
    {
      NonIncreasingPairwise(routes, i, j);
    }
  }

  /**
   * Put `x` in front of the first route that does not score higher than it,
   * so that `x` stays ahead of the routes it ties with.
   */
  function InsertByScore(x: Route, routes: seq<Route>): (r: seq<Route>)
  {
    if routes == [] || routes[0].safetyScore <= x.safetyScore then
      [x] + routes
    else
      [routes[0]] + InsertByScore(x, routes[1..])
  }

  lemma {:induction false} InsertByScorePermutes(x: Route, routes: seq<Route>)
    ensures |InsertByScore(x, routes)| == |routes| + 1
    ensures multiset(InsertByScore(x, routes)) == multiset(routes) + multiset{x}
  {
    if !(routes == [] || routes[0].safetyScore <= x.safetyScore) {
      InsertByScorePermutes(x, routes[1..]);
      assert routes == [routes[0]] + routes[1..];
    }
  }

  lemma {:induction false} InsertByScoreKeepsOrder(x: Route, routes: seq<Route>)
    requires NonIncreasing(routes)
    ensures NonIncreasing(InsertByScore(x, routes))
  {
    if !(routes == [] || routes[0].safetyScore <= x.safetyScore) {
      InsertByScoreKeepsOrder(x, routes[1..]);
      var rest := InsertByScore(x, routes[1..]);
      assert rest[0] == x || rest[0] == routes[1];
    }
  }

  /** The route list ordered by non-increasing score; equal scores keep their order. */
  function SortByScoreDesc(routes: seq<Route>): (r: seq<Route>)
    ensures NonIncreasing(r)
    ensures multiset(r) == multiset(routes)
  {
    if routes == [] then []
    else
      var rest := SortByScoreDesc(routes[1..]);
      InsertByScorePermutes(routes[0], rest);
      InsertByScoreKeepsOrder(routes[0], rest);
      assert routes == [routes[0]] + routes[1..];
      InsertByScore(routes[0], rest)
  }

  /** The routes with a given score, in list order. */
  function WithScore(routes: seq<Route>, score: Tenths): seq<Route> {
    if routes == [] then []
    else (if routes[0].safetyScore == score then [routes[0]] else []) + WithScore(routes[1..], score)
  }

  lemma WithScoreCons(head: Route, rest: seq<Route>, score: Tenths)
    ensures WithScore([head] + rest, score) == (if head.safetyScore == score then [head] else []) + WithScore(rest, score)
  {
    assert ([head] + rest)[1..] == rest;
  }

  lemma {:induction false} InsertByScoreKeepsTies(x: Route, routes: seq<Route>, score: Tenths)
    ensures WithScore(InsertByScore(x, routes), score)
         == (if x.safetyScore == score then [x] else []) + WithScore(routes, score)
  {
    if routes == [] || routes[0].safetyScore <= x.safetyScore {
      WithScoreCons(x, routes, score);
    } else {
      var head, rest := routes[0], InsertByScore(x, routes[1..]);
      var h := if head.safetyScore == score then [head] else [];
      var xs := if x.safetyScore == score then [x] else [];
      var tail := WithScore(routes[1..], score);
      calc {
        WithScore(InsertByScore(x, routes), score);
        { assert InsertByScore(x, routes) == [head] + rest; }
        WithScore([head] + rest, score);
        { WithScoreCons(head, rest, score); }
        h + WithScore(rest, score);
        { InsertByScoreKeepsTies(x, routes[1..], score); }
        h + (xs + tail);
        { if h == [] { assert h + (xs + tail) == xs + tail; } else { assert xs == []; } }
        xs + (h + tail);
        { WithScoreCons(head, routes[1..], score); assert [head] + routes[1..] == routes; }
        xs + WithScore(routes, score);
      }
    }
  }

  /** The sort is stable: for every score, the routes with that score keep their order. */
  lemma {:induction false} SortIsStable(routes: seq<Route>, score: Tenths)
    ensures WithScore(SortByScoreDesc(routes), score) == WithScore(routes, score)
  {
    if routes != [] {
      SortIsStable(routes[1..], score);
      InsertByScoreKeepsTies(routes[0], SortByScoreDesc(routes[1..]), score);
    }
  }

  /** A list that is already in order is left as it is. */
  lemma {:induction false} SortKeepsOrderedList(routes: seq<Route>)
    requires NonIncreasing(routes)
    ensures SortByScoreDesc(routes) == routes
  {
    if routes != [] {
      SortKeepsOrderedList(routes[1..]);
      assert [routes[0]] + routes[1..] == routes;
    }
  }

  // ---------------------------------------------------------------------
  // find-routes
  // ---------------------------------------------------------------------

  /** `data.get(key, default)` on the request body. */
  function Field(body: map<string, string>, key: string, default: string): (value: string)
    ensures key in body ==> value == body[key]
    ensures key !in body ==> value == default
  {
    if key in body then body[key] else default
  }

  /**
   * `find_routes`: read source, destination and time of day with their
   * defaults, reject an empty source or destination, otherwise generate the
   * routes and sort them by score, highest first.
   */
  method FindRoutes(body: map<string, string>) returns (response: Response)
    ensures response.BadRequest? <==> Field(body, "source", "") == "" || Field(body, "destination", "") == ""
    ensures response.BadRequest? ==> response.error == MISSING_FIELDS_ERROR && StatusCode(response) == 400
    ensures response.Found? ==>
      var timeOfDay := Field(body, "time_of_day", "day");
      && response.timeOfDay == timeOfDay
      && response.routes == SortByScoreDesc(MockRoutes(timeOfDay))
      && response.routes == MockRoutes(timeOfDay)
      && (forall i, j :: 0 <= i < j < |response.routes| ==> response.routes[j].safetyScore <= response.routes[i].safetyScore)
      && multiset(response.routes) == multiset(MockRoutes(timeOfDay))
      && response.totalRoutes == |response.routes| == 3
  {
    var source := Field(body, "source", "");
    var destination := Field(body, "destination", "");
    var timeOfDay := Field(body, "time_of_day", "day");

    if source == "" || destination == "" {
      return BadRequest(MISSING_FIELDS_ERROR);
    }

    response := RespondWithRoutes(source, destination, timeOfDay);
  }

  /**
   * The success path of `find_routes`: generate the routes, sort them by
   * score, highest first, and wrap them with their count and the time of day.
   */
  method RespondWithRoutes(source: string, destination: string, timeOfDay: string) returns (response: Response)
    ensures response.Found?
    ensures response.timeOfDay == timeOfDay
    ensures response.routes == SortByScoreDesc(MockRoutes(timeOfDay))
    ensures response.routes == MockRoutes(timeOfDay)
    ensures forall i, j :: 0 <= i < j < |response.routes| ==> response.routes[j].safetyScore <= response.routes[i].safetyScore
    ensures multiset(response.routes) == multiset(MockRoutes(timeOfDay))
    ensures response.totalRoutes == |response.routes| == 3
  {
    var routes := GenerateMockRoutes(source, destination, timeOfDay);
    SortedMockRoutes(timeOfDay);
    routes := SortByScoreDesc(routes);
    assert routes == MockRoutes(timeOfDay);
    response := Found(routes, |routes|, timeOfDay);
  }

  /**
   * What sorting does to the three fixed routes: nothing.  This restates
   * `MockRoutesInOrder` together with `OrderedListPairwise` as the one fact
   * `RespondWithRoutes` needs, so that its own proof stays small.
   */
  lemma SortedMockRoutes(timeOfDay: string)
    ensures var routes := SortByScoreDesc(MockRoutes(timeOfDay));
      && routes == MockRoutes(timeOfDay)
      && |routes| == 3
      && (forall i, j :: 0 <= i < j < |routes| ==> routes[j].safetyScore <= routes[i].safetyScore)
  {
    MockRoutesInOrder(timeOfDay);
    OrderedListPairwise(MockRoutes(timeOfDay));
  }

  // ---------------------------------------------------------------------
  // The fixed routes
  // ---------------------------------------------------------------------

  /** The scores, tiers and features of the three routes by day (any time but "night" scores so). */
  lemma DayRoutes(timeOfDay: string)
    requires timeOfDay != "night"
    ensures var routes := MockRoutes(timeOfDay);
      && routes[0].safetyScore == 83 && routes[0].riskLevel == RiskLevel.Low
      && routes[1].safetyScore == 70 && routes[1].riskLevel == RiskLevel.Low
      && routes[2].safetyScore == 65 && routes[2].riskLevel == RiskLevel.Medium
      && routes[0].safetyFeatures == [WellLitStreets, CrowdedAreas, TimeLabel(timeOfDay), MainRoads, PolicePatrolAreas]
      && routes[1].safetyFeatures == [TimeLabel(timeOfDay), MainRoads, PolicePatrolAreas]
      && routes[2].safetyFeatures == [TimeLabel(timeOfDay), MainRoads, PolicePatrolAreas]
  {
    RouteAggregates(timeOfDay);
  }

  /** The scores and tiers of the three routes by night. */
  lemma NightRoutes()
    ensures var routes := MockRoutes("night");
      && routes[0].safetyScore == 70 && routes[0].riskLevel == RiskLevel.Low
      && routes[1].safetyScore == 45 && routes[1].riskLevel == RiskLevel.Medium
      && routes[2].safetyScore == 35 && routes[2].riskLevel == RiskLevel.High
      && routes[0].safetyFeatures == [WellLitStreets, CrowdedAreas, NightTravel, MainRoads, PolicePatrolAreas]
      && routes[1].safetyFeatures == [NightTravel, MainRoads, PolicePatrolAreas]
      && routes[2].safetyFeatures == [NightTravel, MainRoads, PolicePatrolAreas]
  {
    RouteAggregates("night");
  }

  /** The three fixed routes already come in order, for every time of day. */
  lemma MockRoutesInOrder(timeOfDay: string)
    ensures |MockRoutes(timeOfDay)| == 3
    ensures NonIncreasing(MockRoutes(timeOfDay))
    ensures SortByScoreDesc(MockRoutes(timeOfDay)) == MockRoutes(timeOfDay)
  {
    if timeOfDay == "night" {
      NightRoutes();
    } else {
      DayRoutes(timeOfDay);
    }
    SortKeepsOrderedList(MockRoutes(timeOfDay));
  }

  /** Selected totals and aggregate counts of the three area lists. */
  lemma RouteAggregates(timeOfDay: string)
    ensures SelectedTotal(MAIN_ROAD_AREAS, timeOfDay) == if timeOfDay == "night" then 21 else 25
    ensures SelectedTotal(ALTERNATIVE_AREAS, timeOfDay) == if timeOfDay == "night" then 9 else 14
    ensures SelectedTotal(FASTEST_AREAS, timeOfDay) == if timeOfDay == "night" then 7 else 13
    ensures GoodLightingCount(MAIN_ROAD_AREAS) == 3 && HighCrowdCount(MAIN_ROAD_AREAS) == 3
    ensures GoodLightingCount(ALTERNATIVE_AREAS) == 0 && HighCrowdCount(ALTERNATIVE_AREAS) == 0
    ensures GoodLightingCount(FASTEST_AREAS) == 0 && HighCrowdCount(FASTEST_AREAS) == 0
  {
    PairAggregates("karol_bagh", "lajpat_nagar", timeOfDay);
    PairAggregates("nehru_place", "lajpat_nagar", timeOfDay);
    PairAggregates("connaught_place", "rajouri_garden", timeOfDay);
    AppendArea(["connaught_place", "rajouri_garden"], "dwarka", timeOfDay);
    assert ["connaught_place", "rajouri_garden"] + ["dwarka"] == MAIN_ROAD_AREAS;
  }

  lemma PairAggregates(first: string, second: string, timeOfDay: string)
    ensures SelectedTotal([first, second], timeOfDay) == SelectedScore(first, timeOfDay) + SelectedScore(second, timeOfDay)
    ensures GoodLightingCount([first, second]) == (if IsWellLit(first) then 1 else 0) + (if IsWellLit(second) then 1 else 0)
    ensures HighCrowdCount([first, second]) == (if IsCrowded(first) then 1 else 0) + (if IsCrowded(second) then 1 else 0)
  {
    AppendArea([], first, timeOfDay);
    AppendArea([first], second, timeOfDay);
    assert [] + [first] == [first] && [first] + [second] == [first, second];
  }
}
