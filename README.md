# SafeRoute AI route-safety scorer, modelled in Dafny

SafeRoute AI's backend answers `POST /find-routes` with three fixed routes. Each route
carries a safety score, a risk level and a list of safety features. All three are derived
from a static table of eight Delhi areas. The web page then colours and labels each
route card by its score. This project models that logic and proves what it promises:

- the area table and its defaults for unknown areas;
- the mean day/night score rounded to one decimal, with 5.0 for a route with no areas;
- the three risk tiers, on thresholds 7 and 4;
- the ordered feature list;
- the three mock routes and the "validate, then sort highest score first" step of `find_routes`;
- the page's two classifiers, `getSafetyClass` and `getSafetyText`.

Modules, one per part of the program:

- `SafetyScorer` (`safety_scorer.dfy`), from `backend/app.py`:
  - `AREA_SAFETY_DATA`;
  - `calculate_safety_score`: the method `CalculateSafetyScore`, with its loop, proved equal to `SafetyScore`;
  - `get_safety_features`: the method `GetSafetyFeatures`, with its two counting loops, proved equal to `SafetyFeatures`;
  - `get_risk_level`: the function `GetRiskLevel`.
- `RouteFinder` (`route_finder.dfy`), from `backend/app.py`:
  - `generate_mock_routes`: the method `GenerateMockRoutes`, proved equal to `MockRoutes`;
  - `find_routes`: the method `FindRoutes`;
  - the stable descending sort, as `SortByScoreDesc`.
- `SafetyDisplay` (`safety_display.dfy`), from `frontend/script.js`: `GetSafetyClass` and `GetSafetyText`.
- `TierAgreement` (`tier_agreement.dfy`): lemmas that the page's tiers and the backend's risk levels agree.

Representation choices:

- **Scores are integer tenths** (`Tenths = int`): 83 stands for 8.3. Every per-area score is an integer. So `round(total / n, 1)` is stated as `RoundToTenth` on integers: a value at most half a tenth from `total / n`, with exact ties going to the even tenth.
- **Thresholds take any number.** `GetRiskLevel`, `GetSafetyClass` and `GetSafetyText` take a `real`, because the source compares whatever number it is given. A route's stored score reaches them through `TenthsValue`.
- **Features are a datatype.** The six feature strings are `Feature` values. `Feature.Text()` gives the exact string the backend sends, and `TextIsInjective` proves that different values send different strings.
- **The request body is a map.** It is a `map<string, string>`, and a field is read as `data.get(key, default)` reads it (`Field`).

Where the documented interface and the code differ, the model follows the code:

- Any `time_of_day` other than exactly `"night"` is scored with day scores.
- Any value other than exactly `"day"` is labelled `"Night travel - extra caution"`.
- A source or destination that is present but empty is rejected with 400, just like a missing one.

## Model

| member | source | states |
|---|---|---|
| SafetyScorer.RoundToTenth | backend/app.py:33 | the result is at most half a tenth away from total / n, and on an exact tie it is an even number of tenths |
| SafetyScorer.NearestTenthIsUnique | backend/app.py:33 | unless the mean is exactly half-way, there is only one nearest tenth, so the rounding is determined |
| SafetyScorer.SafetyScore | backend/app.py:21-33 | an empty area list scores exactly 5.0; otherwise the score is the nearest tenth to the mean of the selected per-area scores |
| SafetyScorer.CalculateSafetyScore | backend/app.py:21-33 | the accumulator loop returns exactly SafetyScore of its inputs |
| SafetyScorer.UnknownAreaScore | backend/app.py:27 | a single area missing from the table scores 5.0 by day and 3.0 by night |
| SafetyScorer.ScoreExamples | backend/app.py:16-33 | no areas gives 5.0; "dwarka" alone gives 9.0 by day and 8.0 by night |
| SafetyScorer.AREA_SAFETY_DATA | backend/app.py:10-19 | reference constant: the eight areas with their day and night scores, crowd density and lighting, value for value; its consequences are `ScoreExamples`, `SelectedScoreInTableRange` and `RouteAggregates` |
| SafetyScorer.DayScore | backend/app.py:27 | reference definition: the table's day score, or 5 for an area missing from the table; stated by `UnknownAreaScore` and `SelectedScoreInTableRange` |
| SafetyScorer.NightScore | backend/app.py:27 | reference definition: the table's night score, or 3 for an area missing from the table; stated by `UnknownAreaScore` and `SelectedScoreInTableRange` |
| SafetyScorer.SelectedScore | backend/app.py:27-31 | reference definition: the night score exactly when the time of day is "night", the day score otherwise; stated by `NonNightTotalIsDayTotal` and `SelectedScoreInTableRange` |
| SafetyScorer.SelectedTotal | backend/app.py:23-31 | reference definition of the accumulated total; `CalculateSafetyScore`'s loop invariant, bounded by `SelectedTotalBetween` and grown by `AppendArea` |
| SafetyScorer.NonNightTotalIsDayTotal | backend/app.py:26-31 | for any time of day other than "night", the accumulated total equals the day total |
| SafetyScorer.NonNightScoreIsDayScore | backend/app.py:28-33 | for any time of day other than "night", the score equals the day score |
| SafetyScorer.SelectedTotalBetween | backend/app.py:26-31 | if every selected per-area score lies in [lo, hi], the total lies in [lo·n, hi·n] |
| SafetyScorer.RoundToTenthBetween | backend/app.py:33 | rounding a mean in [lo, hi] (whole numbers) to a tenth stays in [lo, hi] |
| SafetyScorer.ScoreBetweenSelectedScores | backend/app.py:21-33 | a non-empty route scores between its smallest and largest selected per-area score |
| SafetyScorer.SelectedScoreInTableRange | backend/app.py:10-31 | every per-area score, defaults included, lies in [3, 9] |
| SafetyScorer.ScoreInTableRange | backend/app.py:10-33 | with this table, every route (empty included) scores in [3.0, 9.0] |
| SafetyScorer.AppendArea | backend/app.py:26-47 | appending one area adds its selected score to the total and its lit and crowded marks to the counts |
| SafetyScorer.GetRiskLevel | backend/app.py:62-69 | Low iff score ≥ 7, Medium iff 4 ≤ score < 7, High iff score < 4; every score gets exactly one tier |
| SafetyScorer.RiskLevelMonotone | backend/app.py:62-69 | a higher score never gives a worse risk level |
| SafetyScorer.RiskLevelExamples | backend/app.py:62-69 | 7.0 is Low, 6.9 is Medium, 3.9 is High |
| SafetyScorer.IsWellLit | backend/app.py:41 | reference definition: the area is in the table and lit "good" or "excellent"; an unknown area is not (`UnknownAreaCountsTowardNeither`) |
| SafetyScorer.IsCrowded | backend/app.py:47 | reference definition: the area is in the table with crowd density "high"; an unknown area is not (`UnknownAreaCountsTowardNeither`) |
| SafetyScorer.GoodLightingCount | backend/app.py:40-41 | reference definition of the lighting count; tied to the well-lit positions by `GoodLightingCountIsPositionCount` |
| SafetyScorer.HighCrowdCount | backend/app.py:46-47 | reference definition of the crowd count; tied to the existence of a crowded area by `HighCrowdCountPositive` |
| SafetyScorer.FeatureList | backend/app.py:37-58 | reference definition of the list built from the outcome of the two checks; its layout is `FeatureListCases`, `FeatureListEnds`, `FeatureListOrder` and `FeatureListMembers` |
| SafetyScorer.Feature.Text | backend/app.py:43-58 | the six strings the backend sends, one per feature; pairwise different by `TextIsInjective` |
| SafetyScorer.GetSafetyFeatures | backend/app.py:35-60 | the two counting loops and the appends return exactly SafetyFeatures of the inputs |
| SafetyScorer.TimeLabel | backend/app.py:52-55 | the time-of-day entry is "Daytime travel" iff the time of day is exactly "day", and "Night travel - extra caution" for every other value |
| SafetyScorer.SafetyFeatures | backend/app.py:35-60 | reference definition of a route's feature list: the lighting check 2 × count > n, the crowd check count > 0, then the time entry and the two defaults; its properties are the lemmas below |
| SafetyScorer.TextIsInjective | backend/app.py:43-58 | the six feature strings are pairwise different, so a feature is identified by its string |
| SafetyScorer.FeatureListCases | backend/app.py:37-58 | the list is optional "Well-lit streets", optional "Crowded areas", the time string, "Main roads", "Police patrol areas" |
| SafetyScorer.FeatureListEnds | backend/app.py:51-58 | the list has 3 to 5 entries; it ends with "Main roads", "Police patrol areas", and the time string comes just before them |
| SafetyScorer.FeatureListOrder | backend/app.py:37-58 | the list contains exactly one time-of-day entry and follows the fixed order lit → crowded → time → defaults, with no repetition |
| SafetyScorer.FeatureListMembers | backend/app.py:42-49 | "Well-lit streets" is present iff the lighting check holds; "Crowded areas" is present iff the crowd check holds |
| SafetyScorer.FeaturesShape | backend/app.py:35-60 | a route's feature list has 3 to 5 entries and ends with the two defaults; it holds one time string, in the fixed order |
| SafetyScorer.WellLitIff | backend/app.py:40-43 | "Well-lit streets" is listed iff 2 × (areas lit good or excellent) > number of areas |
| SafetyScorer.HighCrowdCountPositive | backend/app.py:46-48 | the high-crowd count is positive iff some area of the list has high crowd density |
| SafetyScorer.GoodLightingCountIsPositionCount | backend/app.py:40-41 | the lighting count equals the number of positions in the route whose area is lit good or excellent |
| SafetyScorer.WellLitIffMajority | backend/app.py:40-43 | "Well-lit streets" is listed iff the well-lit positions are more than half of the route's areas |
| SafetyScorer.CrowdedIff | backend/app.py:46-49 | "Crowded areas" is listed iff some area of the route has high crowd density |
| SafetyScorer.UnknownAreaCountsTowardNeither | backend/app.py:40-47 | an area missing from the table, wherever it stands, changes neither the lit count nor the crowded count |
| SafetyScorer.OtherTimeScoredAsDayLabelledNight | backend/app.py:28-55 | a time of day such as "evening" is scored as day but labelled "Night travel - extra caution" |
| RouteFinder.ScoredRoute | backend/app.py:120-128 | reference definition of one generated route (the same shape at lines 143-151 and 167-175): its score, the risk level of that score and its feature list, from one area list; stated by `MockRoutesRiskLevels`, `DayRoutes` and `NightRoutes` |
| RouteFinder.MockRoutes | backend/app.py:118-188 | reference definition of the generated list: exactly three routes, each scored, tiered and described from its own area list |
| RouteFinder.MockRouteNames | backend/app.py:123-170 | the routes are named Main Road Route, Alternative Route, Fastest Route, in that order |
| RouteFinder.MockRoutesRiskLevels | backend/app.py:120-174 | every generated route's risk level is get_risk_level of its own score |
| RouteFinder.GenerateMockRoutes | backend/app.py:107-188 | returns the three fixed routes, in order, each scored, tiered and described from its own area list |
| RouteFinder.InsertByScore | backend/app.py:95 | reference definition of one insertion step of the stable descending sort; its properties are the three InsertByScore lemmas |
| RouteFinder.InsertByScorePermutes | backend/app.py:95 | inserting a route adds exactly that route to the contents |
| RouteFinder.InsertByScoreKeepsOrder | backend/app.py:95 | inserting into a list ordered by non-increasing score keeps it ordered |
| RouteFinder.SortByScoreDesc | backend/app.py:95 | the result is ordered by non-increasing safety score and is a permutation of the input |
| RouteFinder.InsertByScoreKeepsTies | backend/app.py:95 | the inserted route stays ahead of every route it ties with |
| RouteFinder.SortIsStable | backend/app.py:95 | for every score, the routes with that score keep their original relative order (stable sort) |
| RouteFinder.OrderedListPairwise | backend/app.py:95 | in a list ordered adjacent pair by adjacent pair, every later route scores at most every earlier one |
| RouteFinder.NonIncreasingPairwise | backend/app.py:95 | in an ordered list, no later route scores higher than an earlier one |
| RouteFinder.SortKeepsOrderedList | backend/app.py:95 | sorting a list that is already ordered leaves it unchanged |
| RouteFinder.Field | backend/app.py:84-86 | `data.get(key, default)`: the stored value when the key is present, the default when it is absent |
| RouteFinder.StatusCode | backend/app.py:89 | reference definition: 400 for the missing-fields error, 200 otherwise; `FindRoutes` states when the 400 is sent |
| RouteFinder.FindRoutes | backend/app.py:80-102 | error 400 iff source or destination is empty or missing; otherwise exactly 3 routes, ordered by non-increasing score, a permutation of the generated routes, total_routes equal to the list length, time of day echoed with default "day" |
| RouteFinder.SortedMockRoutes | backend/app.py:92-95 | sorting the three generated routes returns them unchanged: Main Road, Alternative, Fastest |
| RouteFinder.RespondWithRoutes | backend/app.py:92-102 | the success path: a Found response with the time of day echoed, exactly 3 routes equal to the sorted generated routes, ordered by non-increasing score, a permutation of the generated routes, and total_routes equal to the list length |
| RouteFinder.DayRoutes | backend/app.py:118-175 | by day the routes score 8.3 / 7.0 / 6.5 (Low, Low, Medium); only the first lists well-lit and crowded |
| RouteFinder.NightRoutes | backend/app.py:118-175 | by night the routes score 7.0 / 4.5 / 3.5 (Low, Medium, High); only the first lists well-lit and crowded, and all three are labelled night travel |
| RouteFinder.MockRoutesInOrder | backend/app.py:118-175 | for every time of day the three fixed routes are already in non-increasing score order |
| RouteFinder.RouteAggregates | backend/app.py:119-166 | the selected totals and the lit and crowded counts of the three fixed area lists |
| SafetyDisplay.GetSafetyClass | frontend/script.js:117-121 | 'safety-high' iff score ≥ 7, 'safety-medium' iff 4 ≤ score < 7, 'safety-low' iff score < 4; nothing else is returned |
| SafetyDisplay.GetSafetyText | frontend/script.js:124-128 | 'Safe' iff score ≥ 7, 'Moderate' iff 4 ≤ score < 7, 'Risky' iff score < 4; nothing else is returned |
| SafetyDisplay.ClassAndTextAgree | frontend/script.js:117-128 | class and text always name the same tier |
| TierAgreement.FrontendMatchesBackend | frontend/script.js:117-128 | high/Safe ↔ Low, medium/Moderate ↔ Medium, low/Risky ↔ High, for every score |
| TierAgreement.RouteCardsMatchRiskLevel | frontend/script.js:82-83 | for every route the backend generates, the card that `createRouteCard` builds by calling the classifiers of lines 117-128 on its score is classed safety-high iff the route is Low risk and safety-low iff it is High risk, and reads Moderate iff it is Medium risk |

## Left out

- SafetyScorer.RoundToTenth: an exact tie goes to the even tenth on the exact rational mean. Python rounds the binary float, so a tie whose decimal is not exactly representable (such as 6.35) may go either way there. None of the three fixed routes has a tie.
- Python floats are not modelled: scores are exact integer tenths and thresholds are compared on exact reals. A NaN score, which the page would class as low, cannot occur.
- Coordinates, distance and duration strings of the mock routes are constant payload. They are not part of `Route`.
- The response's `message` string and the `.lower()` of source and destination only feed that message. They are not modelled. Lower-casing never changes whether a string is empty.
- Flask setup, CORS, the `/` and `/health` handlers, `jsonify`, and `request.get_json` are not modelled. `/health` reads the wall clock.
- The broad `except` that turns any exception into a 500 is not modelled. Examples are a body that is not JSON, or a source or destination that is not a string (it has no `.lower()`). The body is taken to be a map from field names to strings.
- A `time_of_day` that is not a string (such as `null` or `1`) raises nothing: it is only compared with `==`. Such a request gets 200, day scores, the night-travel label, and the value echoed back. The model cannot express it, because the body is a `map<string, string>`. For string values the same behaviour is `OtherTimeScoredAsDayLabelledNight`.
- Process startup, which reads the `PORT` environment variable and starts the server, is not modelled.
- `routes.sort(...)` is CPython's library sort, updating the list in place. The model replaces the list with its stably sorted copy. Only the result of the sort is specified (ordered, a permutation, stable), not Timsort itself.
- Everything in `frontend/script.js` except the two classifiers is not modelled. That covers the form handler, `fetch`, the HTML rendering of route cards and the Leaflet map. It is DOM and network I/O.
