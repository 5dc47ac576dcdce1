# BoxBox backend: a verified model of its classification and aggregation core

BoxBox is a Formula 1 data backend. Crawlers pull sessions, results,
circuits and weather from upstream APIs into a database. Two API versions
(v1 and v2) then serve that data through DTOs (data transfer objects).
This project models the rule-based parts of that pipeline in Dafny and
proves what those rules promise:

- **the two weather classifiers.** v2 has an aggregate classifier over a
  weather frame. v1 has a per-sample classifier, with a timeline, a summary
  and a representative condition;
- **the season-points aggregation.** It filters the race sessions, fetches
  their results in batches of 20 and folds per-driver point totals;
- **the result crawler.** It covers the session tables, the status rule,
  the stable practice ranking by fastest lap and the race-time derivation;
- **the v1 importer's record building.** It covers the result status
  precedence, the float coercion, the field defaults and the session
  status;
- **the result and session DTOs of both versions**, with their tolerant
  parsers and weather dispatch;
- **the country-code table and the circuit record builder.**

Modules:

- `PyValue` (pyvalue.dfy). The JSON values Python receives, truthiness,
  `dict.get`, and `int()`/`float()`/`str()` as abstract text conversions.
- `Stats` (stats.dfy). Sum and NaN-skipping mean over cells that may be
  missing.
- `AnalyzeWeather` (weather_v2.dfy) and `WeatherAnalyzer` (weather_v1.dfy).
- `SeasonPoints` (points.dfy).
- `ResultsCrawler` (results_crawler.dfy). The practice ranking is an in-place
  stable insertion sort on an array, followed by the position loop.
- `ImportData` (get_data.dfy).
- `ResultParsers`, `ResultDtoV2`, `ResultDtoV1` (dto_results.dfy). The three
  parsers are word-for-word identical in both result DTO files, so they are
  defined once.
- `SessionDtoV2`, `SessionDtoV1` (dto_sessions.dfy).
- `CountryUtils` (country.dfy), `CircuitCrawler` (circuits.dfy).

Parameters stand in for everything outside the model:

- **Time.** The current time `now` is a `Timestamp` argument.
- **Network.** HTTP replies are a `HttpReply` argument or a `fetch` function
  of the session key.
- **Concurrency.** The completion order of `asyncio.as_completed` is a
  `completionOrder` function, required only to permute its batch.
- **pandas frames.** Building a frame from records is a `frameOf` function.
- **Dictionary keys.** The timeline key of a v1 sample is a `keyOf` function
  of its date and index.
- **Text conversion.** Python's string-to-number conversions and `str()` are
  a `Builtins` value.

## Model

| member | source | states |
|---|---|---|
| Stats.MeanWithinBounds | src/v2/utils/analyze_weather.py:80-82 | a column mean exists exactly when some cell is present, and lies between any bounds of the present cells |
| Stats.PresentEmptyIffAllMissing | src/v1/utils/weather_analyzer.py:93-106 | no value is collected exactly when every sample lacks the key (so the average is None) |
| Stats.SumBounds | src/v1/utils/weather_analyzer.py:151-152 | a sum of n values within [lo, hi] lies within [lo·n, hi·n] |
| Stats.DefaultedSumIsPresentSum | src/v1/utils/weather_analyzer.py:90 | summing with missing values read as 0 equals summing only the present values |
| AnalyzeWeather.AnalyzeWeatherConditions | src/v2/utils/analyze_weather.py:55-95 | unknown exactly when the frame has no rows, and then a 0.0 ratio and 0.0 averages; otherwise the ratio, the three averages and the cascade's condition of that ratio and those averages |
| AnalyzeWeather.ConditionRatio | src/v2/utils/analyze_weather.py:66-76 | 0.0 without a Rainfall column; otherwise the ratio times the row count is the wet count; never negative |
| AnalyzeWeather.ComputeAverages | src/v2/utils/analyze_weather.py:78-87 | a failing AirTemp or Humidity mean zeroes all three averages; with both means and no WindSpeed column the wind is 0.0; a missing temperature average only comes from a column with no values |
| AnalyzeWeather.DetailedCondition | src/v2/utils/analyze_weather.py:105-133 | the cascade never answers unknown |
| AnalyzeWeather.RatioIsWetFraction | src/v2/utils/analyze_weather.py:66-76 | with a Rainfall column the ratio times the row count is the wet count, so it lies in [0, 1]; without one it is 0.0 |
| AnalyzeWeather.WetTextForms | src/v2/utils/analyze_weather.py:68-72 | a text cell is wet exactly when it is "1" or case-insensitively "true" |
| AnalyzeWeather.DryTextExamples | src/v2/utils/analyze_weather.py:72 | "0", "5.2", "1.0" and "false" are dry; "True", "TRUE" and "1" are wet |
| AnalyzeWeather.WetAgreesWithMarks | src/v2/utils/analyze_weather.py:121-123 | the trend mark of a sample is 1 exactly when the ratio counts it wet, and any mark is 0 or 1 |
| AnalyzeWeather.AveragesFallback | src/v2/utils/analyze_weather.py:79-87 | any failing mean zeroes all three averages together; a missing WindSpeed column alone zeroes only the wind |
| AnalyzeWeather.WindThenHumidity | src/v2/utils/analyze_weather.py:108-114 | wind above 30 gives windy whatever else holds, and windy only then; otherwise humidity above 80 gives humid |
| AnalyzeWeather.RainBands | src/v2/utils/analyze_weather.py:117-133 | below those thresholds: ratio > 0.5 is rainy or rainy_clearing, (0.1, 0.5] drizzle, ≤ 0.1 dry, each an iff |
| AnalyzeWeather.NoDefinedChange | src/v2/utils/analyze_weather.py:121-124 | diff().dropna() is empty exactly when no adjacent pair of marks is defined |
| AnalyzeWeather.ChangeAtLastStep | src/v2/utils/analyze_weather.py:123-124 | the last remaining change is the one at the last step with both neighbours defined |
| AnalyzeWeather.NegativeChangeIsOneToZero | src/v2/utils/analyze_weather.py:124 | for 0/1 marks, the last change is negative exactly when that step goes from 1 to 0 |
| AnalyzeWeather.ClearingIsWetThenDry | src/v2/utils/analyze_weather.py:117-128 | rainy_clearing's trend test holds exactly when the last defined step goes from wet to dry |
| AnalyzeWeather.ClearingWhenFullyRecognised | src/v2/utils/analyze_weather.py:119-125 | with every cell recognised, the test holds iff there are ≥ 2 samples, the second-to-last wet and the last dry |
| AnalyzeWeather.OneSampleNeverClearing | src/v2/utils/analyze_weather.py:119 | a one-sample frame is never rainy_clearing |
| WeatherAnalyzer.DetermineCondition | src/v1/utils/weather_analyzer.py:43-73 | the per-sample classification is never unknown |
| WeatherAnalyzer.RainAndClearing | src/v1/utils/weather_analyzer.py:44-53 | rainy iff rainfall > 0; rainy_clearing iff the previous condition is rainy and rainfall is 0; without a rainy predecessor the carry is irrelevant |
| WeatherAnalyzer.LaterBranches | src/v1/utils/weather_analyzer.py:55-73 | windy implies wind > 10, humid implies humidity > 70 and wind ≤ 10, cloudy/clear split on a track–air gap below 2; past the rain tests, wind > 10 gives windy, else humidity > 70 humid, else cloudy exactly when the gap is below 2 and clear otherwise |
| WeatherAnalyzer.AnalyzeWeather | src/v1/utils/weather_analyzer.py:16-40 | the scan's dictionary is the timeline of the dated samples, each classified with the previous dated sample's condition |
| WeatherAnalyzer.TimelineKeys | src/v1/utils/weather_analyzer.py:23-37 | the timeline's keys are exactly the keys of the dated samples; undated ones add nothing |
| WeatherAnalyzer.CarryIsLastDated | src/v1/utils/weather_analyzer.py:21-38 | the carry is None iff no sample is dated, else the condition of the last dated sample |
| WeatherAnalyzer.TimelineValue | src/v1/utils/weather_analyzer.py:36-37 | a dated sample whose key is not reused later maps to its condition under the carry of the samples before it |
| WeatherAnalyzer.ClearingFollowsRainy | src/v1/utils/weather_analyzer.py:36-38 | a rainy_clearing entry is preceded by a dated rainy entry with only undated samples between them |
| WeatherAnalyzer.CountPositiveIffOccurs | src/v1/utils/weather_analyzer.py:114 | a condition has a positive count iff it occurs |
| WeatherAnalyzer.CountConditions | src/v1/utils/weather_analyzer.py:114 | the built dictionary is the condition distribution |
| WeatherAnalyzer.SummaryTotals | src/v1/utils/weather_analyzer.py:80-99 | the loop gives the carry-free classification, the rainfall sum with missing as 0, the running wind maximum and the present temperatures and humidities |
| WeatherAnalyzer.GetWeatherSummary | src/v1/utils/weather_analyzer.py:76-115 | None iff no samples; else the distribution, a most common condition of maximal count, the rainfall sum with missing as 0, the maximum wind, and averages over samples having the key (None when none do) |
| WeatherAnalyzer.MaxWindIsMaximum | src/v1/utils/weather_analyzer.py:82-91 | the maximum wind is ≥ 0, ≥ every sample's wind, and is 0 or some sample's wind |
| WeatherAnalyzer.CountsAddUp | src/v1/utils/weather_analyzer.py:114 | the counts of the seven conditions add up to the number of samples |
| WeatherAnalyzer.ClassifyNeverClearing | src/v1/utils/weather_analyzer.py:87 | classifying without a carry never gives rainy_clearing or unknown |
| WeatherAnalyzer.MaxCount | src/v1/utils/weather_analyzer.py:130 | the returned count is one of the counts and at least every count |
| WeatherAnalyzer.TopCountIsMaximum | src/v1/utils/weather_analyzer.py:130 | the top count bounds every condition's count and is attained |
| WeatherAnalyzer.RepresentativeWeather | src/v1/utils/weather_analyzer.py:117-159 | the no-data answer exactly for no samples; otherwise a condition that occurs and whose count is at least every condition's count, and average temperature and humidity that are the sums of the present readings divided by all n samples (a missing reading counts as 0, unlike the summary's means over present readings only) |
| WeatherAnalyzer.MostSevere | src/v1/utils/weather_analyzer.py:145 | the chosen candidate is one of them with the highest severity |
| WeatherAnalyzer.RepresentativeIsMostSevereMode | src/v1/utils/weather_analyzer.py:117-148 | for non-empty input the choice occurs, has the maximal count, outranks every other condition with that count, and its ratio is count/n·100 in (0, 100] |
| WeatherAnalyzer.ModeSelection | src/v1/utils/weather_analyzer.py:126-145 | the chosen condition occurs, has the top count, and outranks every other condition with that count |
| WeatherAnalyzer.RepresentativeNeverClearing | src/v1/utils/weather_analyzer.py:122 | the representative condition is never rainy_clearing or unknown |
| WeatherAnalyzer.GetRepresentativeWeather | src/v1/utils/weather_analyzer.py:117-159 | the tally/max/tie-break method computes the representative-weather function |
| WeatherAnalyzer.SelectMostCommon | src/v1/utils/weather_analyzer.py:123-145 | the tally, its maximum and the tie-break give the top count and the most severe condition having it |
| WeatherAnalyzer.SelectionAgrees | src/v1/utils/weather_analyzer.py:130-145 | the dictionary-based maximum and most severe tie equal the top count and its most severe condition |
| SeasonPoints.RaceKeysAreRaceSessions | get_points.py:116-120 | the keys are those of exactly the sessions whose type is Race, in input order; it raises iff an item is not a dict or a race lacks its key |
| SeasonPoints.GetRaceSessions | get_points.py:116-120 | a list payload is filtered for race keys; of the other payloads only an empty dict or an empty string gives [], every other one raises |
| SeasonPoints.RaceIndicesAreRaces | get_points.py:120 | the filter's positions are increasing and are exactly the items whose session type is Race |
| SeasonPoints.BatchesPartition | get_points.py:171-174 | the batches concatenate to the keys, each has 1..20 keys, and there are (n+19)/20 of them |
| SeasonPoints.BatchAt | get_points.py:171-172 | batch j is keys[20j : min(20j+20, n)] |
| SeasonPoints.RequestedPermutation | get_points.py:142-151 | fetching a permutation of the keys gives a permutation of the results |
| SeasonPoints.ProcessBatch | get_points.py:131-153 | the results are those of the keys taken in completion order, [] on timeout or error; so one per key and a permutation of the per-key results |
| SeasonPoints.FetchAllResults | get_points.py:168-180 | all results are one per key and a permutation of the per-key results |
| SeasonPoints.EntryPointwise | get_points.py:202-208 | one result adds its points to its driver only when both are present; a non-dict result raises |
| SeasonPoints.EntriesPointwise | get_points.py:202-210 | a session's fold gives each driver its prior total plus its credited points, and raises iff some result is not a dict |
| SeasonPoints.TallyOf | get_points.py:188-210 | when nothing aborts, the session count is the number of list entries |
| SeasonPoints.TallyPointwise | get_points.py:188-210 | each driver's total is the sum of its points over all sessions; non-list sessions are skipped and not counted |
| SeasonPoints.SumOverPermutation | get_points.py:142-145 | a sum over sessions does not depend on their order |
| SeasonPoints.TallyOrderIndependent | get_points.py:142-145 | the totals and the session count do not depend on the order results arrive in |
| SeasonPoints.CountListsAsSum | get_points.py:196-200 | the session count is the number of list entries |
| SeasonPoints.AbortedStays | get_points.py:202-215 | once a result raises, the whole computation is aborted |
| SeasonPoints.AddSessionResults | get_points.py:202-210 | the loop over a session's results computes its fold |
| SeasonPoints.GetDriverPoints | get_points.py:155-215 | {} when the sessions cannot be read or no race is found; otherwise the tally of the fetched results, with a session count ≤ the key count |
| ResultsCrawler.TablesAgree | src/v2/crawler/get_results.py:14-34 | both tables name the same sessions, and every session's type is the one its code implies |
| ResultsCrawler.PracticeBranchIsFreePractice | src/v2/crawler/get_results.py:104-113 | the ranking branch is taken exactly for Practice 1/2/3; the sprint shootout and unknown names are not ranked |
| ResultsCrawler.DetermineStatus | src/v2/crawler/get_results.py:47-51 | the status is never empty |
| ResultsCrawler.DetermineStatusCases | src/v2/crawler/get_results.py:47-51 | a non-empty status is kept; otherwise "Finished" iff q1, q2, q3 or the time is known, else "Retired" |
| ResultsCrawler.PracticeRow | src/v2/crawler/get_results.py:119-139 | "Finished" iff the lap time exists and is > 0, else "Retired"; a missing time is 0.0; no points and no qualifying times |
| ResultsCrawler.SortByLapTime | src/v2/crawler/get_results.py:141-142 | the array ends sorted by lap time with 0.0 last, is a permutation of the input, and keeps equal keys in input order |
| ResultsCrawler.InsertRow | src/v2/crawler/get_results.py:141-142 | one insertion step sorts one more row while keeping the rows and their tie order |
| ResultsCrawler.AssignPositions | src/v2/crawler/get_results.py:144-147 | the k-th row gets position k+1 and nothing else changes |
| ResultsCrawler.RankPractice | src/v2/crawler/get_results.py:112-148 | the rows are the practice rows, stably sorted by lap time, numbered 1..n in that order |
| ResultsCrawler.SortedMeansUntimedLast | src/v2/crawler/get_results.py:141-142 | in the ranking every untimed driver follows every timed one, and timed drivers are in non-decreasing time |
| ResultsCrawler.RaceRowFields | src/v2/crawler/get_results.py:150-183 | position 1 gets the leader time, others the leader time plus their gap when it is known, else 0.0; missing position, points and Q times are stored as 0 |
| ResultsCrawler.RaceTime | src/v2/crawler/get_results.py:157-168 | a time exists exactly when the driver has a time and a position and the leader time is known; it is the leader time for position 1, else the leader time plus the gap |
| ResultsCrawler.LeaderKeepsOwnTime | src/v2/crawler/get_results.py:157-166 | a first row in position 1 keeps its own time |
| ImportData.IntIfTruthy | src/v1/get_data.py:97-99 | falsy gives None (and only falsy), an int itself; a list or dict raises |
| ImportData.SessionStatus | src/v1/get_data.py:104 | "Completed" iff the end date exists and lies before now, else "Scheduled" |
| ImportData.BuildSessionData | src/v1/get_data.py:96-104 | the record fails exactly when the year, meeting key or session key conversion raises; its status is the end-date rule and its year the converted year |
| ImportData.SessionDataFields | src/v1/get_data.py:96-104 | missing or falsy year, meeting key and session key give None; missing type and name give ""; the status follows the end date |
| ImportData.StatusPrecedence | src/v1/get_data.py:203 | "Completed" iff no flag holds; DNF beats DNS beats DSQ; "Finished" is never produced |
| ImportData.ResultStatus | src/v1/get_data.py:203 | "Completed" exactly when no flag is truthy, "DNF" exactly when dnf is |
| ImportData.ToFloatIfPossible | src/v1/get_data.py:184-188 | None and "" give None, convertible values their float, anything else comes back unchanged |
| ImportData.ToFloatExamples | src/v1/get_data.py:184-188 | numbers and booleans become floats, a list is returned as it is |
| ImportData.BuildResultData | src/v1/get_data.py:174-206 | the row exists exactly when `float()` of the points (default 0) succeeds, holds that float, and its status is the precedence rule of its flags |
| ImportData.ResultDataDefaults | src/v1/get_data.py:176-205 | the row fails exactly when the points cannot be converted (a null one always); missing flags are False with status Completed, missing points 0.0, missing laps 0 |
| ResultParsers.ParseInt | src/v2/dto/results.py:20-27 | None stays None, ints are kept, floats truncate, lists and dicts give None, text goes through int() (identical at src/v1/dto/results.py:26-33) |
| ResultParsers.ParseFloat | src/v2/dto/results.py:29-36 | None stays None, numbers are kept, lists and dicts give None, text goes through float() (identical at src/v1/dto/results.py:35-42) |
| ResultParsers.ParseTime | src/v2/dto/results.py:38-49 | a non-list parses as a float, a non-empty list as the float of its first element, an empty list gives None (identical at src/v1/dto/results.py:44-55) |
| ResultParsers.TimeIsFirstElementFloat | src/v2/dto/results.py:38-49 | a non-list time parses as a float; a list parses as its first element alone; an empty list gives None (identical at src/v1/dto/results.py:44-55) |
| ResultParsers.CountOrZero | src/v2/dto/results.py:60 | the lap count is the parsed int, or 0 when it cannot be parsed |
| ResultDtoV2.FromModel | src/v2/dto/results.py:51-67 | status and timestamps are copied; every numeric field goes through its parser, the lap count through the parser with 0 for failure, so never None |
| ResultDtoV1.Flag | src/v1/dto/results.py:68-70 | a flag is False for None and otherwise its truthiness |
| ResultDtoV1.FromModel | src/v1/dto/results.py:57-76 | the parsers as in v2 (the lap count parsed with 0 for failure), flags by truthiness, type, status and timestamps copied |
| ResultDtoV1.ListTimesCollapse | src/v1/dto/results.py:72-73 | a time or gap stored as a list is the float of its first element, None for an empty list |
| SessionDtoV2.WeatherOf | src/v2/dto/sessions.py:39-46 | weather exists iff the stored value is a truthy list or dict; a list is analysed as is, a dict as a one-record list |
| SessionDtoV2.ResultsOf | src/v2/dto/sessions.py:60 | results map one-to-one and in order; no results give [] |
| SessionDtoV2.FromModel | src/v2/dto/sessions.py:37-61 | every scalar field is copied; the weather and results are those above |
| SessionDtoV2.WeatherNeverUnknown | src/v2/dto/sessions.py:40-46 | with one frame row per record, the analysed weather is never unknown, and a single dict is never rainy_clearing |
| SessionDtoV1.Reading | src/v1/utils/weather_analyzer.py:44-46 | an absent field reads as missing, a number as itself, anything else makes the analyser raise |
| SessionDtoV1.SamplesOf | src/v1/dto/sessions.py:31-33 | reading the records raises exactly when one of them does; otherwise each position holds its record's sample |
| SessionDtoV1.WeatherOf | src/v1/dto/sessions.py:30-37 | a non-truthy or non-list/dict value gives no weather; a truthy list gives the representative weather of its samples, a truthy dict that of a one-sample list, raising where reading a record raises |
| SessionDtoV1.ResultsOf | src/v1/dto/sessions.py:52 | results map one-to-one and in order; no results give [] |
| SessionDtoV1.FromModel | src/v1/dto/sessions.py:28-53 | the round is reduced modulo 1253 into [0, 1253); the other fields are copied; it fails only where the weather analysis raises |
| SessionDtoV1.WeatherNeverErrorDict | src/v1/dto/sessions.py:31-37 | the analysed weather is never the no-data answer and never rainy_clearing or unknown |
| CountryUtils.GetCountryCode | src/v2/utils/country_utils.py:42 | a code is returned exactly for the names in the table, and it is that name's entry |
| CountryUtils.CodesAreAlpha2 | src/v2/utils/country_utils.py:13-41 | every code is two capital letters |
| CountryUtils.CodesAreDistinct | src/v2/utils/country_utils.py:13-41 | no two names share a code |
| CountryUtils.LookupExamples | src/v2/utils/country_utils.py:42 | lookup is exact and case-sensitive: "australia" and "" give None |
| CircuitCrawler.CircuitName | src/v2/crawler/get_circuits.py:67-72 | the meeting name if truthy, else "<country> Grand Prix" for a non-empty country, else "Unknown Circuit"; never empty when it falls back |
| CircuitCrawler.GetCircuitInfo | src/v2/crawler/get_circuits.py:50-81 | a record exactly for a 200 reply whose body is a JSON object; None for anything else, never an exception |
| CircuitCrawler.BuildCircuitData | src/v2/crawler/get_circuits.py:57-77 | a record exactly for a JSON object; its name follows the fallback chain and its country is the upstream country name |
| CircuitCrawler.CircuitFields | src/v2/crawler/get_circuits.py:57-77 | the camel-case keys land in the renamed fields, and missing fields take the listed defaults |
| CircuitCrawler.ObjectGivesRecord | src/v2/crawler/get_circuits.py:52-78 | a 200 reply with a JSON object always yields its record |

## Left out

- Network I/O is not modelled: HTTP clients, the file cache and its expiry, retries with random back-off. Replies are parameters.
- asyncio is reduced to the per-key result contract. The semaphore, timeouts and completion order become a `fetch` outcome and a permutation.
- Database work is not modelled: SQLAlchemy models, repositories, the upsert loops of the crawlers and importer, and the driver/session existence checks before saving.
- FastAPI routers, configuration and database wiring are not modelled.
- fastf1 and pandas loading, and `Timedelta.total_seconds()`, are not modelled. Result and lap cells arrive already converted to seconds, with NaN/NaT as `None`.
- The v2 analyser's JSON-string input path and its `Time` column parsing are left out. Neither influences the result.
- Decimal rendering of the analysis results is left out (`round(...)`, `f"{x:.1f}"`, the "%"/"°C" suffixes). The model keeps the numeric values and labels.
- Floating point is left out: numbers are exact reals. Float sums that differ in rounding by order in Python are equal here.
- pandas dtype inference and `astype(str)` are taken as given. A non-bool Rainfall column arrives as the text of its cells.
- The v2 session DTO's frame construction is a parameter (`frameOf`), assumed to give one row per record where a lemma needs that.
- ISO date parsing and `strftime` keys in the v1 timeline are a `keyOf` parameter. So is the `entry_i` fallback key.
- The v1 timeline is modelled as a map, not an insertion-ordered dict, so its key order is not modelled.
- `get_weather_summary` breaks ties by Python set-iteration order. The model picks any condition of maximal count and states only maximality.
- SessionDtoV1.SampleOf: raises for any present non-numeric field. Python raises for a non-numeric `wind_speed` or `track_temperature` only when the cascade reaches it.
- SeasonPoints.GetDriverPoints: `session_count` is only logged by the source. Python's merging of the equal keys 1, 1.0 and True in one dictionary is not modelled.
- SeasonPoints.FetchAllResults: each key's fetch outcome is a fixed function of the key, so a retried or repeated key gives the same result.
- ImportData.SessionStatus: `date_end` arrives already parsed, and the current time is a parameter.
- ImportData.BuildSessionData: the circuit lookup, the start date and the weather fetch are outside the model, so the record holds only the fields computed from the upstream session.
- The session DTOs do not model pydantic validation of null database columns. Their scalar fields are typed as present.
- `int()` of an infinite float raises OverflowError, which the DTO parsers do not catch. Reals have no infinity, so that path is absent.
- AnalyzeWeather.ComputeAverages: a mean over a column with no values is `None` (NaN), where pandas would give NaN and the formatted output "nan".
- The importer's driver and team creation, the news HTML rewriting and the duplicate session tables of the session crawler are not part of this model.
- CountryUtils.GetCountryCode: takes a string. Python would also accept any hashable value and return None for it.
