# Flight delay predictor — a Dafny model of its core

The flight delay predictor is a Django service. It answers a POST with a
flight number and a date with the probability that the flight arrives more
than 15 minutes late. This project models the deterministic logic around the
machine-learned model, in seven Dafny modules:

- **Views** (`views.dfy`) is the request view. It runs a ladder of early
  returns: undecodable JSON, then missing fields, then a `%Y-%m-%d` date
  check. After that it maps the predictor's result to an HTTP status.
- **Predictor** (`predictor.dfy`) is live feature assembly:
  - the flight lookup, with its ordered attempts, the departure-hour
    parsing, the per-field defaults, and the simulate and fallback
    switches;
  - the best-effort weather features;
  - the assembly of the 18-key feature row;
  - the reordering of that row to the bundle's feature order, and the 0.5
    threshold;
  - the load-once bundle cache, as a class.
- **WeatherLoader** (`weather_loader.dfy`) is the training-time weather
  join. It makes two independent left joins, on (date, origin) and on
  (date, destination), and renames the columns by prefix.
- **Preprocessing** (`preprocessing.dfy`) is the training feature
  derivation. It drops undated rows and joins the weather. It then
  augments the table in place, one pass per column group, in the order the
  Python code assigns them:
  - median imputation of the weather values;
  - the `> 15` delay label;
  - calendar columns;
  - per-group traffic counts;
  - route popularity;
  - day parts;
  - weather flags;
  - the holiday flag;
  - category-index codes.
- **TrainModel** (`train_model.dfy`) is the training/serving feature
  contract:
  - the 17 `SERVE_FEATURES` names;
  - their categorical/numeric partition;
  - the overwrite of the integer codes by the IATA strings;
  - the `FL_DATE < 2022-01-01` training split;
  - the artifact's feature order and version.
- **Calendar** (`calendar.dfy`) models `strptime(s, "%Y-%m-%d")` with
  leap years, and the Monday=0 weekday.
- **Common** (`common.dfy`) holds the small Python string and boolean
  helpers both paths use.

HTTP services are oracle parameters. The flight API is a function from a
query to an attempt outcome. The weather API is a function from a location
to a response. The model file is an `Option<Bundle>`, where None means the
load raised. `json.loads` is a parameter too.

The model keeps the training and serving semantics distinct, because the
code keeps them distinct:

- **Precipitation.** Training `*_PRECIP` is a 0/1 flag for `prcp > 0.1`.
  Serving `*_PRECIP` is the raw amount (`TrainModel.PrecipEncodingDiffers`).
- **Wind.** The heavy-wind threshold is `> 20` in training and `> 25` in
  serving.
- **Temperature.** Training `TEMP_DIFF` is `|tavg_o - tavg_d|`. Serving
  `TEMP_DIFF` is `||t_o - 20| - |t_d - 20||`, where a missing or zero
  temperature counts as 20.

Nothing in the code enforces at most one weather row per (airport, date),
so a duplicate fans the join out. The model follows the code:

- the lookup lemmas take uniqueness as a precondition;
- `WeatherLoader.DuplicateWeatherFansOut` shows a duplicate fanning one
  flight out into two rows.

## Model

| member | source | states |
|---|---|---|
| Predictor.OrElse | backend/predictor/predictor.py:96-98 | `o or fallback`: the value when it is a non-empty string, the fallback otherwise |
| Predictor.FirstTruthy | backend/predictor/predictor.py:89 | `a or b or c`: the first truthy operand, else the last; the result is truthy iff some operand is |
| Predictor.Attempts | backend/predictor/predictor.py:55-63 | the exact `flight_iata` attempt comes first; a second attempt exists iff the number has length at least 3, two letters and then only digits; that attempt carries the uppercased prefix and the numeric suffix |
| Predictor.FirstData | backend/predictor/predictor.py:65-103 | the record returned is that of the first attempt answering with data, and no earlier attempt did; None iff no attempt answers with data |
| Predictor.CallsMade | backend/predictor/predictor.py:65-107 | the queries sent are a prefix of the attempts; none before the last one answered with data; the loop stops early only at a record |
| Predictor.DummyFlight | backend/predictor/predictor.py:37-50 | the simulated and fallback record: never "not found"; raises exactly when `strptime` rejects the date; otherwise SFO to LAX at hour 12 with the dummy airline, the incoming date and its month |
| Predictor.HourOfTimestamp | backend/predictor/predictor.py:90-93 | a timestamp without `T` gives hour 12; any hour read lies in -9..99 |
| Predictor.DepHour | backend/predictor/predictor.py:89-93 | the hour comes from scheduled, else estimated, else actual, the first that is truthy; 12 when none is |
| Predictor.FromApi | backend/predictor/predictor.py:83-103 | an API record raises exactly when the date is rejected; otherwise each field is the record's truthy value or its default (the uppercased two-letter prefix, SFO, LAX), with DEP_HOUR from the timestamps, the incoming date, its weekday and its month |
| Predictor.FlightDetails | backend/predictor/predictor.py:29-124 | the lookup is "not found" exactly when not simulating, fallback is off and no attempt answers with data; the first record found, when not simulating, is the one converted; a found record carries the incoming, parseable date and its month |
| Predictor.DummyAirline | backend/predictor/predictor.py:39-41 | the two-letter uppercase airline: the uppercased prefix when the first two characters are letters, "UA" otherwise |
| Predictor.SecondTField | backend/predictor/predictor.py:91 | `ts.split("T")[1]` raises exactly when the timestamp has no `T` |
| Predictor.PyInt | backend/predictor/predictor.py:91 | `int()` of the two-character slice: the decimal value of an all-digit slice; an exception when the slice has no digit; any value it gives lies in -9..99 |
| Predictor.GetFlightDetails | backend/predictor/predictor.py:29-124 | the loop over the attempts returns the lookup's specification function; it sends no query in simulate mode, and otherwise exactly the attempts up to the first record |
| Predictor.StopsAtFirstRecord | backend/predictor/predictor.py:65-103 | the first attempt with data is the one used, and no later attempt is sent |
| Predictor.NoRecordAnywhere | backend/predictor/predictor.py:65-107 | without any record, every attempt is sent and nothing is found |
| Predictor.CallsUpToFirst | backend/predictor/predictor.py:65-103 | the queries sent are the attempts up to and including the first that answers with data |
| Predictor.FallbackPolicy | backend/predictor/predictor.py:109-124 | when no attempt answers, the result is the dummy SFO-LAX record at hour 12 exactly when fallback is allowed, and None otherwise |
| Predictor.ExactAttemptFirst | backend/predictor/predictor.py:55-57 | a record from the exact-designator attempt is the one used, and it is the only query sent |
| Predictor.DateErrorIffInvalid | backend/predictor/predictor.py:37-122 | a date `%Y-%m-%d` accepts never makes the lookup raise; an invalid one makes every path that builds a record raise |
| Predictor.SimulatedRecord | backend/predictor/predictor.py:37-50 | simulate mode gives SFO to LAX at hour 12, with the date's Monday=0 weekday and its month |
| Predictor.HourOfTwoDigits | backend/predictor/predictor.py:89-91 | DEP_HOUR is the value of the two digits after the first `T` |
| Predictor.HourDefaults | backend/predictor/predictor.py:89-93 | DEP_HOUR is 12 when no timestamp is truthy, or when the timestamp has no `T` |
| Predictor.SimulateExample | backend/predictor/predictor.py:37-50 | UA245 on 2024-03-10 in simulate mode gives airline UA, weekday 6 (a Sunday), month 3 |
| Predictor.DefaultWeather | backend/predictor/predictor.py:162-163 | all four default features are 0 |
| Predictor.TempDiffOf | backend/predictor/predictor.py:153 | `abs((temperature or 20) - 20)`: missing or zero counts as 20; a non-numeric value raises |
| Predictor.PrecipOf | backend/predictor/predictor.py:154 | `float(precip or 0)`: the amount, 0 when missing; a non-numeric value raises |
| Predictor.HeavyWindOf | backend/predictor/predictor.py:156 | 1 iff the wind speed is numeric and above 25, with missing counting as 0; a non-numeric value raises |
| Predictor.LowerAll | backend/predictor/predictor.py:151 | every description item is lowercased, position by position |
| Predictor.DescriptionText | backend/predictor/predictor.py:150-151 | the description text raises exactly for a list with a non-string item; no descriptions read as "" |
| Predictor.FeaturesOf | backend/predictor/predictor.py:149-160 | TEMP_DIFF >= 0; SNOW and HEAVY_WIND are 0 or 1; any field that makes an expression raise gives `default_weather()` |
| Predictor.GetWeatherData | backend/predictor/predictor.py:126-160 | TEMP_DIFF is non-negative; SNOW and HEAVY_WIND are 0 or 1 |
| Predictor.WeatherFailuresAreDefault | backend/predictor/predictor.py:135-160 | an HTTP error, a request exception, or a field that makes the parsing raise gives exactly `default_weather()` |
| Predictor.WeatherOfCurrent | backend/predictor/predictor.py:147-157 | for a well-formed `current` object: SNOW = 1 iff "snow" occurs in the lowercased descriptions joined by spaces; HEAVY_WIND = 1 iff wind > 25; TEMP_DIFF = |temp - 20| with missing or zero counting as 20; PRECIP is the amount |
| Predictor.SnowInList | backend/predictor/predictor.py:150-155 | a list of descriptions reads as its items lowercased and joined by single spaces, and "snow" occurs in that text exactly when it occurs in one of the lowercased items |
| Predictor.DayPartsOf | backend/predictor/predictor.py:183-186 | for every integer hour, exactly one day-part flag is 1, and each flag is 1 iff the hour is in its interval |
| Predictor.RowOf | backend/predictor/predictor.py:181-194 | the built row carries the incoming date under FL_DATE |
| Predictor.RowOfContents | backend/predictor/predictor.py:181-194 | the row has exactly the 18 keys; the flight fields are copied; one day-part flag is set; both ends' weather is present; TEMP_DIFF = |origin - dest| >= 0 |
| Predictor.RowOfKeys | backend/predictor/predictor.py:181-194 | the row's key set is exactly the 18 names |
| Predictor.RowOfHasNoNone | backend/predictor/predictor.py:181-194 | no cell of a built row is None |
| Predictor.FoundFlightRow | backend/predictor/predictor.py:173-195 | a found flight yields the row built from the separately looked-up weather at its own origin and at its own destination |
| Predictor.MissingFlightSkipsWeather | backend/predictor/predictor.py:174-176 | a missing flight gives "Flight not found or failed to retrieve flight data.", whatever the weather service would answer |
| Predictor.BuildFeatureRow | backend/predictor/predictor.py:173-195 | a row is built exactly when the lookup finds a record; "not found" gives the not-found message; a date the lookup rejects is an exception |
| Predictor.PredictWith | backend/predictor/predictor.py:206-218 | a prediction exactly for a built row, with label 1 iff the probability is at least 0.5; the `{"error": …}` dict exactly for a missing flight; an exception passes the assembly's message on |
| Predictor.VersionOf | backend/predictor/predictor.py:217 | `bundle.get("version", "unknown")` |
| Predictor.ModelInput | backend/predictor/predictor.py:211 | the model input has exactly the feature-order columns, in order, with absent keys set to None |
| Predictor.PredictionDecision | backend/predictor/predictor.py:211-217 | a prediction scores the feature-order columns; its label is 1 iff the probability is at least 0.5; it carries the bundle's version |
| Predictor.ErrorSkipsModel | backend/predictor/predictor.py:206-208 | an assembly error is returned as `{"error": err}` and the pipeline is never consulted |
| Predictor.BundleCache.constructor | backend/predictor/predictor.py:165 | the cache starts empty |
| Predictor.BundleCache.GetBundle | backend/predictor/predictor.py:166-171 | an empty cache takes the load's result; a filled cache is returned unchanged and never reloaded; at most one load takes effect |
| Predictor.BundleCache.PredictFlightDelay | backend/predictor/predictor.py:198-218 | the bundle is loaded first; a load failure raises; otherwise the answer is the bundle's prediction for the assembled row |
| Views.Get | predictor_api_app/views.py:21-22 | `dict.get`: the value under the key, None when absent |
| Views.BodyText | predictor_api_app/views.py:15 | an empty body reads as "{}" |
| Views.Validate | predictor_api_app/views.py:14-30 | a request passes only with a truthy flight number and a date `%Y-%m-%d` accepts; the fields it passes on are the decoded object's own `flight_number` and `flight_date`; every JSON rejection is a 400 |
| Views.EmptyBodyIsEmptyObject | predictor_api_app/views.py:15-24 | an empty body is handled as `{}` and so gives 400 "Missing flight_number or flight_date" |
| Views.InvalidJsonRejected | predictor_api_app/views.py:14-18 | a body `json.loads` rejects gives 400 "Invalid JSON body" |
| Views.MissingFieldRejected | predictor_api_app/views.py:21-24 | a missing or falsy field gives 400 "Missing flight_number or flight_date" |
| Views.BadDateRejected | predictor_api_app/views.py:27-30 | for any decoded object with a truthy flight number and a non-empty string date: a date `%Y-%m-%d` rejects gives 400 "flight_date must be YYYY-MM-DD"; an accepted date passes both fields on unchanged |
| Views.ImpossibleDayRejected | predictor_api_app/views.py:27-30 | 2023-02-30 is rejected with 400 |
| Views.RejectedIgnoresPredictor | predictor_api_app/views.py:14-34 | a rejected request never reaches the predictor: the response is the same whatever the predictor would do |
| Views.AcceptedDateParses | predictor_api_app/views.py:27-34 | an accepted date parses, so the predictor's own date parsing never raises on it |
| Views.AcceptedNeverFails | predictor_api_app/views.py:33-38 | with a loaded bundle and a string flight number, an accepted request gets 200 iff the flight is found, and otherwise 400 with the "not found" message; never 500 |
| Views.ResultStatus | predictor_api_app/views.py:33-38 | 200 exactly for a prediction, 400 exactly for the predictor's error dict, whose payload is returned unchanged; an exception gives 500 with "Prediction failed: " |
| Views.ResultPayload | predictor_api_app/views.py:36 | the response body is a JSON object, holding an "error" key exactly for the predictor's error dict |
| Views.Respond | predictor_api_app/views.py:33-38 | the predictor's outcome becomes a JSON response with status 200, 400 or 500, and 500 exactly for an exception |
| Views.PredictView | predictor_api_app/views.py:12-38 | every JSON response has status 200, 400 or 500; the uncaught exceptions are exactly the requests validation leaves unhandled; any status other than 400 means the request was accepted; 500 means the predictor raised |
| WeatherLoader.PrefixedColumns | backend/predictor/weather_loader.py:16-47 | each rename gives ten columns: the prefix followed by a weather field name, in projection order |
| WeatherLoader.WeatherFieldsDistinct | backend/predictor/weather_loader.py:29-30 | the ten projected field names are pairwise distinct |
| WeatherLoader.FieldIndexFrom | backend/predictor/weather_loader.py:16-47 | the field whose prefixed name is the given name, and none when no prefixed field has that name |
| WeatherLoader.WeatherCell | backend/predictor/weather_loader.py:16-53 | a merged row has a weather cell exactly under the twenty renamed `ORIGIN_*` and `DEST_*` names |
| WeatherLoader.NamedWeatherCells | backend/predictor/weather_loader.py:16-53 | `ORIGIN_<field>` holds the origin observation of that field and `DEST_<field>` the destination one |
| WeatherLoader.Matches | backend/predictor/weather_loader.py:50 | a flight has no matching weather row iff no row has its (date, airport) |
| WeatherLoader.Expand | backend/predictor/weather_loader.py:50 | a left join keeps an unmatched row once, and fans a matched row out once per match |
| WeatherLoader.WithOrigin | backend/predictor/weather_loader.py:50 | one output row per joined observation, in order, each carrying the flight unchanged |
| WeatherLoader.WithDest | backend/predictor/weather_loader.py:53 | one output row per destination observation, in order, each carrying the origin-merged row unchanged |
| WeatherLoader.MergeOrigin | backend/predictor/weather_loader.py:50 | every output row comes from an input flight |
| WeatherLoader.MergeDest | backend/predictor/weather_loader.py:53 | every output row extends a row of the first join |
| WeatherLoader.LoadAndMergeWeather | backend/predictor/weather_loader.py:7-55 | every output row carries an input flight unchanged |
| WeatherLoader.WeatherAt | backend/predictor/weather_loader.py:16-30 | the observation looked up is some row's for that (date, airport), or all missing |
| WeatherLoader.UniqueMatch | backend/predictor/weather_loader.py:50 | with at most one weather row per (date, airport), a join gives exactly one observation |
| WeatherLoader.MergeOriginRows | backend/predictor/weather_loader.py:50 | under uniqueness, the origin join keeps the row count and the order, and attaches the (FL_DATE, ORIGIN) observation |
| WeatherLoader.MergeDestRows | backend/predictor/weather_loader.py:53 | under uniqueness, the destination join keeps the row count and the order, and attaches the (FL_DATE, DEST) observation |
| WeatherLoader.JoinRowsAndLookups | backend/predictor/weather_loader.py:50-53 | under uniqueness, the output has one row per flight in order; the flight is unchanged; `ORIGIN_*` is looked up by (date, origin) and `DEST_*` independently by (date, destination) |
| WeatherLoader.MergedWeatherCells | backend/predictor/weather_loader.py:16-53 | under uniqueness, row i of the merged table keeps flight i, its `ORIGIN_<field>` cell is that field of the weather row keyed (FL_DATE, ORIGIN), and its `DEST_<field>` cell that of the row keyed (FL_DATE, DEST) |
| WeatherLoader.WeatherAtFinds | backend/predictor/weather_loader.py:16-30 | under uniqueness, a weather row's own (date, airport) finds its observation |
| WeatherLoader.WeatherAtMissing | backend/predictor/weather_loader.py:50 | a flight with no weather row gets all ten values missing |
| WeatherLoader.OtherWeatherColumnsDropped | backend/predictor/weather_loader.py:29-47 | weather columns outside the projection do not affect the output |
| WeatherLoader.MatchesIgnoreOther | backend/predictor/weather_loader.py:29-30 | the matches for every (date, airport) ignore the unprojected columns |
| WeatherLoader.DuplicateWeatherFansOut | backend/predictor/weather_loader.py:50 | two weather rows for the same (date, airport) turn one flight into two rows |
| Preprocessing.DropMissingDates | backend/predictor/data_preprocessing.py:11-12 | undated rows are dropped and every dated row is kept; DropDistributes and DropSingleRow fix multiplicity and order |
| Preprocessing.DropDistributes | backend/predictor/data_preprocessing.py:12 | dropping distributes over concatenation: each dated row is kept once, in its original order, duplicates included |
| Preprocessing.DropSingleRow | backend/predictor/data_preprocessing.py:12 | a single row is kept, converted, exactly when its FL_DATE is present |
| Preprocessing.DropKeepsDatedTable | backend/predictor/data_preprocessing.py:12 | a fully dated table is kept row for row |
| Preprocessing.SortReals | backend/predictor/data_preprocessing.py:18 | the sort is ordered and a permutation of its input |
| Preprocessing.Median | backend/predictor/data_preprocessing.py:18 | the median is undefined exactly for a column with no present value |
| Preprocessing.MedianWithinRange | backend/predictor/data_preprocessing.py:18 | the median lies between the least and the greatest present value |
| Preprocessing.MiddleOf | backend/predictor/data_preprocessing.py:18 | the middle of a sorted column is undefined exactly when the column is empty |
| Preprocessing.SortedUnique | backend/predictor/data_preprocessing.py:18 | two sorted sequences with the same elements are equal |
| Preprocessing.MedianOrderIndependent | backend/predictor/data_preprocessing.py:18 | the median depends only on the multiset of present values, not on the row order |
| Preprocessing.PresentRows | backend/predictor/data_preprocessing.py:17-18 | the rows with a present value in the column, each once, in increasing order |
| Preprocessing.Present | backend/predictor/data_preprocessing.py:17-18 | the values the median is taken over are exactly the present values of the column, one entry per present row in row order, so with their multiplicities |
| Preprocessing.ColumnMedians | backend/predictor/data_preprocessing.py:18 | one median per weather field, over that field's present values |
| Preprocessing.FillObs | backend/predictor/data_preprocessing.py:18 | `fillna`: present values are kept, missing ones take the column median |
| Preprocessing.Initial | backend/predictor/data_preprocessing.py:13 | the joined flight and its two observations are carried into the table |
| Preprocessing.ArrDelayed | backend/predictor/data_preprocessing.py:21 | ARR_DELAYED = 1 iff ARR_DELAY > 15; a missing delay gives 0 |
| Preprocessing.DelayThresholdExamples | backend/predictor/data_preprocessing.py:21 | 15 gives 0; 16 and 15.5 give 1; missing gives 0 |
| Preprocessing.CalendarOf | backend/predictor/data_preprocessing.py:24-27 | DAY_OF_WEEK is in 0..6; MONTH is the date's month; IS_WEEKEND = 1 iff the day is 5 or 6; DEP_HOUR = CRS_DEP_TIME div 100 |
| Preprocessing.DepHourOfClockTime | backend/predictor/data_preprocessing.py:25 | HHMM gives hour HH |
| Preprocessing.DayPartOf | backend/predictor/data_preprocessing.py:36-39 | each IS_* flag is 1 iff `time_of_day` names its part; at most one flag is set |
| Preprocessing.Above | backend/predictor/data_preprocessing.py:42-48 | `(x > c).astype(int)`: 1 iff present and above; NaN gives 0 |
| Preprocessing.TempDiff | backend/predictor/data_preprocessing.py:49 | `|o - d|`, non-negative, missing when either side is missing |
| Preprocessing.WeatherFlagsOf | backend/predictor/data_preprocessing.py:42-49 | heavy wind for wspd > 20, precipitation for prcp > 0.1, snow for snow > 0, at each end; TEMP_DIFF from the two tavg |
| Preprocessing.TrainingWeatherThresholds | backend/predictor/data_preprocessing.py:42-47 | wind 22 is heavy; precipitation 0.1 is not a flag; 3.5 is |
| Preprocessing.RouteOf | backend/predictor/data_preprocessing.py:32 | ROUTE is ORIGIN, then '-', then DEST |
| Preprocessing.RouteInjective | backend/predictor/data_preprocessing.py:32 | for dash-free origins, equal routes mean equal (origin, destination) pairs |
| Preprocessing.RouteKeyCount | backend/predictor/data_preprocessing.py:33 | the number of rows with a route equals the number with its (origin, destination) pair |
| Preprocessing.Distinct | backend/predictor/data_preprocessing.py:55-57 | the categories are exactly the values of the column |
| Preprocessing.CategoryCode | backend/predictor/data_preprocessing.py:55-57 | a code is the number of categories sorting before the value, at most the number of categories |
| Preprocessing.CodeZeroIffLeast | backend/predictor/data_preprocessing.py:55-57 | the code is 0 exactly for a value no category sorts before |
| Preprocessing.CodeInRange | backend/predictor/data_preprocessing.py:55-57 | a code lies in [0, number of categories) |
| Preprocessing.CodeMonotone | backend/predictor/data_preprocessing.py:55-57 | codes follow the sort order of the categories |
| Preprocessing.CodeInjective | backend/predictor/data_preprocessing.py:55-57 | distinct categories get distinct codes |
| Preprocessing.CodesOf | backend/predictor/data_preprocessing.py:55-57 | the three code cells are integers |
| Preprocessing.CodesBelowDistinctCount | backend/predictor/data_preprocessing.py:55-57 | a row of the table has each code below the number of distinct values of its column |
| Preprocessing.FillWeather | backend/predictor/data_preprocessing.py:18 | in place: each row's observations are filled with the column medians and nothing else changes |
| Preprocessing.AssignLabel | backend/predictor/data_preprocessing.py:21 | in place: ARR_DELAYED of every row from its ARR_DELAY |
| Preprocessing.AssignCalendar | backend/predictor/data_preprocessing.py:24-27 | in place: DAY_OF_WEEK, DEP_HOUR, MONTH and IS_WEEKEND of every row |
| Preprocessing.AssignTraffic | backend/predictor/data_preprocessing.py:29-30 | in place: each row's two traffic counts are the group counts of its (FL_DATE, ORIGIN) and (FL_DATE, DEST) |
| Preprocessing.AssignRoute | backend/predictor/data_preprocessing.py:32 | in place: ROUTE of every row |
| Preprocessing.AssignPopularity | backend/predictor/data_preprocessing.py:33 | in place: each row's ROUTE_POPULARITY is the count of its route |
| Preprocessing.AssignDayParts | backend/predictor/data_preprocessing.py:35-39 | in place: TIME_OF_DAY and the four IS_* flags from DEP_HOUR |
| Preprocessing.AssignWeatherFlags | backend/predictor/data_preprocessing.py:42-49 | in place: the six weather flags and TEMP_DIFF from the filled observations |
| Preprocessing.AssignHoliday | backend/predictor/data_preprocessing.py:51-52 | in place: HOLIDAY_FLAG = 1 iff the date is in the holiday set |
| Preprocessing.AssignCodes | backend/predictor/data_preprocessing.py:55-57 | in place: the three category codes of every row against the whole table |
| Preprocessing.PreprocessFlightData | backend/predictor/data_preprocessing.py:10-59 | after all passes, the output has every column group at its defining value over the joined dated table; CRS_DEP_TIME is gone |
| Preprocessing.DeriveRowColumns | backend/predictor/data_preprocessing.py:16-27 | the weather imputation, the label and the calendar columns |
| Preprocessing.DeriveGroupColumns | backend/predictor/data_preprocessing.py:29-33 | the traffic and route columns, with the earlier columns kept |
| Preprocessing.DeriveFlagColumns | backend/predictor/data_preprocessing.py:35-52 | the day-part, weather-flag and holiday columns, with the earlier columns kept |
| Preprocessing.DeriveCodeColumns | backend/predictor/data_preprocessing.py:54-57 | the code columns, with every earlier column kept |
| Preprocessing.ImputedWeather | backend/predictor/data_preprocessing.py:16-18 | in every weather column a present value is unchanged, a missing one becomes the column median, and a column with any value has no gap left |
| Preprocessing.FilledValueInRange | backend/predictor/data_preprocessing.py:16-18 | on the origin and on the destination side, a filled cell of a column with some present value is present, and some row's value is no larger and some row's no smaller |
| Preprocessing.FilledIsMedian | backend/predictor/data_preprocessing.py:18 | a missing cell takes the median of its column |
| Preprocessing.MedianBetweenRows | backend/predictor/data_preprocessing.py:18 | a column with a present value has a median, bounded below and above by values of rows of the table |
| Preprocessing.TrafficAtLeastOne | backend/predictor/data_preprocessing.py:29-30 | both traffic counts are at least 1 |
| Preprocessing.PopularityCountsPairs | backend/predictor/data_preprocessing.py:32-33 | ROUTE_POPULARITY is the number of rows in the whole table with the same origin and destination, whatever their date |
| Preprocessing.CodesAreSortedPositions | backend/predictor/data_preprocessing.py:55-57 | each code is in [0, #distinct); equal codes iff equal strings; codes follow the string order |
| TrainModel.ServeFeaturesDistinct | backend/predictor/train_model.py:13-21 | SERVE_FEATURES has 17 pairwise distinct names |
| TrainModel.Numeric | backend/predictor/train_model.py:49 | the comprehension never lengthens the list |
| TrainModel.NumericMembers | backend/predictor/train_model.py:49 | a name is numeric iff it is a column and not categorical |
| TrainModel.CategoricalNumericPartition | backend/predictor/train_model.py:48-49 | every feature is in exactly one of `categorical` and `numeric`, and every categorical name is a feature |
| TrainModel.NumericKeepsOrder | backend/predictor/train_model.py:49 | `numeric` is SERVE_FEATURES after its first three names, in order |
| TrainModel.TrainRows | backend/predictor/train_model.py:40 | a row is a training row iff its date is before 2022-01-01 |
| TrainModel.BeforeIsOrdinalOrder | backend/predictor/train_model.py:40 | the `FL_DATE < 2022-01-01` comparison on dates is the order of their day numbers from 0001-01-01 |
| TrainModel.TrainRowsAppend | backend/predictor/train_model.py:40 | the split keeps the table order: it distributes over concatenation |
| TrainModel.StringCodes | backend/predictor/train_model.py:35-37 | the three codes become the AIRLINE, ORIGIN and DEST strings, and every other column of the row is unchanged |
| TrainModel.OverwriteCodes | backend/predictor/train_model.py:35-37 | in place: every row's codes are overwritten with the strings |
| TrainModel.FeatureVector | backend/predictor/train_model.py:41 | `train[SERVE_FEATURES]`: one value per feature, in feature order |
| TrainModel.Column | backend/predictor/train_model.py:41 | a categorical column holds one of the row's codes, TEMP_DIFF its optional difference, every other feature an integer |
| TrainModel.Matrix | backend/predictor/train_model.py:41 | the feature matrix has one row per training row, the m-th being that row's feature vector with string codes |
| TrainModel.Labels | backend/predictor/train_model.py:42 | the label vector has one entry per training row, the m-th being that row's ARR_DELAYED |
| TrainModel.LoadTrainingData | backend/predictor/train_model.py:23-43 | X has the SERVE_FEATURES columns and one row per training row, in table order, with string codes; y holds their ARR_DELAYED |
| TrainModel.TrainingLabels | backend/predictor/train_model.py:42 | y[m] = 1 iff the m-th training flight arrived more than 15 minutes late |
| TrainModel.TrainingVectorShape | backend/predictor/train_model.py:41 | training codes are strings; columns 3-15 are integers; precipitation is the 0/1 flag |
| TrainModel.ColumnIsInt | backend/predictor/train_model.py:13-21 | every feature after the three codes and before TEMP_DIFF is an integer column |
| TrainModel.TrainAndSaveModel | backend/predictor/train_model.py:45-72 | the artifact's feature order is SERVE_FEATURES and its version is "2025-08-13-xgb-bundle-v1"; categorical and numeric partition the columns |
| TrainModel.BundleOf | backend/predictor/train_model.py:68-72 | the served bundle has the artifact's feature order and version |
| TrainModel.ServeFeaturesInRow | backend/predictor/train_model.py:13-21 | every name in SERVE_FEATURES is a key of the live row |
| TrainModel.ServingInputComplete | backend/predictor/train_model.py:13-21 | with the trained feature order, the live model input holds no None and carries the string codes first |
| TrainModel.PrecipEncodingDiffers | backend/predictor/data_preprocessing.py:43 | training precipitation is a 0/1 flag, while the live value is the raw amount |
| Calendar.DaysInMonth | predictor_api_app/views.py:28 | months have 28 to 31 days; February has 29 iff the year is leap |
| Calendar.DaysInYear | backend/predictor/predictor.py:48 | a year has 366 days exactly when it is leap, else 365 |
| Calendar.MonthToken | predictor_api_app/views.py:28 | an accepted `%m` token has one or two characters and a value in 1..12 |
| Calendar.DayToken | predictor_api_app/views.py:28 | an accepted `%d` token has one or two characters and a value in 1..31 |
| Calendar.ParseDate | predictor_api_app/views.py:28 | `strptime(s, "%Y-%m-%d")` accepts only valid calendar dates |
| Calendar.MonthField | backend/predictor/predictor.py:49 | `int(flight_date.split("-")[1])` is the parsed month |
| Calendar.DaysBeforeYear | backend/predictor/predictor.py:48 | the days before a year lie between 365 and 366 per earlier year |
| Calendar.DaysBeforeMonth | backend/predictor/predictor.py:48 | the days before a month are the cumulative table 0, 31, 59, …, 334, plus one after February of a leap year, and the month fits in its year |
| Calendar.Ordinal | backend/predictor/predictor.py:48 | a date's day number lies within its year: after the days of the earlier years, at most one year's length beyond them |
| Calendar.DaysBeforeNextYear | backend/predictor/predictor.py:48 | consecutive years are consecutive: the next year starts one year's length later |
| Calendar.LaterYearLargerOrdinal | backend/predictor/predictor.py:48 | every day of a later year has a larger day number |
| Calendar.MonthsBefore | backend/predictor/predictor.py:48 | a later month starts after the whole of an earlier one |
| Calendar.OrdinalOrder | backend/predictor/predictor.py:48 | day numbers order dates as (year, month, day) does |
| Calendar.Weekday | backend/predictor/predictor.py:48 | `weekday()` is in 0..6 |
| Calendar.WeekdayNextDay | backend/predictor/predictor.py:48 | the next day within a month has the next weekday |
| Calendar.OrdinalAcrossMonth | backend/predictor/predictor.py:48 | the first of a month follows the last day of the previous month |
| Calendar.FormatParses | predictor_api_app/views.py:28 | every valid date written as YYYY-MM-DD parses back to itself |
| Calendar.SundayExample | backend/predictor/predictor.py:48 | 2024-03-10 is a Sunday (weekday 6) |
| Calendar.LeapDayExamples | predictor_api_app/views.py:27-30 | 2024-02-29 parses; 2023-02-29, 1900-02-29 and 2023-02-30 do not |
| Common.Abs | backend/predictor/predictor.py:193 | `abs` is non-negative and is the value or its negation |
| Common.B2I | backend/predictor/data_preprocessing.py:21 | `astype(int)` of a boolean: 1 iff true |
| Common.Upper | backend/predictor/predictor.py:39 | `.upper()` raises each ASCII lowercase letter, position by position |
| Common.Lower | backend/predictor/predictor.py:151 | `.lower()` lowers each ASCII uppercase letter, position by position |
| Common.Contains | backend/predictor/predictor.py:155 | `"snow" in desc` iff the needle occurs at some position |
| Common.JoinSpace | backend/predictor/predictor.py:151 | joining no parts gives "", one part gives that part, and two or more start with the first part followed by a space |
| Common.JoinSpaceContains | backend/predictor/predictor.py:151-155 | a non-empty needle without spaces occurs in the joined text exactly when it occurs in one of the parts |
| Common.ContainsAroundSpace | backend/predictor/predictor.py:151-155 | a needle without spaces occurs in `a + " " + b` exactly when it occurs in `a` or in `b` |
| Common.LexLessTransitive | backend/predictor/data_preprocessing.py:55-57 | the string order the categories are sorted by is transitive |
| Common.LexLessTotal | backend/predictor/data_preprocessing.py:55-57 | the string order is total |

## Left out

- HTTP calls to Aviationstack and Weatherstack are oracle parameters. Each attempt's outcome and each weather payload is an abstract input; timeouts, URLs and access keys are not modelled.
- `load_dotenv` and `os.getenv` are not modelled. SIMULATE and ALLOW_FALLBACK are the `Config` parameter. The keys and the model path have no role in the model.
- `joblib.load`/`joblib.dump` and the scikit-learn/XGBoost pipeline are library calls:
  - the load is an `Option<Bundle>` parameter, where None means the load raised;
  - `predict_proba` is an uninterpreted function to a real;
  - the fit is not modelled.
- Predictor.BundleCache.PredictFlightDelay: a load failure is a fixed message, not the exception's own text.
- The `holidays` library is a set-of-dates parameter.
- `time_of_day` is not part of this model. It is an uninterpreted function from hour to part name, so no partition of training day parts is claimed.
- CSV reading is not modelled. Tables are sequences of records. NaN is `None`, and weather values are mathematical reals, not IEEE floats.
- Weather values of a non-numeric dtype are not modelled. `weather_features` in `preprocess_flight_data` is every column whose name starts with `ORIGIN_` or `DEST_`, including flights-file columns such as `ORIGIN_CITY_NAME`. The model assumes that the ten weather fields on each side are numeric and that every flights-file column named `ORIGIN_*` or `DEST_*` is not, so `select_dtypes(include='number')` selects exactly the twenty weather columns. A numeric flights-file column with such a name would be median-filled as well; the model does not capture that.
- NaN in a string key column (AIRLINE, ORIGIN or DEST) is not modelled. These keys are typed as strings. In pandas such a row is dropped by the `groupby` counts, so its traffic count would be NaN; its ROUTE and ROUTE_POPULARITY would be NaN; and `cat.codes` would give it -1. None of this is represented.
- Rows with a NaN `CRS_DEP_TIME` are not modelled. The departure time is an integer. Columns outside the ones the pipeline reads are carried only as opaque values.
- The in-place conversion of the caller's `FL_DATE` column by `pd.to_datetime` in `load_and_merge_weather` is not modelled. Dates are already parsed values, so the conversion is the identity and the caller's table is not represented.
- String functions are modelled for ASCII only. `.upper()`, `.lower()`, `.isalpha()` and `.isdigit()` are not modelled for non-ASCII characters. `int()` (Predictor.PyInt) also strips the Unicode blanks U+1680, U+2000-U+200A, U+2028, U+2029, U+202F, U+205F and U+3000, and accepts non-ASCII decimal digits; the model does neither. `strptime` (Calendar.ParseDate) also matches non-ASCII decimal digits in `%Y` and in the `[12]\d` alternative of `%d`; the model rejects them.
- Predictor.DATE_ERROR_MESSAGE: the date exception is a fixed text. Python's `ValueError` message depends on the input (it quotes the date, or names the day that is out of range), and that text is not modelled.
- Views.Validate: `json.loads` is a parameter. The non-UTF-8 body, a top-level JSON value that is not an object, and a truthy non-string date end in an exception the view does not catch. The model records these only as `Unhandled`, not as Django's 500 page.
- Views.PredictView: with a truthy non-string flight number, the predictor's behaviour is not modelled. The predictor is a parameter there, and the lemmas about the real predictor take string flight numbers.
- Only the "Flight not found" error and the date exception are modelled as errors of the row assembly. Other exceptions inside the predictor are not.
- Calendar.Weekday: the weekday is proved consistent from day to day and month to month. It is not proved against a second calendar definition.
- `print` logging is not modelled.
- `csrf_exempt` and `require_POST` are not modelled.
- The fetch script (`scripts/fetch_weather_data.py`) and the React front end are not part of this model.
