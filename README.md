# Stargazing conditions — a Dafny model

This project models the decision logic of a Korean stargazing web app built with Next.js. The app:

- reads weather from the Korea Meteorological Administration (KMA) feeds and from OpenWeatherMap;
- reads the GK2A satellite cloud grid;
- computes the moon's phase and position;
- scores a night for stargazing, on a forecast date or in real time.

Beside this it offers a list of observing spots, navigation links and a lunar calendar.

The model covers:

- the three scoring schemes and the grades of the two tabs;
- the in-memory weather cache and its refresh protocol;
- the KMA text and JSON parsers with their sentinels and defaults;
- the forecast, weather, cloud-grid and satellite-image routes;
- the moon-phase tables, the colour scales and the point-in-polygon test;
- the spot filter, and the state of the tabs and pages.

Everything the app takes from outside is an explicit input. That includes:

- the clock and its calendar breakdown;
- fetched replies, number parsing and URL form encoding;
- trigonometry, distances and the ephemeris.

In the model:

- Scores are `real`, and a JavaScript `NaN` is `None`.
- `Math.round(x)` is the floor of `x + 0.5`.
- JavaScript's `%` is a truncating remainder (`Js.IntRem`, `Js.RealRem`).
- `a || b` treats 0, NaN, the empty string and a missing value as absent.

Code that mutates state is modelled as classes with methods proved against specification functions. These are:

- the weather cache;
- the zone and grid caches;
- the tab, page and calendar states.

Loops of the source are methods with invariants. These are:

- the forecast night scan;
- the nowcast and trend folds;
- the reshape, the nearest-zone search and the ray casting;
- the calendar grid and the colour-stop search.

Each module is one source file:

| module | source file |
|---|---|
| `ForecastApi` | `lib/forecastApi.ts` |
| `RealtimeApi` | `lib/realtimeApi.ts` |
| `WeatherUtils` | `lib/weatherUtils.ts` |
| `WeatherCache` | `lib/weatherCache.ts` |
| `KmaHighRes` | `lib/kmaHighRes.ts` |
| `KmaDfs` | `lib/kmaDfs.ts` |
| `KmaVilage` | `lib/kmaVilage.ts` |
| `KmaZones` | `lib/kmaZones.ts` |
| `KmaGrid` | `lib/kmaGrid.ts` |
| `Weather` | `lib/weather.ts` |
| `Astro` | `lib/astro.ts` |
| `Astronomy` | `lib/astronomy.ts` |
| `CloudHeatmap` | `lib/cloudHeatmap.ts` |
| `ForecastRoute` | `app/api/forecast/route.ts` |
| `WeatherRoute` | `app/api/weather/route.ts` |
| `CloudGridRoute` | `app/api/satellite/cloud-grid/route.ts` |
| `SatelliteImageRoute` | `app/api/satellite/image/route.ts` |
| `MoonCalendar` | `app/moon-calendar/page.tsx` |
| `SpotsPage` | `app/spots/page.tsx` |
| `TaebaekBoundary` | `data/taebaekBoundary.ts` |
| `ForecastTab` | `components/ForecastTab.tsx` |
| `RealtimeTab` | `components/RealtimeTab.tsx` |
| `InfoPanel` | `components/InfoPanel.tsx` |
| `MapNavigationButtons` | `components/MapNavigationButtons.tsx` |

Shared modules:

- `Js` holds the JavaScript built-ins: remainders, rounding, `toFixed`, `find`, `filter`, and the `Option` and `Result` types.
- `Text` holds string handling: trim, split, case, digits and `encodeURIComponent`.
- `Sorting` is a stable sort.
- `KmaTime` holds the KMA time stamps.
- `CloudGrid` holds the grid reshape shared by the cache and the route.
- `WeatherTypes` and `ObservationTypes` hold the record types.

## Model

| member | source | states |
|---|---|---|
| KmaTime.DateStamp | lib/kmaVilage.ts:44-51 | a `yyyyMMdd` stamp is all digits |
| KmaTime.Stamp | lib/kmaDfs.ts:13-21 | a `yyyyMMddHHmm` stamp is all digits |
| KmaTime.StampFields | lib/kmaDfs.ts:13-21 | for a valid clock the stamp is twelve characters and the year, month, day, hour and floored minute read back from their fixed positions |
| KmaTime.StampMinuteFloored | lib/weatherCache.ts:139 | the stamped minute is the latest multiple of the step (5 or 10) not after the clock's minute |
| Sorting.SortBySortedPermutation | lib/realtimeApi.ts:258 | the sort by a numeric key orders by that key and is a permutation of its input |
| Sorting.SortByStable | lib/realtimeApi.ts:258 | for every key the elements carrying it keep their input order (the language's stable sort) |
| CloudGrid.Dim | lib/weatherCache.ts:179 | the loop runs `d` times for a positive dimension and never for NaN or a non-positive one |
| CloudGrid.FlatCell | lib/weatherCache.ts:182 | a present flat value is read as itself; past the end or NaN reads as 0 |
| CloudGrid.ParseValues | lib/weatherCache.ts:176 | one parsed value per comma-separated piece, and at least one |
| CloudGrid.Reshape | lib/weatherCache.ts:178-185 | `ydim` rows of `xdim` cells, cell (y, x) taken from flat position y·xdim + x |
| CloudGrid.CellAt | lib/weatherUtils.ts:83 | a cell inside the grid is read as itself; a missing row or column reads as 0 |
| ForecastApi.MoonPhase | lib/forecastApi.ts:19-26 | the phase is a fraction of the 29.53059-day cycle in (−1, 1), non-negative after the 6 January 2000 new moon and non-positive before it (JavaScript's sign-keeping `%`) |
| ForecastApi.EstimateMoonAltitude | lib/forecastApi.ts:31-49 | never above 60°; a near-full moon loses 5° per hour from 21 h; a near-new moon is at −20° |
| ForecastApi.MoonAltitudePeaksAt21 | lib/forecastApi.ts:31-49 | for any phase, no hour gives a higher estimate than 21 h |
| ForecastApi.EstimateVisibility | lib/forecastApi.ts:76-79 | one of 15, 10, 5 or 3 km; 3 km exactly when precipitation exceeds 50 %, else 5 km above 80 % humidity, 10 km above 60 %, 15 km otherwise or when humidity is missing |
| ForecastApi.EstimateVisibilityMonotone | lib/forecastApi.ts:76-79 | more humidity never lengthens the estimated visibility |
| ForecastApi.NormaliseForecast | lib/forecastApi.ts:81-91 | each `x \|\| default` field keeps a present non-zero value and otherwise takes its default: temperature 10, humidity 50, cloud cover 50, wind 2, so these four are never 0; precipitation is the reported value, 0 included, and 0 when missing; the visibility is the estimate from humidity and precipitation, and the moon fields and timestamp are passed through |
| ForecastApi.MockSeed | lib/forecastApi.ts:96-99 | the fallback seed lies in (−100, 100) and is non-negative when the date hash plus the position hash is |
| ForecastApi.MockForecast | lib/forecastApi.ts:100-111 | the fallback's cloud cover is the seed; for a non-negative seed temperature, humidity, wind and visibility lie in the mock's ranges; precipitation is zero up to seed 70 and below 1 above it |
| ForecastApi.FetchForecast | lib/forecastApi.ts:54-114 | a payload is normalised, any failure gives the mock record seeded by the date and position; either way the moon phase is that of 21 h on the requested date and the moon altitude is estimated for hour 21 from that phase |
| ForecastApi.FetchedMoonAt21 | lib/forecastApi.ts:72-74 | the record's moon altitude is 60 for a near-full moon and −20 for a new moon or an instant before the epoch |
| ForecastApi.MockForecastInKorea | lib/forecastApi.ts:94-111 | for a real date and a position with positive coordinates the fallback's cloud cover is a percentage and its temperature and visibility lie in the mock's ranges |
| ForecastApi.CloudScore | lib/forecastApi.ts:122-124 | the score is 100 − cloud cover clamped to [0, 100] |
| ForecastApi.CloudScoreMonotone | lib/forecastApi.ts:122-124 | more cloud never raises the cloud score |
| ForecastApi.HumidityTerm | lib/forecastApi.ts:131-138 | 20 exactly above 80 % humidity, 100 exactly at or below 40 %, else 50 or 80 |
| ForecastApi.VisibilityTerm | lib/forecastApi.ts:141-148 | 10 exactly below 1 km, 100 exactly from 10 km, else 40 or 80 |
| ForecastApi.TransparencyScore | lib/forecastApi.ts:129-152 | the score is the rounded 30/70 blend of the humidity and visibility terms and lies in [13, 100] |
| ForecastApi.TransparencyMonotone | lib/forecastApi.ts:129-152 | more humidity or less visibility never raises the transparency score |
| ForecastApi.AltitudeTerm | lib/forecastApi.ts:163-169 | the altitude term lies in [0, 100]: 100 on or below the horizon, 0 from 50° up |
| ForecastApi.MoonScore | lib/forecastApi.ts:159-175 | a moon below the horizon scores 100; otherwise the rounded mean of the phase term 100 − 200·phase and the altitude term |
| ForecastApi.MoonScoreInRange | lib/forecastApi.ts:159-175 | for a phase in [0, 0.5] the moon score is a percentage |
| ForecastApi.MoonScoreNegativeWhenWaning | lib/forecastApi.ts:159-175 | for a phase past 0.75 with the moon high the score is at most −25: the phase term is not clamped |
| ForecastApi.MoonScoreExample | lib/forecastApi.ts:159-175 | a phase of 1.0 at 50° scores −50 |
| ForecastApi.LightPollutionScore | lib/forecastApi.ts:180-205 | 20 exactly in the capital box, 30 in a metropolitan box outside it, 60 in the mid-city band outside both, 90 everywhere else |
| ForecastApi.Csi | lib/forecastApi.ts:210-223 | the CSI is the rounded 40/25/20/15 blend of the cloud, moon, light-pollution and transparency scores, a percentage when they all are |
| ForecastApi.CsiOfEqualScores | lib/forecastApi.ts:210-223 | the weights sum to one: four equal subscores give that score back |
| ForecastApi.CsiMonotone | lib/forecastApi.ts:210-223 | raising any subscore never lowers the CSI |
| ForecastApi.CsiToStars | lib/forecastApi.ts:228-231 | the stars are a whole number of halves, the nearest to CSI/20, and lie in [0, 5] for a percentage |
| ForecastApi.SummaryBands | lib/forecastApi.ts:236-256 | each summary holds exactly on its CSI band (80/60/40/20), and in the 40-59 band cloud below 50 is blamed before a moon score below 50 |
| ForecastApi.ComputeForecastScores | lib/forecastApi.ts:261-284 | the cloud score from the cloud cover, the transparency score from humidity and visibility, the light-pollution score from the place, the moon score from phase and altitude; the CSI from the subscores, stars and summary from the CSI; the cloud and transparency scores are in range, light pollution is one of 20/30/60/90, a set moon scores 100 |
| ForecastApi.NegativeCsiExample | lib/forecastApi.ts:210-223 | a bright waning moon in a clear sky over Seoul gives a CSI of −7 |
| ForecastApi.FormatDate | lib/forecastApi.ts:291-296 | at least seven characters, with dashes before the two-digit month and day |
| ForecastApi.FormatDateFields | lib/forecastApi.ts:291-296 | a four-digit year gives ten characters `yyyy-MM-dd` with each field readable back at its position |
| ForecastApi.DateOptionFor | lib/forecastApi.ts:305-311 | the option's value is the formatted date; day 0 is labelled 오늘 and day 1 내일 |
| ForecastApi.GetDateOptions | lib/forecastApi.ts:301-315 | one option per day (none for a negative count), option i formats the day i days ahead, the first two labelled 오늘 and 내일 |
| RealtimeApi.FindStation | lib/realtimeApi.ts:65-68 | no station exactly when none has the id; otherwise the first station with that id |
| RealtimeApi.VisibilityFromHumidity | lib/realtimeApi.ts:86-90 | 2 km exactly above 90 % humidity, 15 km exactly when the humidity is missing or at most 60 %, otherwise 5, 8 or 12 km |
| RealtimeApi.VisibilityFromHumidityMonotone | lib/realtimeApi.ts:86-90 | higher humidity never gives a longer visibility |
| RealtimeApi.ReadingFromReply | lib/realtimeApi.ts:92-100 | the reading carries the id and time, no pressure, each reply field or its default (50, 2, 10) and the visibility estimated from the raw humidity |
| RealtimeApi.MockReading | lib/realtimeApi.ts:114-125 | a mock reading has every field; for a non-negative seed each lies in the mock's range (humidity 40-79, wind 0-9.5, visibility 3-14 km, temperature 5-24, pressure 1010-1029) |
| RealtimeApi.FetchOne | lib/realtimeApi.ts:64-104 | a known station with a reply yields the reply's reading; an unknown id, an HTTP error or a throw yields the mock |
| RealtimeApi.FetchRealtimeData | lib/realtimeApi.ts:59-109 | one reading per requested id, in request order, with that id and the shared timestamp |
| RealtimeApi.CloudScore | lib/realtimeApi.ts:134-141 | a percentage: 50 without data, 100 up to 20 % humidity, 0 from 100 % |
| RealtimeApi.CloudScoreMonotone | lib/realtimeApi.ts:134-141 | a more humid reading never scores better |
| RealtimeApi.WindTerm | lib/realtimeApi.ts:150-159 | the wind term lies in [40, 100]: 100 without data or below 5 m/s, 40 from 10 m/s |
| RealtimeApi.WindTermMonotone | lib/realtimeApi.ts:150-159 | stronger wind never raises the wind term |
| RealtimeApi.VisibilityTerm | lib/realtimeApi.ts:163-174 | 10 exactly below 1 km, 100 exactly without data or from 10 km, else 40 or 80 |
| RealtimeApi.TransparencyScore | lib/realtimeApi.ts:146-179 | the rounded 30/70 blend of the wind and visibility terms, in [19, 100], and 100 without data |
| RealtimeApi.CombinedScore | lib/realtimeApi.ts:184-187 | the rounded 60/40 blend, lying between the two scores |
| RealtimeApi.ScoreStation | lib/realtimeApi.ts:199-221 | the station's scores come from its reading, the combined score is a percentage, and the raw fields are copied |
| RealtimeApi.DataMapLastWins | lib/realtimeApi.ts:197 | the map holds exactly the ids of the list, each with its last record |
| RealtimeApi.ComputeStationScores | lib/realtimeApi.ts:192-224 | one score per station that has a reading, in the station list's order, each scored from the last reading for its id |
| RealtimeApi.WithDataMembership | lib/realtimeApi.ts:199-223 | a station keeps its place exactly when some reading carries its id |
| RealtimeApi.GetNearestStations | lib/realtimeApi.ts:248-261 | a prefix of the stations stably sorted by distance, of length `count` or all of them, sorted and drawn from the input |
| RealtimeApi.NearestAreNearest | lib/realtimeApi.ts:248-261 | no station left out is nearer than one chosen |
| RealtimeApi.NearestTiesKeepOrder | lib/realtimeApi.ts:258 | stations at the same distance keep their input order |
| RealtimeApi.FormatDistance | lib/realtimeApi.ts:266-271 | from 1000 m kilometres with one decimal and "km", else whole metres and "m" |
| RealtimeApi.ScoreColor | lib/realtimeApi.ts:276-282 | each of the five colours holds exactly on its band at 80/60/40/20 |
| RealtimeApi.ScoreGrade | lib/realtimeApi.ts:287-293 | each of the five grades holds exactly on its band at 80/60/40/20 |
| RealtimeApi.ColorFollowsGrade | lib/realtimeApi.ts:276-293 | two scores share a grade exactly when they share a colour |
| WeatherUtils.RowMax | lib/weatherUtils.ts:89-96 | the scanned maximum never falls below the loop's starting 0 |
| WeatherUtils.GridMax | lib/weatherUtils.ts:89-96 | the scanned maximum never falls below the loop's starting 0 |
| WeatherUtils.GridMaxUpper | lib/weatherUtils.ts:89-96 | every cell inside the scanned `ydim` × `xdim` rectangle is at most the grid maximum |
| WeatherUtils.RowMaxAttained | lib/weatherUtils.ts:90-94 | a row's maximum is the loop's starting 0 or one of the row's scanned cells |
| WeatherUtils.GridMaxAttained | lib/weatherUtils.ts:89-96 | the grid maximum is the loop's starting 0 or one of the scanned cells |
| WeatherUtils.Percent | lib/weatherUtils.ts:101 | a whole percentage in [0, 100], the rounding of v·100 for v in [0, 1] |
| WeatherUtils.CoverAt | lib/weatherUtils.ts:66-101 | no answer exactly when the rounded column or row is outside the dimensions; otherwise a percentage |
| WeatherUtils.GetCloudCoverFromGrid | lib/weatherUtils.ts:53-102 | no grid or an empty grid gives no answer; otherwise the nearest cell's normalised percentage |
| WeatherUtils.NormalizedCellAtMostOne | lib/weatherUtils.ts:87-98 | a located cell above 1 normalises into (0, 1] by the grid maximum, so the clamp never bites |
| WeatherUtils.EstimateLightPollution | lib/weatherUtils.ts:113-160 | the level is 8, 7, 5 or 2 and the score is the rounded 100 − (level − 1)/8·100 |
| WeatherUtils.LightPollutionScores | lib/weatherUtils.ts:113-160 | the four levels score 13, 25, 50 and 88 |
| WeatherUtils.LightPollutionAgreesWithForecast | lib/weatherUtils.ts:113-160 | the estimate's level 8/7/5/2 regions are exactly the forecast tab's 20/30/60/90 regions |
| WeatherUtils.LightTerm | lib/weatherUtils.ts:186-196 | one of 40/30/20/10/0 points, 0 exactly above level 8 |
| WeatherUtils.CloudTerm | lib/weatherUtils.ts:201 | never negative, at most 40 for a non-negative cover, and 40 − 0.4·cover on [0, 100] |
| WeatherUtils.HumidityTerm | lib/weatherUtils.ts:206-215 | one of 20/15/10/5/0 points, 20 exactly up to 5 g/m³ and 0 exactly above 20 |
| WeatherUtils.CalculateObservationScore | lib/weatherUtils.ts:171-230 | the score is the rounded sum of the three terms, in [0, 100] for a non-negative cover, good exactly from 50, with each term rounded in the breakdown |
| WeatherUtils.ObservationScoreMonotone | lib/weatherUtils.ts:171-230 | more light pollution, more cloud or more water vapour never raise the score |
| WeatherCache.CloudDateTime | lib/weatherCache.ts:133-140 | the requested `dateTime` is all digits |
| WeatherCache.CloudDateTimeFields | lib/weatherCache.ts:133-140 | the stamp reads back as the UTC fields of now − 30 min, its minute floored to a multiple of ten |
| WeatherCache.Cache.constructor | lib/weatherCache.ts:45-56 | the first cache holds nothing, with no update times and no refresh or scheduler running |
| WeatherCache.Cache.CurrentStatus | app/api/weather/current/route.ts:4-14 | 503 exactly while neither slot has a value, else 200; in a consistent cache a 503 also means no update times |
| WeatherCache.Cache.BeginHighRes | lib/weatherCache.ts:85-98 | the refresh starts exactly when none is in flight and the key is set, raising only its own flag |
| WeatherCache.Cache.FinishHighRes | lib/weatherCache.ts:100-113 | a snapshot replaces the value and stamps its time, a failure keeps both, the flag is cleared, the grid slot is untouched and value/time stay paired |
| WeatherCache.Cache.RefreshHighRes | lib/weatherCache.ts:85-114 | a skipped refresh changes nothing; a started one ends with the flag cleared and the snapshot stored or the old value kept; the grid slot is untouched |
| WeatherCache.Cache.BeginCloudGrid | lib/weatherCache.ts:116-129 | the refresh starts exactly when none is in flight and the key is set, raising only its own flag |
| WeatherCache.Cache.FinishCloudGrid | lib/weatherCache.ts:141-204 | an OK reply with result code "00" and items stores the first item's grid and time; anything else keeps the old grid; the flag is cleared and the snapshot slot untouched |
| WeatherCache.Cache.RefreshCloudGrid | lib/weatherCache.ts:116-204 | a skipped refresh changes nothing; a started one requests the stamp of now − 30 min and stores an accepted grid or keeps the old one |
| WeatherCache.Cache.StartScheduler | lib/weatherCache.ts:211-229 | only the first call marks the scheduler running and starts both refreshes; a later call changes nothing |
| WeatherCache.Cache.ForceRefreshAll | lib/weatherCache.ts:245-247 | both refreshes run to completion on their disjoint slots, each with the outcome of its own request, and the cache stays consistent |
| CloudGridRoute.GridQuery | app/api/satellite/cloud-grid/route.ts:22-27 | six parameters, with the stamp fourth and the key last |
| CloudGridRoute.Get | app/api/satellite/cloud-grid/route.ts:3-119 | 500 without a key; the upstream status on an HTTP failure; 500 for a result code other than "00", a missing body, a lone item object or a throw; 404 with the stamp for no items; success exactly when there are items, describing the first |
| CloudGridRoute.TotalPointsIgnoresDims | app/api/satellite/cloud-grid/route.ts:87-107 | one value under declared 2 × 2 dimensions reports one point and fills the uncovered cells with 0 |
| KmaHighRes.HighResQuery | lib/kmaHighRes.ts:19-45 | eight parameters drawn from the request's names, with the snapshot's variable list fifth and the key last |
| KmaHighRes.HighResWindow | lib/kmaHighRes.ts:19-39 | `tm1` and `tm2` are twelve-digit stamps of 30 minutes ago and now, their year, month, day, hour and five-minute-floored minute readable back |
| KmaHighRes.HeaderNames | lib/kmaHighRes.ts:70-71 | no header name is empty |
| KmaHighRes.Reading | lib/kmaHighRes.ts:90-91 | a value is the cell's parsed number unless missing, NaN or −99, which read as null |
| KmaHighRes.FieldsOfLastWins | lib/kmaHighRes.ts:88-92 | the record has exactly the header's names and a repeated name keeps its last column's value |
| KmaHighRes.ParseFields | lib/kmaHighRes.ts:88-92 | the `forEach` loop builds exactly that record |
| KmaHighRes.SelectLinesSpec | lib/kmaHighRes.ts:64-84 | no header line and no data line after the first header are the two errors; otherwise the first header and the last data line are picked |
| KmaHighRes.ParseLinesSpec | lib/kmaHighRes.ts:61-84 | the same selection on the reply's lines with the `# tm` header test and the data-line test |
| KmaHighRes.FetchHighResData | lib/kmaHighRes.ts:18-96 | the loop-free reading of a reply equals its specification: a thrown request passes its error on, a failed status or parse error is an error, else the name-to-value record |
| KmaHighRes.Field | lib/kmaHighRes.ts:107-113 | an absent name reads as null, a present one as its value |
| KmaHighRes.SnapshotOf | lib/kmaHighRes.ts:117-139 | a KMA snapshot with cloud cover 0, wind and humidity defaulted to 0, the other readings copied or null, a whole-second timestamp, and rain flagged exactly when `rn_ox` is positive |
| KmaHighRes.OrElseNum | lib/kmaHighRes.ts:123-125 | `x ?? 0` keeps a value and gives 0 for null |
| KmaHighRes.FetchKmaHighResSnapshot | lib/kmaHighRes.ts:98-149 | a thrown request passes its error on, a failed status is the `HighRes <status>: <body>` error, a parse error propagates; otherwise the snapshot of the parsed record |
| KmaDfs.DfsSlot | lib/kmaDfs.ts:12-20 | the slot is all digits |
| KmaDfs.DfsQuery | lib/kmaDfs.ts:23-31 | eight parameters, `tm1` and `tm2` both the slot, the variable list fifth and the key last |
| KmaDfs.DfsSlotFields | lib/kmaDfs.ts:12-20 | the slot reads back as the local clock ten minutes ago, minute floored to five |
| KmaDfs.LastDataLineSpec | lib/kmaDfs.ts:46-53 | no data line is the "No data in response" error; otherwise the last data line is read |
| KmaDfs.Parts | lib/kmaDfs.ts:54 | one trimmed part per comma-separated piece |
| KmaDfs.ColumnAsWritten | lib/kmaDfs.ts:59-64 | `parseFloat(x) \|\| null` is a value exactly for a present, numeric, non-zero column |
| KmaDfs.Column | lib/kmaDfs.ts:59-64 | the corrected column is the parsed number of a present column and null past the end |
| KmaDfs.SnapshotFrom | lib/kmaDfs.ts:68-90 | a KMA snapshot with cloud cover 0, humidity and wind defaulted to 0, the other readings copied, a whole-second timestamp and rain flagged exactly for positive precipitation |
| KmaDfs.DfsSnapshotAsWritten | lib/kmaDfs.ts:59-90 | as written, no temperature, pressure or precipitation reading is ever 0 |
| KmaDfs.ZeroTemperatureDropped | lib/kmaDfs.ts:59 | a reading of exactly 0 °C leaves the as-written snapshot without a temperature |
| KmaDfs.DfsSnapshot | lib/kmaDfs.ts:59-90 | corrected, the temperature is the parsed second column |
| KmaDfs.DfsSnapshotKeepsReadings | lib/kmaDfs.ts:59-90 | corrected, every parsed reading, zero included, reaches the snapshot |
| KmaDfs.DfsSnapshotsAgreeWithoutZeros | lib/kmaDfs.ts:59-64 | both readings agree when no column holds a zero |
| KmaDfs.DfsLine | lib/kmaDfs.ts:35-53 | a thrown request passes its error on, a failed status is the `HighRes <status>: <body>` error, a reply without data lines is "No data in response", otherwise the last data line of the reply |
| KmaDfs.FetchKmaDfsSnapshot | lib/kmaDfs.ts:8-100 | as written: a thrown request passes its error on, a failed status is the `HighRes <status>: <body>` error, a reply without data lines is "No data in response", otherwise the snapshot of the last data line with zero readings dropped |
| KmaDfs.FetchKmaDfsSnapshotCorrected | lib/kmaDfs.ts:8-100 | the same errors, and otherwise the snapshot of the last data line with zero readings kept |
| KmaDfs.FetchKmaDfsSnapshotsAgree | lib/kmaDfs.ts:8-100 | the two fetches fail alike with the same error, and return the same snapshot whenever the line read holds no zero reading |
| KmaVilage.QueryPieces | lib/kmaVilage.ts:19-26 | one query piece per parameter |
| KmaVilage.KmaUrl | lib/kmaVilage.ts:19-27 | the loop builds the base, the path and the `&`-joined pieces |
| KmaVilage.EncodedHasNoAmpersand | lib/kmaVilage.ts:24 | an encoded value never holds `&` |
| KmaVilage.QueryRoundTrip | lib/kmaVilage.ts:19-27 | the query splits back at `&` into one piece per parameter: the key as `authKey=` and its raw value, any other parameter as name, `=` and encoded value |
| KmaVilage.KmaItems | lib/kmaVilage.ts:28-40 | an error exactly when the request threw (its own error) or failed (the `KMA <path> error <status>: <text>` message); an item list as is, a lone item wrapped, nothing usable as empty |
| KmaVilage.LatestIssue | lib/kmaVilage.ts:43-51 | one of the issue hours: the latest not after the hour, or 02 before 02 |
| KmaVilage.RecentVillageBase | lib/kmaVilage.ts:43-54 | the base date is the local date stamp and the base time the latest issue as `HH00` |
| KmaVilage.ToInt | lib/kmaVilage.ts:56-60 | an absent value is null |
| KmaVilage.SkyToCloudPct | lib/kmaVilage.ts:62-76 | a percentage up to 95: 5 for clear, 95 for overcast, 0 exactly for a missing or unknown code |
| KmaVilage.SkyToCloudMonotone | lib/kmaVilage.ts:62-76 | a cloudier sky code gives a strictly larger percentage |
| KmaVilage.AsReal | lib/kmaVilage.ts:231-235 | a present integer becomes the same real, null stays null |
| KmaVilage.Observe | lib/kmaVilage.ts:128-151 | one turn of the `switch` sets exactly the slot of the item's category |
| KmaVilage.ReadNowcast | lib/kmaVilage.ts:119-152 | the loop computes the fold of the nowcast items |
| KmaVilage.LastOfCategory | lib/kmaVilage.ts:127-152 | the position of the last item of a category, or −1 when none has it |
| KmaVilage.NowcastLastWins | lib/kmaVilage.ts:119-152 | each nowcast value is the last item of its category, even when that value does not parse, and null without one |
| KmaVilage.PointAt | lib/kmaVilage.ts:163 | the first point with the epoch, or −1 when none has it |
| KmaVilage.PlaceDts | lib/kmaVilage.ts:156-167 | placing an item keeps the existing points' epochs, skips an undated item, and appends a point only for a new epoch |
| KmaVilage.GroupDistinct | lib/kmaVilage.ts:155-183 | the grouped points have pairwise distinct epochs |
| KmaVilage.GroupCovers | lib/kmaVilage.ts:155-183 | every dated item's epoch has its point |
| KmaVilage.GroupFromItems | lib/kmaVilage.ts:155-183 | every point's epoch comes from a dated item |
| KmaVilage.LastWrite | lib/kmaVilage.ts:155-183 | the last dated item on an epoch that writes a slot, or −1 when none does |
| KmaVilage.GroupLastWins | lib/kmaVilage.ts:155-218 | in every point each slot holds the value of the last item of that epoch that writes it, or nothing |
| KmaVilage.GroupTrend3h | lib/kmaVilage.ts:154-183 | the village loop computes the grouped 3-hour points |
| KmaVilage.Points3hSpec | lib/kmaVilage.ts:154-183 | one 3-hour point per epoch of the dated items and no other, each slot from the last SKY, WSD, POP or TMP item of its epoch |
| KmaVilage.FilterSorted | lib/kmaVilage.ts:186 | filtering keeps a sorted sequence sorted |
| KmaVilage.SortFilterTake | lib/kmaVilage.ts:184-186 | sort, filter and take n give a sorted result of at most n passing input elements, holding every passing element when shorter than n |
| KmaVilage.Trend3hSpec | lib/kmaVilage.ts:184-186 | the 3-hour trend is sorted, at most ten points, none after now + 24 h, all grouped points; with fewer than ten it holds every point up to the cutoff |
| KmaVilage.GroupTrendFine | lib/kmaVilage.ts:188-218 | the ultra-short-term loop computes the grouped fine points |
| KmaVilage.PointsFineSpec | lib/kmaVilage.ts:188-218 | one fine point per epoch and no other; SKY and T1H keep their epoch's last item and the rain field the later of the last RN1 and PTY items |
| KmaVilage.TrendFineSpec | lib/kmaVilage.ts:219-220 | the fine trend is sorted, at most twelve points, all grouped points, and loses none when there are at most twelve |
| KmaVilage.CommonParams | lib/kmaVilage.ts:92-101 | eight shared parameters, the key first and the base time sixth |
| KmaVilage.ItemsOrEmpty | lib/kmaVilage.ts:104-117 | a failed ultra-short-term request leaves its items empty |
| KmaVilage.MagnusDewPoint | lib/kmaVilage.ts:78-86 | null exactly without a temperature or with zero humidity, else the formula to one decimal |
| KmaVilage.VilageSnapshot | lib/kmaVilage.ts:222-250 | the snapshot's cloud from the sky code, wind and humidity defaulted to 0, readings copied, dew point present exactly with temperature and non-zero humidity, rain flagged exactly for a positive PTY, precipitation chance from the first 3-hour point, both trends attached |
| KmaVilage.FetchKmaVilageSnapshot | lib/kmaVilage.ts:88-251 | for the grid cell looked up beforehand: a village-forecast error propagates; otherwise the snapshot of the nowcast fold and both trends, requested with the latest issue and the current hour, a failed nowcast or ultra-short forecast read as empty |
| KmaZones.ZoneItems | lib/kmaZones.ts:27-36 | the item list comes from the first shape present: top-level list, body list, body item list, a lone body item wrapped, else empty |
| KmaZones.Nullish | lib/kmaZones.ts:41-42 | `a ?? b ?? c ?? d` is the first present spelling |
| KmaZones.FirstTruthy | lib/kmaZones.ts:39-40 | `a \|\| b \|\| c` is the first non-empty spelling, else the last one or "" |
| KmaZones.ToZone | lib/kmaZones.ts:38-45 | an item gives a zone exactly when its identifier is non-empty and both coordinates parse; the zone carries that identifier, the name and the parsed coordinates |
| KmaZones.ZonesOfSpec | lib/kmaZones.ts:37-47 | every collected zone comes from a usable item and every usable item's zone is collected |
| KmaZones.FetchZoneList | lib/kmaZones.ts:14-48 | a thrown request (its own error) or an HTTP failure (`Zone list <status>`) is exactly the error case; otherwise the loop collects the usable items' zones |
| KmaZones.ZoneCache.constructor | lib/kmaZones.ts:11-12 | the module starts with no cached list and a fetch time of 0 |
| KmaZones.ZoneCache.EnsureZones | lib/kmaZones.ts:60-68 | a fresh cache (an empty list included) is answered and left alone; otherwise a successful fetch replaces the list and its time together and a failed one changes nothing |
| KmaZones.CacheServesWithinTtl | lib/kmaZones.ts:63 | within twelve hours of a successful fetch the cached list is answered |
| KmaZones.Nearest | lib/kmaZones.ts:72-81 | −1 exactly for no distances, else the first position of a smallest distance |
| KmaZones.Distances | lib/kmaZones.ts:74-75 | one distance per zone, from the point to that zone |
| KmaZones.FindNearestZone | lib/kmaZones.ts:70-82 | nothing exactly for an empty list, else the first nearest zone |
| KmaZones.ParseCsv | lib/kmaZones.ts:92-97 | the header is the first line's trimmed cells and each further line is a row of trimmed cells |
| KmaZones.PickRowIndex | lib/kmaZones.ts:99-103 | no row without a `REG_ID` column; else the first row whose cell in that column is the zone id, or none |
| KmaZones.ChosenRow | lib/kmaZones.ts:110 | the matching row, else the first row, else none |
| KmaZones.Get | lib/kmaZones.ts:111-115 | no value without the column; a throw when there is no row to index; else the cell, absent when the row is short |
| KmaZones.ZoneSnapshot | lib/kmaZones.ts:116-146 | the snapshot exists exactly when none of the TA, SKY, PREP reads throws; the temperature is TA parsed, the cloud cover from the SKY code, rain flagged exactly for a positive PREP, the rest fixed |
| KmaZones.NoRowsThrows | lib/kmaZones.ts:110-116 | a forecast with a TA column but no rows throws |
| KmaZones.SnapshotFromZones | lib/kmaZones.ts:105-110 | a zone-list error propagates, no zone is "No zone matched", a thrown forecast request passes its error on and a failed one is "Zone forecast <status>", otherwise the nearest zone's snapshot |
| KmaZones.FetchKmaZoneSnapshot | lib/kmaZones.ts:105-147 | the snapshot of the zone list obtained through the cache; a fresh cache or a failed fetch leaves the cache as it was, a fetch into a stale cache stores the zones and stamps the time |
| KmaGrid.NoCommaInFixed | lib/kmaGrid.ts:42 | a number written with `toFixed` holds no comma, so the memo key's comma separates its two halves |
| KmaGrid.CacheKeySame | lib/kmaGrid.ts:42 | two points share a memo entry exactly when both coordinates agree at four decimals |
| KmaGrid.IntColumn | lib/kmaGrid.ts:59-60 | a present column is its `parseInt`, a missing one is NaN |
| KmaGrid.ParseGridReply | lib/kmaGrid.ts:55-62 | no data line is "Invalid grid response"; otherwise a grid point exactly when columns 2 and 3 are numbers, else "Invalid grid numbers" |
| KmaGrid.ServerGrid | lib/kmaGrid.ts:48-64 | a thrown request and a failed status ("Grid conversion <status>") are errors, otherwise the parsed reply |
| KmaGrid.GridMemo.constructor | lib/kmaGrid.ts:38 | the memo starts empty |
| KmaGrid.GridMemo.LatLonToGridServer | lib/kmaGrid.ts:41-70 | a memo hit is answered unchanged; a server answer is stored and returned; any failure returns the local projection and stores nothing; no entry is ever changed or lost |
| Weather.ToC | lib/weather.ts:5-8 | null exactly for a non-number; otherwise kelvin − 273.15 to within 0.05, a whole number of tenths |
| Weather.OneDecimal | lib/weather.ts:7 | `+x.toFixed(1)` is a whole number of tenths |
| Weather.FetchOwmCurrent | lib/weather.ts:10-44 | a thrown request passes its error on; a failed status is the `OWM error <status>: <text>` error; a reply always gives a snapshot with cloud, wind and humidity defaulted to 0, direction and pressure null when absent, the temperature in Celsius and no astro fields |
| Weather.ZeroCloudKept | lib/weather.ts:19-24 | reported zeros are kept: a clear sky reads 0 % and a 0° wind direction stays 0 |
| WeatherRoute.BaseHourFor | app/api/weather/route.ts:18-28 | the issue hour is a clock hour whose `HH:30` lies less than an hour before the KST clock, counting across midnight when it falls on the previous day |
| WeatherRoute.GetBaseDateTime | app/api/weather/route.ts:14-34 | the base time is the issue hour and "30"; the base date is the KST date, a day earlier when the issue falls before midnight |
| WeatherRoute.Extract | app/api/weather/route.ts:93-109 | the loop computes the fold of the items |
| WeatherRoute.ReadAllLastWins | app/api/weather/route.ts:93-109 | sky, temperature and humidity each come from the last item of their category, else keep the defaults 1, 0, 0 |
| WeatherRoute.Answer | app/api/weather/route.ts:66-123 | a non-JSON body is 401 with the fixed hint for "Unauthorized", a result code other than "00" is 502 with the message, a throw or a lone item is 500; success exactly otherwise, with the values, the base and the parsed grid |
| WeatherRoute.Get | app/api/weather/route.ts:36-124 | 400 without `nx` or `ny`, then 500 without a key, otherwise the answer to the request built from the base date and time |
| ForecastRoute.BaseHour | app/api/forecast/route.ts:21-35 | the issue hour is one of 02, 05, …, 23: the latest not after the KST hour, or 23 before 02 |
| ForecastRoute.GetBaseDateTime | app/api/forecast/route.ts:15-41 | the base time is the issue hour padded to two digits and "00"; the base date is the KST date, the previous KST day before 02 |
| ForecastRoute.SkyCloud | app/api/forecast/route.ts:131 | the cloud cover is 10 exactly for sky 1, 50 exactly for sky 3, and 80 for every other value, NaN included |
| ForecastRoute.Night | app/api/forecast/route.ts:121-139 | reading one item keeps the cloud cover paired with the sky code |
| ForecastRoute.HasTmp | app/api/forecast/route.ts:120-125 | a slot sets `foundData` exactly when some item of the target date and time is a temperature |
| ForecastRoute.FirstTmpSlot | app/api/forecast/route.ts:116-117 | the first night slot holding a temperature, with none before it, or the slot count when none holds one |
| ForecastRoute.NightScanStops | app/api/forecast/route.ts:113-142 | the night scan reads exactly the slots up to the first one with a temperature (all four when none has one) and reports whether one was found |
| ForecastRoute.FoldSlotConsistent | app/api/forecast/route.ts:119-141 | reading a whole slot keeps the cloud cover paired with the sky code |
| ForecastRoute.NightScanConsistent | app/api/forecast/route.ts:116-142 | the night scan keeps the cloud cover paired with the sky code |
| ForecastRoute.Fill | app/api/forecast/route.ts:146-168 | an item writes its category's field only when the item is of the target date or later and the field still holds its sentinel (0, or 1 for the sky); other fields are unchanged |
| ForecastRoute.FirstFill | app/api/forecast/route.ts:146-168 | the first eligible item of a category whose value differs from the sentinel, with none before it, or −1 |
| ForecastRoute.FallbackFirstFill | app/api/forecast/route.ts:144-170 | the fallback leaves a non-sentinel field alone and otherwise gives it the value of the first eligible item of its category that parses to something else, keeping the sentinel when none does |
| ForecastRoute.FallbackConsistent | app/api/forecast/route.ts:144-170 | the fallback keeps the cloud cover paired with the sky code |
| ForecastRoute.ExtractConsistent | app/api/forecast/route.ts:100-170 | the extracted record always pairs the cloud cover with its sky code (or the initial 1 and 0) |
| ForecastRoute.ExtractForecast | app/api/forecast/route.ts:112-170 | the nested loops and the fallback loop compute the night scan, then the fallback exactly when no slot held a temperature |
| ForecastRoute.MockForecast | app/api/forecast/route.ts:182-196 | the mock is marked as mock, keeps the date, issues at "0500" on today's UTC date, and has every number NaN when a date piece does not parse |
| ForecastRoute.MockRanges | app/api/forecast/route.ts:183-190 | for a date whose pieces add up to a non-negative number, sky is 1–4, cloud 10–89, humidity 40–79, temperature 5–19, wind 0–4.5 and precipitation 0–29 |
| ForecastRoute.Status | app/api/forecast/route.ts:49-51 | the status is 400 exactly for the missing-grid error and 200 otherwise |
| ForecastRoute.Get | app/api/forecast/route.ts:43-177 | missing `nx` or `ny` is exactly the 400; without a key, or when the reply is not JSON, has a code other than "00" or throws, the mock for the requested (or today's) date; otherwise the extracted forecast for the target date |
| SatelliteImageRoute.ChannelOf | app/api/satellite/image/route.ts:5-9 | exactly the three types `vi006`, `ir105` and `cld` have a channel; `cld` is level l2 with a data name, the others level l1b with a channel name |
| SatelliteImageRoute.ImageQuery | app/api/satellite/image/route.ts:39-52 | the five fixed parameters in order, then `chn` and `dat` only when the channel names them |
| SatelliteImageRoute.LittleEndian32 | app/api/satellite/image/route.ts:74 | four bytes read little-endian give an unsigned 32-bit number |
| SatelliteImageRoute.IsPngMatchesSignature | app/api/satellite/image/route.ts:73 | the PNG test accepts exactly the bodies starting with the first four bytes of the PNG signature, so every complete PNG file |
| SatelliteImageRoute.IsZipMatchesSignature | app/api/satellite/image/route.ts:74 | the ZIP test accepts exactly the bodies starting with the local file header signature 0x04034b50 |
| SatelliteImageRoute.SignaturesExclusive | app/api/satellite/image/route.ts:73-74 | no body is both PNG and ZIP; the first byte tells them apart |
| SatelliteImageRoute.MainPngIgnoresThumbnail | app/api/satellite/image/route.ts:110-111 | excluding "thumbnail" adds nothing to excluding "thumb" |
| SatelliteImageRoute.Names | app/api/satellite/image/route.ts:137 | the entry names, one per entry, in order |
| SatelliteImageRoute.PickEntry | app/api/satellite/image/route.ts:108-118 | the first non-thumbnail PNG, else the first PNG, else the first JPEG; no image exactly when no name ends in a PNG or JPEG extension |
| SatelliteImageRoute.FromBody | app/api/satellite/image/route.ts:73-171 | a PNG body is returned as it is; a ZIP body gives the picked entry's bytes with its type, the 500 with the entry list when it has no image, or the 500 with the reader's message; anything else is the unsupported-format 500 with the content type |
| SatelliteImageRoute.ImageTm | app/api/satellite/image/route.ts:27-35 | the requested time is all digits |
| SatelliteImageRoute.Get | app/api/satellite/image/route.ts:11-176 | no key is a 500 before the type is looked at; an unknown type is a 400; an HTTP failure passes its status on; a throw is a 500 with its message; otherwise the body decides |
| ForecastTab.GetGrade | components/ForecastTab.tsx:24-86 | the level is 5 exactly from 80, 4 exactly on [60, 80), 3 on [40, 60), 2 on [20, 40) and 1 below 20 |
| ForecastTab.GradeBoundaries | components/ForecastTab.tsx:33-76 | each threshold belongs to the upper band |
| ForecastTab.GradeMonotone | components/ForecastTab.tsx:24-86 | a higher score never gets a lower grade |
| ForecastTab.ScoreColor | components/ForecastTab.tsx:524-530 | a bar colour is one of the five grade colours |
| ForecastTab.ScoreColorIsGradeColor | components/ForecastTab.tsx:24-86 | a bar is coloured like the grade its score gets |
| ForecastTab.ForecastTabState.constructor | components/ForecastTab.tsx:173-179 | the tab starts with nothing selected, loaded, failed or scored |
| ForecastTab.ForecastTabState.CurrentStep | components/ForecastTab.tsx:191 | step 3 exactly with a result, 2 exactly with a place and no result, else 1 |
| ForecastTab.ForecastTabState.ApplyInitialLocation | components/ForecastTab.tsx:184-188 | a place handed over is selected; without one nothing changes |
| ForecastTab.ForecastTabState.HandleMapClick | components/ForecastTab.tsx:194-200 | a click selects the place and clears the date, result, data and error, so the step is 2 |
| ForecastTab.ForecastTabState.HandleDateChange | components/ForecastTab.tsx:203-227 | without a date or a place nothing changes; otherwise the date is set, loading ends, and the fetched forecast is stored and scored (step 3) or the failure message is set with the old result kept |
| RealtimeTab.GetGrade | components/RealtimeTab.tsx:30-92 | the level is 5 exactly from 80, 4 exactly on [60, 80), 3 on [40, 60), 2 on [20, 40) and 1 below 20 |
| RealtimeTab.ScoreColor | components/RealtimeTab.tsx:94-100 | a bar colour is one of the five grade colours |
| RealtimeTab.ScoreColorAgrees | components/RealtimeTab.tsx:94-100 | the bar colour is the grade colour, and for whole scores the same as the library's station colour |
| RealtimeTab.Tip | components/RealtimeTab.tsx:497-503 | humidity above 70 gives the dew tip; otherwise a score of 60 or more the dark-adaptation tip, else the try-later tip |
| RealtimeTab.RealtimeTabState.constructor | components/RealtimeTab.tsx:170-176 | the tab starts with nothing selected, loaded, failed or expanded |
| RealtimeTab.RealtimeTabState.CurrentStep | components/RealtimeTab.tsx:222 | step 2 exactly with data, 1 exactly with a place and no data, else 0 |
| RealtimeTab.RealtimeTabState.HandleMapClick | components/RealtimeTab.tsx:187-219 | the place is selected and loading ends; with no station the error is set and the data kept; otherwise the error is cleared and the one nearest station's fetched reading is scored and stored as the data, with that station's name and the update time |
| RealtimeTab.NearestStationIsScored | components/RealtimeTab.tsx:204-210 | a single requested station with its reading gives exactly one score, for that station |
| Astro.PhaseName | lib/astro.ts:9-20 | the quarter bins are named whatever the angle; elsewhere a crescent below 0.23 and from 0.77, a gibbous between, and "Waxing" exactly when a negative angle goes with a fraction below one half |
| Astro.HalfIsFull | lib/astro.ts:16 | a fraction of one half is the full moon whatever the angle |
| Astro.ComputeAstro | lib/astro.ts:22-33 | all three fields null when the ephemeris throws; otherwise the altitude in degrees, the illuminated percentage within 0.05 of the fraction times 100, and the phase name |
| Astro.AstroFieldsOf | lib/kmaVilage.ts:244-247 | the snapshot copies the three moon fields; the sun altitude `computeAstro` never sets is absent |
| Astronomy.MoonPhaseName | lib/astronomy.ts:33-43 | one of the eight names; an angle in [0, 360) gets the name of its nearest multiple of 45 degrees, and both ends of the circle are the new moon |
| Astronomy.ObservationTime | lib/astronomy.ts:94-125 | a throw in the sunset search leaves both bounds null; otherwise the start is set exactly when a sunset is found (90 minutes after it), and the end exactly when a sunrise is found (90 minutes before it) |
| Astronomy.WindowSpan | lib/astronomy.ts:103-118 | with both events found the window is three hours shorter than the night |
| Astronomy.ObservationInstant | lib/astronomy.ts:139-141 | the instant is an hour after the window opens, or twelve hours after the date without a start |
| Astronomy.InstantAfterSunset | lib/astronomy.ts:103-141 | with a sunset found the instant is two and a half hours after it, whatever the sunrise search did |
| Astronomy.Lst | lib/astronomy.ts:70 | the local sidereal time lies strictly between −360 and 360 and has the sign of GMST plus the longitude |
| Astronomy.HourAngle | lib/astronomy.ts:73 | the hour angle lies strictly between −360 and 360 and is non-negative when its dividend is |
| Astronomy.HourAngleWholeTurns | lib/astronomy.ts:73 | the hour angle differs from its dividend by whole turns, so its sine and cosine are those of the intended angle |
| Astronomy.NegativeHourAngle | lib/astronomy.ts:70-73 | a negative sidereal time gives the galactic centre a negative hour angle |
| Astronomy.ClampedCosine | lib/astronomy.ts:83-84 | the clamp gives a value in [−1, 1], the quotient itself clamped when the denominator is non-zero, ±1 for a zero denominator, and NaN exactly for 0/0 |
| Astronomy.Azimuth | lib/astronomy.ts:84-85 | the azimuth is NaN exactly when the cosine is; it is reflected to 360 − az exactly when the hour angle's sine is positive, and lies in [0, 360] whenever `acos` is in [0, 180] |
| Astronomy.RoundTenth | lib/astronomy.ts:176 | the result is a whole number of tenths within 0.05 of the input |
| Astronomy.MoonTimes | lib/astronomy.ts:155-165 | a throw in the rise search leaves both null; otherwise each is set exactly when its search finds an event |
| Astronomy.CalculateCelestialInfo | lib/astronomy.ts:131-207 | the default record when the moon's position, illumination or phase throws; otherwise the moon's altitude and azimuth at the representative instant to a tenth, its illumination to a whole percent, its phase name, its rise and set, the window, and the galactic centre's altitude to a tenth (within 0.05 of the exact value) with an azimuth exactly when it is defined; the score is always 0 and never good |
| MoonCalendar.AgeBin | app/moon-calendar/page.tsx:30-48 | the bin is the first bound above the age, with the new moon both below 1.85 and from 27.68 on |
| MoonCalendar.MoonPhaseAsWritten | app/moon-calendar/page.tsx:7-54 | as written: the age is the day count's truncating remainder, so the phase is in [0, 1) from the reference date on and in (−1, 0] before it; the name follows the age's bin; good for stars exactly below 30 percent illumination |
| MoonCalendar.PhaseOfAge | app/moon-calendar/page.tsx:18 | an age within one cycle gives a phase within one turn, of the same sign |
| MoonCalendar.NegativeAgeIsNamedNew | app/moon-calendar/page.tsx:15-48 | five days before the reference new moon the page says new moon, where the true age names a waning crescent |
| MoonCalendar.FlooredAge | app/moon-calendar/page.tsx:21 | the age moved into [0, cycle), differing from the remainder by at most one cycle |
| MoonCalendar.MoonPhaseCorrected | app/moon-calendar/page.tsx:7-54 | every date gets a phase in [0, 1) and the name of its age counted from the last new moon; good for stars exactly below 30 percent illumination |
| MoonCalendar.CorrectedAgreesAfterReference | app/moon-calendar/page.tsx:15-21 | from the reference new moon on, the corrected phase is exactly the written one |
| MoonCalendar.DaysInMonth | app/moon-calendar/page.tsx:60-61 | a month has 28 to 31 days; February has 29 exactly in a leap year, and the other months have 30 exactly for April, June, September and November |
| MoonCalendar.GetCalendarDays | app/moon-calendar/page.tsx:58-77 | the grid is the weekday offset's blanks followed by the days 1 to the month's length, in order |
| MoonCalendar.PrevMonth | app/moon-calendar/page.tsx:167-174 | the month before, January stepping back to December of the year before |
| MoonCalendar.NextMonth | app/moon-calendar/page.tsx:176-183 | the month after, December stepping on to January of the year after |
| MoonCalendar.PrevNextInverse | app/moon-calendar/page.tsx:167-183 | going forward then back, or back then forward, returns to the same month |
| MoonCalendar.MoonCalendarState.constructor | app/moon-calendar/page.tsx:157-160 | the page opens on today's month with nothing selected |
| MoonCalendar.MoonCalendarState.GoToPrevMonth | app/moon-calendar/page.tsx:167-174 | the month shown steps back one and the selection stays |
| MoonCalendar.MoonCalendarState.GoToNextMonth | app/moon-calendar/page.tsx:176-183 | the month shown steps on one and the selection stays |
| MoonCalendar.MoonCalendarState.GoToToday | app/moon-calendar/page.tsx:185-188 | today's month is shown and the selection stays |
| MoonCalendar.MoonCalendarState.SelectDate | app/moon-calendar/page.tsx:319 | a click selects that date and leaves the month shown |
| TaebaekBoundary.BoundaryShape | data/taebaekBoundary.ts:4-25 | the outline has twenty vertices, all between 37.07 and 37.26 degrees north |
| TaebaekBoundary.Pred | data/taebaekBoundary.ts:30 | vertex `i` is paired with its predecessor, the first with the last |
| TaebaekBoundary.CrossCount | data/taebaekBoundary.ts:30-37 | no more crossings are counted than edges are looked at |
| TaebaekBoundary.IsPointInPolygon | data/taebaekBoundary.ts:28-39 | the point is inside exactly when an odd number of edges cross the ray, and never for an empty outline |
| TaebaekBoundary.NorthOfAllIsOutside | data/taebaekBoundary.ts:35 | no edge crosses a latitude that every vertex lies on or below |
| TaebaekBoundary.NorthOfTaebaek | data/taebaekBoundary.ts:4-39 | a point from 37.26 degrees north is outside the outline |
| TaebaekBoundary.HorizontalEdgeNeverCrosses | data/taebaekBoundary.ts:35 | an edge whose ends share a latitude never toggles the answer, whatever the tiny denominator offset does |
| CloudHeatmap.DefaultCloudColor | lib/cloudHeatmap.ts:28-36 | transparent white up to 0 and the fixed grey-blue from 1; between, an opacity of 0.9 times the value and a grey of 255 − 55·value, blue 20 above, never reaching the floor of 200 |
| CloudHeatmap.DefaultDarkens | lib/cloudHeatmap.ts:28-36 | a larger value is no less opaque and no brighter |
| CloudHeatmap.AuroraColor | lib/cloudHeatmap.ts:103-127 | transparent up to 0; a fading-in blue below 0.3; a purple at alpha 0.8 up to 0.7; a pink at 0.9 up to 1; above 1 the red runs past 255 |
| CloudHeatmap.Interval | lib/cloudHeatmap.ts:150-156 | the first stop interval holding the value, with none before it, or −1 exactly when the value is outside all stops |
| CloudHeatmap.Position | lib/cloudHeatmap.ts:157-158 | the blend position lies in [0, 1] and is 1 at or beyond the upper stop |
| CloudHeatmap.MeteoCloudColorScale | lib/cloudHeatmap.ts:138-164 | the loop's colour is the blend in the value's first interval, or between the first and last stops when none holds it, and transparent up to 0.03 |
| CloudHeatmap.MeteoAtStop | lib/cloudHeatmap.ts:141-163 | at every stop after the first the scale gives exactly that stop's colour |
| CloudHeatmap.MeteoNoiseFloor | lib/cloudHeatmap.ts:139 | the first stop itself is cut off as transparent |
| CloudHeatmap.MeteoAboveOne | lib/cloudHeatmap.ts:148-163 | above 1 the colour is the last stop's red |
| CloudHeatmap.MeteoBetweenStops | lib/cloudHeatmap.ts:150-163 | inside an interval every channel lies between its two stops' channels |
| CloudHeatmap.LerpBetween | lib/cloudHeatmap.ts:159-162 | a blend lies between its ends |
| CloudHeatmap.RoundedLerpBetween | lib/cloudHeatmap.ts:159-161 | rounding a blend of two whole channels stays between them |
| CloudHeatmap.Normalize | lib/cloudHeatmap.ts:66-69 | 0 when the bounds are less than 0.01 apart, otherwise a value between the bounds maps into [0, 1] |
| CloudHeatmap.NormalizeAlwaysZero | lib/cloudHeatmap.ts:59-69 | with the bounds fixed at 1 and 0, every value normalises to 0 |
| CloudHeatmap.Widen | lib/cloudHeatmap.ts:59-62 | widening by a positive value only lowers the minimum and raises the maximum, and the value then lies between them; other values change nothing |
| CloudHeatmap.RowBounds | lib/cloudHeatmap.ts:59-62 | scanning a row only widens the bounds it starts from |
| CloudHeatmap.GridBounds | lib/cloudHeatmap.ts:59-65 | the collected bounds contain the starting 1 and 0 |
| CloudHeatmap.RowBoundsHold | lib/cloudHeatmap.ts:59-62 | every positive cell of a scanned row lies within the row's bounds |
| CloudHeatmap.GridBoundsHold | lib/cloudHeatmap.ts:59-65 | every positive scanned cell lies within the collected grid bounds |
| CloudHeatmap.NormalizeWithGridBounds | lib/cloudHeatmap.ts:63-75 | with the collected bounds, every cell the loop paints normalises into [0, 1] |
| CloudHeatmap.NormalizeSpreadsCells | lib/cloudHeatmap.ts:59-69 | on a grid of 1 and 2 the collected bounds are 1 and 2 and the cell 2 normalises to 1, where the fixed bounds give 0 |
| CloudHeatmap.PaintCells | lib/cloudHeatmap.ts:70-79 | exactly the cells with a positive value are filled, in row-major order, each with the colour of 0 |
| InfoPanel.SkyText | components/InfoPanel.tsx:123-135 | clear, mostly cloudy and overcast for codes 1, 3 and 4; every other code, 2 included, is unknown |
| InfoPanel.CloudAmount | components/InfoPanel.tsx:137-149 | 20, 60 and 90 percent for codes 1, 3 and 4, and 50 for anything else |
| InfoPanel.UnknownSkyIsHalfCloudy | components/InfoPanel.tsx:123-149 | a code shown as unknown still counts as 50 percent cloud |
| InfoPanel.WeatherCondition | components/InfoPanel.tsx:151-160 | optimal exactly with at most 30 percent cloud and 70 percent humidity; possible exactly when not optimal but within 50 and 80; else unsuitable |
| InfoPanel.ConditionBySky | components/InfoPanel.tsx:137-160 | only a clear sky can be optimal; mostly cloudy and overcast are always unsuitable; an unknown code is possible exactly up to 80 percent humidity |
| InfoPanel.CelestialViewOf | components/InfoPanel.tsx:187-229 | the moon's phase name, illumination and altitude, the Milky Way centre's altitude and azimuth, the score, green from 50 and orange below for both the number and the bar, the bar as wide as the score, and the Milky Way verdict from the good-for-observation flag |
| InfoPanel.CelestialViewShowsTenths | components/InfoPanel.tsx:193-201 | the moon and Milky Way altitudes shown are whole tenths and the illumination a whole percent |
| InfoPanel.Render | components/InfoPanel.tsx:162-271 | without a location only the hint; otherwise the coordinates at five decimals and the loading flag, the celestial part exactly when there is celestial information (with the moon, the Milky Way centre and the score as `CelestialViewOf` lists them), and the weather part exactly when there is weather (sky text, cloud amount, temperature, humidity and the condition verdict) |
| InfoPanel.CelestialAlwaysUnsuitable | components/InfoPanel.tsx:205-227 | since the celestial score is always 0 and never good, the panel always paints it orange and calls the site unsuitable |
| SpotsPage.FlattenMembers | app/spots/page.tsx:22-27 | a spot is in a tab's flattened list exactly when some region of the tab lists it |
| SpotsPage.FlattenLength | app/spots/page.tsx:22-27 | the flattened list is as long as the regions' lists together, split at any region |
| SpotsPage.RegionList | app/spots/page.tsx:30-35 | one chip per region, in order, with its key and name |
| SpotsPage.FindRegion | app/spots/page.tsx:141-143 | a region is found exactly when some region has the key, and it is that region |
| SpotsPage.BaseList | app/spots/page.tsx:137-148 | the selected region's spots when the key exists, else the whole tab |
| SpotsPage.FilterIsSubsequence | app/spots/page.tsx:153-162 | filtering keeps the surviving spots in their order |
| SpotsPage.FilteredSpots | app/spots/page.tsx:136-166 | with a blank query the region list itself; otherwise exactly the spots of that list matching the lower-cased query, each as many times as it occurs there, in their order |
| SpotsPage.FindById | app/spots/page.tsx:182 | a spot is found exactly when one has the id, and it is the first such |
| SpotsPage.SpotsPageState.constructor | app/spots/page.tsx:126-129 | the page opens on the domestic tab with nothing searched or selected |
| SpotsPage.SpotsPageState.HandleTabChange | app/spots/page.tsx:169-173 | the new tab with the region and the spot cleared and the query kept |
| SpotsPage.SpotsPageState.SetSearchQuery | app/spots/page.tsx:204 | the query changes and nothing else |
| SpotsPage.SpotsPageState.SetSelectedRegion | app/spots/page.tsx:241-253 | the region selection changes and nothing else |
| SpotsPage.SpotsPageState.HandleSpotClick | app/spots/page.tsx:176-178 | a card selects its spot and nothing else changes |
| SpotsPage.SpotsPageState.HandleMapSpotSelect | app/spots/page.tsx:181-186 | a marker selects the first filtered spot with its id; an id not in the filtered list changes nothing |
| MapNavigationButtons.NaverQuery | components/MapNavigationButtons.tsx:108-109 | Naver searches the address when it is a non-empty string, else the name |
| MapNavigationButtons.Buttons | components/MapNavigationButtons.tsx:135-190 | the map link first exactly when asked for, then Kakao, Naver and Google for a domestic spot, or Google alone abroad; Kakao appears exactly for domestic spots and Google always |
| MapNavigationButtons.DefaultButtons | components/MapNavigationButtons.tsx:99-101 | with the default props there are exactly three buttons |
| MapNavigationButtons.KakaoNameReadBack | components/MapNavigationButtons.tsx:107 | the Kakao link starts with its prefix, and the text up to the first comma after it is exactly the encoded name, whatever the name holds |
| MapNavigationButtons.FirstCommaAt | components/MapNavigationButtons.tsx:107 | the first comma of a text whose prefix is URI-safe is the one right after that prefix |

## Left out

- The Lambert conformal conic projection to the KMA 5 km grid (`lib/coordConvert.ts`, the local fallback in `lib/kmaGrid.ts`) is not part of this model. Its callers take the grid cell as an input.
- Transcendental numerics are inputs or function parameters: the Haversine distance, the sines and cosines of the sidereal-time formulas, the cosine of the lunar illumination, the cosine of the latitude, and the Magnus dew point of `lib/kmaVilage.ts`. Only the arithmetic around them is modelled.
- `calculateDewPoint` and `calculateAbsoluteHumidity` in `lib/weatherUtils.ts` are not modelled: they are exponential and logarithmic formulas with no decision logic.
- Foreign libraries are not modelled: the ephemeris libraries astronomy-engine and SunCalc, and the ZIP reader adm-zip. The model passes their results in, with a failure case for a throw. A ZIP archive is its list of entries.
- Network I/O is not modelled. A fetch is an outcome datatype: a request that threw, an HTTP failure, or the body (with its content type where the source reads it). JSON bodies are received as typed fields, so a malformed JSON text is not modelled apart from the content-type check.
- The clock and the JavaScript `Date` calendar breakdown (UTC and local, daylight saving, `setDate` overflow) are function parameters from epoch milliseconds to calendar fields.
- `URLSearchParams` form encoding and JavaScript's number-to-text conversion are parameters. `encodeURIComponent` is modelled.
- Floating-point rounding of `toFixed` and of the arithmetic itself is not modelled: all arithmetic is exact on `real`.
- Timers and concurrency are not modelled: the scheduler's `setInterval` and `setTimeout`, and the interleaving of `await`s. The cache refresh is split at its first `await` into a begin and a finish step, and the in-flight flag is set in the begin step.
- `app/api/weather/auto-refresh/route.ts` is not part of this model: it imports a `setSnapshot` that `lib/weatherCache.ts` does not export.
- Console logging, canvas drawing and its `globalAlpha`, and React markup and styles are not modelled. A view is the list of things it shows.
- `Astronomy.EquatorialToHorizontal` has no contract of its own: its altitude is trigonometry on parameters. The azimuth step it relies on is stated by `Astronomy.ClampedCosine` and `Astronomy.Azimuth`.
- Astronomy: `asin` and `acos` of arguments outside [−1, 1] (NaN) are not modelled. A NaN azimuth from 0/0 is modelled as `None`.
- `SatelliteImageRoute.ImageTm` states only that the requested time is all digits. Its fields come from the clock parameter: the UTC breakdown thirty minutes back, with the minutes floored to ten.
- `WeatherUtils.GetCloudCoverFromGrid` requires a numeric, non-zero grid spacing and numeric origin. Without them the source's index is NaN, which makes the lookup read `grid[NaN]`; that path is not modelled.
- `SpotsPage.BaseList` treats an empty region key like any other key. The page's truthiness test treats it as no selection, but the bundled data has no empty key.
- `RealtimeApi.MockReading` takes the station's numeric id as a parameter (`idNumberOf`). A non-numeric id, which makes the mock's numbers NaN, is not modelled.
- The fixed point (36.5° N, 127.5° E) that `lib/weatherCache.ts` fetches the high-resolution snapshot for is not modelled: the refresh takes the fetch's outcome as a parameter.
- `ForecastApi.MockSeed` takes the date's pieces as whole numbers. The forecast tab only sends dates built by `getDateOptions`, always `yyyy-MM-dd`, so a piece that parses as NaN (which would make the mock's fields NaN) is not modelled.
- Region and channel lookups by key do not model JavaScript prototype keys such as `constructor`.
- `Text.ToLower` and `Text.ToUpper` fold the ASCII letters only. JavaScript's case mapping of other letters is not modelled, including the few that fold to an ASCII letter (the Kelvin sign lower-cases to `k`).

## Findings

| source | as written | input that shows it | evidently intended | confidence | as-written member | corrected member |
|---|---|---|---|---|---|---|
| lib/kmaDfs.ts:59-64 | each column is read as `parseFloat(x) \|\| null`, so a reading of exactly 0 becomes null | a last data line `202601150000,0,40`: the temperature of 0 °C is reported as missing | null only for a value that does not parse, so 0 °C, 0 mm of rain and the like are kept | high (not executed) | KmaDfs.DfsSnapshotAsWritten (lemma KmaDfs.ZeroTemperatureDropped) | KmaDfs.DfsSnapshot (lemma KmaDfs.DfsSnapshotKeepsReadings), used by KmaDfs.FetchKmaDfsSnapshotCorrected (lemma KmaDfs.FetchKmaDfsSnapshotsAgree) |
| lib/cloudHeatmap.ts:59-69 | the bounds `min = 1`, `max = 0` are copied into `gridMin` and `gridMax` before any cell is read and never updated, so `normalize` always returns 0 and every painted cell gets the colour of 0 | a grid `[[1, 2]]`: both cells are painted with the colour of 0 | the least and greatest positive cells collected first, so that a grid of values between 1 and 2 is spread over [0, 1] | medium (not executed) | CloudHeatmap.NormalizeAlwaysZero (with CloudHeatmap.PaintCells, which paints as written) | CloudHeatmap.GridBounds (lemmas CloudHeatmap.NormalizeWithGridBounds and CloudHeatmap.NormalizeSpreadsCells) |
| app/moon-calendar/page.tsx:15-48 | the lunar age is `daysSinceNewMoon % lunarCycle`, which is negative before 2000-01-06, and every negative age falls in the first bin | a date five days before the reference new moon: age −5, named "신월" (new moon) | the age counted forward from the previous new moon (24.5 days), named "그믐달" (waning crescent), with the phase in [0, 1) | high (not executed) | MoonCalendar.MoonPhaseAsWritten (lemma MoonCalendar.NegativeAgeIsNamedNew) | MoonCalendar.MoonPhaseCorrected (lemma MoonCalendar.CorrectedAgreesAfterReference) |
