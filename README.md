# Sensor-data utilities of the hackattack backend, modelled in Dafny

This project models `backend/utils.js`. That file is the backend's toolbox for simulated air and water monitoring.

- **Sensor catalogue.** Air and water sensor ids, and `validateSensor`, the exact-key membership test of a sensor id against the catalogue named by a monitoring type.
- **Reading simulators.** `simulateSensorAirData` and `simulateSensorWaterData` scale one uniform draw into a sensor-specific range and round it with `toFixed`, or return null for an unknown id. Water `color` is the exception: its draw is floored to a category 0..4.
- **Company aggregators.** `generateCompanySensorAirData` and `generateCompanySensorWaterData` read the clock and take the hour of day in UTC+8. They then validate every requested sensor in order, throwing on the first unsupported one. For each sensor they build one hourly reading per hour from 00:00 up to the current hour, at most 19 of them.
- **CSV export.** `jsonToCSV` flattens such an aggregate into a `time,sensor,value` file named after the company and date.
- **Air-quality status.** `classifyAQI` maps a reading to one of four bands.
- **Trend series.** `generateTrendData` gives one random value per calendar day between two dates.
- **Feature simplifier.** `simplifyTopFeatures` merges the per-feature contributions of a model explanation:
  - it drops interaction terms;
  - it files one-hot colour columns under `color`;
  - it sums per key in first-seen order;
  - it rounds percents to two places;
  - it sorts, largest first.

The model has one module per concern:

- `Catalog`, `Simulator`, `AirQuality`, `Trend`, `Aggregator`, `Export` and `Features` follow the source functions.
- `Numbers` and `Strings` model the JavaScript built-ins the core relies on:
  - `Number.prototype.toFixed`
  - Number-to-String conversion
  - `padStart`, `startsWith`, `join`
  - `split`, as the inverse of `join`
- `Wrappers` holds `Option` and `Result`.

What the source does step by step is written as methods with loops. Each is proved equal to a specification function:

- `Trend.GenerateTrendData`, equal to `TrendData`
- `Aggregator.GenerateCompanySensorData`, equal to `CompanySensorData`, and its inner `HourlyReadings`
- `Export.JsonToCsv`, equal to `CsvContent` of the rows, and its inner `PushPointRows`
- `Features.GroupFeatures`, equal to `Accumulate`

The properties are lemmas about those functions.

Two inputs the source takes from its environment are parameters:

- **Randomness.** `Math.random()` becomes an oracle `rand: nat -> Draw`. `rand(k)` is the `k`-th draw of one call and a `Draw` is a real in `[0, 1)`.
- **Clock.** `new Date()` becomes `now: Instant`, milliseconds since the Unix epoch.

A thrown error is a `Result.Failure` that carries the error message.

A number made by `toFixed` is an exact decimal `Decimal(units, scale)`, worth `units / 10^scale`. Rounding follows section 21.1.3.3 of ECMA-262: the magnitude goes to the nearest multiple and a tie goes to the larger magnitude.

## Model

| member | source | states |
|---|---|---|
| Catalog.ValidateSensor | backend/utils.js:73-75 | for type "air" the id is accepted iff it is a key of the air catalogue; for every other type string iff it is a key of the water catalogue |
| Catalog.AirSensorIds | backend/utils.js:4-14 | the air catalogue accepts exactly pm10, pm2.5, co, co2, temperature, humidity, no2 and so2 (ozone is commented out) |
| Catalog.WaterSensorIds | backend/utils.js:16-23 | the water catalogue accepts exactly total_dissolved_solids, odor, turbidity, chloride, time_of_day and color |
| Catalog.NonAirMeansWater | backend/utils.js:74 | any monitoring type other than exactly "air" validates as "water" does |
| Catalog.ExactMatchOnly | backend/utils.js:74 | matching is exact and case-sensitive: "o3", "PM10", " pm10" and "Color" are rejected, and "AIR" selects the water catalogue |
| Catalog.CataloguesDisjoint | backend/utils.js:4-23 | no id is in both catalogues |
| Simulator.SimulateSensorAirData | backend/utils.js:91-118 | the air `switch`: every reading it returns has at most two decimal places, the `toFixed` precision of its case (which ids get a reading and in what range are the two rows below) |
| Simulator.SimulateSensorWaterData | backend/utils.js:120-145 | the water `switch`: every reading it returns has at most two decimal places; colour is `Math.floor(r*5)` with none |
| Simulator.SimulatorsMatchCatalogue | backend/utils.js:91-145 | each simulator returns a reading exactly for the ids of its own catalogue and null for every other id |
| Simulator.AirReadingRanges | backend/utils.js:91-117 | every air reading is a multiple of `10^-digits` for the `digits` of its `toFixed`, so it has at most that many decimal places, and lies in the closed range its scaling gives: 10..160 (pm), 0.5..9.5 (co), 400..2000 (co2), 25..35, 30..90, 5..105 (no2, so2) |
| Simulator.WaterReadingRanges | backend/utils.js:120-145 | every water reading is a multiple of `10^-digits` for the `digits` of its `toFixed`, so it has at most that many decimal places, and lies in its closed range; colour is an integer category 0..4 |
| Simulator.RoundingTenths150 | backend/utils.js:96 | `+(r*150+10).toFixed(1)` lies in 10..160 for every draw |
| Simulator.RoundingHundredths9 | backend/utils.js:99 | `+(r*9+0.5).toFixed(2)` lies in 0.5..9.5 for every draw |
| Simulator.RoundingUnits1600 | backend/utils.js:102 | `+(r*1600+400).toFixed(0)` lies in 400..2000 for every draw |
| Simulator.RoundingTenths10 | backend/utils.js:105 | `+(r*10+25).toFixed(1)` lies in 25..35 for every draw |
| Simulator.RoundingUnits60 | backend/utils.js:108 | `+(r*60+30).toFixed(0)` lies in 30..90 for every draw |
| Simulator.RoundingTenths100 | backend/utils.js:112 | `+(r*100+5).toFixed(1)` lies in 5..105 for every draw |
| AirQuality.ClassifyAQI | backend/utils.js:66-71 | "good" iff the value is below 50, "moderate" iff in [50, 100), "unhealthy" iff in [100, 150), "hazardous" iff at least 150 |
| AirQuality.ClassifyMonotone | backend/utils.js:66-71 | a larger value never gets a milder status |
| AirQuality.ClassifyIgnoresSensor | backend/utils.js:66 | the status does not depend on the sensor argument |
| AirQuality.ClassifyBoundaries | backend/utils.js:67-70 | each threshold 50, 100 and 150 belongs to the band above it |
| Trend.TrendValue | backend/utils.js:84 | `Math.floor(r*100)+50` is a whole number in 50..149 |
| Trend.DayCount | backend/utils.js:79-81 | there is at least one day iff both dates are valid and the start is not after the end |
| Trend.GenerateTrendData | backend/utils.js:77-89 | the loop returns exactly TrendData: one record per day from start to end inclusive, none when a date is invalid or the range is empty; record i has date start+i and value from draw i, in 50..149 |
| Aggregator.DomainCatalogue | backend/utils.js:152-155 | the air aggregator validates against the air catalogue and the water aggregator against the water one |
| Aggregator.ValidSensorHasReading | backend/utils.js:153-159 | a sensor that passes its aggregator's validation always gets a non-null reading from that aggregator's simulator |
| Aggregator.UtcHours | backend/utils.js:149 | `getUTCHours()` of the clock reading is in 0..23 |
| Aggregator.CurrentHour | backend/utils.js:149 | the UTC+8 hour is in 0..23: UTC hour + 8 before 16:00 UTC, UTC hour − 16 from then on |
| Aggregator.HourCount | backend/utils.js:158 | `Math.min(currentHour, 19)` is at most 19 and at most the current hour, is one of the two, and is 0 exactly at midnight |
| Aggregator.HourLabel | backend/utils.js:160 | a label is at least five characters long and ends in ":00" |
| Aggregator.HourLabelSpellsHour | backend/utils.js:160 | for every hour, what precedes ":00" is a digit string worth the hour: the padding only adds leading zeros |
| Aggregator.HourLabelDigits | backend/utils.js:160 | the label of an hour below 100 is its two digits, zero-padded, followed by ":00" |
| Aggregator.HourLabelRoundTrip | backend/utils.js:160 | parsing the label of an hour gives back that hour |
| Aggregator.HourLabelsIncrease | backend/utils.js:158-160 | labels of later hours compare greater as strings, so each series is in time-label order |
| Aggregator.FirstInvalid | backend/utils.js:152-155 | the position found is of a rejected sensor with every earlier one accepted; none found means every sensor is accepted |
| Aggregator.GenerateCompanySensorData | backend/utils.js:147-174 | the loop returns exactly CompanySensorData: a failure naming the first unsupported sensor, or the aggregate of every requested sensor's hourly series |
| Aggregator.HourlyReadings | backend/utils.js:158-162 | the inner loop yields point j labelled with hour j and carrying the reading of draw `draws + j`, for j below n, and uses n draws |
| Aggregator.GenerateCompanySensorAirData | backend/utils.js:147-174 | the air aggregator is the shared loop for the air domain |
| Aggregator.GenerateCompanySensorWaterData | backend/utils.js:176-203 | the water aggregator is the shared loop for the water domain |
| Aggregator.AllOrNothing | backend/utils.js:152-155 | the call fails iff some requested sensor is unsupported, and its message then names the first such sensor |
| Aggregator.SeriesShape | backend/utils.js:167-173 | a success carries the request's company and date, the clock reading and its UTC+8 hour, and one series per requested sensor in request order, each with `min(currentHour, 19)` points |
| Aggregator.SeriesTimes | backend/utils.js:158-161 | point j of every series is labelled with hour j |
| Aggregator.SeriesValues | backend/utils.js:157-163 | point j of series i holds the domain simulator's reading for sensor i on draw `i*n + j`: draws go sensor by sensor, hour by hour |
| Aggregator.ReadingsPresent | backend/utils.js:152-161 | no point of a successful result is null |
| Aggregator.SeriesLength | backend/utils.js:158 | every series has at most 19 points and is empty at midnight UTC+8 |
| Aggregator.TenInTheMorning | backend/utils.js:147-174 | at 02:00 UTC a pm10 request gives one series of ten points from "00:00" to "09:00" |
| Export.Field | backend/utils.js:44 | a null value becomes the empty field, a number its non-empty decimal text |
| Export.JsonToCsv | backend/utils.js:36-52 | the file is named "company,date.csv"; its content is the header row, then one row per point, sensor by sensor, each row joined by commas and the rows by line breaks |
| Export.PushPointRows | backend/utils.js:43-45 | the inner loop appends one `[time, sensor, value]` row per point of the series, in order, to the rows so far |
| Export.DataRows | backend/utils.js:40-46 | the rows below the header, sensor by sensor and point by point; it has no contract of its own, and the three rows below state its length, where each point's row sits, and that it holds no other row |
| Export.DataRowsLength | backend/utils.js:40-46 | there is one data row per point of the aggregate |
| Export.DataRowsAt | backend/utils.js:40-46 | the row for point j of series i sits after all points of earlier series and reads time, sensor, value |
| Export.DataRowsFrom | backend/utils.js:40-46 | every data row is the row of some point of some series |
| Export.TotalPointsUniform | backend/utils.js:40-46 | when every series has n points there are sensors × n data rows |
| Export.CsvFilename | backend/utils.js:49 | the file name ends in ".csv" |
| Export.CsvFilenameSplit | backend/utils.js:49 | when neither the company nor the date holds a comma, splitting the name at commas gives back the company and the date followed by ".csv" |
| Export.CsvRoundTrip | backend/utils.js:50 | splitting the content at line breaks and then at commas gives back the rows, provided no field holds either separator |
| Export.CommaBreaksRows | backend/utils.js:50 | a field holding a comma is not quoted, so it reads back as two fields |
| Export.DataRowsPlain | backend/utils.js:40-46 | rows built from series whose ids and labels hold no separator hold no separator |
| Export.JsonToCsvRoundTrip | backend/utils.js:36-52 | for an aggregate whose ids and labels hold no separator, the exported content parses back to the header and data rows |
| Export.AggregateIsPlain | backend/utils.js:147-174 | in every successful aggregate, no sensor id and no time label holds a comma or a line break |
| Export.AirIdsPlain | backend/utils.js:4-14 | no air sensor id holds a comma or a line break |
| Export.WaterIdsPlain | backend/utils.js:16-23 | no water sensor id holds a comma or a line break |
| Export.ExportOfAggregate | backend/utils.js:36-52 | exporting a successful aggregate round-trips and gives 1 + sensors × `min(currentHour, 19)` rows |
| Export.ExportExample | backend/utils.js:48-51 | one co2 reading of 450 at 00:00 for "acme" on "2025-06-30" exports as file "acme,2025-06-30.csv" with content "time,sensor,value\n00:00,co2,450" |
| Features.Accumulate | backend/utils.js:209-222 | the dictionary the `forEach` builds lists each key once, and its keys are exactly those with totals |
| Features.GroupFeatures | backend/utils.js:207-222 | the loop that updates the dictionary in place yields exactly Accumulate of the input |
| Features.SimplifyTopFeatures | backend/utils.js:206-232 | the result is the grouped, rounded and sorted list SimplifiedFeatures |
| Features.GroupKey | backend/utils.js:214 | the key is the feature itself or "color", and it never starts with "Color_" |
| Features.First | backend/utils.js:211-214 | the position found is the first item that counts for the key; none found means no item counts for it |
| Features.AccumulateTotals | backend/utils.js:209-222 | a key has totals iff some non-interaction item maps to it; its totals are the sums of contribution and percent of exactly those items |
| Features.EncounterOrder | backend/utils.js:216-218 | every key in the dictionary was seen, and keys appear in the order of their first item |
| Features.InsertPermutes | backend/utils.js:231 | inserting adds exactly the new element |
| Features.InsertSorted | backend/utils.js:231 | inserting into a list sorted by decreasing percent keeps it sorted |
| Features.InsertKeepsTies | backend/utils.js:231 | an inserted element goes before every element of equal percent |
| Features.SortByPercent | backend/utils.js:231 | the sort's output is in non-increasing percent order and is a permutation of its input |
| Features.SortStable | backend/utils.js:231 | records of equal percent keep their relative order |
| Features.SortDistinct | backend/utils.js:231 | sorting records with distinct feature names keeps their names distinct |
| Features.InsertDistinct | backend/utils.js:231 | inserting a record with a new feature name keeps names distinct |
| Features.OutputRecords | backend/utils.js:225-231 | the output holds exactly the listed entries of the dictionary, one per key, with distinct feature names |
| Features.OutputValues | backend/utils.js:211-230 | each output record's feature was seen, its contribution is the sum over its items, its percent is that sum rounded with `toFixed(2)`, and its name neither holds "&" nor starts with "Color_" |
| Features.EveryItemCounted | backend/utils.js:211-221 | every non-interaction input item's group key appears in the output |
| Features.ColoursMerge | backend/utils.js:214 | when some "Color_…" item is present there is exactly one "color" record in the output |
| Features.OutputOrder | backend/utils.js:225-231 | the output is sorted by decreasing percent, and records of equal percent are in first-seen order |
| Features.RoundedPercent | backend/utils.js:229 | a rounded percent is within 0.005 of the sum it rounds |
| Numbers.ToFixed | backend/utils.js:229 | `toFixed(digits)` has exactly `digits` decimal places and keeps the sign of its argument |
| Numbers.ToFixedNearest | backend/utils.js:229 | `toFixed` picks the multiple of `10^-digits` nearest the magnitude, the larger one on a tie |
| Numbers.ToFixedWithin | backend/utils.js:96-136 | rounding a value that lies between two multiples of `10^-digits` lands between them |
| Numbers.Normalize | backend/utils.js:44-50 | the normal form of a decimal has the same value and no trailing zero |
| Numbers.NormalUnique | backend/utils.js:44-50 | two normal decimals of equal value are equal |
| Numbers.NumberToString | backend/utils.js:44-50 | a printed number is non-empty and made of digits, "-" and "." only; it starts with "-" exactly when the number is negative; the rest is canonical: a leading zero stands alone or directly before the point, and a fraction does not end in zero |
| Numbers.NumberToStringRoundTrip | backend/utils.js:44-50 | reading a printed number back gives exactly its value: the text is a plain decimal that denotes the number |
| Numbers.PlainDecimal | backend/utils.js:44-50 | the unsigned part of a printed number starts with a digit and uses only digits and the point; it holds a point exactly when the scale is positive; a leading zero stands alone or directly before the point; a fraction whose last digit is not zero does not end in "0" |
| Numbers.PlainDecimalRoundTrip | backend/utils.js:44-50 | the unsigned text of `u / 10^scale` reads back as `u` at that scale, so the zero padding and the point are placed right |
| Numbers.NumberToStringOfValue | backend/utils.js:44-50 | the printed text depends only on the number's value |
| Numbers.NumberToStringNoSeparators | backend/utils.js:50 | a printed number holds neither a comma nor a line break |
| Strings.NatToString | backend/utils.js:160 | `hour.toString()` is a non-empty digit string, one digit long exactly below 10, starting with 0 only for zero itself, and ending in the digit of n mod 10 |
| Strings.NatToStringRoundTrip | backend/utils.js:160 | reading back the digits of n gives n |
| Strings.PadStartSpec | backend/utils.js:160 | `padStart(width, c)` leaves a long enough string alone and otherwise prefixes copies of c up to the width |
| Strings.Split | backend/utils.js:50 | `split`, the reader used to state the round trip of the `join`s on line 50, always gives at least one piece |
| Strings.Join | backend/utils.js:50 | the joined text starts with the first part, and with more than one part the separator follows it |
| Strings.SplitJoin | backend/utils.js:50 | splitting undoes joining when no part holds the separator |
| Strings.JoinChars | backend/utils.js:50 | joining introduces no character other than the separator |

## Left out

- `haversine` (backend/utils.js:54-64): outside the modelled core; it is floating-point trigonometry.
- `locationMap` (backend/utils.js:25-34): outside the modelled core; it is a constant table that no function of the file reads.
- `VALID_KEYS` (backend/utils.js:2) and the API-key check: outside the modelled core.
- `backend/checkApiKey.js`, `backend/index.js`, `backend/chatbot.js`, `backend/authMiddleware.js`, `backend/firebase-admin-init.js` and the Python services under `ml_service/`: these are not part of this model.
- I/O and environment: the clock is the `now` parameter and `Math.random()` is the `rand` oracle. Which values the real generator yields, and the time at which the clock is read, are not modelled.
- Floating point: `Math.random() * width + offset` and the `+=` sums in `simplifyTopFeatures` are computed exactly on reals. Binary rounding error, which can move a `toFixed` result across a rounding boundary, is not modelled.
- Numbers.ToFixed: exponent notation for magnitudes of 10^21 and above is not modelled, nor the sign of negative zero; neither occurs for the values these functions round.
- Numbers.NumberToString: JavaScript's exponent notation (below 10^-6 or from 10^21) and negative zero are not modelled; every value printed here is a simulated reading with at most two decimal places.
- Non-numeric and NaN inputs (a non-string `feature`, a missing `sensors` array, NaN in `classifyAQI`) are excluded by the types: records are typed and values are reals.
- Trend.GenerateTrendData: dates are day numbers. The model leaves out parsing a date string (an invalid one is `None`), formatting with `toISOString().split("T")[0]`, and the local-time `setDate` step, whose daylight-saving behaviour can repeat or skip a formatted date.
- Aggregator.SeriesShape: the `now` field is kept as the clock reading in milliseconds; its serialisation as a `Date` object is not modelled.
- Features.Accumulate: an insertion-ordered dictionary stands for the plain object `simplified`. JavaScript lists integer-like keys such as "12" first in `Object.entries`, and treats keys such as "__proto__" specially; neither is modelled, since feature names are column names.
- Features.SimplifyTopFeatures: the input is a sequence of records. When `top_features` is missing, the source's `forEach` throws, so the model has no such input.
