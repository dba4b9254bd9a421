# fynesse house-price prediction core, modelled in Dafny

This project models the deterministic bookkeeping of the fynesse price predictor. The predictor estimates the sale price of a property at a point, on a date, of a given type. It uses comparable sales nearby and nearby points of interest (POIs).

The model covers two classes.

- `DataPipeline` (module `Assess`) assembles the comparable-sales dataset:
  - It stores a bounding box that is "set" only when all four bounds are present and non-zero.
  - It widens the box by the POI radius, 1 km taken as 1/111 degree.
  - It builds a date window of ±26 weeks and writes its ends as `YYYY-MM-DD` text.
  - It refills a scratch table with the inner join of postcodes inside the widened box with sales of the queried type inside the window.
  - It reads the table back as a frame and removes rows that are equal on every column except `db_id`, keeping the first.
  - It writes a `poi_count` column from the spatial join's index.
  - It shuffles the rows and builds feature rows `[lat − qlat, lon − qlon, poi_count, days offset, 1]` with the prices.
- `PricePredictionModel` (module `Address`) does the following:
  - It returns early when there is no data.
  - It splits the examples at `ceil(0.8 n)`.
  - It fits on the first part and, when a test part exists, refreshes the `rmse` and `nrmse` fields. It never resets them.
  - It raises the accuracy warning when `n < 50 or nrmse > 0.5`.
  - It predicts at the query vector `[0, 0, poi_count, 0, 1]`. The POI count comes from a new pipeline with a 0.1 × 0.1 degree box around the query point.

## Modules

- `Common`: `Option`, `Result` and the errors the code raises:
  - the `ValueError` for an unset box;
  - `strptime`'s `ValueError` for a malformed date;
  - the `OverflowError` of a window that leaves years 1..9999;
  - the `KeyError` of a label write;
  - the `OutOfBoundsDatetime` of a date conversion outside pandas' Timestamp range.
- `Dates`: proleptic Gregorian dates and day ordinals (day 0 is 0001-01-01). It has a closed-form day count, the inverse conversion, and adding days with Python's year range 1..9999. It also has the zero-padded `YYYY-MM-DD` text form of ISO 8601 (section 4.1.2.2 of ISO 8601:2004, calendar date, extended format), with both round trips.
- `Region`: the bounding box, its truthiness test, the inclusive `BETWEEN` test, and widening.
- `Records`: rows of the properties, postcode and scratch tables, and the de-duplication key (every column but `db_id`).
- `Dedup`: keep-first de-duplication by key.
- `Comparables`: the `INSERT … SELECT` as an in-memory filter-join, and the de-duplicated frame.
- `PoiCount`: the label counting of `join_df_with_pois` as a loop, and the counts a left spatial join yields.
- `Features`: the shuffle, the feature rows and the price vector.
- `Assess`: the scratch table, the frame and `DataPipeline` as classes, plus pure functions (`DatasetOf`, `ComparablesOf`, `QueryPoiCount`) that specify their methods.
- `Address`: the split, the NRMSE with IEEE division by zero, the warning gate, and `PricePredictionModel`.

Things outside the model enter as parameters:
- the spatial join: fetching POIs in the stored box, projecting, buffering by 1 km and left-joining. It is a function from frame labels, points and box to the joined label list;
- the random draws of `df.sample`;
- the regression routines (`fit`, `predict`, root-mean-squared error).

## Behaviour worth knowing

- The window for 2020-06-15 runs from 2019-12-16 to 2020-12-14, 182 days either side (`Dates.WindowExample`).
- A left spatial join emits one row for a property with no POI within 1 km. Such a property therefore gets `poi_count` 1, the same as a property with exactly one POI (`PoiCount.LeftJoinCounts`, `Assess.EnrichedUnderLeftJoin`).
- An empty dataset is not an error: `predict_price` prints a message and returns nothing, modelled as `NoDatapoints`.
- The day offsets go through `pd.to_datetime`, which fails for dates outside pandas' Timestamp range (1677-09-22 to 2262-04-11). A query date such as 1600-06-15 passes the window computation and then fails there, before any fit (`Assess.EarlyQueryDateFails`).
- With identical test prices the NRMSE divides by zero and gives infinity (positive RMSE) or NaN (zero RMSE). Infinity exceeds 0.5, so the warning is raised; NaN never exceeds 0.5, so the warning then comes only from n < 50 (`Address.NrmseRange`).

## Model

| member | source | states |
|---|---|---|
| Region.Centered | fynesse/assess.py:36-40 | the box has the requested height and width and is centred on the point; positive sizes give south < north and west < east |
| Assess.DataPipeline.constructor | fynesse/assess.py:18-28 | a new pipeline keeps its three tables, has all four bounds unset and no box |
| Assess.DataPipeline.SetBoundingBox | fynesse/assess.py:36-40 | the four bounds are the centred box; the box counts as set exactly when no bound is 0 |
| Assess.DataPipeline.BoundingBox | fynesse/assess.py:31-33 | a box that exists has four non-zero bounds |
| Assess.UnsetBoxExactly | fynesse/assess.py:31-33 | get_dataset fails for an unset box exactly when the query point lies 0.05 degrees from the equator or the prime meridian, i.e. a bound is exactly 0 |
| Region.Widen | fynesse/assess.py:47-50 | widening by r adds 2r to the height and the width and keeps the centre |
| Region.WidenContains | fynesse/assess.py:47-50 | the widened box contains every point of the stored box |
| Region.WidenedNear | fynesse/assess.py:47-50 | a point in the widened box lies within r of the stored box on each axis |
| Dates.Ordinal | fynesse/assess.py:54-55 | a valid date's day number lies in 0..MaxOrdinal, within its own year's span |
| Dates.FromOrdinal | fynesse/assess.py:54-55 | every day number in range is the ordinal of a valid date |
| Dates.OrdinalRoundTrip | fynesse/assess.py:54-55 | converting a valid date to its ordinal and back gives the date |
| Dates.OrdinalInjective | fynesse/assess.py:54-55 | distinct valid dates have distinct ordinals |
| Dates.AddDays | fynesse/assess.py:54-55 | adding k days succeeds exactly when the result stays in years 1..9999, and moves the ordinal by k |
| Dates.Format | fynesse/assess.py:56-57 | the text is ten characters with dashes at positions 4 and 7 |
| Dates.Parse | fynesse/assess.py:54-55 | a parsed date is a valid calendar date; otherwise the error is a malformed date |
| Dates.ParseFormat | fynesse/assess.py:54-57 | parsing the formatted date gives the date back |
| Dates.FormatParse | fynesse/assess.py:54-57 | text that parses is exactly the formatted text of its date |
| Dates.WindowBounds | fynesse/assess.py:52-57 | the window exists exactly when both ends stay in range; its texts read back as the dates 182 days before and after the query date |
| Dates.WindowExample | fynesse/assess.py:52-57 | the window for 2020-06-15 is 2019-12-16 to 2020-12-14 |
| Assess.JoinQueryFor | fynesse/assess.py:47-57 | the join filter exists exactly when the window exists, and its dates are valid |
| Assess.JoinQueryWindow | fynesse/assess.py:47-57 | the filter keeps the widened box, the queried type and the days 182 before to 182 after the query date |
| Records.Combine | fynesse/assess.py:63-64 | a joined row takes its coordinates and country from the postcode row, and its price, date, postcode, type and db_id from the sale |
| Comparables.PairsExact | fynesse/assess.py:66-75 | the selected index pairs are exactly the pairs meeting the filter, in lexicographic order without repeats |
| Comparables.JoinSelectExact | fynesse/assess.py:60-76 | the scratch table holds one row per (postcode row, sale) pair meeting the filter and no other |
| Comparables.JoinSelectRows | fynesse/assess.py:66-75 | every joined row lies inside the widened box, has the queried type and a transfer date inside the inclusive window, and comes from a selected pair |
| Assess.ScratchTable.Truncate | fynesse/assess.py:59 | the table is empty |
| Assess.ScratchTable.Insert | fynesse/assess.py:60-77 | the selected rows are appended |
| Assess.DataPipeline.JoinPropertiesAndPostcode | fynesse/assess.py:43-77 | an unset box or a bad date fails before the table is touched; otherwise the table holds exactly the filter-join |
| Records.KeyIgnoresOnlyId | fynesse/assess.py:86-87 | two rows share a key exactly when they differ at most in db_id |
| Dedup.FirstPositionsExact | fynesse/assess.py:88 | a position survives exactly when no earlier position has its key, and survivors keep their order |
| Dedup.SurvivorsDistinct | fynesse/assess.py:88 | no two survivors share a key |
| Dedup.EveryKeySurvives | fynesse/assess.py:88 | every key present survives, at a position no later than any position carrying it |
| Dedup.Idempotent | fynesse/assess.py:88 | de-duplicating the survivors again keeps all of them |
| Comparables.DeduplicatedSpec | fynesse/assess.py:85-88 | surviving labels increase and are exactly the first occurrences; survivors are pairwise different outside db_id |
| Comparables.DeduplicatedCovers | fynesse/assess.py:85-88 | every joined row has a survivor equal to it outside db_id |
| Comparables.DeduplicatedIdempotent | fynesse/assess.py:85-88 | de-duplication is idempotent |
| Assess.Frame.FromTable | fynesse/assess.py:83 | the frame holds the table's rows labelled 0, 1, 2, … with no poi_count |
| Assess.Frame.DropDuplicates | fynesse/assess.py:85-88 | in place, rows and labels become those at the first-occurrence positions of the keys |
| Assess.DataPipeline.GetPricesCoordinatesDf | fynesse/assess.py:80-89 | errors leave the table unchanged; otherwise a new frame holds the de-duplicated joined rows with their original labels |
| Assess.DataPipeline.GetPois | fynesse/assess.py:92-105 | the POI region is the stored, unwidened box; an unset box fails first |
| PoiCount.PoiCounts | fynesse/assess.py:126-129 | each row's count is the number of join entries with its label; a label outside the frame is an error |
| PoiCount.LeftJoinCounts | fynesse/assess.py:121-129 | under a left join with distinct labels, every emitted label is in the frame, and a row's count is its POI count, or 1 when it meets none |
| Assess.EnrichedUnderLeftJoin | fynesse/assess.py:121-129 | with the de-duplicated frame's labels, a left join never fails the label write, and an unmatched row gets poi_count 1 |
| Assess.DataPipeline.PoiCountsFor | fynesse/assess.py:108-129 | the counts for the stored box: an unset box fails; otherwise each label's number of join entries, or the label error |
| Assess.DataPipeline.JoinDfWithPois | fynesse/assess.py:108-131 | an unset box leaves the frame as it was; on a label error the column holds zeros; otherwise it holds each row's count |
| Features.Shuffle | fynesse/assess.py:138 | the shuffle is a permutation |
| Features.MapShuffle | fynesse/assess.py:138 | mapping the shuffled rows gives a permutation of mapping the rows |
| Features.BuildAligned | fynesse/assess.py:140-149 | x and y have one entry per row; x[i] holds the offsets, POI count, day offset and 1 of row i, and y[i] its price |
| Features.ShuffledExamples | fynesse/assess.py:138-149 | the shuffled dataset's (x, y) pairs are a permutation of the rows' examples |
| Assess.ConvertDates | fynesse/assess.py:144 | the date conversions succeed exactly when the query date and every transfer date lie in pandas' Timestamp range |
| Assess.DatasetOf | fynesse/assess.py:134-149 | x and y have the same length |
| Assess.DatasetDatesInRange | fynesse/assess.py:144 | a dataset is produced only when the query date and every comparable's transfer date lie in pandas' Timestamp range |
| Assess.EarlyQueryDateFails | fynesse/assess.py:134-149 | for the query date 1600-06-15 get_dataset fails whatever the tables and the POI join |
| Assess.DataPipeline.GetDataset | fynesse/assess.py:134-149 | the result is `DatasetOf` of the tables, point, date, type and POI join, including its date-range and label errors; the box is 0.1 × 0.1 around the point; the scratch table is refilled only when the join ran |
| Assess.DatasetIsPermutation | fynesse/assess.py:134-149 | the dataset's examples are a permutation of the de-duplicated, POI-counted comparables' examples |
| Assess.ComparableRow | fynesse/assess.py:43-89 | each comparable has the queried type, a transfer date within 182 days of the query date, and lies in the widened query box |
| Assess.DatasetRow | fynesse/assess.py:138-149 | each example is the feature row and price of one comparable |
| Assess.DatasetBounds | fynesse/assess.py:140-149 | each feature row has five entries ending in 1, offsets within 0.05 + 1/111 degrees, a day offset within ±182, and a non-negative price |
| Address.PricePredictionModel.constructor | fynesse/address.py:11-15 | a new model keeps its pipeline and has no model, rmse or nrmse |
| Address.TrainSize | fynesse/address.py:24 | the training size is the ceiling of 4n/5, between 1 and n for n ≥ 1 |
| Address.TestFoldEmpty | fynesse/address.py:24-26 | the test fold is empty exactly when n ≤ 4 |
| Address.SplitExamples | fynesse/address.py:24-26 | ten examples split 8/2, one splits 1/0 |
| Address.Max | fynesse/address.py:36 | the maximum is an element and bounds all elements from above |
| Address.Min | fynesse/address.py:36 | the minimum is an element and bounds all elements from below |
| Address.Divide | fynesse/address.py:36 | the quotient is finite exactly for a non-zero divisor and then times the divisor gives the dividend; division by 0 gives +inf, −inf or NaN by the dividend's sign |
| Address.NrmseRange | fynesse/address.py:36-38 | the NRMSE is finite exactly when the test prices are not all equal; otherwise it exceeds the bound exactly when the RMSE is positive |
| Address.StaleNrmseIrrelevant | fynesse/address.py:33-38 | an NRMSE left by an earlier call never changes the warning: without a test fold there are fewer than 50 examples |
| Address.PricePredictionModel.FitAndValidate | fynesse/address.py:24-36 | the model is fitted on exactly the first ceil(0.8 n) examples; rmse and nrmse are refreshed from the rest when there are any, and kept otherwise |
| Address.QueryVector | fynesse/address.py:45 | the query vector has five entries |
| Address.QueryVectorIsFeatureRow | fynesse/address.py:45 | the query vector is the feature row of a sale at the query point on the query date |
| Address.QueryPoiCountOutcome | fynesse/address.py:42-45 | the query's count fails for an unset box exactly when a bound is 0; under a join that emits only label 0 it is the number of emitted rows |
| Address.PoiCountAt | fynesse/address.py:42-44 | the query's count comes from a new pipeline with a 0.1 × 0.1 degree box around the point and a one-row frame labelled 0 |
| Address.PricePredictionModel.PredictPrice | fynesse/address.py:17-45 | a failed or empty dataset leaves model, rmse and nrmse as they were; otherwise the model is fitted on the training prefix, rmse and nrmse are refreshed only when a test fold exists, and the estimate is the model at the query vector with the warning n < 50 or nrmse > 0.5; the pipeline keeps the query box and refilled table |

## Left out

- fynesse/access.py (database connection, table creation, CSV loading, downloads) is not part of this model. The three tables are in-memory sequences of records.
- Fetching POIs from OpenStreetMap, reprojection to EPSG:3035, 1 km buffering and the geometric spatial join are floating-point geometry in foreign libraries. They are one function parameter that returns the joined label list.
- The regularised least-squares fit, prediction and root-mean-squared error are foreign numerics. They are uninterpreted function parameters.
- `df.sample` randomness: the shuffle is driven by a sequence of draws given as a parameter. Only "some permutation" is relied on.
- Printing, plotting (`DataPipeline.plot`) and the street-graph helpers are left out. The accuracy warning is returned as a boolean.
- `PricePredictionModel.__getattr__` delegation to the fitted model is left out because it is an attribute lookup with no logic.
- Assess.DataPipeline.GetDataset: coordinates are exact reals. The `np.float32` cast of the coordinates before the offsets are taken is not modelled.
- Address.TrainSize: exact arithmetic. The rounding of the floating product `n * 0.8` before the ceiling is not modelled.
- Dates.Parse: accepts only the zero-padded ASCII form `YYYY-MM-DD`. `strptime` also accepts one-digit months and days, a space before a one-digit day, and non-ASCII decimal digits; the model reports these as malformed.
- Dates.Format: always pads the year to four digits. The C library's `%Y` does not pad years below 1000.
- Comparables.JoinSelect: fixes the row order of the SQL join, postcode rows outer and sales inner. The database guarantees no order, so which of several duplicate rows is kept first (and so which `db_id` survives) follows this chosen order.
- Comparables.Selected: compares postcodes and property types as exact strings. The columns use a binary collation, so the only difference is MySQL's PAD SPACE rule (trailing spaces are ignored in comparisons), which is not modelled.
- Assess.DatasetOf: store and POI-provider failures are not modelled. A database error, a network error while fetching POIs, or osmnx raising when the box holds no matching features would end `get_dataset` with an exception; the spatial join is a total parameter and the tables are in-memory sequences.
- Assess.DataPipeline.GetDataset: store and POI-provider failures (database errors, network errors, osmnx raising on a box without matching features) are not modelled, for the same reason as for `Assess.DatasetOf`.
- Address.PricePredictionModel.PredictPrice: store and POI-provider failures, in `get_dataset` or in the query's POI count, are not modelled, for the same reason as for `Assess.DatasetOf`.
- Address.PricePredictionModel.PredictPrice: the warning is printed before the query's POI count is computed. When that count fails, the model returns the error and does not carry the warning.
