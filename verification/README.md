# Wagon repair feature sample, modelled in Dafny

This project models `Sample` from `sample.py`. `Sample` builds the feature
table for a repair-prediction model of railway freight wagons:

- **The static index** (`Sample.__init__`). It turns the wagon parameter
  table into six wagon-keyed dictionaries: rod id, load capacity, tare,
  volume, the body-type flag (1 exactly when `kuzov == 2`) and the mileage
  norm. When a wagon appears on several rows, the last row wins.
- **The feature extractor** (`get_features`). For one wagon and one target
  date it reads the wagon's disposition records and repairs, and computes
  eleven features:
  - It uses the records planned before the date. When the latest of them is
    less than 180 days old, it keeps only the last 180 days of them.
  - From the latest record: days since the last capital and depot repairs
    (read from the last record of the window), days to the planned repair,
    the remaining-mileage value, the load flag and the freight-route id.
  - The smallest most frequent route id of the window.
  - The largest and the mean per-day mileage drop.
  - The number of repairs before the date, and the days since the last one,
    or 1000000 when there is none.
- **The table builder** (`get_sample`). It groups the targets by wagon in
  ascending wagon order. For each wagon it visits the dates in their original
  order and produces one row per (wagon, date). The labels are the entry's
  `month` value, which is the target date itself, and its `day` value, or -1
  and -1 in prediction mode. It then joins the six
  static attributes of each row's wagon. Finally it fills missing cells:
  - six numeric columns with the column mean over the whole batch;
  - `isload`, `last_fr` and `most_freq_fr` with the column's smallest mode;
  - `num_rem` with 0;
  - `days_since_last_trem` with 1000000.

Modelling choices:

- Dates are integer day numbers, and a missing pandas value is `None`.
- Mileage values are exact reals.
- Failures are values of `Result`:
  - a wagon missing from the parameter table (a `KeyError` in a dictionary
    lookup) is `UnknownWagon`;
  - `mode()[0]` over a column with no present value is `EmptyMode`. The
    empty mode is a Series over a `RangeIndex`, so `[0]` is a label lookup
    that raises `KeyError`.
- Each stage reports its first failure, in the order the source runs them:
  the features row by row, then the join, then the mode columns in fill
  order. So an empty target list fails on the `isload` mode.
- The static index is a class:
  - its constructor fills six `map` fields in a loop;
  - `GetSample` is a method that runs the nested target loop and the join
    loop;
  - both loops are proved equal to the functional specification
    `SampleTable`, about which the lemmas below are stated.

Three behaviours of the code that its names do not suggest:

- **Rate gaps.** The mileage-rate mask at `sample.py:44` is computed on the
  diffs that line 41 already kept. At that point every diff is positive, so
  the mask selects the first gaps: the i-th positive diff is divided by the
  i-th plan-date gap of the window, not by the gap between its own two
  records. `Features.RatesPairing` states this. `FeatureExamples.BorrowedGap`
  shows a history where this gives 4 per day where the own gap gives 2.
  `Features.RatesOwnGaps` shows the two agree when every step is a drop.
- **The mean column.** The column `probeg_changes_min` holds the mean of the
  rates, not their minimum.
- **The month label.** `target_month` is the target date itself
  (`row['month'][i]`, lines 76 and 83).

## Model

| member | source | states |
|---|---|---|
| Sequences.Filter | sample.py:19-20 | a boolean mask keeps exactly the elements satisfying it, never more than the input, and keeps the last element when it satisfies the mask |
| Sequences.FilterKeepsOrder | sample.py:19-20 | masking a sequence ordered by a relation leaves it ordered |
| Sequences.Present | sample.py:40 | `a[~isnan(a)]`: a value is kept iff it is present, no more values than cells, and with every cell present the values are the cells in order |
| Sequences.PresentCounts | sample.py:40 | each value is kept as many times as it is present: repeats survive the mask |
| Sequences.PresentAppend | sample.py:40 | masking a concatenation masks each part in turn, so order is kept |
| Sequences.Collect | sample.py:70-86 | a row-by-row loop that raises on the first failing row: it succeeds iff every step succeeds, then yields one result per element in order; otherwise it reports the error of the first failing element |
| Sequences.CollectPrefixErr | sample.py:70-86 | once a prefix fails, the elements after it do not change the outcome |
| Stats.Mode | sample.py:36 | `mode()[0]` is missing exactly for no values, and is otherwise a value of greatest frequency, the smallest among them |
| Stats.Max | sample.py:59 | missing exactly for no values; otherwise one of the values and at least every value |
| Stats.Mean | sample.py:60 | missing exactly for no values; otherwise the mean times the count is the sum |
| Stats.MeanWithin | sample.py:60 | a mean lies between any lower and upper bound of the values |
| Stats.MeanOfPositives | sample.py:59-60 | the mean of positive values is positive and at most their maximum |
| Features.Window | sample.py:27-28 | the window keeps the last record, and holds exactly the records after `date - 180` when the last one is under 180 days old, else all records |
| Features.RecordsBefore | sample.py:19 | `dislok[plan_date < month]`; what it keeps and in which order is stated by `Sequences.Filter`, `Features.RecordsBeforeIncreasing` and `Features.LastRecordIsLatest` |
| Features.RepairsBefore | sample.py:20 | `tr_rem[rem_month < month]`; stated by `Sequences.Filter` and `Features.LastRepairIsLatest` |
| Features.RecordsBeforeIncreasing | sample.py:19 | the records before a date of a history sorted by plan date are still sorted |
| Features.Since | sample.py:30-31 | `(month - d).days`, missing when the date is missing; its use is stated by `Features.ExtractLastRecord` |
| Features.Until | sample.py:32 | `(d - month).days`, missing when the date is missing; its use is stated by `Features.ExtractLastRecord` |
| Features.LastRecordIsLatest | sample.py:19-25 | on a sorted history `iloc[-1]` of the records before the date is the latest record before the date, and the only one |
| Features.WindowContents | sample.py:19-28 | the window holds the records before the date, cut at `date - 180` when the latest one is recent, and ends with the latest one |
| Features.ExtractFeatures | sample.py:18-64 | the result is eleven missing values exactly when no record precedes the date; it fails exactly when some record precedes the date and the window has no present fr_id, and the failure is the fr_id mode |
| Features.ExtractLastRecord | sample.py:25-35 | the kaprep, deprep, planrep, ost_prob, isload and last_fr features are those of the latest record before the date |
| Features.ExtractMostFrequent | sample.py:36 | most_freq_fr is the smallest most frequent present fr_id of the window |
| Features.PositiveDiffs | sample.py:39-41 | every kept diff is positive, and there are fewer of them than records; which diffs are kept is stated by `Features.PositiveDiffsAtDrops` |
| Features.OstDiffs | sample.py:39 | `ost_prob.diff(-1).values[:-1]`: entry i is the value of record i minus that of record i + 1, missing when either is missing |
| Features.DiffBefore | sample.py:39-41 | the diff between records n - 1 and n survives both masks exactly when the value drops there, and is then that drop |
| Features.DropIndices | sample.py:39-41 | the steps below n at which the value drops: each index is a drop, they ascend strictly, and every drop below n is among them |
| Features.DropsBelow | sample.py:39-41 | the independent reference for the kept diffs: the drops between consecutive records, collected step by step from the records themselves |
| Features.PositiveDiffsAtDrops | sample.py:39-41 | the kept diffs are the drops read off the records step by step, and diff k is the drop at the k-th drop index: every drop is kept, repeats included, in chronological order, and nothing else |
| Features.PlanGaps | sample.py:43 | `plan_date.diff()[1:]` in days: gap i runs from record i to record i + 1 |
| Features.GapsPositive | sample.py:43 | on a window sorted by plan date every gap is positive |
| Features.Rate | sample.py:45 | a positive diff gives a positive rate |
| Features.RateSpreads | sample.py:45 | a rate times its gap in days is the diff |
| Features.Rates | sample.py:43-45 | one rate per kept diff, each positive |
| Features.RatesPairing | sample.py:43-45 | rate i is positive diff i divided by gap i of the window (between records i and i + 1), which is positive |
| Features.AllDiffsPositive | sample.py:39-41 | when the value drops at every step, every diff is kept, in order |
| Features.RatesOwnGaps | sample.py:39-45 | when the value drops at every step, each rate is its own drop over its own gap |
| Features.ExtractRates | sample.py:43-60 | the two rate features are the maximum and the mean of the rates, each missing exactly when no positive diff exists |
| Features.RateFeaturesBounds | sample.py:59-60 | the rate features are present together, and then 0 < mean <= max |
| Features.ExtractSingleRecord | sample.py:19-64 | with one record before the date: the call succeeds iff that record has an fr_id; then most_freq_fr is that fr_id, days to planrep come from that record, and both rates are missing |
| Features.ExtractRepairRecency | sample.py:47-52 | num_rem counts the repairs before the date; days_since_last_trem is counted from the last of them, or is 1000000 when there are none |
| Features.LastRepairIsLatest | sample.py:47-49 | on a sorted repair history the last repair before the date is a latest one |
| FeatureExamples.TenDayRates | sample.py:39-45 | ost_prob 100, 80, 80, 50 ten days apart gives the rates 2 and 3 |
| FeatureExamples.TenDaySpacing | sample.py:18-64 | that history, read on day 40, gives all eleven features, with max rate 3 and mean rate 2.5 |
| FeatureExamples.BorrowedGap | sample.py:39-45 | a drop between days 5 and 15 is divided by the 5-day first gap, giving 4 instead of 2 |
| Params.KuzovFlag | sample.py:15 | the body flag is 0 or 1, and 1 exactly when kuzov is 2 |
| Params.Index | sample.py:11-16 | the dictionary's keys are exactly the wagons of the parameter table |
| Params.LastFor | sample.py:11-16 | the last row of a wagon, missing exactly when the table has no row for it |
| Params.IndexLastWrite | sample.py:11-16 | a wagon is a key iff it has a row, and its value comes from its last row |
| Params.AttrsFor | sample.py:102-107 | the six lookups fail with that wagon exactly when no row has it; otherwise they return the attributes of its last row |
| Sampling.Sample.constructor | sample.py:8-16 | the six dictionaries are the indexes of the given table |
| Sampling.Sample.Lookup | sample.py:102-107 | the six dictionary lookups for one wagon give that wagon's attributes from the table |
| Table.InsertKey | sample.py:68 | adding a key keeps the key list strictly ascending, with the same members plus the new key |
| Table.WagonKeys | sample.py:68 | the group keys are strictly ascending, and are exactly the wagons of the targets |
| Table.GroupedPermutation | sample.py:68-75 | the grouped visiting order is a permutation of the targets |
| Table.EntriesOf | sample.py:68-75 | `groupby('wagnum')` for one key: the entries of that wagon in their original order, as `Table.GroupedEntries` states |
| Table.Grouped | sample.py:68-75 | the loop order, group after group in key order; stated by `Table.GroupedMembers`, `Table.GroupedPermutation`, `Table.GroupedEntries` and `Table.GroupedAscending` |
| Table.GroupedMembers | sample.py:68-75 | an entry is visited iff it is a target whose wagon is among the keys |
| Table.GroupedEntries | sample.py:68-75 | each wagon's entries keep their original order in the grouped order |
| Table.GroupedAscending | sample.py:68-70 | the grouped order never decreases in wagon id |
| Table.WagonDislokIncreasing | sample.py:71 | one wagon's slice of a per-wagon sorted history is sorted |
| Table.WagonDislok | sample.py:71 | `dislok[dislok['wagnum'] == wagnum]`; sorted when the history is, by `Table.WagonDislokIncreasing` |
| Table.WagonRepairs | sample.py:72 | `tr_rem[tr_rem['wagnum'] == wagnum]`, the wagon's repairs in their original order |
| Table.EntryFeatures | sample.py:77 | `get_features` on one entry's date and its wagon's own histories; stated by `Table.EntryFeaturesCases` |
| Table.EntryFeaturesCases | sample.py:77 | an entry gets eleven missing values iff its wagon has no record before its date, and can only fail on the fr_id mode |
| Table.RowFor | sample.py:76-84 | a row fails exactly when its features fail; otherwise it carries the wagon, the date and the features, and its labels are -1, -1 when predicting, else the entry's `month` value (the date itself) and its `day` value |
| Table.Rows | sample.py:68-86 | assembled rows are one per target |
| Table.RowsSucceed | sample.py:68-86 | the rows are built exactly when the features of every target entry are |
| Table.RowsError | sample.py:77 | a failure while assembling rows is the fr_id mode failure |
| Sampling.AssembleRows | sample.py:67-86 | the nested wagon/date loop returns exactly the rows of the grouped targets, or the first failure |
| Sampling.AssembleGroup | sample.py:71-86 | the inner loop over one wagon's dates extends the rows built so far exactly as row-by-row collection over that group does, stopping at the first failure |
| Sampling.JoinRow | sample.py:102-107 | the static join of one row fails exactly for a wagon with no parameter row; otherwise it keeps the row and attaches its wagon's attributes |
| Sampling.JoinedAt | sample.py:102-107 | row k of a successful join is row k with its wagon's attributes |
| Sampling.Sample.JoinStatic | sample.py:102-107 | the join loop gives the joined rows, or the first unknown wagon in row order |
| Imputation.ColumnMean | sample.py:110-115 | a column's mean is missing exactly when every cell of the column is missing |
| Imputation.ColumnMode | sample.py:116-120 | a column's mode is missing exactly when no cell is present, and is otherwise its smallest most frequent value |
| Imputation.Impute | sample.py:109-120 | imputation fails exactly when a mode column has no present value, with an `EmptyMode` error; otherwise it keeps the row count, the keys, the labels and the static attributes |
| Imputation.ImputeFailure | sample.py:116-120 | the failure names the first mode column in fill order (isload, last_fr, most_freq_fr) that has no present value |
| Imputation.FillRowCells | sample.py:110-120 | column by column, a filled row keeps a present cell and otherwise takes that column's fill value |
| Imputation.FillRow | sample.py:110-120 | one row filled: the wagon, date, labels and attributes pass through unchanged; the cells are stated by `Imputation.FillRowCells` |
| Imputation.FillAll | sample.py:110-120 | every row filled with the same values, one output row per input row, each keeping its keys |
| Imputation.ImputeKeepsPresent | sample.py:110-120 | imputation never changes a present cell |
| Imputation.ImputeFillsMean | sample.py:110-115 | a missing mean-column cell takes the mean of the column's present values, and stays missing iff the whole column is missing |
| Imputation.ImputedMeanWithin | sample.py:110-115 | a filled mean cell lies within any bounds of the column's present values |
| Imputation.ImputeFillsMode | sample.py:116-120 | a missing isload, last_fr or most_freq_fr cell takes the column's smallest most frequent value |
| Imputation.ImputeSentinels | sample.py:117-118 | a missing num_rem becomes 0, and a missing days_since_last_trem becomes 1000000 |
| Sampling.SampleTable | sample.py:67-122 | `get_sample`: the rows, the join, then the imputation; a built table has one row per target |
| Sampling.Sample.GetSample | sample.py:67-122 | the method (both loops, then imputation) returns exactly `SampleTable` of its parameter table |
| Sampling.RowsFromEntries | sample.py:68-86 | assembled row k comes from entry k of the grouped order, which is a target entry |
| Sampling.SampleTableRow | sample.py:67-100 | table row k belongs to a target entry whose features were built; it carries that entry's wagon and date, and the labels `pred` selects |
| Sampling.SampleTableRowAttrs | sample.py:102-107 | table row k carries the attributes of its wagon's last parameter row |
| Sampling.SampleTableRowFeatures | sample.py:77-120 | every feature `get_features` produced for row k appears unchanged in the table |
| Sampling.SampleTableUnknownWagon | sample.py:102-107 | an unknown-wagon failure names a target wagon that the parameter table lacks |
| Sampling.SampleTableNoTargets | sample.py:116 | with no targets the build fails on the isload mode |

## Left out

- `main.py` is not part of this model: it reads files, runs the trained classifiers and writes predictions.
- The parquet read and `convert_dtypes` (`sample.py:9`): the parameter table is a parameter, and its fields are assumed present.
- The `tqdm` progress bar (line 70) only reports progress.
- Line 37 is overwritten at line 39 before it is used, so it is not modelled.
- Floating point: values are exact reals, so there is no rounding and no NaN arithmetic.
- pandas dtype conversions are not modelled, e.g. an integer column becoming float once it holds a missing value or a mean. Day-count columns are averaged as reals.
- `max()` over no positive diffs is modelled as a missing value, as a nullable extension array gives it. On a plain NumPy float array this call raises instead.
- Features.ExtractFeatures: requires the disposition history to have strictly increasing plan dates. With equal plan dates, `diff().days` would be 0 and the division would give an infinity, which is not modelled. `Table.HistorySorted` states the same per wagon for `get_sample`.
- The eleven `fillna(..., inplace=True)` calls are modelled as one function that returns a new table. Each fill value depends only on its own column, so the order of the fills changes nothing except which empty mode column is reported first. That order is kept.
- The six `apply` lookups are modelled as one lookup per row. All six dictionaries have the same keys, so the first row with an unknown wagon fails in the first of them, and that is the failure the model reports.
- Exceptions other than the dictionary `KeyError` and the empty `mode()[0]` are not modelled, e.g. malformed dates or columns of the wrong type.
