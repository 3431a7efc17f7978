# Drilling-log processing core, modelled in Dafny

This project models the core of the drilling-data toolkit. The toolkit reads LAS well logs,
cleans and merges them, and derives rock properties from them: compressive strength, Young's
modulus, porosity, permeability, mechanical specific energy, hydrostatic and confining
pressure. It also cleans tabular log files against the project's log-name registry and
cuts time series into training batches for a recurrent network.

Modules, one per source file:

- `LogsCleanup` (`logs_cleanup.dfy`): the per-file mapping of log names to column positions
  and units. Also the LAS row loop (lines arrive already split into tokens), the filter that
  keeps rows whose readings are all positive, and the ordered dict of curves.
- `LogsMerge` (`logs_merge.dfy`): `merge_logs`. It covers:
  - the primary-key check;
  - the split into key and non-key columns;
  - the recursive `np.intersect1d` of the key curves;
  - the row filter;
  - the divide-and-conquer `_stack` that fills the merged dict and stacks the columns.
  The caller's list of tables is an `array<Table>`, because `merge_logs` rebinds its entries.
- `RockProps` (`rockprops.dfy`) and `Pressures` (`pressures.dfy`): the element-wise formulas.
  Powers with real exponents go through a `pow` parameter that the model leaves uninterpreted.
- `FilesCleanup` (`files_cleanup.dfy`): `clean_up_df`, on a frame of named columns whose cells
  are numbers, text or missing.
- `Preprocessing` (`preprocessing.dfy`): the input/output concatenation and the
  `timeseries_generator`. The generator is a class whose `Next` method draws one batch and
  advances the pointer.

Shared pieces:

- `Tables` (`tables.dfy`): numpy-like operations on tables of reals.
- `OrderedDicts` (`ordered_dict.dfy`): an insertion-ordered dict as a sequence of pairs.
- `Wrappers` (`wrappers.dfy`): `Option` and `Result`.

Every exception the source raises on an input it accepts is an `Err` value. This covers an
unknown LAS path, an unparsable reading, a missing primary key, a failed stack, an unknown
method, an unbound permeability, a pressure curve with no sample before kick-off, a row-count
mismatch and a batch index out of range. It also covers the pandas mask-length error of
`clean_up_df`.

Places where the documentation and the code disagree; the model follows the code:

- `merge_logs` joins sources by position after filtering, not by depth value.
  `AlignedWhenSorted` proves the rows line up when every key curve is strictly increasing.
  `PositionalJoinUnsorted` is a concrete pair of sources where they do not.
- `hydsta_pres` documents kPa but returns `0.052 * mudweight * depth` with no unit conversion.
- `clean_up_df` says columns holding strings are removed. The code only leaves them out of
  the positivity mask and keeps them in the result.
- `clean_up_df` applies the mask computed on the NaN-free frame to the full frame. So any NaN
  in a kept column raises a length-mismatch error instead of dropping the row.
  `CleanUpOutcome` states exactly when this happens.

## Model

| member | source | states |
|---|---|---|
| LogsCleanup.GetMapping | utils/logscleanup.py:16-23 | the loop over the zipped lists builds the index and unit dicts of `ZipMapping` |
| LogsCleanup.ZipMappingDistinct | utils/logscleanup.py:16-23 | with distinct names the two dicts are the plain zips of names with columns and with units, in list order |
| LogsCleanup.SpecificAttrMapping | utils/logscleanup.py:11-48 | the mapping fails iff the path is neither the EDR nor the MWD file, with the unknown-file error naming the path |
| LogsCleanup.GetSpecificAttrMapping | utils/logscleanup.py:11-48 | the method returns the mapping of `SpecificAttrMapping` |
| LogsCleanup.EdrLists | utils/logscleanup.py:32-34 | the EDR names are distinct and pair with columns 0,2,3,4,5,9 and units ft … kPa |
| LogsCleanup.EdrMapping | utils/logscleanup.py:26-34 | the EDR file starts reading at row 47 with TVD→0, ROP→2, RPM→3, TOR→4, WOB→5, DIFP→9 and their units |
| LogsCleanup.MwdLists | utils/logscleanup.py:37-40 | the MWD names are distinct and pair TVD/GR with columns 0/1 and units ft/API |
| LogsCleanup.MwdMapping | utils/logscleanup.py:36-40 | the MWD file starts reading at row 203 with TVD→0 and GR→1 |
| LogsCleanup.ParseRow | utils/logscleanup.py:65-66 | a row parses iff every mapped column exists in the split line and holds a number; the row holds those numbers in mapping order |
| LogsCleanup.ReadLines | utils/logscleanup.py:61-67 | reading succeeds iff every line from the start row parses; the table has one row per such line, each that line's readings, all of the mapping's width |
| LogsCleanup.ReadLogValues | utils/logscleanup.py:61-67 | the row loop builds the table of `ReadLines` or stops at the first failing line |
| LogsCleanup.ReadLinesPrefixError | utils/logscleanup.py:63-66 | once a prefix of the file fails to parse, later lines do not change the outcome |
| LogsCleanup.FilterPositive | utils/logscleanup.py:69-73 | a row is kept iff it is a row of the table and all its readings are strictly positive |
| LogsCleanup.FilterPositiveKeepsOrder | utils/logscleanup.py:71-73 | filtering distributes over concatenation, so row order is kept |
| LogsCleanup.FilterPositiveIdempotent | utils/logscleanup.py:88-93 | the second filter in `get_filtered_log_reading_dict` changes nothing |
| LogsCleanup.CurveDict | utils/logscleanup.py:75-78 | the dict has the mapping's keys in order, and the curve under the j-th key is column j of the table |
| LogsCleanup.FillReadingDict | utils/logscleanup.py:75-78 | the loop fills exactly the dict of `CurveDict` |
| LogsCleanup.GetLogReadingDict | utils/logscleanup.py:51-80 | the method returns `LogReading`: mapping, row loop, optional filter, dict |
| LogsCleanup.DistinctKeysOfMapping | utils/logscleanup.py:32-40 | both known files map distinct log names |
| LogsCleanup.GetFilteredLogReadingDict | utils/logscleanup.py:83-103 | the filtered reading equals the reading with the filter on |
| LogsCleanup.LogReadingCurves | utils/logscleanup.py:51-80 | the keys are the mapping's, each curve is its table column; with the filter on the table is the positive rows of what was read; without it, it is every row read, and not empty |
| LogsMerge.FirstMissing | utils/logscleanup.py:116-120 | the first source lacking the key; all earlier sources have it |
| LogsMerge.MergeFirstMissing | utils/logscleanup.py:116-120 | merging fails with the missing-key error naming the 1-based position of the first source without the key |
| LogsMerge.KeyIndex | utils/logscleanup.py:124-126 | the position of the key in a source's keys |
| LogsMerge.NonKeyColumns | utils/logscleanup.py:123-129 | every entry of the non-key list is the (name, position) pair of a key other than the primary key |
| LogsMerge.NonKeyListed | utils/logscleanup.py:123-129 | every key other than the primary key is in the non-key list with its position |
| LogsMerge.NonKeyCount | utils/logscleanup.py:123-129 | the non-key list is one shorter than the keys iff the key is among them |
| LogsMerge.NonKeyNames | utils/logscleanup.py:123-129 | a name is in the non-key list iff it is a key other than the primary key |
| LogsMerge.SplitKeyColumns | utils/logscleanup.py:123-129 | the loop yields the key's (name, index) pair and the non-key list |
| LogsMerge.KeyColumnLists | utils/logscleanup.py:114-129 | the loop over the sources stops at the first source without the key, and otherwise yields each source's key position and non-key list |
| LogsMerge.KeyCurves | utils/logscleanup.py:133-134 | one key curve per source, the one stored under the key |
| LogsMerge.Find | utils/logscleanup.py:138-142 | the result holds exactly the values in `result` and in the first `n` curves, strictly increasing |
| LogsMerge.CommonRows | utils/logscleanup.py:136-145 | the common rows are exactly the values in every key curve, sorted and without repeats |
| LogsMerge.CommonRowsOrderFree | utils/logscleanup.py:136-145 | the common rows do not depend on the order of the sources |
| LogsMerge.MergeKeyCurveOrderFree | utils/logscleanup.py:133-145 | permuting the sources leaves the merged key curve unchanged |
| LogsMerge.KeepRows | utils/logscleanup.py:148-150 | a row is kept iff its key reading is a common row |
| LogsMerge.KeepRowsColumn | utils/logscleanup.py:148-150 | the kept key column is the source's key column restricted to the common rows |
| LogsMerge.KeptKeysAreCommon | utils/logscleanup.py:148-150 | with a strictly increasing key column holding every common row, the kept key column is exactly the common rows |
| LogsMerge.KeepNoRows | utils/logscleanup.py:148-150 | with no common rows every source is emptied |
| LogsMerge.Filtered | utils/logscleanup.py:148-150 | filtering keeps one table per source, each of that source's width |
| LogsMerge.KeepCommonRows | utils/logscleanup.py:148-150 | the loop rewrites the caller's tables to the filtered ones |
| LogsMerge.NonKeyLists | utils/logscleanup.py:116-129 | one non-key list per source, in source order |
| LogsMerge.ColumnIdx | utils/logscleanup.py:158-159 | the column positions of a non-key list |
| LogsMerge.Picked | utils/logscleanup.py:163 | a source's non-key columns keep its row count |
| LogsMerge.StackedTable | utils/logscleanup.py:153-177 | the stacked table has the row count of the first stacked source |
| LogsMerge.StackedRowSplit | utils/logscleanup.py:172-175 | a stacked row over a range is the stacked rows of its two halves, joined |
| LogsMerge.PutRangeSplit | utils/logscleanup.py:172-175 | the dict writes of a range are the writes of its left half followed by its right half |
| LogsMerge.AssignColumns | utils/logscleanup.py:161-162 | the loop writes each non-key column of a source under its name |
| LogsMerge.Stack | utils/logscleanup.py:154-175 | `_stack` succeeds iff every source in range has a non-key column and they all have the same row count; it returns the stacked table and performs the dict writes of the range |
| LogsMerge.StackOne | utils/logscleanup.py:160-164 | one source with a non-key column always stacks, to its picked columns, after its dict writes |
| LogsMerge.StackTwo | utils/logscleanup.py:165-171 | two sources stack iff their row counts agree, to their columns side by side, after both sources' dict writes |
| LogsMerge.StackSplit | utils/logscleanup.py:172-175 | splitting at the middle and stacking both halves gives the same outcome as stacking the whole range |
| LogsMerge.StackJoin | utils/logscleanup.py:175 | joining two stacked halves succeeds iff the whole range stacks, giving its stacked table and dict writes |
| LogsMerge.StackOkSplit | utils/logscleanup.py:172-175 | a range stacks iff both halves stack and have equal row counts |
| LogsMerge.StackedSingle | utils/logscleanup.py:160-164 | one source stacks iff it has a non-key column, giving its picked columns and its writes |
| LogsMerge.StackedPair | utils/logscleanup.py:165-171 | two sources stack iff both have non-key columns and equal row counts; rows are joined left then right |
| LogsMerge.StackedSplit | utils/logscleanup.py:172-175 | the stacked table of a range is the hstack of its halves |
| LogsMerge.FilteredColumnsExist | utils/logscleanup.py:148-163 | every non-key position is a column of the filtered table |
| LogsMerge.PutColumnsKeys | utils/logscleanup.py:161-162 | after the writes a name is a key iff it was one or was written |
| LogsMerge.PutRangeKeys | utils/logscleanup.py:154-175 | after a range's writes a name is a key iff it was one or is a non-key name of a source in range |
| LogsMerge.PutColumnsOther | utils/logscleanup.py:161-162 | names not written keep their curves |
| LogsMerge.PutColumnsLastWins | utils/logscleanup.py:161-162 | a repeated name ends with the column of its last write |
| LogsMerge.PutRangeLastWins | utils/logscleanup.py:154-175 | across sources, a name ends with the column of the last source that writes it |
| LogsMerge.LastNamed | utils/logscleanup.py:161-162 | the last position in a non-key list holding a name |
| LogsMerge.NonKeyLast | utils/logscleanup.py:123-129 | with distinct keys, a non-key key's column is the last and only entry of that name |
| LogsMerge.StackedNames | utils/logscleanup.py:153-177 | the stacked dict's keys are exactly the non-key names of all sources |
| LogsMerge.MergeValue | utils/logscleanup.py:106-185 | a successful merge had the key in every source, and its result is the stacked dict with the key added and the stacked table with the common rows as last column |
| LogsMerge.MergeIs | utils/logscleanup.py:179-185 | merging returns the dict with the key set to the common rows and the table hstacked with them |
| LogsMerge.MergeDict | utils/logscleanup.py:179-183 | the merged dict is the stack's dict with the key's curve set to the common rows |
| LogsMerge.MergeOkSourcesHaveCurves | utils/logscleanup.py:153-177 | a merge succeeds only if every source has the key and at least one other curve |
| LogsMerge.MergeKeyCurve | utils/logscleanup.py:183 | in a successful merge the key's curve is the common rows |
| LogsMerge.MergeKeyColumn | utils/logscleanup.py:182 | in a successful merge every row ends with its common key reading |
| LogsMerge.MergeTable | utils/logscleanup.py:178-182 | the merged table is the stacked table with the common rows as last column |
| LogsMerge.KeyWrittenLast | utils/logscleanup.py:176-183 | writing the key after all stacked curves puts it last, and the dict then names every curve of every source |
| LogsMerge.MergeOkKeyCurve | utils/logscleanup.py:182-183 | the merged key curve is the common rows, and it is the last column of the merged table |
| LogsMerge.MergeOkNames | utils/logscleanup.py:153-183 | the merged dict's keys are the key and every non-key name of any source |
| LogsMerge.MergeLaterWins | utils/logscleanup.py:161-169 | a non-key curve that no later source names ends up as its source's filtered column |
| LogsMerge.MergeOkWhen | utils/logscleanup.py:106-185 | with every key present, a non-key curve in each source and equal filtered row counts, the merge succeeds |
| LogsMerge.AlignedWhenSorted | utils/logscleanup.py:148-182 | with strictly increasing key curves, each source's k-th filtered row has the k-th common depth, so the positional join is a join by depth |
| LogsMerge.MergeNoCommonRows | utils/logscleanup.py:145-183 | with no common depth the merge succeeds with an empty table and an empty key curve |
| LogsMerge.PositionalJoinUnsorted | utils/logscleanup.py:148-182 | with a key curve out of order, the merge pairs readings taken at different depths |
| LogsMerge.StackAndJoin | utils/logscleanup.py:176-185 | stacking the filtered tables and appending the key curve yields `Merge` |
| LogsMerge.MergeLogs | utils/logscleanup.py:106-185 | the method returns `Merge` and leaves the caller's tables filtered exactly when the key check passes |
| RockProps.Ucs | rockprops/rockprops.py:5-20 | UCS fails iff the method is not 'pump efficiency', with the unknown-method error; otherwise each sample is the pump efficiency times the MSE sample |
| RockProps.UcsBelowMse | rockprops/rockprops.py:15-16 | with an efficiency in [0, 1] and non-negative MSE, UCS lies between 0 and MSE |
| RockProps.CcsAtLeastUcs | rockprops/rockprops.py:38-44 | confinement never lowers strength: CCS is at least UCS on both branches |
| RockProps.ShaleMask | rockprops/rockprops.py:41 | a sample is shale iff its GR exceeds the cutoff |
| RockProps.MaskedFill | rockprops/rockprops.py:43-44 | each sample takes the masked value iff the mask holds, and is written exactly once |
| RockProps.Ccs | rockprops/rockprops.py:23-46 | each sample is the shale or non-shale correlation on psi pressure; the shale branch writes it iff GR exceeds the cutoff, and each sample is written exactly once |
| RockProps.YoungModulus | rockprops/rockprops.py:49-73 | E = (ccs·0.101325/14.7)·4.5396·(pc/1000)^0.1926 at every sample |
| RockProps.YoungModulusMonotone | rockprops/rockprops.py:66-71 | a stronger rock at the same confining pressure never has a smaller modulus |
| RockProps.Porosity | rockprops/rockprops.py:76-124 | porosity fails iff the method is not 1, 2 or 3, with the unknown-method error; otherwise each sample is the method's formula, with the shale coefficients iff GR exceeds the cutoff for methods 1 and 2 |
| RockProps.PorosityMethod3Formula | rockprops/rockprops.py:90-116 | method 3 is 1.75 / (gr^0.25 · (ucs·0.101325/14.7)^0.47) at every sample |
| RockProps.PorosityMethod3IgnoresCutoff | rockprops/rockprops.py:115-116 | method 3 does not depend on the GR cutoff |
| RockProps.PorosityDoubleScaling | rockprops/rockprops.py:90-124 | methods 1 and 2 apply the power to UCS scaled by 0.101325·101.325/14.7², take the shale pair iff GR exceeds the cutoff, and divide by 100 |
| RockProps.CalculatePorosity | rockprops/rockprops.py:76-124 | the method, with its masked fill, returns `Porosity` |
| RockProps.Permeability | rockprops/rockprops.py:127-136 | method 1 gives 6.93·(100·porosity)^2.5313 at every sample; any other method fails with the unbound-variable error |
| RockProps.Mse | rockprops/rockprops.py:139-162 | each sample is WOB converted from kDaN to lbf over area, plus 2π·RPM·torque over area times ROP converted from ft/hr to in/min |
| RockProps.MseAtLeastThrust | rockprops/rockprops.py:158-160 | with positive area and ROP and non-negative RPM and torque, MSE is at least WOB in lbf over area, and equal to it when RPM is 0 |
| RockProps.RopConversion | rockprops/rockprops.py:158 | 60 ft/hr becomes 12 in/min |
| Pressures.LastCalm | rockprops/pressures.py:17-18 | the last sample not past the inclination threshold; every later sample is past it |
| Pressures.Hydrostatic | rockprops/pressures.py:3-20 | the pressure fails iff every sample is past kick-off (the `[-1]` of an empty selection); otherwise a sample not past kick-off holds 0.052·mudweight·depth, and a kick-off sample holds that value at the last sample not past kick-off |
| Pressures.HydstaPres | rockprops/pressures.py:3-20 | the method computes the gradient at every sample, then overwrites the kick-off samples in place, returning `Hydrostatic` |
| Pressures.NoKickOffIsGradient | rockprops/pressures.py:14 | without kick-off the pressure is 0.052·mudweight·depth everywhere |
| Pressures.KickOffFrozen | rockprops/pressures.py:16-18 | every kick-off sample carries the gradient pressure at the last calm sample |
| Pressures.MonotoneBeforeKickOff | rockprops/pressures.py:14-18 | with non-decreasing depth, kick-off only at the tail and non-negative mud weight, the pressure never decreases |
| Pressures.GradientMonotone | rockprops/pressures.py:14 | the gradient grows with depth for a non-negative mud weight |
| Pressures.ConfPres | rockprops/pressures.py:23-31 | the confining pressure keeps the curve's length |
| Pressures.ConfPresRecoversDiff | rockprops/pressures.py:31 | confining minus hydrostatic pressure gives back the differential pressure |
| FilesCleanup.DropNamesKeeps | utils/filescleanup.py:42-46 | dropping names keeps exactly the columns whose name is not dropped, in order |
| FilesCleanup.DropNamesAdd | utils/filescleanup.py:34-46 | dropping names one at a time equals dropping them all at once |
| FilesCleanup.Rename | utils/filescleanup.py:53 | `rename` changes the name of each mapped column and nothing else |
| FilesCleanup.RenameColumns | utils/filescleanup.py:24-53 | the loop over the name set, whatever its order, yields `KeptColumns` |
| FilesCleanup.KeptColumnsFrom | utils/filescleanup.py:31-53 | a column is kept, under `name,unit` when registered and its own name otherwise, iff it is registered or `strict_remove` is off |
| FilesCleanup.RegistryHasNoComma | input/LOG_UNITS.py:6-15 | no registered log name contains a comma |
| FilesCleanup.RenamedOutsideRegistry | utils/filescleanup.py:36-38 | a renamed registered column is no longer a registered name |
| FilesCleanup.RecleanDropsEverything | utils/filescleanup.py:16-73 | cleaning an already cleaned frame again with `strict_remove` drops every column |
| FilesCleanup.WhereSpec | utils/filescleanup.py:62-67 | the selected positions are exactly those satisfying the mask, increasing |
| FilesCleanup.PositiveRows | utils/filescleanup.py:59-64 | a row is selected iff every numeric kept column is positive there |
| FilesCleanup.CompleteRows | utils/filescleanup.py:57 | `dropna` keeps exactly the rows without a missing cell, in order |
| FilesCleanup.CompleteRowsLength | utils/filescleanup.py:57 | `dropna` keeps every row iff no kept column has a missing cell |
| FilesCleanup.SelectRows | utils/filescleanup.py:67 | the selected frame keeps the columns and their names, and holds the selected rows in order |
| FilesCleanup.MaskedRows | utils/filescleanup.py:60-67 | the row mask selects the rows of `PositiveRows` |
| FilesCleanup.CleanUpDf | utils/filescleanup.py:16-73 | the method returns `CleanUp` |
| FilesCleanup.CleanUpOutcome | utils/filescleanup.py:57-73 | cleaning fails with the mask-length error iff a kept column has a missing cell; otherwise it keeps the kept columns in order, and is empty iff no row is all positive |
| Preprocessing.Concatenate | machine_learning/data_wrangling/preprocessing.py:16-17 | concatenation fails iff the row counts differ; each row is the input row followed by the output row, recoverable as prefix and suffix |
| Preprocessing.ConcatenateWidth | machine_learning/data_wrangling/preprocessing.py:16-17 | concatenating widths a and b gives width a + b |
| Preprocessing.DefaultMaxIndex | machine_learning/data_wrangling/preprocessing.py:30-31 | the default `max_index` leaves `delay + 1` rows after it |
| Preprocessing.Arange | machine_learning/data_wrangling/preprocessing.py:42 | `arange(lo, hi)` is the consecutive integers from lo below hi |
| Preprocessing.BatchRowsInRange | machine_learning/data_wrangling/preprocessing.py:40-42 | a batch holds at most `batch_size` consecutive rows in [min_index + lookback, max_index) |
| Preprocessing.NextPointerOk | machine_learning/data_wrangling/preprocessing.py:40-43 | drawing a batch keeps the pointer at or above the first row, and at most `max_index` or at the first row |
| Preprocessing.FullBatches | machine_learning/data_wrangling/preprocessing.py:40-43 | when one batch fits before `max_index`, every batch is full |
| Preprocessing.BatchStep | machine_learning/data_wrangling/preprocessing.py:32-43 | a batch drawn without reset extends the drawn rows by `batch_size` consecutive rows |
| Preprocessing.BatchesTile | machine_learning/data_wrangling/preprocessing.py:32-43 | until a reset, the batches cover the rows from the first row on in order, with no gap and no repeat |
| Preprocessing.CeilDiv | machine_learning/data_wrangling/preprocessing.py:46-50 | the window's ceil(lookback / step) rows exceed the `lookback // step` slots by one iff `step` does not divide `lookback`, and equal them otherwise |
| Preprocessing.WindowFitsSlots | machine_learning/data_wrangling/preprocessing.py:46-51 | the window has `lookback // step` rows iff `step` divides `lookback` |
| Preprocessing.WindowBroadcasts | machine_learning/data_wrangling/preprocessing.py:46-51 | the window fits its slots by numpy's rule (same rows, or one row broadcast) iff `step` divides `lookback` or `lookback < step` |
| Preprocessing.WindowIndices | machine_learning/data_wrangling/preprocessing.py:50 | the window holds ceil(lookback / step) indices r − lookback + t·step |
| Preprocessing.Window | machine_learning/data_wrangling/preprocessing.py:50-51 | `data_in[indices]` is the data rows at the window's indices |
| Preprocessing.Sample | machine_learning/data_wrangling/preprocessing.py:46-51 | a stored sample has `lookback // step` rows, the data rows at the window's first indices (none when `lookback < step`) |
| Preprocessing.BatchOfOk | machine_learning/data_wrangling/preprocessing.py:46-54 | a batch is built only with a positive step that divides lookback or exceeds it, and every window and target in range |
| Preprocessing.BatchContents | machine_learning/data_wrangling/preprocessing.py:46-54 | a built batch holds for each row its `lookback // step` window rows (none when `lookback < step`) and the target `delay` rows later |
| Preprocessing.BatchBroadcastError | machine_learning/data_wrangling/preprocessing.py:46-51 | the broadcast error occurs iff there is a row, `step` neither divides nor exceeds `lookback`, and the first window is in range |
| Preprocessing.ZeroSlotBatch | machine_learning/data_wrangling/preprocessing.py:46-54 | with lookback 2 and step 3, the one-row window broadcasts into zero slots and the batch is built with an empty sample |
| Preprocessing.DefaultTargetsInRange | machine_learning/data_wrangling/preprocessing.py:30-31 | with the default `max_index` and equal lengths, every target is inside the output data |
| Preprocessing.StoreWindow | machine_learning/data_wrangling/preprocessing.py:50-51 | storing a window fails with the index error when it leaves the data, with the broadcast error when `step` neither divides nor exceeds `lookback`, and otherwise yields the sample |
| Preprocessing.FillBatch | machine_learning/data_wrangling/preprocessing.py:46-54 | the filling loop, storing each window by numpy's broadcasting rule, returns `BatchOf`, or the error it meets first |
| Preprocessing.TimeseriesGenerator.constructor | machine_learning/data_wrangling/preprocessing.py:32 | the pointer starts at min_index + lookback, and the generator is not finished |
| Preprocessing.TimeseriesGenerator.Next | machine_learning/data_wrangling/preprocessing.py:34-54 | one step yields the batch of the pointer's rows and advances the pointer by their number, after a reset if needed, keeping the pointer invariant; a step that raises finishes the generator, and every later step raises `StopIteration` and changes nothing |
| Preprocessing.MakeGenerator | machine_learning/data_wrangling/preprocessing.py:20-32 | construction fails iff outputs are included and the row counts differ; otherwise it sets up the concatenated data, the default `max_index`, the start pointer and an unfinished generator |
| Tables.Intersect1d | utils/logscleanup.py:141 | `np.intersect1d` is sorted, without repeats, and holds exactly the values in both inputs |
| Tables.Hstack | utils/logscleanup.py:170 | `np.hstack` joins each row of the left table with the same row of the right |
| OrderedDicts.AssignedIsPutAll | utils/logscleanup.py:16-23 | assigning the first `n` names one by one builds the dict of the first `n` zipped pairs |
| OrderedDicts.PutKeys | utils/logscleanup.py:20-21 | assigning a key appends it when new and keeps the key order otherwise |
| OrderedDicts.PutSpec | utils/logscleanup.py:20-21 | assigning a key appends it when new and keeps its place otherwise; the key holds the new value and other keys keep theirs |

## Left out

- LAS file I/O and line splitting: lines arrive as sequences of tokens, each a number or not.
- `clean_up` (utils/filescleanup.py:76-113) walks the raw-input directory and writes CSV files. It is I/O and is not modelled.
- Printed messages and warnings are not modelled. In `clean_up_df` the `APIcheck` argument only controls a warning, so `FilesCleanup.CleanUpDf` ignores it.
- `pow` with a real exponent, IEEE rounding, infinities and NaN from dividing by zero are not modelled. Reals are exact and `pow` is a parameter.
- RockProps.Mse: requires a non-zero area and ROP, where numpy would produce infinities.
- RockProps.Porosity, RockProps.CalculatePorosity: method 3 requires a non-zero denominator, where numpy would produce infinities.
- RockProps.Ccs, RockProps.YoungModulus, RockProps.Porosity, RockProps.CalculatePorosity, RockProps.Mse, Pressures.Hydrostatic, Pressures.ConfPres: require curves of equal length. numpy also accepts scalars and length-1 curves by broadcasting, and raises a ValueError for other mismatched lengths. Neither case is modelled.
- Preprocessing.MakeGenerator: reports a failed concatenation when the generator is built, whereas the Python generator raises it at the first `next`.
- Preprocessing.MakeGenerator: takes natural numbers for `min_index`, `lookback`, `delay`, `batch_size` and `step`. Negative arguments, and the wrap-around of negative numpy indices they would allow, are not modelled.
- The `shuffle=True` branch of `timeseries_generator` draws random rows and is not modelled.
- `input_output_split`, the configuration readers and the `__main__` drivers are not part of this model.
- Pandas column labels are strings here; non-string labels and boolean columns are not modelled.
- LogsMerge.MergeLogs: requires each source's table to have one column per key of its dict, in key order, as `get_log_reading_dict` produces them. Ragged or narrower tables are not modelled.
