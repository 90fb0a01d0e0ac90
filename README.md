# HDF5 dataset converter: verified model of its batching core

The converter (`src/converter.py`) takes numeric 3-D datasets out of an HDF5
file and can reverse a stored linear offset and scale. It writes each dataset
to a new HDF5 file as unsigned 16-bit integers. A dataset may not fit in
memory. So before saving, the converter searches for the smallest number of
row batches for which loading batch 0 (and correcting it, if asked) raises no
`MemoryError` or `ValueError`. It then saves every batch to its own file.

This Dafny project models the parts of that code that can be stated exactly:

- `Batching`: the row bounds of batch `b` out of `n`
  (`floor(b*R/n)` to `floor((b+1)*R/n)`), Python's clamping slice, and proofs
  about the plan. The batches are contiguous, cover every row exactly once,
  differ in size by at most one row, and laid end to end give the dataset back.
- `Probing`: the outcome of one sizing probe. "Load batch 0, then correct it
  if `corr` is set" becomes a function of two probe stages. `Settled` says
  where the sizing loop stops.
- `SavePaths`: the output name `<savepath>[-corr][_batch<i>].h5`, a parser
  for such names, and the round trip between the two.
- `KeyPaths`: Python's `str.split("/")` and `"/".join`, the parent group and
  leaf of a dataset key, and the names of the two conversion attributes.
- `Selection`: the toggle of the dropdown selection list.
- `Converter`: class `Data` with the fields `h5key`, `savepath`, `numBatches`
  and `dataset`, with methods `LoadDatasetBatch` and `FindNumBatches` and the
  read-only function `FullSavepath`. Class `Gui` is reduced to the
  `selectedH5keys` list and `SelectH5key`.

The file and the memory limit are not modelled. They come in as parameters:
`source` stands for the rows stored in the file under `h5key`, and `load` and
`correct` give the outcome of each probe stage as a function of the batch
count. The field `h5key` is kept for the object's shape; no member reads it,
and the key functions of `KeyPaths` take the key as a parameter.

Several functions carry no `ensures` of their own because the lemmas below
state their meaning: `Batching.BatchRows`, `Batching.JoinBatches`,
`Probing.ProbeWith`, `Probing.Settled`, `KeyPaths.Join`, `KeyPaths.Group`,
`KeyPaths.LinearOffsetAttribute`, `KeyPaths.LinearScaleAttribute`,
`SavePaths.ParseSavePath` and `Selection.Toggle`. Their rows below name the
lemmas that state what they mean.

Behaviour of the code worth noting:
- The code always uses the extension `.h5`.
- `find_num_batches` stores its result in `num_batches` and returns nothing.
- The sizing loop probes only batch 0, which holds `R/n` rows, the fewest of
  the plan; a later batch may hold `R/n + 1`. So the accepted count does not
  guarantee that every batch fits: a later batch one row larger can still
  raise `MemoryError` in `handle_batches`, where nothing catches it
  (`Probing.FirstBatchIsSmallest`, `Probing.LastBatchCanExceedProbe`).
- Only `ValueError` and `MemoryError` are retried. Any other error, such as
  h5py's `KeyError` for a missing conversion attribute or an `OSError` from
  opening the file, escapes the sizing loop and ends the search
  (`ProbeResult.Uncaught`).

## Model

| member | source | states |
|---|---|---|
| Batching.BatchStart | src/converter.py:40 | the first row of batch `b` is the floor of `b*R/n`: `n*s <= b*R < n*s + n` |
| Batching.BatchEnd | src/converter.py:41 | the end of batch `b` is the floor of `(b+1)*R/n`: `n*e <= (b+1)*R < n*e + n` |
| Batching.StartMonotone | src/converter.py:40 | batch starts never decrease with the batch index |
| Batching.BatchesContiguous | src/converter.py:40-41 | batch `b` ends exactly where batch `b+1` starts |
| Batching.BatchWithinDataset | src/converter.py:40-41 | for `b < n`, `0 <= start(b) <= end(b) <= R` |
| Batching.BatchesSpanDataset | src/converter.py:40-41 | `start(0) == 0` and `end(n-1) == R` |
| Batching.SingleBatchIsWhole | src/converter.py:40-41 | with one batch (the initial `num_batches`), the batch is rows `[0, R)` |
| Batching.BatchSizeBounds | src/converter.py:40-41 | every batch holds `R/n` or `R/n + 1` rows |
| Batching.BatchSizesBalanced | src/converter.py:40-41 | any two batches of a plan differ in size by at most one row |
| Batching.BatchesDisjoint | src/converter.py:40-41 | an earlier batch ends no later than a later one starts, so batches never overlap |
| Batching.RowCoveredBefore | src/converter.py:40-41 | every row below `start(k)` lies in one of batches `0..k-1` |
| Batching.RowInExactlyOneBatch | src/converter.py:40-41 | every row `< R` lies in one batch `< n`, and in only one |
| Batching.BatchRows | src/converter.py:40-42 | the rows `load_dataset_batch` reads; `BatchRowsExact` shows they are `rows[start(b)..end(b)]` inside the plan, `BatchRowsPastPlan` that they are empty past it |
| Batching.PySlice | src/converter.py:42 | the slice `s[i:j]`, clamped as Python slices clamp: its length after clamping both ends, and element `k` is `s[i+k]`; inside the plan no clamping happens |
| Batching.PySliceWithin | src/converter.py:42 | with `i <= j <= len(s)` the slice is the plain subsequence |
| Batching.BatchRowsExact | src/converter.py:40-42 | for `b < n` the loaded rows are exactly `rows[start(b)..end(b)]`: no clamping happens |
| Batching.BatchRowsPastPlan | src/converter.py:40-42 | for `b >= n` the clamped slice is empty; the converter never asks for such a batch |
| Batching.JoinBatches | src/converter.py:265-266 | the batches `0..k-1` laid end to end in the order `handle_batches` loads them; `JoinBatchesPrefix` and `BatchesReassemble` state what that gives |
| Batching.JoinBatchesPrefix | src/converter.py:265-266 | batches `0..k-1` laid end to end are exactly the rows before `start(k)` |
| Batching.BatchesReassemble | src/converter.py:265-266 | all batches of the plan, in index order, give back the whole dataset |
| Batching.HundredRowsInThreeBatches | src/converter.py:40-41 | 100 rows in 3 batches give rows 0-32, 33-65 and 66-99 |
| Probing.Probe | src/converter.py:49-51 | without correction the probe is just the load; a caught load failure is caught whatever `corr` is; a successful probe means the load succeeded |
| Probing.ProbeWith | src/converter.py:49-51 | the probe as a function of the batch count, the function `Settled` and `Converter.Data.FindNumBatches` read; `Probing.Probe` states its properties |
| Probing.Settled | src/converter.py:46-54 | where the sizing loop stops; `SettledUnique` shows the stopping count is unique and `Converter.Data.FindNumBatches` that the loop reaches it |
| Probing.SettledUnique | src/converter.py:46-54 | the count where sizing stops is unique: the first count whose probe is not caught |
| Probing.CorrectionNeedsAtLeastAsManyBatches | src/converter.py:49-54 | sizing with correction never settles on fewer batches than sizing without it |
| Probing.FirstBatchSize | src/converter.py:40-41 | the probed batch 0 has `R/n` rows |
| Probing.CeilingEventuallyFits | src/converter.py:47-54 | under any row ceiling, even zero rows, the load fits at `R + 1` batches, where batch 0 is empty |
| Probing.FirstBatchIsSmallest | src/converter.py:40-54 | the probed batch 0 is no larger than any other batch of the plan |
| Probing.LastBatchCanExceedProbe | src/converter.py:40-54 | 100 rows under a 33-row ceiling settle on 3 batches, yet batch 2 holds 34 rows |
| Probing.CeilingSizingStops | src/converter.py:46-54 | under any row ceiling, without correction or with a correction that is never retried, some count is not retried, so the sizing loop stops |
| Probing.HundredRowsSettleOnThree | src/converter.py:44-54 | 100 rows, a 34-row ceiling and correction: counts 1 and 2 fail, sizing settles on 3 |
| SavePaths.DigitChar | src/converter.py:92 | a digit below ten becomes the character of that digit |
| SavePaths.DigitValue | src/converter.py:92 | a digit character denotes a value below ten |
| SavePaths.DecimalString | src/converter.py:92 | `str(batch)` is non-empty, all digits, has no leading zero, and has one digit exactly when `batch < 10` |
| SavePaths.DecimalRoundTrip | src/converter.py:92 | reading back the decimal notation of `n` gives `n` |
| SavePaths.DecimalInjective | src/converter.py:92 | distinct batch indices have distinct decimal notations |
| SavePaths.SavePath | src/converter.py:86-94 | the save path starts with `savepath` and ends with `.h5` |
| SavePaths.ParseSavePath | src/converter.py:86-94 | reads a name back as flag and index; `SavePathRoundTrip` and `SavePathInjective` show it inverts `SavePath` |
| SavePaths.SuffixesOf | src/converter.py:89-92 | between base and extension stand exactly the optional `-corr` and the optional `_batch<i>` |
| SavePaths.SuffixesRoundTrip | src/converter.py:89-92 | the optional `-corr` and `_batch<i>` suffixes read back as the flag and, when present, the index |
| SavePaths.SavePathRoundTrip | src/converter.py:86-94 | the name reads back as the `-corr` flag, and as the batch index exactly when `num_batches > 1`; with one batch it has no batch suffix |
| SavePaths.SavePathInjective | src/converter.py:86-94 | equal names from one base mean equal flags and, with `num_batches > 1`, equal batch indices |
| SavePaths.SavePathExamples | src/converter.py:86-94 | `/out/x.h5`, `/out/x-corr.h5`, `/out/x_batch2.h5`, `/out/x-corr_batch3.h5` for the four flag/count cases |
| SavePaths.ThreeCorrectedBatchNames | src/converter.py:86-94 | three corrected batches are saved as `base-corr_batch0.h5`, `base-corr_batch1.h5`, `base-corr_batch2.h5` |
| KeyPaths.Join | src/converter.py:62 | `"/".join(parts)`; `JoinSplit` and `SplitJoin` show it inverts `Split` |
| KeyPaths.Split | src/converter.py:62-63 | `key.split("/")` has at least one piece, and no piece holds a `/` |
| KeyPaths.JoinSplit | src/converter.py:62-63 | joining the pieces of a key with `/` gives the key back |
| KeyPaths.SplitAppend | src/converter.py:62-63 | splitting `s + "/" + t`, with `t` free of `/`, gives the pieces of `s` followed by `t` |
| KeyPaths.SplitNoSeparator | src/converter.py:62-63 | a key without `/` is one piece |
| KeyPaths.SplitJoin | src/converter.py:62-63 | splitting a join of `/`-free pieces gives the pieces back |
| KeyPaths.SplitLength | src/converter.py:62-63 | a key splits into two or more pieces exactly when it contains `/` |
| KeyPaths.Leaf | src/converter.py:63 | the leaf `key.split("/")[-1]` contains no `/` |
| KeyPaths.Group | src/converter.py:62 | the parent group `"/".join(key.split("/")[0:-1])`; `GroupLeaf` shows that group, `/` and leaf give the key back |
| KeyPaths.GroupLeaf | src/converter.py:62-63 | with a `/`, `group + "/" + leaf == key`; without one, the group is empty and the leaf is the key |
| KeyPaths.LinearOffsetAttribute | src/converter.py:62-64 | where the offset is read: the group of the key and the leaf plus `_Conversion_ConversionLinearOffset`, as `AttributesLocateDataset` states |
| KeyPaths.LinearScaleAttribute | src/converter.py:70-72 | where the scale is read: the group of the key and the leaf plus `_Conversion_ConversionLinearScale`, as `AttributesLocateDataset` states |
| KeyPaths.AttributesLocateDataset | src/converter.py:62-72 | each attribute name is the leaf plus `_Conversion_ConversionLinearOffset` or `_Conversion_ConversionLinearScale`; with the group it gives the key back |
| KeyPaths.OffsetNeverScale | src/converter.py:64-72 | an offset attribute name never equals a scale attribute name |
| KeyPaths.AttributesDistinguishKeys | src/converter.py:62-72 | two keys that both hold a `/`, or both hold none, and share the offset (or scale) attribute location are the same key |
| KeyPaths.LeadingSeparatorCollides | src/converter.py:62-72 | `/x` and `x` share both attribute locations: a key with a `/` and one without can collide |
| Selection.RemoveFirst | src/converter.py:213 | `list.remove` on a present key: the list becomes one shorter; for an absent key, where Python raises `ValueError`, the model leaves the list unchanged |
| Selection.RemoveFirstMultiset | src/converter.py:213 | removal takes exactly one occurrence of the key out of the multiset of keys |
| Selection.FirstIndex | src/converter.py:213 | the index of the first occurrence of a present key |
| Selection.RemoveFirstCutsFirstOccurrence | src/converter.py:213 | removal cuts out exactly the first occurrence and keeps the others in order |
| Selection.Toggle | src/converter.py:209-214 | what selecting a key does; `ToggleMembership`, `ToggleKeepsNoDuplicates` and `ToggleTwiceRestores` state its meaning |
| Selection.NoDuplicatesCountsOnce | src/converter.py:209-214 | a duplicate-free list holds each key at most once |
| Selection.ToggleMembership | src/converter.py:209-214 | after a toggle, the key is selected iff it was not before, and other keys are unaffected |
| Selection.RemoveFirstKeepsNoDuplicates | src/converter.py:213 | removal keeps a list duplicate-free |
| Selection.ToggleKeepsNoDuplicates | src/converter.py:209-214 | a toggle keeps the selection duplicate-free |
| Selection.RemoveFirstAfter | src/converter.py:213 | removing a key that occurs only at the end gives the list before it was appended |
| Selection.ToggleTwiceRestores | src/converter.py:209-214 | toggling an absent key twice restores the original list |
| Converter.Data.constructor | src/converter.py:15-21 | a new converter has no key and one batch |
| Converter.Data.LoadDatasetBatch | src/converter.py:36-42 | `dataset` becomes the rows of the batch; inside the plan it is exactly the row range, holding `R/n` or `R/n+1` rows; past the plan it is empty |
| Converter.Data.FindNumBatches | src/converter.py:44-54 | the search starts at one batch and adds one per caught failure; it ends at the first count whose probe is not caught, and every smaller count failed |
| Converter.Data.FullSavepath | src/converter.py:86-94 | reads only `savepath` and `numBatches` (its frame names just those two fields); the name starts with `savepath` and reads back as the flag and, when split, the batch index |
| Converter.Gui.constructor | src/converter.py:123 | the selection starts empty |
| Converter.Gui.SelectH5key | src/converter.py:207-215 | appends an absent key at the end, removes a present one, and keeps the selection duplicate-free |

## Left out

- HDF5 access is not modelled: `load_h5keys`, reading the slice, reading attributes, and `save_dataset` creating files. The rows under a key are passed in as `source`, and the probe outcomes as functions.
- `linear_correction` (the scale-times-data-plus-offset arithmetic) and the `uint16` cast in `save_dataset` are left out. Both are numpy floating-point operations. Correction appears only as the probe outcome `correct`.
- Batching.BatchStart: Python computes `int(batch * size / num_batches)` in floating point and then truncates. The model uses exact floor division, which gives the same result while `batch * size` stays below 2^53.
- Batching.BatchEnd: the same floating-point caveat as `BatchStart`.
- Converter.Data.FindNumBatches: it requires some batch count whose probe is not caught. In the source the loop never ends without one, and the model cannot express non-termination.
- Converter.Data.FindNumBatches: the probe's own writes to `dataset` are not modelled. The loaded batch 0 is discarded anyway, and the method changes only `numBatches`.
- Converter.Data.constructor: the `loadpath` and `savepath` keyword arguments, which default to `None`, are not modelled. `savepath` starts as the empty string, and the front-end always sets it before a save. `h5keys` and `loadpath` belong to the HDF5 side and are not fields of the model.
- Converter.Data.constructor: `dataset` starts as the empty sequence; the source object has no `dataset` attribute until the first load.
- Converter.Data.LoadDatasetBatch: batch indices are natural numbers; the callers pass only `0` and `range(num_batches)`.
- The Tkinter front-end is left out: window, menus, dropdown, labels, file dialogs, timing with `time.time()`, `Path` joining, `check_number_of_datasets`, `single_dataset` and `multiple_datasets`. Only the selection toggle is modelled.
- `handle_batches` (the per-batch load/correct/save loop) is not modelled as a method. `Batching.BatchesReassemble` states what loading the batches in index order yields.
- Selection.RemoveFirst: Python's `list.remove` raises `ValueError` for an absent key; the model returns the list unchanged; `select_h5key` only removes a key that is present.
- Converter.Gui.SelectH5key: the label updates and the dropdown redraw are left out.
