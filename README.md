# RSNA 2024 keypoint targets and composite losses, in Dafny

This project models two parts of an RSNA 2024 lumbar spine pipeline.

- The sagittal keypoint datasets build training targets. Each
  `__getitem__` produces a five-channel heatmap with one Gaussian stamp
  per intervertebral level (L1/L2 … L5/S1) and a five-entry keypoint list.
  The multi-slice variant first finds the annotated slice among a series'
  files and picks `num_slices` neighbours around it.
- The stage-2 losses:
  - `FocalLoss`: reduction check, flattening of spatial inputs, removal of
    ignored rows, reduction;
  - `ConsistencyLoss`: reduction of the consistency term;
  - `RSNA2024Loss`: criterion built from a configuration dictionary, and
    aggregation of per-(condition, level) and per-level losses in
    `forward`.

Modules, one per concern:

| module | file | contents |
|---|---|---|
| `PyOps` | `pyops.dfy` | Python/numpy semantics used by the code: `int()` truncation, `round()` half to even, `np.clip`, slice-bound normalisation, `Option`/`Result` |
| `Gaussian` | `gaussian.dfy` | `draw_gaussian` on a 2D array (`array2<real>`), proved equal to a value-level `Stamp` of the old canvas |
| `SliceSelect` | `slices.dfy` | `num_slices` check, instance number from a file stem, base-slice search, `_select_n_elements` |
| `KeypointTargets` | `targets.dfy` | radius, heatmap channels (fresh arrays stamped in place), keypoint list, both `__getitem__` variants |
| `Losses` | `focal.dfy` | `FocalLoss` and `ConsistencyLoss` with abstract numerical kernels |
| `CompositeLoss` | `composite.dfy` | `RSNA2024Loss.__init__` (pure and in-place), `forward` |

Source paths in the table are relative to the repository root.

## Model

| member | source | states |
|---|---|---|
| PyOps.TruncToInt | src/stage1/moyashii/sagittal/source/datasets/rsna2024_keypoint_dataset.py:192 | `astype(int)` / `int()` truncate toward zero: the result lies within 1 of `x` on the side of 0 |
| PyOps.RoundHalfEven | src/stage1/moyashii/sagittal/source/datasets/rsna2024_keypoint_dataset.py:63 | `round()` picks an integer within 0.5 of `x`; on an exact tie the even one |
| PyOps.Clip | src/stage1/moyashii/sagittal/source/datasets/rsna2024_keypoint_dataset.py:195 | `np.clip` result is in `[lo, hi]`; equals `v` inside, `lo` below, `hi` above |
| PyOps.SliceBound | src/stage1/moyashii/sagittal/source/datasets/rsna2024_keypoint_dataset.py:70-71 | a normalised slice bound lies within `[0, len]` |
| Gaussian.ZeroGrid | src/stage1/moyashii/sagittal/source/datasets/rsna2024_keypoint_dataset.py:129 | `np.zeros` canvas has the requested shape and every cell is 0 |
| Gaussian.StampedCell | src/stage1/moyashii/sagittal/source/datasets/rsna2024_keypoint_dataset.py:67-73 | a stamped cell never decreases; it changes only within `r` of the centre on both axes, and there it is at least `k` times the kernel cell at the same offset and equals either that or its old value |
| Gaussian.Stamp | src/stage1/moyashii/sagittal/source/datasets/rsna2024_keypoint_dataset.py:59-74 | a stamp keeps the canvas shape and updates every cell as `StampedCell` says |
| Gaussian.AxisWindow | src/stage1/moyashii/sagittal/source/datasets/rsna2024_keypoint_dataset.py:67-71 | both slices stay within canvas and kernel; when both are non-empty they have the same length |
| Gaussian.AxisWindowExact | src/stage1/moyashii/sagittal/source/datasets/rsna2024_keypoint_dataset.py:67-72 | both slices are non-empty exactly when the canvas meets `[c-r, c+r]`; the canvas slice is then that range clipped to the canvas, and the kernel slice is that range shifted by `r - c` |
| Gaussian.WindowIsNear | src/stage1/moyashii/sagittal/source/datasets/rsna2024_keypoint_dataset.py:70-71 | a canvas position is in the canvas slice exactly when it is within `r` of the centre; it pairs with the kernel cell at the same offset |
| Gaussian.MaxIntoRow | src/stage1/moyashii/sagittal/source/datasets/rsna2024_keypoint_dataset.py:73 | `np.maximum(..., out=...)` on one row: columns `lo..hi-1` of row `i` take the max with `k`·kernel; every other cell is unchanged |
| Gaussian.WindowMax | src/stage1/moyashii/sagittal/source/datasets/rsna2024_keypoint_dataset.py:73 | max-combining the two slices keeps the shape and acts cell by cell only inside the window |
| Gaussian.MaxIntoWindow | src/stage1/moyashii/sagittal/source/datasets/rsna2024_keypoint_dataset.py:70-73 | the in-place maximum over the window leaves the array's cells equal to `WindowMax` of the old cells |
| Gaussian.WindowCellIsStamped | src/stage1/moyashii/sagittal/source/datasets/rsna2024_keypoint_dataset.py:70-73 | with both windows non-empty, each cell of the window maximum equals the stamped cell |
| Gaussian.WindowMaxIsStamp | src/stage1/moyashii/sagittal/source/datasets/rsna2024_keypoint_dataset.py:70-73 | with both windows non-empty, the window maximum is exactly one `Stamp` around the centre |
| Gaussian.StampOffCanvas | src/stage1/moyashii/sagittal/source/datasets/rsna2024_keypoint_dataset.py:67-72 | a centre more than `r` off the canvas on some axis (or an empty canvas) leaves it unchanged, matching the skipped `np.maximum` |
| Gaussian.DrawGaussian | src/stage1/moyashii/sagittal/source/datasets/rsna2024_keypoint_dataset.py:59-74 | `draw_gaussian` updates the canvas in place to `Stamp` of its old cells at the rounded centre |
| Gaussian.CellsAre | src/stage1/moyashii/sagittal/source/datasets/rsna2024_keypoint_dataset.py:73 | an array whose cells agree with a grid has that grid as its contents |
| Gaussian.StampIdempotent | src/stage1/moyashii/sagittal/source/datasets/rsna2024_keypoint_dataset.py:73 | drawing the same keypoint twice equals drawing it once |
| Gaussian.StampCommutes | src/stage1/moyashii/sagittal/source/datasets/rsna2024_keypoint_dataset.py:132-136 | two stamps on one channel commute, so keypoint order does not affect the heatmap |
| SliceSelect.NewSliceConfig | src/stage1/moyashii/sagittal/source/datasets/rsna2024_keypoint_dataset.py:165-168 | an even `num_slices` is rejected, and any odd one is kept, negative included; an odd count is non-zero and `(n-1)/2 == n//2` |
| SliceSelect.FirstIndexOf | src/stage1/moyashii/sagittal/source/datasets/rsna2024_keypoint_dataset.py:209 | returns the first occurrence of a character, or None exactly when it is absent |
| SliceSelect.SecondField | src/stage1/moyashii/sagittal/source/datasets/rsna2024_keypoint_dataset.py:209 | `split('_')[1]` fails exactly when the stem has no `_`; the field itself has no `_` |
| SliceSelect.FirstIndexAt | src/stage1/moyashii/sagittal/source/datasets/rsna2024_keypoint_dataset.py:209 | a character with none before it is the first occurrence |
| SliceSelect.SecondFieldOfJoined | src/stage1/moyashii/sagittal/source/datasets/rsna2024_keypoint_dataset.py:209 | splitting `a_b` or `a_b_rest` on `_` gives back `b` |
| SliceSelect.ParseInt | src/stage1/moyashii/sagittal/source/datasets/rsna2024_keypoint_dataset.py:209 | `int()` succeeds exactly on an optionally signed, non-empty digit string |
| SliceSelect.Decimal | src/stage1/moyashii/sagittal/source/datasets/rsna2024_keypoint_dataset.py:209 | a numeral is a non-empty digit string |
| SliceSelect.ParseDecimal | src/stage1/moyashii/sagittal/source/datasets/rsna2024_keypoint_dataset.py:209 | round trip: `int(str(n)) == n` and `int("-" + str(n)) == -n` |
| SliceSelect.DigitsOfDecimal | src/stage1/moyashii/sagittal/source/datasets/rsna2024_keypoint_dataset.py:209 | the digit value of the numeral of `n` is `n` |
| SliceSelect.Zeros | src/stage1/moyashii/sagittal/source/datasets/rsna2024_keypoint_dataset.py:209 | a run of `k` zeros is a digit string of length `k` |
| SliceSelect.ZerosValue | src/stage1/moyashii/sagittal/source/datasets/rsna2024_keypoint_dataset.py:209 | a run of zeros has value 0 |
| SliceSelect.LeadingZerosValue | src/stage1/moyashii/sagittal/source/datasets/rsna2024_keypoint_dataset.py:209 | leading zeros do not change the value of a digit string |
| SliceSelect.ParseZeroPadded | src/stage1/moyashii/sagittal/source/datasets/rsna2024_keypoint_dataset.py:209 | a zero-padded field such as `0007` parses to the number it pads |
| SliceSelect.InstanceNumber | src/stage1/moyashii/sagittal/source/datasets/rsna2024_keypoint_dataset.py:209 | an instance number is found only in a stem with `_` |
| SliceSelect.InstanceNumberOfStem | src/stage1/moyashii/sagittal/source/datasets/rsna2024_keypoint_dataset.py:209 | a stem `series_n` or `series_n_rest` has instance number `n` |
| SliceSelect.InstanceNumberOfPaddedStem | src/stage1/moyashii/sagittal/source/datasets/rsna2024_keypoint_dataset.py:209 | a zero-padded stem such as `series_0007` or `series_0007_rest` has instance number `7` in general form |
| SliceSelect.FirstMatchUnique | src/stage1/moyashii/sagittal/source/datasets/rsna2024_keypoint_dataset.py:208-212 | the search result is unique |
| SliceSelect.FindBaseIndex | src/stage1/moyashii/sagittal/source/datasets/rsna2024_keypoint_dataset.py:205-213 | the loop returns the first position whose instance number matches, every earlier stem having parsed; else an unparsable stem with all earlier stems parsed and unequal, or no match when every stem parses and differs; any failure means no first match exists |
| SliceSelect.ResolveBaseIndex | src/stage1/moyashii/sagittal/source/datasets/rsna2024_keypoint_dataset.py:206-229 | fails exactly when no first match exists, `use_center` included; otherwise the base is `len // 2` with `use_center` and the first match without it; it is always a valid position |
| SliceSelect.Linspace | src/stage1/moyashii/sagittal/source/datasets/rsna2024_keypoint_dataset.py:192 | `np.linspace` has `num` points, the first being `start` |
| SliceSelect.SelectIndices | src/stage1/moyashii/sagittal/source/datasets/rsna2024_keypoint_dataset.py:187-195 | `n` positions, each a valid index into the list |
| SliceSelect.LinspaceUnitStep | src/stage1/moyashii/sagittal/source/datasets/rsna2024_keypoint_dataset.py:192 | with `num - 1` unit gaps, point `i` is `start + i` |
| SliceSelect.SelectIndicesOdd | src/stage1/moyashii/sagittal/source/datasets/rsna2024_keypoint_dataset.py:191-195 | for odd `n`, position `i` is `clip(base - n//2 + i, 0, len-1)` |
| SliceSelect.SelectIndicesOddShape | src/stage1/moyashii/sagittal/source/datasets/rsna2024_keypoint_dataset.py:187-198 | for odd `n` the positions never decrease; the middle one is the clipped base; away from the ends they are the `n` consecutive slices around the base |
| SliceSelect.SelectThreeAtStart | src/stage1/moyashii/sagittal/source/datasets/rsna2024_keypoint_dataset.py:187-198 | three slices around the first of five are `[0, 0, 1]` (the edge slice is repeated) |
| SliceSelect.SelectNElements | src/stage1/moyashii/sagittal/source/datasets/rsna2024_keypoint_dataset.py:187-198 | succeeds exactly for `n >= 0` on a non-empty list (or `n == 0`); the result has `n` elements, element `i` is `lst[SelectIndices[i]]`, all drawn from the list |
| KeypointTargets.Radius | src/stage1/moyashii/sagittal/source/datasets/rsna2024_keypoint_dataset.py:130-131 | `max(0, int(radius))` is 0 below 1, else the floor of the radius |
| KeypointTargets.Augment | src/stage1/moyashii/sagittal/source/datasets/rsna2024_keypoint_dataset.py:122-126 | without a transform the frame is unchanged; with one, the transform's output (image shape, keypoints and labels) replaces it |
| KeypointTargets.CentreOf | src/stage1/moyashii/sagittal/source/datasets/rsna2024_keypoint_dataset.py:134-135 | the drawn centre is within 0.5 of the keypoint divided by the stride, on both axes |
| KeypointTargets.Centres | src/stage1/moyashii/sagittal/source/datasets/rsna2024_keypoint_dataset.py:132-136 | a channel gets no stamp exactly when no keypoint has its level |
| KeypointTargets.StampAll | src/stage1/moyashii/sagittal/source/datasets/rsna2024_keypoint_dataset.py:132-136 | drawing a sequence of stamps keeps the canvas shape |
| KeypointTargets.UnlabelledChannelIsZero | src/stage1/moyashii/sagittal/source/datasets/rsna2024_keypoint_dataset.py:129-136 | a level with no keypoint has an all-zero channel |
| KeypointTargets.StampAllInUnitRange | src/stage1/moyashii/sagittal/source/datasets/rsna2024_keypoint_dataset.py:129-136 | with a kernel in [0, 1] every heatmap cell stays in [0, 1] |
| KeypointTargets.SinglePeak | src/stage1/moyashii/sagittal/source/datasets/rsna2024_keypoint_dataset.py:59-74 | one on-canvas keypoint with a kernel peaking at its centre puts the channel maximum at that keypoint, with the peak value |
| KeypointTargets.LastIndexOf | src/stage1/moyashii/sagittal/source/datasets/rsna2024_keypoint_dataset.py:141-144 | returns the last keypoint of a level, or None exactly when the level has none |
| KeypointTargets.FillKeypoints | src/stage1/moyashii/sagittal/source/datasets/rsna2024_keypoint_dataset.py:141-144 | five entries: each level's last surviving keypoint, or `(-1, -1)` when it has none |
| KeypointTargets.ZeroChannels | src/stage1/moyashii/sagittal/source/datasets/rsna2024_keypoint_dataset.py:129 | five fresh, distinct zero channels of the given shape |
| KeypointTargets.ChannelStep | src/stage1/moyashii/sagittal/source/datasets/rsna2024_keypoint_dataset.py:132-136 | one more keypoint stamps only the channel of its level |
| KeypointTargets.StampKeypoint | src/stage1/moyashii/sagittal/source/datasets/rsna2024_keypoint_dataset.py:133-136 | one loop iteration stamps the keypoint's channel at the keypoint divided by the stride; the other channels are unchanged |
| KeypointTargets.DrawNext | src/stage1/moyashii/sagittal/source/datasets/rsna2024_keypoint_dataset.py:132-136 | after keypoint `n` is drawn, every channel holds the stamps of the first `n + 1` keypoints of its level |
| KeypointTargets.ChannelStepAt | src/stage1/moyashii/sagittal/source/datasets/rsna2024_keypoint_dataset.py:132-136 | keypoint `n` stamps its own level's channel on top of the first `n` and leaves the others as they were |
| KeypointTargets.BuildHeatmap | src/stage1/moyashii/sagittal/source/datasets/rsna2024_keypoint_dataset.py:128-136 | each channel of the `(h//stride)×(w//stride)` heatmap equals the zero canvas stamped at that level's keypoints in order |
| KeypointTargets.FrameV1 | src/stage1/moyashii/sagittal/source/datasets/rsna2024_keypoint_dataset.py:114-120 | one keypoint per level, in level order; the frame keeps the image's height and width; each coordinate is an integer within 0.5 of the annotated one (`round`) |
| KeypointTargets.GetItemV1 | src/stage1/moyashii/sagittal/source/datasets/rsna2024_keypoint_dataset.py:108-145 | heatmap and keypoint list of the augmented frame, as `BuildHeatmap` and `FillKeypoints` state |
| KeypointTargets.FrameV2 | src/stage1/moyashii/sagittal/source/datasets/rsna2024_keypoint_dataset.py:242-247 | normalised keypoints on a 512×512 frame, one per level, in level order |
| KeypointTargets.GetItemV2 | src/stage1/moyashii/sagittal/source/datasets/rsna2024_keypoint_dataset.py:200-277 | fails exactly when the base-slice search fails or `num_slices < 0`; otherwise the slices are `_select_n_elements` around a base meeting `ResolveBaseIndex`, with targets as in the single-slice variant |
| Losses.SumAppend | src/stage2/suguuuuu/source/models/utils/loss.py:144 | the sum of a concatenation is the sum of the parts |
| Losses.NewFocalLoss | src/stage2/suguuuuu/source/models/utils/loss.py:91-99 | fails exactly for a reduction outside `mean`/`sum`/`none`, each mapping to its own reduction; `ignore_index` is kept |
| Losses.FlattenLogits | src/stage2/suguuuuu/source/models/utils/loss.py:112-115 | the reshape gives `N·D` rows |
| Losses.FlattenLabels | src/stage2/suguuuuu/source/models/utils/loss.py:116-117 | the `view(-1)` gives `N·D` labels |
| Losses.FlattenPairing | src/stage2/suguuuuu/source/models/utils/loss.py:112-117 | logit `(n, k, j)` goes to row `n·D + j`, column `k`, and label `(n, j)` to position `n·D + j`, so rows and labels stay paired |
| Losses.Rows | src/stage2/suguuuuu/source/models/utils/loss.py:112-115 | 2D logits are used as given; spatial logits become `N·D` rows of `C` logits |
| Losses.Labels | src/stage2/suguuuuu/source/models/utils/loss.py:112-117 | there are as many labels as logit rows |
| Losses.Unignored | src/stage2/suguuuuu/source/models/utils/loss.py:119-120 | the mask keeps exactly the positions whose label is not `ignore_index`, in increasing order |
| Losses.MaskedLosses | src/stage2/suguuuuu/source/models/utils/loss.py:119-128 | the kept losses are empty exactly when every label is ignored |
| Losses.Gather | src/stage2/suguuuuu/source/models/utils/loss.py:120-139 | one loss per gathered position |
| Losses.GatherPrefix | src/stage2/suguuuuu/source/models/utils/loss.py:119-123 | gathering below `n` reads only the first `n` rows |
| Losses.GatherSnoc | src/stage2/suguuuuu/source/models/utils/loss.py:119-123 | one more position appends its row's loss |
| Losses.MaskThenLoss | src/stage2/suguuuuu/source/models/utils/loss.py:119-139 | masking rows and labels with one mask, then taking per-row losses, equals the reference list of losses of unignored rows in order |
| Losses.FocalForward | src/stage2/suguuuuu/source/models/utils/loss.py:111-146 | all rows ignored gives 0 for every reduction; otherwise the mean, sum or list of the kept rows' losses |
| Losses.ConsistencyItems | src/stage2/suguuuuu/source/models/utils/loss.py:19-23 | item `i` is `alpha · (sim1[i] + sim2[i])` |
| Losses.ConsistencySum | src/stage2/suguuuuu/source/models/utils/loss.py:52-56 | the items sum to `alpha` times the two similarity sums |
| Losses.ConsistencyPrefix | src/stage2/suguuuuu/source/models/utils/loss.py:52 | the items of a prefix are the prefix of the items |
| Losses.ConsistencyForward | src/stage2/suguuuuu/source/models/utils/loss.py:46-58 | `mean` is NaN on an empty batch and otherwise `alpha`·(sum1+sum2)/N; `sum` is `alpha`·(sum1+sum2); any other reduction gives the items |
| CompositeLoss.FocalCriterion | src/stage2/suguuuuu/source/models/utils/loss.py:173-177 | an unexpected keyword is rejected exactly when a key is outside the parameters; a bad reduction exactly when it is present and not one of the three; the configuration builds exactly when every key is a parameter, the reduction (if given) is one of the three and `ignore_index` (if given) is an integer; the reduction then maps as given (default `mean`) and `ignore_index` defaults to -100 |
| CompositeLoss.BuildCriterion | src/stage2/suguuuuu/source/models/utils/loss.py:167-179 | `CrossEntropyLoss` builds cross-entropy with the remaining options, `FocalLoss` builds exactly what `FocalCriterion` gives for them (its rejections included), and any other name is unsupported |
| CompositeLoss.NewRsna2024Loss | src/stage2/suguuuuu/source/models/utils/loss.py:150-183 | fails with a missing name exactly when `name` is absent; otherwise fails exactly when building the criterion from the other entries fails, with that error, and on success uses that criterion; it stores the fields and defaults condition weights to 1.0 per condition |
| CompositeLoss.FocalConfigurations | src/stage2/suguuuuu/source/models/utils/loss.py:173-177 | with name `FocalLoss`, reduction `bad` is rejected, an unknown keyword is rejected, and `reduction=sum, gamma=2` builds that focal criterion with `ignore_index` -100 |
| CompositeLoss.DefaultsBuild | src/stage2/suguuuuu/source/models/utils/loss.py:152-183 | the all-defaults loss is cross-entropy with weight `[1, 2, 4]` and five unit condition weights |
| CompositeLoss.ConfigDict.constructor | src/stage2/suguuuuu/source/models/utils/loss.py:155 | a dictionary object holds the given entries |
| CompositeLoss.InitInPlace | src/stage2/suguuuuu/source/models/utils/loss.py:167-183 | `__init__` as written removes `name` from the caller's dictionary and builds what `NewRsna2024Loss` builds from the dictionary as it was |
| CompositeLoss.DefaultDictionaryReused | src/stage2/suguuuuu/source/models/utils/loss.py:155-167 | with the shared default dictionary, the first construction succeeds and the second fails with a missing name |
| CompositeLoss.Partials | src/stage2/suguuuuu/source/models/utils/loss.py:194-199 | there is one partial loss per (condition, level) pair |
| CompositeLoss.WeightedRow | src/stage2/suguuuuu/source/models/utils/loss.py:195-199 | one weighted partial per level |
| CompositeLoss.CondRow | src/stage2/suguuuuu/source/models/utils/loss.py:196-198 | one criterion value per level |
| CompositeLoss.PartialsAt | src/stage2/suguuuuu/source/models/utils/loss.py:194-199 | partial `c·L + l` is `criterion(c, l)` times the weight of condition `c` |
| CompositeLoss.WeightedRowStep | src/stage2/suguuuuu/source/models/utils/loss.py:195-199 | the inner loop appends one weighted partial per level |
| CompositeLoss.WeightedRowSum | src/stage2/suguuuuu/source/models/utils/loss.py:198 | a condition's weighted partials sum to its weight times its criterion sum |
| CompositeLoss.PartialsSum | src/stage2/suguuuuu/source/models/utils/loss.py:194-201 | the partials sum to the condition-weighted sum of criterion values |
| CompositeLoss.WeightedSumStep | src/stage2/suguuuuu/source/models/utils/loss.py:194-201 | each condition adds the sum of its weighted row to the weighted sum |
| CompositeLoss.PartialsSumStep | src/stage2/suguuuuu/source/models/utils/loss.py:194-201 | each condition adds the sum of its weighted row to the partials' sum |
| CompositeLoss.OverallIsWeightedMean | src/stage2/suguuuuu/source/models/utils/loss.py:194-201 | the overall loss is the condition-weighted sum divided by the number of pairs |
| CompositeLoss.Average | src/stage2/suguuuuu/source/models/utils/loss.py:201 | the mean of a non-empty list times its length is its sum |
| CompositeLoss.QualifyingLevels | src/stage2/suguuuuu/source/models/utils/loss.py:207-210 | exactly the levels with a target other than -100, in increasing order |
| CompositeLoss.Counted | src/stage2/suguuuuu/source/models/utils/loss.py:210 | a level column counts exactly when some entry is not -100 |
| CompositeLoss.LevelLosses | src/stage2/suguuuuu/source/models/utils/loss.py:206-212 | one loss per qualifying level |
| CompositeLoss.LevelLossesStep | src/stage2/suguuuuu/source/models/utils/loss.py:207-212 | one more level appends its loss exactly when it qualifies |
| CompositeLoss.LevelLossesSnoc | src/stage2/suguuuuu/source/models/utils/loss.py:212 | appending a level appends its loss |
| CompositeLoss.CollectPartials | src/stage2/suguuuuu/source/models/utils/loss.py:193-199 | the nested loops fail (index out of range) exactly when a pair lies beyond the logits' axes or `condition_weight`; otherwise they return `Partials` |
| CompositeLoss.CollectLevelLosses | src/stage2/suguuuuu/source/models/utils/loss.py:206-212 | the level loop fails exactly when a level lies beyond the level inputs; otherwise it returns the losses of the qualifying levels |
| CompositeLoss.Forward | src/stage2/suguuuuu/source/models/utils/loss.py:185-225 | fails exactly as `ForwardFailure` says, with that error; otherwise overall is the mean of the partials, the level loss the mean over qualifying levels (0 when the level weight is not positive), and the total their weighted sum |

## Left out

- `gaussian_radius` and `gaussian2D` compute in floating point. The radius (a real) and the kernel (a `(2r+1)×(2r+1)` array) are inputs. Kernel values enter only through `SinglePeak` and `StampAllInUnitRange`.
- Image reading, resizing, stacking, dtype casts and transposes are not modelled. An image is represented by its height and width. The multi-slice frame is 512×512.
- The series' file stems are taken as an already sorted sequence. Directory listing is I/O.
- The augmentation transform is an arbitrary function on a frame. Its labels are level indices, so the `_labels` lookup cannot fail in the model.
- `KeypointTargets.GetItemV1` and `KeypointTargets.GetItemV2` require `stride > 0`. A zero stride raises `ZeroDivisionError` in Python. The stride is a natural number, so a negative stride is not modelled either; with a non-empty image it gives negative heatmap dimensions, and `np.zeros` raises `ValueError`.
- `__len__`, `__repr__`, `DatasetPhase`, the `study_id` passthrough and the `__main__` block are not modelled.
- `SliceSelect.Linspace` computes in exact reals. For an even count, float rounding before truncation could differ. The constructor rejects even counts.
- `SliceSelect.ParseInt` does not accept surrounding whitespace, `_` digit separators or non-ASCII digits, all of which Python's `int()` allows.
- Numerical kernels are abstract functions:
  - log-softmax, the weighted NLL term and the `(1 - pt)^gamma` factor, as a per-row loss;
  - cosine similarity and `criterion_global_consistency`, as per-item similarities;
  - `nn.CrossEntropyLoss`.
- `Losses.FocalForward` takes the per-row loss as a total function. A kept label outside `[0, C)` makes `NLLLoss` raise in Python; the model gives it a value instead.
- `Losses.FocalForward` requires labels shaped like the logits (`WellShaped`). In Python a mismatched label shape raises at the mask.
- `Losses.ConsistencyItems` and `Losses.ConsistencyForward` require two similarity lists of the same length. In Python a one-item batch broadcasts against a longer one, and other mismatched lengths raise.
- `BFWithLogitsLoss` only forwards to `sigmoid_focal_loss`, a library function. It is not modelled.
- `CompositeLoss.FocalCriterion` rejects a non-integer `ignore_index` (`BadIgnoreIndex`). Python stores any value there.
- `CompositeLoss.NewRsna2024Loss` does not validate cross-entropy keywords, which the library does. It does not model the conversion of `weight` and `alpha` lists to tensors, which leaves their values unchanged.
- `CompositeLoss.NewRsna2024Loss` accepts any configuration value as `weight` or `alpha`. In Python `torch.tensor` raises on a non-numeric value there.
- `CompositeLoss.Forward` treats each criterion value as a scalar. A criterion with reduction `none` gives vectors, and the stack-then-mean of vectors is not modelled.
- `CompositeLoss.Forward` takes one `LogitShape` for both `logits` and `targets`. A `targets` tensor whose condition or level axis is shorter than the logits' raises `IndexError` in Python, and the model cannot express that case.
- `CompositeLoss.Forward` takes `level_logits` and `level_targets` as one optional input. Passing only one of them is modelled as passing neither.
- `.item()`, autograd and floating-point rounding in means and sums are not modelled. All arithmetic is exact.

## Findings

| source | as written | input that shows it | evidently intended | confidence | as-written member | corrected member |
|---|---|---|---|---|---|---|
| src/stage2/suguuuuu/source/models/utils/loss.py:155-167 | The default `ce_loss` is one dictionary shared by every call, and `__init__` removes its `name` entry with `pop` | Two constructions `RSNA2024Loss()`: the second raises `KeyError: 'name'` | Every default construction builds the weighted cross-entropy criterion | not executed | CompositeLoss.DefaultDictionaryReused | CompositeLoss.NewRsna2024Loss |
