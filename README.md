# Deconvolver core, modelled in Dafny

This project models the restoration run of the light-sheet deconvolver
(`Deconvolver.Deconvolve` and `Deconvolver.checkData` in
`module/mainDeconvolver.py`). A run works as follows:

- It reads the save options. A missing option is reported and skipped.
- It checks that the preprocessed data has no negative sample.
- It sizes the GPU launch grid from the data shape.
- It back-projects a volume of ones to get the sensitivity field. The field
  is clipped from below at 0.3 times its maximum.
- It runs the multiplicative update `x := x * H^T(d / H x) / sens` for the
  requested number of passes, on three working buffers.
- It copies the estimate after the passes the progression schedule selects.
  The schedule is either every pass or a logarithmic set of passes.
- It names the output files: the final volume or the progression stack, and
  the JSON parameter record.

The projections `H` (`convTransform`) and `H^T` (`invConvTransform`) are
abstract. They are the two arrows of a `Projection.Projector`, and the
model only requires that they preserve shape. The update loop is imperative
(`Deconvolver.Restore`, `Deconvolver.UpdatePass`). It works in place on
`array<real>` buffers and is proved against the pure specification
`Restoration.Iterate` / `Restoration.Snapshots`.

Modules, one per file:

- `Failures` holds the failures a run can raise.
- `Volumes` holds flat volumes, shapes and the element-wise operations.
- `DataCheck` models `checkData`.
- `LaunchGrid` models the block and grid sizes and the kernel launch log.
- `Projection` models the projector pair.
- `Sensitivity` models the clipped back-projection of ones.
- `Progression` models the logarithmic capture indices and the schedules.
- `SaveOptions` models option parsing, output paths and the parameter record.
- `Restoration` is the pure specification of the passes.
- `Deconvolver` holds the buffers, the loop and the whole run.

## Model

| member | source | states |
|---|---|---|
| DataCheck.CheckData | module/mainDeconvolver.py:142-147 | Empty data fails as the minimum of an empty array does. Otherwise the result is true exactly when no sample is negative. |
| DataCheck.ZeroVolumeAccepted | module/mainDeconvolver.py:144-147 | An all-zero volume passes the check, because its minimum is not below 0. |
| LaunchGrid.BlockCount | module/mainDeconvolver.py:61-64 | The ceiling division by 8 gives the fewest blocks of 8 threads that cover an extent. |
| LaunchGrid.DataGrid | module/mainDeconvolver.py:61-64 | The grid covers the data shape on every axis, and removing one block from any axis would leave part of that axis uncovered. |
| LaunchGrid.RunLaunchesAlternate | module/mainDeconvolver.py:72-75 | One back-projection followed by n passes makes 2n+1 launches. Every launch uses the data-shape grid and 8x8x8 blocks. Launches alternate forward then back within each pass. |
| Volumes.Ones | module/mainDeconvolver.py:68 | The volume has n elements, and every element is 1. |
| Volumes.Min | module/mainDeconvolver.py:144 | The minimum of a non-empty volume is one of its elements and is at most every element. |
| Volumes.Max | module/mainDeconvolver.py:78 | The maximum of a non-empty volume is one of its elements and is at least every element. |
| Volumes.Quotient | module/mainDeconvolver.py:102 | Element-wise division: each quotient times its divisor gives back the numerator. |
| Sensitivity.Clip | module/mainDeconvolver.py:77-78 | The length is unchanged. Every element is at least 0.3 times the maximum. Elements at or above that floor are kept, and elements below it are raised to it. |
| Sensitivity.ClipKeepsMaximum | module/mainDeconvolver.py:77-78 | When the maximum is non-negative, clipping leaves the maximum unchanged. |
| Sensitivity.ClipIsSafeDivisor | module/mainDeconvolver.py:77-78 | A positive maximum makes every clipped element positive. A non-zero maximum means no clipped element is zero. |
| Sensitivity.RawSensitivity | module/mainDeconvolver.py:67-75 | The back-projection of a data-sized volume of ones has the reconstruction's size. |
| Sensitivity.SensitivityPositive | module/mainDeconvolver.py:72-78 | When both projections keep volumes non-negative, the clipped field is positive exactly when the raw field's maximum is non-zero. |
| Progression.FloorLog2 | module/mainDeconvolver.py:88 | The result l satisfies 2^l <= n < 2^(l+1). |
| Progression.LogIndicesShape | module/mainDeconvolver.py:88 | The logarithmic index list has floor(log2 n) entries, strictly ascending, within [1, n]. It ends with n, preceded by n-1 when there are two or more entries. |
| Progression.PassesMembers | module/mainDeconvolver.py:115 | A pass is listed among the first k exactly when it is below k and the schedule captures it. |
| Progression.EveryPassListsAll | module/mainDeconvolver.py:115 | Mode 'All' captures passes 0..k-1, every one of them. |
| Progression.PassesPrefix | module/mainDeconvolver.py:115 | With a strictly ascending, non-negative index list whose first c entries are the ones below m, the passes captured among the first m are exactly those c entries. |
| Progression.LogPasses | module/mainDeconvolver.py:88-89 | Over n passes, the logarithmic schedule captures the index list without its last entry n, which range(n) never reaches. |
| Progression.LogCapturesFinalPass | module/mainDeconvolver.py:88-89 | The logarithmic schedule captures floor(log2 n)-1 passes. The final pass n-1 is captured exactly when n >= 4, and nothing is captured when n < 4. |
| Progression.TwentyFivePasses | module/mainDeconvolver.py:88 | For 25 passes the indices are [16, 21, 24, 25], and only passes 16, 21 and 24 are captured. |
| SaveOptions.Lookup | module/mainDeconvolver.py:32-45 | A key read inside a try block leaves its local assigned exactly when the key is present, and then holds its value. |
| SaveOptions.Resolve | module/mainDeconvolver.py:30-48 | With saving off, both modes are None. With saving on, the mode, folder and name take their option values. The progression mode is read, with its option value, only under 'Progression'. The name is assigned only when the folder is present. |
| SaveOptions.CaptureSchedule | module/mainDeconvolver.py:85-115 | An unassigned save mode raises. Modes other than 'Progression' capture nothing. Under 'Progression': an unassigned progression mode raises; 'All' captures every pass; 'Logarithmic' uses the index list and raises when iterations < 1; any other progression mode raises at the first pass (line 115) and captures nothing when there is no pass. |
| SaveOptions.SavingOffCapturesNothing | module/mainDeconvolver.py:46-48 | With saving off, no pass is ever captured. |
| SaveOptions.Destination | module/mainDeconvolver.py:126 | Paths can be built exactly when both folder and name are assigned strings. |
| SaveOptions.Outputs | module/mainDeconvolver.py:124-137 | Saving off writes nothing. 'Final' writes the final volume, 'Progression' writes the snapshot stack, and any other mode writes only the record. The parameter JSON is always last and is named with the fixed suffixes. |
| SaveOptions.OutputPathsDistinct | module/mainDeconvolver.py:126-132 | No two files of one run share a path. |
| SaveOptions.ParameterRecordAsWritten | module/mainDeconvolver.py:133-135 | As written, the record has exactly three keys: the module-level dictionary under 'Data Parameters', and the run's image formation and algorithmic parameters under the other two. |
| SaveOptions.AsWrittenRecordsWrongProperties | module/mainDeconvolver.py:133 | Data loaded with other properties is recorded with the module-level properties instead. |
| SaveOptions.ParameterRecord | module/mainDeconvolver.py:133-135 | The record has exactly three keys, each holding the run's own dictionary. |
| Restoration.Ratio | module/mainDeconvolver.py:94-102 | The ratio has the data's size. Each element times the forward projection of the estimate gives back the data element. |
| Restoration.Correction | module/mainDeconvolver.py:105-113 | The correction has the reconstruction's size. Each element times the sensitivity gives back the back-projected ratio. |
| Restoration.Pass | module/mainDeconvolver.py:94-114 | One pass keeps the estimate's size. Its values are stated by the lemmas below. |
| Restoration.Iterate | module/mainDeconvolver.py:89-114 | A defined run of k passes keeps the estimate's size. Whether a run is defined is stated by the two lemmas that follow. |
| Restoration.IterateDefinedBelow | module/mainDeconvolver.py:89 | A run defined after k passes is defined after every j <= k passes. |
| Restoration.IterateStaysUndefined | module/mainDeconvolver.py:89 | Once undefined, a run stays undefined for all later pass counts. |
| Restoration.SnapshotsFollowSchedule | module/mainDeconvolver.py:115-116 | The snapshot list holds the estimates after exactly the captured passes, in pass order. |
| Restoration.EveryPassSnapshots | module/mainDeconvolver.py:115-116 | With 'All', snapshot t is the estimate after t+1 passes. |
| Restoration.LogSnapshots | module/mainDeconvolver.py:88-116 | With the logarithmic schedule, snapshot t is the estimate after index[t]+1 passes. |
| Restoration.PassNonNegative | module/mainDeconvolver.py:102-114 | Non-negative data, estimate and sensitivity, with projections that keep volumes non-negative, give a non-negative next estimate. |
| Restoration.IterateNonNegative | module/mainDeconvolver.py:89-114 | Non-negativity of the estimate holds after every pass. |
| Restoration.RunStaysNonNegative | module/mainDeconvolver.py:72-114 | With non-negative data and projections and a raw sensitivity whose maximum is non-zero, the run from its own clipped field and the all-ones estimate stays non-negative after every defined pass count. |
| Restoration.PassPositive | module/mainDeconvolver.py:102-114 | Positive data, estimate and sensitivity, with projections that keep volumes positive, give a defined and positive next estimate. |
| Restoration.PositiveRunCompletes | module/mainDeconvolver.py:89-114 | Under those conditions, every number of passes is defined and positive, so no division by zero ever happens. |
| Restoration.ExactFitIsFixedPoint | module/mainDeconvolver.py:102-114 | Suppose the forward projection of the estimate equals zero-free data, and the raw sensitivity needs no clipping. Then a pass is defined and returns the estimate unchanged. |
| Restoration.IdentityRunKeepsOnes | module/mainDeconvolver.py:80-114 | With identity projections and data of ones, the estimate stays all ones after every pass. |
| Deconvolver.PassCount | module/mainDeconvolver.py:89 | range(iterations) makes max(iterations, 0) passes. |
| Deconvolver.BuildSensitivity | module/mainDeconvolver.py:67-78 | The fresh buffer holds the clipped back-projection of ones. |
| Deconvolver.Store | module/mainDeconvolver.py:94-97 | A kernel overwrites its output buffer with the projected volume. |
| Deconvolver.DivideInto | module/mainDeconvolver.py:102 | The buffer becomes the data divided by its old contents. |
| Deconvolver.DivideBy | module/mainDeconvolver.py:113 | The buffer becomes its old contents divided by the sensitivity. |
| Deconvolver.MultiplyBy | module/mainDeconvolver.py:114 | The buffer becomes its old contents times the factor. |
| Deconvolver.UpdatePass | module/mainDeconvolver.py:94-114 | With no zero divisor, the three buffers hold the ratio, the correction and Pass of the old estimate. Otherwise the estimate is unchanged. |
| Deconvolver.Restore | module/mainDeconvolver.py:80-116 | The loop succeeds exactly when Iterate(n) is defined. The estimate, snapshot list and launch log are then Iterate(n), Snapshots(n) and the pass launches. A failure names the first pass with a zero divisor. |
| Deconvolver.Deconvolve | module/mainDeconvolver.py:27-140 | Each failure is reported in the order the program meets it: a missing 'Save to disc' key, empty data, negative data, an empty reconstruction, an unassigned mode, a zero divisor (reported as `NonFinite` naming the first failing pass), then output paths. Success is possible only when all checks pass. The result is then Iterate over max(iterations, 0) passes from ones, the launch log, and exactly the files Outputs names. |

## Left out

- The kernels `convTransform` and `invConvTransform` and the PLSR kernel and
  transform matrix that parameterise them are not part of this model. They
  are abstract shape-preserving maps. That `invConvTransform` is the
  adjoint of `convTransform` is not modelled: no member relates the two.
  Non-negativity or positivity of the projections is assumed only by the
  lemmas whose `requires` name `PreservesNonNegative` or `PreservesPositive`.
- The reconstruction shape, `ceil(M . dataShape)` at line 59, is an input of
  `Deconvolver.Deconvolve`. The transform matrix is not modelled.
- The 'Iterations' key of the algorithmic options is an input, `iterations`.
  The dictionary lookup is not modelled.
- Floating point is modelled with reals. 0.3 is exact, and `log2` is taken
  as exact (`Progression.FloorLog2`).
- Deconvolver.Deconvolve: a zero divisor does not propagate inf/NaN and
  continue. The run stops with `NonFinite(pass)` at the first pass that
  meets one, so a run the program finishes with non-finite values is a
  failure here.
- Deconvolver.Deconvolve: an unbound local, a missing key, or an empty min
  or max is an explicit `Failure` value, reported at the point where the
  program raises it, not a Python exception.
- The kernels are taken to overwrite their whole output buffer
  (`Deconvolver.Store`). The canvases are not re-zeroed between passes,
  because the loop's "Zero arrays" step does nothing.
- GPU memory pool handling, `cuda.synchronize`, timing and progress prints
  are not modelled, because they do not change any value.
- Writing files is not modelled. `DataIO_tools.save_data` and `json.dump` are
  replaced by the `SaveOptions.OutputFile` values a run hands back, and
  `os.path.join` by `SaveOptions.Path`.
- The module-level driver script (data loading, `DF.loadData`,
  preprocessing) is not part of this model. Only its `dataPropertiesDict`
  appears, in the finding below. The `dataProperties` parameter of
  `Deconvolver.Deconvolve` stands for the properties the data was loaded
  with (`self.DF.getDataPropertiesDict()`). The run records it through the
  corrected `SaveOptions.ParameterRecord`, not through the module-level
  dictionary the code writes at line 133.
- Three behaviours of the code differ from what a reader might expect.
  The model follows the code in each:
  - Logarithmic progression does not always save the last pass, and does
    not save a pass for every j up to floor(log2 N). `np.arange` at line 88
    excludes its end, so the list has floor(log2 N) entries, N - j^2 for
    j < floor(log2 N). Capture at line 115 tests the 0-based pass index,
    so the entry N is never reached. For N = 25 only passes 16, 21 and 24
    are saved.
  - The back-projection launches at lines 72-75 and 105-108 use the grid
    sized from the data shape (lines 62-64), not one sized from the
    reconstruction shape.
  - The iteration count is not required to be positive. `range` at line 89
    accepts any integer, and zero or a negative count makes no passes.

## Findings

| source | as written | input that shows it | evidently intended | confidence | as-written member | corrected member |
|---|---|---|---|---|---|---|
| module/mainDeconvolver.py:133 | The parameter record stores the module-level `dataPropertiesDict` (line 149) as 'Data Parameters', not the properties the data was loaded with (`self.DF.getDataPropertiesDict()`, used at lines 52-53). | Data loaded with `{'Cycles': 10}` while the module-level dictionary says `{'Cycles': 20}`: the record says 20. | Record the data properties of this run. | not executed | SaveOptions.AsWrittenRecordsWrongProperties | SaveOptions.ParameterRecord |
