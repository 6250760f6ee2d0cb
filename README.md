# TomoPy `gridrec()` wrapper, modelled in Dafny

TomoPy's `gridrec()` (in `tomopy/recon/gridrec.py`) is a thin Python wrapper
over a native gridding reconstruction library. It does the following:

1. It builds a fixed-layout ctypes record `GridrecCStruct`. The record holds
   the dataset's sizes, the caller's options, a handful of constants the
   wrapper forces, and three strings copied byte by byte into `c_byte`
   arrays of 256, 16 and 16 bytes.
2. When no padded sinogram width is given, it chooses one by doubling.
3. It derives default projection angles and per-slice rotation centres.
4. It drives the native engine through one job: reconCreate, reconRun,
   reconPoll until the engine reports completion, then reconDelete.
5. It replaces the dataset's data with a slices × pixels × pixels output
   buffer.

The model has one module per concern:

- `Common`: Python's `None`-or-value, and the exceptions `gridrec()` can raise.
- `CTypes`: how ctypes stores a Python integer in a `c_int` (kept modulo
  2^32, read back as signed) and in a `c_byte` (modulo 256), and how a C
  reader takes a `char[]` field as a NUL-terminated string.
- `Record`: the record as a class with one field per C field. Its byte arrays
  are `array`s. `Value()` gives the whole record as a `Config` value, and the
  copy loop is the method `CopyText`.
- `Geometry`: the padded-width doubling loop (`PadWidth`) proved against a
  halving reference definition (`PaddedWidthFor`), the default angles and the
  centre resolution.
- `Engine`: the native library, seen only through its four entry points. The
  engine is a class that records every call it receives. The replies its
  reconPoll will give are fixed up front, standing in for the progress of its
  own threads.
- `Gridrec`: the options, the dataset, and `gridrec()` itself. Two reference
  functions describe the whole call as a value:
  - `BuildConfig` gives the record `gridrec()` fills and the exception, if
    any, that stopped the filling;
  - `GridrecSpec` gives the data shape it leaves, the engine calls it makes
    and the exception it raises.

  The imperative `Gridrec` method is proved to match both.
- `Properties`: what follows from those reference functions:
  - which error is raised when;
  - the fixed constants;
  - options that have no effect;
  - `c_int` storage of integer options and of the padded width;
  - what a C reader gets back from the text fields;
  - the create/run/poll/delete order of a successful job;
  - that a failed call leaves the data alone;
  - two worked examples.

The default angles are `linspace(0, N, N) * 180 / N`. These run from 0 to
180 degrees with both ends included, in steps of 180/(N-1).

## Model

| member | source | states |
|---|---|---|
| CTypes.CInt | tomopy/recon/gridrec.py:15-52 | defines the `c_int` setter every integer field goes through: the low 32 bits of the Python integer, read back as a signed value |
| CTypes.StoredAsCInt | tomopy/recon/gridrec.py:15-52 | defines what a `c_int` field holds once assigned a Python integer: the 32-bit value equal to it modulo 2^32, which is the integer itself when it fits |
| CTypes.CIntWraps | tomopy/recon/gridrec.py:15-52 | a value stored in a `c_int` field equals the Python integer modulo 2^32, and a value in the 32-bit range is stored unchanged |
| CTypes.CByte | tomopy/recon/gridrec.py:31 | a value stored in a `c_byte` element equals the integer modulo 256, and a value in -128..127 is stored unchanged |
| CTypes.Encode | tomopy/recon/gridrec.py:132-133 | `map(ord, s)` stored into `c_byte`s: one byte per character, each congruent to the character's code modulo 256 |
| CTypes.DecodeEncode | tomopy/recon/gridrec.py:132-133 | a Python 2 byte string stored as `c_byte`s reads back as itself |
| CTypes.CString | tomopy/recon/gridrec.py:31-44 | a C reader of a `char[]` field gets the bytes up to the first NUL, or the whole field when it has no NUL |
| Record.GridrecStruct.constructor | tomopy/recon/gridrec.py:107 | a new record is zero everywhere, with fresh text buffers of 256, 16 and 16 bytes |
| Record.Stamp | tomopy/recon/gridrec.py:132-133 | defines a text field after the copy: each index the string reaches holds the character's code modulo 256 as a signed byte, and every other index keeps what the field held |
| Record.CopyText | tomopy/recon/gridrec.py:132-133 | the copy loop writes `ord(s[m])` at each index the field has; it fails exactly when `s` is longer than the field, after the leading bytes are written |
| Record.GridrecStruct.SetText | tomopy/recon/gridrec.py:132-148 | copying a string into one text field changes that field to the stamped bytes and leaves every other field of the record as it was; it fails exactly on overrun |
| Record.StampFitting | tomopy/recon/gridrec.py:132-133 | a string that fits leaves its bytes in front of the untouched rest of the field |
| Record.StampOverrun | tomopy/recon/gridrec.py:132-133 | a string that overruns the field leaves the field filled with its leading characters |
| Record.StampReadsBack | tomopy/recon/gridrec.py:132-148 | a NUL-free string shorter than its zeroed field stays terminated, so a C reader gets exactly its bytes, and a byte string reads back as itself |
| Record.StampAtCapacity | tomopy/recon/gridrec.py:132-148 | a string exactly as long as its field leaves no terminating NUL, so a C reader takes the whole field |
| Geometry.PadWidth | tomopy/recon/gridrec.py:113-118 | the doubling loop ends with the reference width `PaddedWidthFor` for every pixel count, including zero and negative counts |
| Geometry.PaddedWidthIsSmallestPowerOfTwo | tomopy/recon/gridrec.py:113-118 | the default width is 0 for no pixels; otherwise it is the smallest power of two that is at least 2 and at least the pixel count |
| Geometry.PaddedWidthBetweenPowers | tomopy/recon/gridrec.py:113-118 | a pixel count in (2^(k-1), 2^k] gets width 2^k |
| Geometry.PaddingFor | tomopy/recon/gridrec.py:113-121 | no width means the doubling default; an explicit width is a ValueError exactly when it is below the pixel count, and is otherwise kept as given |
| Geometry.Linspace | tomopy/recon/gridrec.py:160-161 | `num` samples that start at `start`, end at `stop` and are equally spaced |
| Geometry.DefaultTheta | tomopy/recon/gridrec.py:159-162 | one default angle per projection |
| Geometry.DefaultThetaEvenlySpaced | tomopy/recon/gridrec.py:159-162 | the default angles start at 0; with two or more projections they end at 180 and step by 180/(N-1) |
| Geometry.ResolveCenters | tomopy/recon/gridrec.py:173-181 | no centre gives half the pixel count for each slice, a single centre is broadcast to every slice, and any other array is passed on unchanged |
| Geometry.CentersMatchSlices | tomopy/recon/gridrec.py:173-181 | the job gets one centre per slice if and only if no centre, a single centre or one centre per slice was given |
| Engine.PollTrace | tomopy/recon/gridrec.py:196-202 | defines the reconPoll calls the wait loop makes: one per reply, in order, up to and including the first that reports completion |
| Engine.FirstComplete | tomopy/recon/gridrec.py:196-202 | the index of the first poll reply that reports completion: it reports 1, and none before it does |
| Engine.Engine.ReconCreate | tomopy/recon/gridrec.py:170-171 | the engine receives the record and the angles |
| Engine.Engine.ReconRun | tomopy/recon/gridrec.py:191-194 | the engine receives the slice count, the centres and the output buffer |
| Engine.Engine.ReconPoll | tomopy/recon/gridrec.py:224-225 | the engine answers with its next reply and records the poll |
| Engine.Engine.ReconDelete | tomopy/recon/gridrec.py:205 | the engine records its deletion |
| Engine.Poll | tomopy/recon/gridrec.py:207-226 | `poll()` returns the completion flag and the remaining-slices count of one reconPoll, and consumes that reply |
| Engine.WaitForCompletion | tomopy/recon/gridrec.py:196-202 | the wait loop polls up to and including the first reply that reports completion, and makes no other call |
| Engine.JobOrder | tomopy/recon/gridrec.py:170-205 | create, run, the wait loop's polls and delete form a complete job, in which only the last poll reports completion |
| Engine.DeleteOnceLast | tomopy/recon/gridrec.py:204-205 | in a complete job, reconDelete is called exactly once, as the last call, and nothing is polled before reconRun |
| Gridrec.SizesFor | tomopy/recon/gridrec.py:108-112 | defines the size fields: projections, slices and pixels from the data shape as `c_int`s, and the two scales |
| Gridrec.CorrectionFor | tomopy/recon/gridrec.py:121-125 | defines the correction fields: the padded width and `airPixels`, `ringWidth`, `fluorescence`, `reconMethod` as `c_int`s |
| Gridrec.ExecutionFor | tomopy/recon/gridrec.py:126-131 | defines the execution fields: method constants 0, 1, 2, `numThreads` and `slicesPerChunk` as `c_int`s, and `debug` 0 |
| Gridrec.GridFor | tomopy/recon/gridrec.py:134-141 | defines the gridding fields: `geom` and `ltbl` as `c_int`s and the six floating-point options |
| Gridrec.BackprojectionFor | tomopy/recon/gridrec.py:144-146 | defines the backprojection fields: `BP_Method` as a `c_int` and the constants 0 and 1 |
| Gridrec.InterpolationFor | tomopy/recon/gridrec.py:149-156 | defines the interpolation fields: `BP_filterSize`, `RiemannInterpolation` and `RadonInterpolation` as `c_int`s and the constants 0, 1, 2, 0, 1 |
| Gridrec.DefaultOptions | tomopy/recon/gridrec.py:55-81 | defines the default value of each of the 27 keyword arguments |
| Gridrec.CopiedText | tomopy/recon/gridrec.py:132-133 | defines one text copy as a value: the field stamped with the string, and the IndexError when the string is longer than the field |
| Gridrec.BuildConfig | tomopy/recon/gridrec.py:107-156 | the record the filling leaves and the exception that stopped it: the sizes are always written; each later run of fields holds the options exactly when every check before it passed, and stays zero otherwise; the interpolation run is written exactly when no exception was raised |
| Gridrec.SliceInRange | tomopy/recon/gridrec.py:185 | defines numpy's bounds check on `slice_no` along the slice axis: no index, or one in `-numSlices .. numSlices-1` |
| Gridrec.ReachesRun | tomopy/recon/gridrec.py:107-191 | defines the condition for reaching reconRun: the record is filled without an exception, the dataset has no angles, and `slice_no` is within the data |
| Gridrec.CountsRead | tomopy/recon/gridrec.py:160-188 | defines the condition that the size fields read back from the record are counts numpy can use |
| Gridrec.LaunchSpec | tomopy/recon/gridrec.py:158-205 | the outcome once the record is filled, with the angle count, slice count, default centre and output shape read back from the record's size fields: reconCreate with the record and the default angles is always the first call; the call fails exactly when `slice_no` is out of range, and then keeps the data and makes no other call; on success the last call is reconDelete |
| Gridrec.GridrecSpec | tomopy/recon/gridrec.py:107-205 | the outcome of a whole call on data whose dimensions fit a `c_int`: the engine is called at all exactly when the filling succeeded and the dataset has no angles, and then reconCreate with the record and the default angles comes first; no exception is raised exactly when every check before reconRun passes |
| Gridrec.AssignSizes | tomopy/recon/gridrec.py:108-112 | the size fields hold the data shape (as `c_int`s) and the two scales |
| Gridrec.SetSizes | tomopy/recon/gridrec.py:108-112 | the record changes only in its size fields |
| Gridrec.AssignCorrection | tomopy/recon/gridrec.py:121-125 | the correction fields hold the padded width and the caller's options |
| Gridrec.SetCorrection | tomopy/recon/gridrec.py:121-125 | the record changes only in its correction fields |
| Gridrec.AssignExecution | tomopy/recon/gridrec.py:126-131 | the method constants 0, 1, 2 and `debug` 0 are forced; the thread and chunk counts come from the options |
| Gridrec.SetExecution | tomopy/recon/gridrec.py:126-131 | the record changes only in its execution fields |
| Gridrec.AssignGrid | tomopy/recon/gridrec.py:134-141 | the gridding fields hold the caller's options |
| Gridrec.SetGrid | tomopy/recon/gridrec.py:134-141 | the record changes only in its gridding fields |
| Gridrec.AssignBackprojection | tomopy/recon/gridrec.py:144-146 | `BP_Method` comes from the options; the Riemann and Radon constants 0 and 1 are forced |
| Gridrec.SetBackprojection | tomopy/recon/gridrec.py:144-146 | the record changes only in its backprojection fields |
| Gridrec.AssignInterpolation | tomopy/recon/gridrec.py:149-156 | the filter size and the two interpolation choices come from the options; the five interpolation constants are forced |
| Gridrec.SetInterpolation | tomopy/recon/gridrec.py:149-156 | the record changes only in its interpolation fields |
| Gridrec.Configure | tomopy/recon/gridrec.py:107-156 | filling a zeroed record field by field leaves exactly `BuildConfig`'s record and raises exactly its exception, keeping what was written before the exception |
| Gridrec.BuildConfigSizes | tomopy/recon/gridrec.py:108-110 | data dimensions below 2^31 are stored unchanged, whatever else happens |
| Gridrec.Prepare | tomopy/recon/gridrec.py:106-156 | a fresh record becomes `TomoObj.recon`, is filled as `BuildConfig` says, and holds the data dimensions |
| Gridrec.Launch | tomopy/recon/gridrec.py:158-205 | after filling, the engine calls, the new data shape and the exception are exactly those of `LaunchSpec` |
| Gridrec.Gridrec | tomopy/recon/gridrec.py:54-205 | `gridrec()` stores a fresh record equal to `BuildConfig`; the data shape, engine calls and exception are exactly those of `GridrecSpec`; theta and center are untouched, and the engine consumes polls only on success |
| Properties.ConfigErrors | tomopy/recon/gridrec.py:113-148 | filling fails exactly at the first failing check, in source order (explicit width, then each text copy); each error holds if and only if its condition does |
| Properties.FixedConstants | tomopy/recon/gridrec.py:126-156 | every forced constant holds in each run of fields that was reached; a run after the failing check keeps the zeros |
| Properties.IgnoredOptions | tomopy/recon/gridrec.py:63-67 | `reconMethodTomoRecon` and `debug` change neither the record nor the outcome of the call |
| Properties.CorrectionOptionsStored | tomopy/recon/gridrec.py:122-130 | once the padded width is accepted, `airPixels`, `ringWidth`, `fluorescence`, `reconMethod`, `numThreads` and `slicesPerChunk` are each stored as a `c_int`: equal modulo 2^32, and unchanged when they fit |
| Properties.GridOptionsStored | tomopy/recon/gridrec.py:134-141 | once the debug file name fits as well, `geom` and `ltbl` are stored as `c_int`s |
| Properties.BackprojectionOptionStored | tomopy/recon/gridrec.py:144 | once `fname` fits as well, `BP_Method` is stored as a `c_int` |
| Properties.InterpolationOptionsStored | tomopy/recon/gridrec.py:149-154 | when the whole record is filled, `BP_filterSize`, `RiemannInterpolation` and `RadonInterpolation` are stored as `c_int`s |
| Properties.DefaultPaddingStored | tomopy/recon/gridrec.py:113-121 | with no explicit width and at most 2^30 pixels, the record holds, even when a later text copy fails, the smallest power of two that is at least 2 and at least the pixel count |
| Properties.ExplicitPaddingStored | tomopy/recon/gridrec.py:119-121 | an explicit width that is large enough and fits a `c_int` is stored as given, power of two or not, even when a later text copy fails |
| Properties.DefaultPaddingWraps | tomopy/recon/gridrec.py:113-121 | above 2^30 pixels the default width is 2^31, which a `c_int` stores as -2^31, even when a later text copy fails |
| Properties.StoredText | tomopy/recon/gridrec.py:132-148 | each text field of a filled record is its string stamped over zeros |
| Properties.TextFieldsReadBack | tomopy/recon/gridrec.py:132-148 | a C reader gets each NUL-free text option back when it is shorter than its field |
| Properties.OverrunTextKept | tomopy/recon/gridrec.py:132-148 | the field that overran holds the string's leading characters when the IndexError is raised |
| Properties.GridrecErrors | tomopy/recon/gridrec.py:113-205 | the job runs if and only if every check passes; otherwise the first exception met is raised, with UnboundLocalError (a NameError) for a supplied theta and IndexError for a bad `slice_no` |
| Properties.SuppliedThetaFails | tomopy/recon/gridrec.py:159-171 | a dataset with its own angles always fails, before any engine call and with its data kept |
| Properties.SuccessfulJob | tomopy/recon/gridrec.py:158-205 | a successful call makes one complete job: reconCreate with the record and the default angles, reconRun with the resolved centres and a slices × pixels × pixels output, the polls, and one final reconDelete; the data takes the output's shape |
| Properties.FailedCallKeepsData | tomopy/recon/gridrec.py:107-185 | a failed call keeps the data, never runs or deletes, and has called reconCreate only when `slice_no` was bad |
| Properties.DefaultCentres | tomopy/recon/gridrec.py:174-175 | without centres, reconRun gets one centre per slice at half the pixel count |
| Properties.PaddedWidthExamples | tomopy/recon/gridrec.py:113-118 | pixel counts 0, 1, 2, 3, 500, 512 and 513 get widths 0, 2, 2, 4, 512, 512 and 1024 |
| Properties.SmallJobExample | tomopy/recon/gridrec.py:107-205 | 4 projections of two 16-pixel slices with the defaults: width 16, angles 0/60/120/180, centres 8, three polls, then delete, and the output is 2 × 16 × 16 |

## Left out

- The loading of the shared library with ctypes, and the native
  reconstruction itself. The model sees only the calls made and what they
  are passed.
- `time.sleep` between polls. It has no effect on the engine or on the
  result.
- Floating point: `c_float` fields, `float32` angles and centres, and numpy's
  arithmetic are exact reals. The model does not capture float32 rounding.
- The contents of the data array. The dataset is modelled by its shape, so
  the slab `datain` cut at line 185 is not passed to reconRun in the model;
  only its bounds check is kept.
- Writes by the engine through the pointers it is handed. The engine is
  assumed not to write through them, and `ReconCreate` and `ReconRun` change
  only the engine. This covers the record passed by reference to reconCreate
  (line 170), and `center` and `datain` passed to reconRun (lines 191-193).
  The output buffer is modelled by its shape only, so writes to it are out
  of scope too. With that assumption, the reads of `numPixels` at lines 175
  and 187 see what the wrapper stored, which is what `LaunchSpec` and the
  job lemmas rely on.
- The engine's worker threads and any concurrency. The engine's poll replies
  are given up front instead.
- Option types: each option is typed after its default. Integers are `int`,
  floats are `real`, strings are `string` and `slice_no` is an optional
  integer. `gridrec()` itself accepts any object. The TypeError that ctypes'
  `c_int` setter raises for a wrongly typed option is not modelled. For
  example, `paddedSinogramWidth=1024.0` passes the comparison of line 119
  and then fails at line 121.
- The registration of `gridrec` as a `Dataset` method (line 228). It has no
  behaviour of its own.
- Gridrec.Gridrec: requires every data dimension to be below 2^31. A larger
  dimension wraps in the `c_int` size fields, so the sizes read back from the
  record are no longer the data's own. A dimension of 2^32 + 16 is stored as
  16, for example. The wrapped sizes may also be negative, which numpy treats
  differently across versions.
- Gridrec.GridrecSpec: requires every data dimension to be below 2^31, for
  the same reason. So do the lemmas about it (`IgnoredOptions`,
  `GridrecErrors`, `SuppliedThetaFails`, `SuccessfulJob`,
  `FailedCallKeepsData`, `DefaultCentres`). Within that range the sizes read
  back from the record are the data's own.
- Gridrec.Gridrec: requires that the engine eventually reports completion
  whenever the wait loop is reached. Without that, the source polls
  forever.
- Geometry.ResolveCenters: a centre array whose length is neither 1 nor the
  slice count is passed on as it is. The model, like the code, raises no
  error for it.
- Geometry.ResolveCenters: a scalar centre is taken as a one-element array.
  The `is` comparisons of lines 178 and 180 are read as `==`. The second
  comparison has no effect either way, since both of its branches give the
  same array.
- Geometry.DefaultTheta: its own contract states only the length. The
  values are stated by `DefaultThetaEvenlySpaced`.
