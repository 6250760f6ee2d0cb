/** `gridrec()` (tomopy/recon/gridrec.py:54-205): fill a fresh record from the
    dataset's shape and the options, then drive the engine through one job. */
module Gridrec {
  import opened Common
  import opened CTypes
  import opened Record
  import opened Geometry
  import opened Engine

  /** The keyword arguments of `gridrec()`, in declaration order. The options
      `reconMethodTomoRecon` and `debug` are accepted but never read. */
  datatype Options = Options(
    sliceNo: Option<int>,
    sinoScale: real,
    reconScale: real,
    paddedSinogramWidth: Option<int>,
    airPixels: int,
    ringWidth: int,
    fluorescence: int,
    reconMethod: int,
    reconMethodTomoRecon: int,
    numThreads: int,
    slicesPerChunk: int,
    debugFileName: string,
    debug: int,
    geom: int,
    pswfParam: real,
    sampl: real,
    MaxPixSiz: real,
    ROI: real,
    X0: real,
    Y0: real,
    ltbl: int,
    fname: string,
    BP_Method: int,
    BP_filterName: string,
    BP_filterSize: int,
    RiemannInterpolation: int,
    RadonInterpolation: int)

  /** The defaults of lines 55-81. */
  const DefaultOptions: Options :=
    Options(None, 10000.0, 1.0, None, 10, 9, 0, 0, 0, 24, 32, "", 0, 0,
            6.0, 1.0, 1.0, 1.0, 0.0, 0.0, 512, "shepp", 0, "shepp", 100, 0, 0)

  /** The part of a `Dataset` that `gridrec()` reads and writes: the data
      array (by its shape: projections, slices, pixels), the optional angles
      and centre, and the `recon` attribute that receives the record. */
  class Dataset {
    var data: Shape3
    var theta: Option<seq<real>>
    var center: Option<seq<real>>
    var recon: GridrecStruct?

    constructor (data: Shape3, theta: Option<seq<real>>, center: Option<seq<real>>)
      ensures this.data == data && this.theta == theta && this.center == center && recon == null
    {
      this.data, this.theta, this.center, recon := data, theta, center, null;
    }
  }

  /** Every dimension of the data fits the record's `c_int` size fields. */
  predicate FitsCInt(shape: Shape3) {
    shape.d0 < 0x8000_0000 && shape.d1 < 0x8000_0000 && shape.d2 < 0x8000_0000
  }

  /** The record as filling it leaves it, and the exception that stopped the
      filling, if any. */
  datatype Built = Built(config: Config, error: Option<Error>)

  /** The record after a text copy, and the IndexError if `s` overran the field. */
  function CopiedText(c: Config, f: TextField, s: string): (b: Built)
  {
    Built(c.WithText(f, Stamp(c.Text(f), s)), if |s| <= Capacity(f) then None else Some(TextTooLong(f)))
  }

  /** Lines 107-156 as a value: the fields assigned in source order, stopping
      at the ValueError of the padding check or at the IndexError of a text
      copy that overruns its field (whose leading bytes are then already
      written). Each run of fields holds the options once the checks before
      it pass, and keeps the zeros of the fresh record otherwise. */
  function BuildConfig(shape: Shape3, o: Options): (b: Built)
    ensures b.config.sizes == SizesFor(shape, o)
    ensures var p := PaddingFor(shape.d2, o.paddedSinogramWidth);
            if p.Ok? then b.config.correction == CorrectionFor(p.value, o) &&
                          b.config.execution == ExecutionFor(o)
            else b.config.correction == ZeroConfig.correction &&
                 b.config.execution == ZeroConfig.execution
    ensures if PaddingFor(shape.d2, o.paddedSinogramWidth).Ok? &&
               |o.debugFileName| <= DEBUG_FILE_NAME_SIZE
            then b.config.grid == GridFor(o) else b.config.grid == ZeroConfig.grid
    ensures if PaddingFor(shape.d2, o.paddedSinogramWidth).Ok? &&
               |o.debugFileName| <= DEBUG_FILE_NAME_SIZE && |o.fname| <= FNAME_SIZE
            then b.config.backprojection == BackprojectionFor(o)
            else b.config.backprojection == ZeroConfig.backprojection
    ensures if b.error.None? then b.config.interpolation == InterpolationFor(o)
            else b.config.interpolation == ZeroConfig.interpolation
  {
    var sized := ZeroConfig.(sizes := SizesFor(shape, o));
    match PaddingFor(shape.d2, o.paddedSinogramWidth)
    case Err(e) => Built(sized, Some(e))
    case Ok(width) =>
      var b1 := CopiedText(sized.(correction := CorrectionFor(width, o), execution := ExecutionFor(o)),
                           DebugFileName, o.debugFileName);
      if b1.error.Some? then b1
      else
        var b2 := CopiedText(b1.config.(grid := GridFor(o)), Fname, o.fname);
        if b2.error.Some? then b2
        else
          var b3 := CopiedText(b2.config.(backprojection := BackprojectionFor(o)),
                               BPFilterName, o.BP_filterName);
          if b3.error.Some? then b3
          else Built(b3.config.(interpolation := InterpolationFor(o)), None)
  }

  /** Lines 108-112: the sizes come from the data shape (projections, slices,
      pixels), the scales from the options. */
  function SizesFor(shape: Shape3, o: Options): Sizes {
    Sizes(CInt(shape.d2), CInt(shape.d0), CInt(shape.d1), o.sinoScale, o.reconScale)
  }

  /** Lines 121-125. */
  function CorrectionFor(width: int, o: Options): Correction {
    Correction(CInt(width), CInt(o.airPixels), CInt(o.ringWidth), CInt(o.fluorescence),
               CInt(o.reconMethod))
  }

  /** Lines 126-131: the method constants are fixed, whatever
      `reconMethodTomoRecon` was passed, and so is `debug`. */
  function ExecutionFor(o: Options): Execution {
    Execution(0, 1, 2, CInt(o.numThreads), CInt(o.slicesPerChunk), 0)
  }

  /** Lines 134-141. */
  function GridFor(o: Options): Grid {
    Grid(CInt(o.geom), o.pswfParam, o.sampl, o.MaxPixSiz, o.ROI, o.X0, o.Y0, CInt(o.ltbl))
  }

  /** Lines 144-146: the backprojection constants are fixed. */
  function BackprojectionFor(o: Options): Backprojection {
    Backprojection(CInt(o.BP_Method), 0, 1)
  }

  /** Lines 149-156: the interpolation constants are fixed. */
  function InterpolationFor(o: Options): Interpolation {
    Interpolation(CInt(o.BP_filterSize), CInt(o.RiemannInterpolation), 0, 1, 2,
                  CInt(o.RadonInterpolation), 0, 1)
  }

  /** Lines 108-112, writing only the size fields. */
  method AssignSizes(rec: GridrecStruct, shape: Shape3, o: Options)
    modifies rec`numPixels, rec`numProjections, rec`numSlices, rec`sinoScale, rec`reconScale
    ensures rec.SizesPart() == SizesFor(shape, o)
  {
    rec.numProjections := CInt(shape.d0);
    rec.numSlices := CInt(shape.d1);
    rec.numPixels := CInt(shape.d2);
    rec.sinoScale := o.sinoScale;
    rec.reconScale := o.reconScale;
  }

  /** Lines 108-112: the other fields of the record keep their values. */
  method SetSizes(rec: GridrecStruct, shape: Shape3, o: Options)
    requires rec.Valid()
    modifies rec
    ensures rec.Value() == old(rec.Value()).(sizes := SizesFor(shape, o))
  {
    AssignSizes(rec, shape, o);
  }

  /** Lines 121-125, writing only the correction fields. */
  method AssignCorrection(rec: GridrecStruct, width: int, o: Options)
    modifies rec`paddedSinogramWidth, rec`airPixels, rec`ringWidth, rec`fluorescence,
             rec`reconMethod
    ensures rec.CorrectionPart() == CorrectionFor(width, o)
  {
    rec.paddedSinogramWidth := CInt(width);
    rec.airPixels := CInt(o.airPixels);
    rec.ringWidth := CInt(o.ringWidth);
    rec.fluorescence := CInt(o.fluorescence);
    rec.reconMethod := CInt(o.reconMethod);
  }

  /** Lines 121-125: the other fields of the record keep their values. */
  method SetCorrection(rec: GridrecStruct, width: int, o: Options)
    requires rec.Valid()
    modifies rec
    ensures rec.Value() == old(rec.Value()).(correction := CorrectionFor(width, o))
  {
    AssignCorrection(rec, width, o);
  }

  /** Lines 126-131, writing only the execution fields. */
  method AssignExecution(rec: GridrecStruct, o: Options)
    modifies rec`reconMethodTomoRecon, rec`reconMethodGridrec, rec`reconMethodBackproject,
             rec`numThreads, rec`slicesPerChunk, rec`debug
    ensures rec.ExecutionPart() == ExecutionFor(o)
  {
    rec.reconMethodTomoRecon := 0;
    rec.reconMethodGridrec := 1;
    rec.reconMethodBackproject := 2;
    rec.numThreads := CInt(o.numThreads);
    rec.slicesPerChunk := CInt(o.slicesPerChunk);
    rec.debug := 0;
  }

  /** Lines 126-131: the other fields of the record keep their values. */
  method SetExecution(rec: GridrecStruct, o: Options)
    requires rec.Valid()
    modifies rec
    ensures rec.Value() == old(rec.Value()).(execution := ExecutionFor(o))
  {
    AssignExecution(rec, o);
  }

  /** Lines 134-141, writing only the grid fields. */
  method AssignGrid(rec: GridrecStruct, o: Options)
    modifies rec`geom, rec`pswfParam, rec`sampl, rec`MaxPixSiz, rec`ROI, rec`X0, rec`Y0,
             rec`ltbl
    ensures rec.GridPart() == GridFor(o)
  {
    rec.geom := CInt(o.geom);
    rec.pswfParam := o.pswfParam;
    rec.sampl := o.sampl;
    rec.MaxPixSiz := o.MaxPixSiz;
    rec.ROI := o.ROI;
    rec.X0 := o.X0;
    rec.Y0 := o.Y0;
    rec.ltbl := CInt(o.ltbl);
  }

  /** Lines 134-141: the other fields of the record keep their values. */
  method SetGrid(rec: GridrecStruct, o: Options)
    requires rec.Valid()
    modifies rec
    ensures rec.Value() == old(rec.Value()).(grid := GridFor(o))
  {
    AssignGrid(rec, o);
  }

  /** Lines 144-146, writing only the backprojection fields. */
  method AssignBackprojection(rec: GridrecStruct, o: Options)
    modifies rec`BP_Method, rec`BP_MethodRiemann, rec`BP_MethodRadon
    ensures rec.BackprojectionPart() == BackprojectionFor(o)
  {
    rec.BP_Method := CInt(o.BP_Method);
    rec.BP_MethodRiemann := 0;
    rec.BP_MethodRadon := 1;
  }

  /** Lines 144-146: the other fields of the record keep their values. */
  method SetBackprojection(rec: GridrecStruct, o: Options)
    requires rec.Valid()
    modifies rec
    ensures rec.Value() == old(rec.Value()).(backprojection := BackprojectionFor(o))
  {
    AssignBackprojection(rec, o);
  }

  /** Lines 149-156, writing only the interpolation fields. */
  method AssignInterpolation(rec: GridrecStruct, o: Options)
    modifies rec`BP_filterSize, rec`RiemannInterpolation, rec`RiemannInterpolationNone,
             rec`RiemannInterpolationBilinear, rec`RiemannInterpolationCubic,
             rec`RadonInterpolation, rec`RadonInterpolationNone, rec`RadonInterpolationLinear
    ensures rec.InterpolationPart() == InterpolationFor(o)
  {
    rec.BP_filterSize := CInt(o.BP_filterSize);
    rec.RiemannInterpolation := CInt(o.RiemannInterpolation);
    rec.RiemannInterpolationNone := 0;
    rec.RiemannInterpolationBilinear := 1;
    rec.RiemannInterpolationCubic := 2;
    rec.RadonInterpolation := CInt(o.RadonInterpolation);
    rec.RadonInterpolationNone := 0;
    rec.RadonInterpolationLinear := 1;
  }

  /** Lines 149-156: the other fields of the record keep their values. */
  method SetInterpolation(rec: GridrecStruct, o: Options)
    requires rec.Valid()
    modifies rec
    ensures rec.Value() == old(rec.Value()).(interpolation := InterpolationFor(o))
  {
    AssignInterpolation(rec, o);
  }

  /** Lines 107-156: fill the fresh record field by field. */
  method Configure(rec: GridrecStruct, shape: Shape3, o: Options) returns (err: Option<Error>)
    requires rec.Valid() && rec.Value() == ZeroConfig
    modifies rec, rec.debugFileName, rec.fname, rec.BP_filterName
    ensures rec.Value() == BuildConfig(shape, o).config
    ensures err == BuildConfig(shape, o).error
  {
    SetSizes(rec, shape, o);
    var width: int;
    if o.paddedSinogramWidth.None? {
      width := PadWidth(shape.d2);
    } else if o.paddedSinogramWidth.value < shape.d2 {
      return Some(PaddedWidthTooSmall);
    } else {
      width := o.paddedSinogramWidth.value;
    }
    SetCorrection(rec, width, o);
    SetExecution(rec, o);
    var ok := rec.SetText(DebugFileName, o.debugFileName);
    if !ok {
      return Some(TextTooLong(DebugFileName));
    }
    SetGrid(rec, o);
    ok := rec.SetText(Fname, o.fname);
    if !ok {
      return Some(TextTooLong(Fname));
    }
    SetBackprojection(rec, o);
    ok := rec.SetText(BPFilterName, o.BP_filterName);
    if !ok {
      return Some(TextTooLong(BPFilterName));
    }
    SetInterpolation(rec, o);
    err := None;
  }

  /** The index `slice_no` selects on the slice axis of the data; numpy
      accepts negative indices counted from the end. */
  predicate SliceInRange(numSlices: nat, sliceNo: Option<int>) {
    sliceNo.None? || -(numSlices as int) <= sliceNo.value < numSlices
  }

  /** Every check before reconRun passes, so the wait loop is reached. */
  predicate ReachesRun(data: Shape3, theta: Option<seq<real>>, o: Options) {
    BuildConfig(data, o).error.None? && theta.None? && SliceInRange(data.d1, o.sliceNo)
  }

  /** What one call of `gridrec()` leaves behind besides the record stored
      in `TomoObj.recon`: the shape of `TomoObj.data`, the calls the engine
      received and the exception raised, if any. */
  datatype Outcome = Outcome(data: Shape3, calls: seq<Call>, error: Option<Error>)

  /** Lines 107-205 as a value. Filling the record can stop with an
      exception, and a dataset that carries its own angles leaves `theta`
      unbound, which fails at reconCreate before the engine is called. The
      sizes the rest of the call reads back from the record are the data's
      own, since they fit a `c_int`. */
  function GridrecSpec(data: Shape3, theta: Option<seq<real>>, center: Option<seq<real>>,
                       o: Options, replies: seq<PollReply>): (r: Outcome)
    requires FitsCInt(data)
    requires ReachesRun(data, theta, o) ==> Completes(replies)
    ensures r.calls != [] <==> BuildConfig(data, o).error.None? && theta.None?
    ensures r.calls != [] ==> r.calls[0] == Create(BuildConfig(data, o).config, DefaultTheta(data.d0))
    ensures r.error.None? <==> ReachesRun(data, theta, o)
  {
    BuildConfigSizes(data, o);
    var b := BuildConfig(data, o);
    if b.error.Some? then Outcome(data, [], b.error)
    else if theta.Some? then Outcome(data, [], Some(ThetaUnbound))
    else LaunchSpec(b.config, data, center, o.sliceNo, replies)
  }

  /** The size fields read back from the record are counts numpy can use. */
  predicate CountsRead(s: Sizes) {
    s.numProjections >= 0 && s.numSlices >= 0 && s.numPixels >= 0
  }

  /** Lines 158-205 as a value, once the record is filled. The angle count,
      the slice count, the default centre and the output shape are read back
      from the record's size fields (lines 160, 165, 175 and 187); `slice_no`
      is checked against the data itself (line 185). The default angles go
      to reconCreate; a `slice_no` outside the data fails when the input slab
      is cut, after reconCreate; otherwise the data is replaced by an empty
      stack of `numPixels` x `numPixels` slices, the job runs, and the engine
      is polled until it reports completion and then deleted. */
  function LaunchSpec(config: Config, data: Shape3, center: Option<seq<real>>,
                      sliceNo: Option<int>, replies: seq<PollReply>): (r: Outcome)
    requires CountsRead(config.sizes)
    requires SliceInRange(data.d1, sliceNo) ==> Completes(replies)
    ensures r.calls != [] && r.calls[0] == Create(config, DefaultTheta(config.sizes.numProjections))
    ensures r.error.None? <==> SliceInRange(data.d1, sliceNo)
    ensures r.error.Some? ==> r.error == Some(SliceOutOfRange) && r.data == data && r.calls == r.calls[..1]
    ensures r.error.None? ==> r.calls[|r.calls| - 1] == Delete
  {
    var s := config.sizes;
    var n := if sliceNo.None? then s.numSlices else 1;
    var create := Create(config, DefaultTheta(s.numProjections));
    if !SliceInRange(data.d1, sliceNo) then Outcome(data, [create], Some(SliceOutOfRange))
    else
      var out := Shape3(n, s.numPixels, s.numPixels);
      var run := Run(n, ResolveCenters(n, s.numPixels, center), out);
      Outcome(out, [create, run] + PollTrace(replies) + [Delete], None)
  }

  /** Filling the record from a shape whose dimensions fit a `c_int` stores
      them unchanged, whatever else happens. */
  lemma BuildConfigSizes(shape: Shape3, o: Options)
    requires FitsCInt(shape)
    ensures BuildConfig(shape, o).config.sizes ==
            Sizes(shape.d2, shape.d0, shape.d1, o.sinoScale, o.reconScale)
  {
    CIntWraps(shape.d0);
    CIntWraps(shape.d1);
    CIntWraps(shape.d2);
  }

  /** Lines 54-205: `gridrec()` on a dataset, talking to `engine`. The result
      is the exception raised, if any. */
  method Gridrec(obj: Dataset, o: Options, engine: Engine) returns (err: Option<Error>)
    requires FitsCInt(obj.data)
    requires ReachesRun(obj.data, obj.theta, o) ==> Completes(engine.replies)
    modifies obj, engine
    ensures obj.recon != null && fresh(obj.recon)
    ensures obj.recon.Value() == BuildConfig(old(obj.data), o).config
    ensures var r := GridrecSpec(old(obj.data), old(obj.theta), old(obj.center), o, old(engine.replies));
            obj.data == r.data && engine.trace == old(engine.trace) + r.calls && err == r.error
    ensures obj.theta == old(obj.theta) && obj.center == old(obj.center)
    ensures engine.replies == if err.None? then old(engine.replies)[FirstComplete(old(engine.replies)) + 1..]
                              else old(engine.replies)
  {
    var rec;
    rec, err := Prepare(obj, o);
    if err.Some? {
      return;
    }
    if obj.theta.Some? {
      return Some(ThetaUnbound);
    }
    err := Launch(obj, engine, rec.Value(), rec.numProjections, rec.numSlices, rec.numPixels,
                  o.sliceNo);
  }

  /** Lines 106-156: a fresh record becomes `TomoObj.recon` and is filled. */
  method Prepare(obj: Dataset, o: Options) returns (rec: GridrecStruct, err: Option<Error>)
    requires FitsCInt(obj.data)
    modifies obj`recon
    ensures fresh(rec) && fresh(rec.debugFileName) && fresh(rec.fname) && fresh(rec.BP_filterName)
    ensures obj.recon == rec && rec.Valid()
    ensures rec.Value() == BuildConfig(obj.data, o).config && err == BuildConfig(obj.data, o).error
    ensures rec.numProjections == obj.data.d0 && rec.numSlices == obj.data.d1
    ensures rec.numPixels == obj.data.d2
  {
    rec := new GridrecStruct();
    obj.recon := rec;
    err := Configure(rec, obj.data, o);
    BuildConfigSizes(obj.data, o);
  }

  /** Lines 158-205, reading the sizes back from the filled record. */
  method Launch(obj: Dataset, engine: Engine, config: Config, numProjections: int,
                numSlices: int, numPixels: int, sliceNo: Option<int>) returns (err: Option<Error>)
    requires CountsRead(config.sizes)
    requires numProjections == config.sizes.numProjections && numSlices == config.sizes.numSlices
    requires numPixels == config.sizes.numPixels
    requires SliceInRange(obj.data.d1, sliceNo) ==> Completes(engine.replies)
    modifies obj`data, engine
    ensures var r := LaunchSpec(config, old(obj.data), obj.center, sliceNo, old(engine.replies));
            obj.data == r.data && engine.trace == old(engine.trace) + r.calls && err == r.error
    ensures engine.replies == if err.None? then old(engine.replies)[FirstComplete(old(engine.replies)) + 1..]
                              else old(engine.replies)
  {
    var theta := DefaultTheta(numProjections);
    var n := numSlices;
    if sliceNo.Some? {
      n := 1;
    }
    engine.ReconCreate(config, theta);
    var center := ResolveCenters(n, numPixels, obj.center);
    if !SliceInRange(obj.data.d1, sliceNo) {
      return Some(SliceOutOfRange);
    }
    obj.data := Shape3(n, numPixels, numPixels);
    engine.ReconRun(n, center, obj.data);
    var polls := WaitForCompletion(engine);
    engine.ReconDelete();
    err := None;
  }
}
