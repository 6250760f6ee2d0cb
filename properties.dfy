/** What `gridrec()` (tomopy/recon/gridrec.py:54-205) guarantees about the
    record it fills and the calls it makes, stated over the reference
    definitions `BuildConfig` and `GridrecSpec` that the methods are proved
    against. */
module Properties {
  import opened Common
  import opened CTypes
  import opened Record
  import opened Geometry
  import opened Engine
  import opened Gridrec

  /** The string option copied into each text field. */
  function TextOption(o: Options, f: TextField): string {
    match f
    case DebugFileName => o.debugFileName
    case Fname => o.fname
    case BPFilterName => o.BP_filterName
  }

  /** The padded width the options lead to, when there is one. */
  predicate PaddingAccepted(shape: Shape3, o: Options) {
    PaddingFor(shape.d2, o.paddedSinogramWidth).Ok?
  }

  /** Filling the record fails exactly at the first check that fails, in
      source order: the explicit padded width, then each text copy. */
  lemma ConfigErrors(shape: Shape3, o: Options)
    ensures BuildConfig(shape, o).error.None? <==>
              PaddingAccepted(shape, o) && |o.debugFileName| <= DEBUG_FILE_NAME_SIZE &&
              |o.fname| <= FNAME_SIZE && |o.BP_filterName| <= BP_FILTER_NAME_SIZE
    ensures BuildConfig(shape, o).error == Some(PaddedWidthTooSmall) <==>
              o.paddedSinogramWidth.Some? && o.paddedSinogramWidth.value < shape.d2
    ensures BuildConfig(shape, o).error == Some(TextTooLong(DebugFileName)) <==>
              PaddingAccepted(shape, o) && |o.debugFileName| > DEBUG_FILE_NAME_SIZE
    ensures BuildConfig(shape, o).error == Some(TextTooLong(Fname)) <==>
              PaddingAccepted(shape, o) && |o.debugFileName| <= DEBUG_FILE_NAME_SIZE &&
              |o.fname| > FNAME_SIZE
    ensures BuildConfig(shape, o).error == Some(TextTooLong(BPFilterName)) <==>
              PaddingAccepted(shape, o) && |o.debugFileName| <= DEBUG_FILE_NAME_SIZE &&
              |o.fname| <= FNAME_SIZE && |o.BP_filterName| > BP_FILTER_NAME_SIZE
  {
  }

  /** The constants the wrapper stores whatever the caller passed: each run of
      fields that was reached holds them, and a run after the failing check
      keeps the zeros of the fresh record. */
  lemma FixedConstants(shape: Shape3, o: Options)
    ensures var c := BuildConfig(shape, o).config;
            if PaddingAccepted(shape, o) then c.execution.reconMethodTomoRecon == 0 &&
              c.execution.reconMethodGridrec == 1 && c.execution.reconMethodBackproject == 2 &&
              c.execution.debug == 0
            else c.correction == ZeroConfig.correction && c.execution == ZeroConfig.execution
    ensures var c := BuildConfig(shape, o).config;
            if PaddingAccepted(shape, o) && |o.debugFileName| <= DEBUG_FILE_NAME_SIZE &&
               |o.fname| <= FNAME_SIZE
            then c.backprojection.BP_MethodRiemann == 0 && c.backprojection.BP_MethodRadon == 1
            else c.backprojection == ZeroConfig.backprojection
    ensures var c := BuildConfig(shape, o).config;
            if BuildConfig(shape, o).error.None?
            then c.interpolation.RiemannInterpolationNone == 0 &&
                 c.interpolation.RiemannInterpolationBilinear == 1 &&
                 c.interpolation.RiemannInterpolationCubic == 2 &&
                 c.interpolation.RadonInterpolationNone == 0 &&
                 c.interpolation.RadonInterpolationLinear == 1
            else c.interpolation == ZeroConfig.interpolation
  {
  }

  /** The options `reconMethodTomoRecon` and `debug` have no effect at all. */
  lemma IgnoredOptions(data: Shape3, theta: Option<seq<real>>, center: Option<seq<real>>,
                       o: Options, replies: seq<PollReply>, tomoRecon: int, debug: int)
    requires FitsCInt(data) && (ReachesRun(data, theta, o) ==> Completes(replies))
    ensures BuildConfig(data, o.(reconMethodTomoRecon := tomoRecon, debug := debug)) == BuildConfig(data, o)
    ensures ReachesRun(data, theta, o.(reconMethodTomoRecon := tomoRecon, debug := debug)) ==
            ReachesRun(data, theta, o)
    ensures GridrecSpec(data, theta, center, o.(reconMethodTomoRecon := tomoRecon, debug := debug), replies) ==
            GridrecSpec(data, theta, center, o, replies)
  {
    var o' := o.(reconMethodTomoRecon := tomoRecon, debug := debug);
    assert SizesFor(data, o') == SizesFor(data, o);
    assert CorrectionFor(PaddedWidthFor(data.d2), o') == CorrectionFor(PaddedWidthFor(data.d2), o);
    assert ExecutionFor(o') == ExecutionFor(o);
    assert GridFor(o') == GridFor(o);
    assert BackprojectionFor(o') == BackprojectionFor(o);
    assert InterpolationFor(o') == InterpolationFor(o);
  }

  /** The integer options of lines 122-130 are stored as `c_int`s (modulo
      2^32, unchanged when they fit) once the padded width is accepted, even
      when a later text copy fails. */
  lemma CorrectionOptionsStored(shape: Shape3, o: Options)
    requires PaddingAccepted(shape, o)
    ensures var c := BuildConfig(shape, o).config;
            StoredAsCInt(c.correction.airPixels, o.airPixels) &&
            StoredAsCInt(c.correction.ringWidth, o.ringWidth) &&
            StoredAsCInt(c.correction.fluorescence, o.fluorescence) &&
            StoredAsCInt(c.correction.reconMethod, o.reconMethod) &&
            StoredAsCInt(c.execution.numThreads, o.numThreads) &&
            StoredAsCInt(c.execution.slicesPerChunk, o.slicesPerChunk)
  {
    CIntWraps(o.airPixels);
    CIntWraps(o.ringWidth);
    CIntWraps(o.fluorescence);
    CIntWraps(o.reconMethod);
    CIntWraps(o.numThreads);
    CIntWraps(o.slicesPerChunk);
  }

  /** `geom` and `ltbl` (lines 134 and 141) are stored as `c_int`s once the
      debug file name fits. */
  lemma GridOptionsStored(shape: Shape3, o: Options)
    requires PaddingAccepted(shape, o) && |o.debugFileName| <= DEBUG_FILE_NAME_SIZE
    ensures var c := BuildConfig(shape, o).config;
            StoredAsCInt(c.grid.geom, o.geom) && StoredAsCInt(c.grid.ltbl, o.ltbl)
  {
    CIntWraps(o.geom);
    CIntWraps(o.ltbl);
  }

  /** `BP_Method` (line 144) is stored as a `c_int` once `fname` fits too. */
  lemma BackprojectionOptionStored(shape: Shape3, o: Options)
    requires PaddingAccepted(shape, o) && |o.debugFileName| <= DEBUG_FILE_NAME_SIZE
    requires |o.fname| <= FNAME_SIZE
    ensures StoredAsCInt(BuildConfig(shape, o).config.backprojection.BP_Method, o.BP_Method)
  {
    CIntWraps(o.BP_Method);
  }

  /** The integer options of lines 149-154 are stored as `c_int`s when the
      whole record is filled. */
  lemma InterpolationOptionsStored(shape: Shape3, o: Options)
    requires BuildConfig(shape, o).error.None?
    ensures var c := BuildConfig(shape, o).config;
            StoredAsCInt(c.interpolation.BP_filterSize, o.BP_filterSize) &&
            StoredAsCInt(c.interpolation.RiemannInterpolation, o.RiemannInterpolation) &&
            StoredAsCInt(c.interpolation.RadonInterpolation, o.RadonInterpolation)
  {
    CIntWraps(o.BP_filterSize);
    CIntWraps(o.RiemannInterpolation);
    CIntWraps(o.RadonInterpolation);
  }

  /** With no explicit width and a pixel count up to 2^30, the record holds
      the smallest power of two that is at least 2 and at least the pixel
      count. */
  lemma DefaultPaddingStored(shape: Shape3, o: Options)
    requires o.paddedSinogramWidth.None? && 0 < shape.d2 <= 0x4000_0000
    ensures var w := BuildConfig(shape, o).config.correction.paddedSinogramWidth;
            IsPowerOfTwo(w) && 2 <= w && shape.d2 <= w &&
            forall p :: IsPowerOfTwo(p) && 2 <= p && shape.d2 <= p ==> w <= p
  {
    var n := shape.d2;
    PaddedWidthIsSmallestPowerOfTwo(n);
    PaddedWidthForIsPaddedWidth(n);
    var w := PaddedWidthFor(n);
    assert w < 0x8000_0000;
    CIntWraps(w);
  }

  /** An explicit width at least the pixel count is stored as given, even
      when it is not a power of two. */
  lemma ExplicitPaddingStored(shape: Shape3, o: Options)
    requires o.paddedSinogramWidth.Some? && shape.d2 <= o.paddedSinogramWidth.value < 0x8000_0000
    ensures BuildConfig(shape, o).config.correction.paddedSinogramWidth == o.paddedSinogramWidth.value
  {
    CIntWraps(o.paddedSinogramWidth.value);
  }

  /** A pixel count above 2^30 makes the default width 2^31, which a `c_int`
      stores as -2^31. */
  lemma DefaultPaddingWraps(shape: Shape3, o: Options)
    requires o.paddedSinogramWidth.None? && 0x4000_0000 < shape.d2 < 0x8000_0000
    ensures BuildConfig(shape, o).config.correction.paddedSinogramWidth == -0x8000_0000
  {
    assert Pow2(30) == 0x4000_0000 && Pow2(31) == 0x8000_0000 by {
      assert Pow2(10) == 0x400;
      Pow2Add(10, 10);
      Pow2Add(20, 10);
      Pow2Add(30, 1);
    }
    PaddedWidthBetweenPowers(shape.d2, 31);
  }

  /** Every text field reached holds its string stamped over zeros. */
  lemma StoredText(shape: Shape3, o: Options, f: TextField)
    requires BuildConfig(shape, o).error.None?
    ensures BuildConfig(shape, o).config.Text(f) == Stamp(Zeros(Capacity(f)), TextOption(o, f))
  {
  }

  /** A C reader of the filled record gets each text option back, when it is
      shorter than its field and holds no NUL; a Python 2 byte string reads
      back as itself. */
  lemma TextFieldsReadBack(shape: Shape3, o: Options, f: TextField)
    requires BuildConfig(shape, o).error.None?
    requires |TextOption(o, f)| < Capacity(f) && HasNoNul(TextOption(o, f))
    ensures CString(BuildConfig(shape, o).config.Text(f)) == Encode(TextOption(o, f))
    ensures IsByteString(TextOption(o, f)) ==>
              Decode(CString(BuildConfig(shape, o).config.Text(f))) == TextOption(o, f)
  {
    StoredText(shape, o, f);
    StampReadsBack(Capacity(f), TextOption(o, f));
  }

  /** When a text copy overruns its field, the record keeps the bytes written
      before the IndexError: the field is full with the string's first
      characters. */
  lemma OverrunTextKept(shape: Shape3, o: Options, f: TextField)
    requires BuildConfig(shape, o).error == Some(TextTooLong(f))
    ensures BuildConfig(shape, o).config.Text(f) == Encode(TextOption(o, f)[..Capacity(f)])
  {
    var s := TextOption(o, f);
    assert BuildConfig(shape, o).config.Text(f) == Stamp(Zeros(Capacity(f)), s);
    StampOverrun(Zeros(Capacity(f)), s);
  }

  /** `gridrec()` runs the job exactly when every check before reconRun
      passes, and raises the first exception met otherwise. */
  lemma GridrecErrors(data: Shape3, theta: Option<seq<real>>, center: Option<seq<real>>,
                      o: Options, replies: seq<PollReply>)
    requires FitsCInt(data) && (ReachesRun(data, theta, o) ==> Completes(replies))
    ensures var r := GridrecSpec(data, theta, center, o, replies);
            (r.error.None? <==> ReachesRun(data, theta, o)) &&
            (BuildConfig(data, o).error.Some? ==> r.error == BuildConfig(data, o).error) &&
            (r.error == Some(ThetaUnbound) <==> BuildConfig(data, o).error.None? && theta.Some?) &&
            (r.error == Some(SliceOutOfRange) <==>
               BuildConfig(data, o).error.None? && theta.None? && !SliceInRange(data.d1, o.sliceNo))
  {
  }

  /** A dataset that carries its own angles always fails before the engine
      is called: `theta` is bound only when the dataset has none. */
  lemma SuppliedThetaFails(data: Shape3, theta: Option<seq<real>>, center: Option<seq<real>>,
                           o: Options, replies: seq<PollReply>)
    requires FitsCInt(data) && theta.Some?
    ensures var r := GridrecSpec(data, theta, center, o, replies);
            r.error.Some? && r.calls == [] && r.data == data
  {
  }

  /** A successful call makes one complete job: reconCreate with the record
      and the default angles, reconRun with one centre per slice as resolved
      and an output of `numSlices` x `numPixels` x `numPixels`, polls up to the
      first that reports completion, and a single final reconDelete; the data
      becomes that output. */
  lemma SuccessfulJob(data: Shape3, theta: Option<seq<real>>, center: Option<seq<real>>,
                      o: Options, replies: seq<PollReply>)
    requires FitsCInt(data) && ReachesRun(data, theta, o) && Completes(replies)
    ensures var r := GridrecSpec(data, theta, center, o, replies);
            var n := if o.sliceNo.None? then data.d1 else 1;
            IsCompleteJob(r.calls) &&
            |r.calls| == FirstComplete(replies) + 4 &&
            r.calls[0] == Create(BuildConfig(data, o).config, DefaultTheta(data.d0)) &&
            r.calls[1] == Run(n, ResolveCenters(n, data.d2, center), Shape3(n, data.d2, data.d2)) &&
            r.data == Shape3(n, data.d2, data.d2) &&
            (forall i :: 0 <= i < |r.calls| ==> (r.calls[i] == Delete <==> i == |r.calls| - 1))
  {
    BuildConfigSizes(data, o);
    var r := GridrecSpec(data, theta, center, o, replies);
    var n := if o.sliceNo.None? then data.d1 else 1;
    var create := Create(BuildConfig(data, o).config, DefaultTheta(data.d0));
    var run := Run(n, ResolveCenters(n, data.d2, center), Shape3(n, data.d2, data.d2));
    assert r.calls == [create, run] + PollTrace(replies) + [Delete];
    JobOrder(create, run, replies);
    DeleteOnceLast(r.calls);
  }

  /** A failed call leaves the data as it was, never calls reconRun or
      reconDelete, and calls reconCreate only when it fails on `slice_no`,
      leaving the engine's object undeleted. */
  lemma FailedCallKeepsData(data: Shape3, theta: Option<seq<real>>, center: Option<seq<real>>,
                            o: Options, replies: seq<PollReply>)
    requires FitsCInt(data) && !ReachesRun(data, theta, o)
    ensures var r := GridrecSpec(data, theta, center, o, replies);
            r.error.Some? && r.data == data && Delete !in r.calls &&
            (forall c :: c in r.calls ==> c.Create?) &&
            (r.calls == [] <==> r.error != Some(SliceOutOfRange)) &&
            |r.calls| <= 1
  {
  }

  /** Without explicit centres the job gets one per slice, half the pixel
      count each. */
  lemma DefaultCentres(data: Shape3, theta: Option<seq<real>>, o: Options, replies: seq<PollReply>)
    requires FitsCInt(data) && ReachesRun(data, theta, o) && Completes(replies)
    ensures var r := GridrecSpec(data, theta, None, o, replies);
            r.calls[1].Run? && |r.calls[1].center| == r.calls[1].numSlices &&
            forall i :: 0 <= i < |r.calls[1].center| ==> r.calls[1].center[i] == data.d2 as real / 2.0
  {
    SuccessfulJob(data, theta, None, o, replies);
  }

  /** The doubling search on a few pixel counts. */
  lemma PaddedWidthExamples()
    ensures PaddedWidthFor(0) == 0 && PaddedWidthFor(1) == 2 && PaddedWidthFor(2) == 2
    ensures PaddedWidthFor(3) == 4 && PaddedWidthFor(500) == 512 && PaddedWidthFor(512) == 512
    ensures PaddedWidthFor(513) == 1024
  {
    assert PaddedWidthFor(4) == 4;
    assert PaddedWidthFor(8) == 8 && PaddedWidthFor(16) == 16 && PaddedWidthFor(32) == 32;
    assert PaddedWidthFor(63) == 64 && PaddedWidthFor(125) == 128;
    assert PaddedWidthFor(250) == 256 && PaddedWidthFor(500) == 512;
    assert PaddedWidthFor(64) == 64 && PaddedWidthFor(128) == 128 && PaddedWidthFor(256) == 256;
    assert PaddedWidthFor(257) == 512;
    assert PaddedWidthFor(129) == 256 && PaddedWidthFor(65) == 128 && PaddedWidthFor(33) == 64;
    assert PaddedWidthFor(17) == 32 && PaddedWidthFor(9) == 16 && PaddedWidthFor(5) == 8;
  }

  /** Four projections of two 16-pixel slices with the defaults, an engine that
      finishes on its third poll: the width stays 16, the angles are 0, 60,
      120 and 180 degrees, both slices turn about pixel 8, and the data
      becomes two 16 x 16 slices. */
  lemma SmallJobExample()
    ensures var data := Shape3(4, 2, 16);
            var replies := [PollReply(0, 2), PollReply(0, 1), PollReply(1, 0)];
            var r := GridrecSpec(data, None, None, DefaultOptions, replies);
            var c := BuildConfig(data, DefaultOptions).config;
            r.error.None? && r.data == Shape3(2, 16, 16) &&
            c.correction.paddedSinogramWidth == 16 &&
            r.calls == [Create(c, [0.0, 60.0, 120.0, 180.0]),
                        Run(2, [8.0, 8.0], Shape3(2, 16, 16)),
                        Polled(PollReply(0, 2)), Polled(PollReply(0, 1)), Polled(PollReply(1, 0)),
                        Delete]
  {
    var data := Shape3(4, 2, 16);
    var replies := [PollReply(0, 2), PollReply(0, 1), PollReply(1, 0)];
    assert PaddedWidthFor(16) == 16 by {
      assert PaddedWidthFor(2) == 2 && PaddedWidthFor(4) == 4 && PaddedWidthFor(8) == 8;
    }
    CIntWraps(16);
    assert Completes(replies) by {
      assert replies[1..][1..][0].complete == 1;
    }
    assert FirstComplete(replies) == 2 by {
      assert FirstComplete(replies[1..][1..]) == 0;
    }
    assert PollTrace(replies) == [Polled(replies[0]), Polled(replies[1]), Polled(replies[2])];
    var theta := DefaultTheta(4);
    var samples := Linspace(0.0, 4.0, 4);
    assert samples == [0.0, 4.0 / 3.0, 8.0 / 3.0, 4.0];
    assert theta == [0.0, 60.0, 120.0, 180.0];
    assert ResolveCenters(2, 16, None) == [8.0, 8.0];
  }
}
