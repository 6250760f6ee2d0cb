/** The fixed-layout record `GridrecCStruct` handed to the engine
    (tomopy/recon/gridrec.py:11-52) and the byte-by-byte copy of a string
    into one of its `c_byte` fields. */
module Record {
  import opened Common
  import opened CTypes

  /** Capacities of the three text fields. */
  const DEBUG_FILE_NAME_SIZE: nat := 256
  const FNAME_SIZE: nat := 16
  const BP_FILTER_NAME_SIZE: nat := 16

  /* The record's contents as a value. Its fields fall into runs that
     `gridrec()` assigns together, one datatype per run; each `c_int` is an
     integer already reduced by `CInt`, each `c_float` a real. */

  /** `numPixels` .. `reconScale`, assigned at lines 108-112. */
  datatype Sizes = Sizes(
    numPixels: int, numProjections: int, numSlices: int, sinoScale: real, reconScale: real)

  /** `paddedSinogramWidth` .. `reconMethod`, assigned at lines 121-125. */
  datatype Correction = Correction(
    paddedSinogramWidth: int, airPixels: int, ringWidth: int, fluorescence: int, reconMethod: int)

  /** `reconMethodTomoRecon` .. `debug`, assigned at lines 126-131. */
  datatype Execution = Execution(
    reconMethodTomoRecon: int, reconMethodGridrec: int, reconMethodBackproject: int,
    numThreads: int, slicesPerChunk: int, debug: int)

  /** `geom` .. `ltbl`, assigned at lines 134-141. */
  datatype Grid = Grid(
    geom: int, pswfParam: real, sampl: real, MaxPixSiz: real, ROI: real, X0: real, Y0: real,
    ltbl: int)

  /** `BP_Method` .. `BP_MethodRadon`, assigned at lines 144-146. */
  datatype Backprojection = Backprojection(
    BP_Method: int, BP_MethodRiemann: int, BP_MethodRadon: int)

  /** `BP_filterSize` .. `RadonInterpolationLinear`, assigned at lines 149-156. */
  datatype Interpolation = Interpolation(
    BP_filterSize: int, RiemannInterpolation: int, RiemannInterpolationNone: int,
    RiemannInterpolationBilinear: int, RiemannInterpolationCubic: int,
    RadonInterpolation: int, RadonInterpolationNone: int, RadonInterpolationLinear: int)

  /** The whole record in layout order, each `c_byte` array as a sequence. */
  datatype Config = Config(
    sizes: Sizes,
    correction: Correction,
    execution: Execution,
    debugFileName: seq<SByte>,
    grid: Grid,
    fname: seq<SByte>,
    backprojection: Backprojection,
    BP_filterName: seq<SByte>,
    interpolation: Interpolation)
  {
    /** The contents of one text field. */
    function Text(f: TextField): seq<SByte> {
      match f
      case DebugFileName => debugFileName
      case Fname => fname
      case BPFilterName => BP_filterName
    }

    /** This record with one text field replaced. */
    function WithText(f: TextField, bytes: seq<SByte>): (c: Config)
      ensures c.Text(f) == bytes
    {
      match f
      case DebugFileName => this.(debugFileName := bytes)
      case Fname => this.(fname := bytes)
      case BPFilterName => this.(BP_filterName := bytes)
    }
  }

  /** The declared capacity of each text field. */
  function Capacity(f: TextField): nat {
    match f
    case DebugFileName => DEBUG_FILE_NAME_SIZE
    case Fname => FNAME_SIZE
    case BPFilterName => BP_FILTER_NAME_SIZE
  }

  function Zeros(n: nat): (z: seq<SByte>)
    ensures |z| == n && forall i :: 0 <= i < n ==> z[i] == 0
  {
    seq(n, _ => 0)
  }

  /** A freshly constructed ctypes structure: every field zero. */
  const ZeroConfig: Config :=
    Config(Sizes(0, 0, 0, 0.0, 0.0),
           Correction(0, 0, 0, 0, 0),
           Execution(0, 0, 0, 0, 0, 0),
           Zeros(DEBUG_FILE_NAME_SIZE),
           Grid(0, 0.0, 0.0, 0.0, 0.0, 0.0, 0.0, 0),
           Zeros(FNAME_SIZE),
           Backprojection(0, 0, 0),
           Zeros(BP_FILTER_NAME_SIZE),
           Interpolation(0, 0, 0, 0, 0, 0, 0, 0))

  /** The record object itself, whose fields `gridrec()` assigns one by one. */
  class GridrecStruct {
    var numPixels: int
    var numProjections: int
    var numSlices: int
    var sinoScale: real
    var reconScale: real
    var paddedSinogramWidth: int
    var airPixels: int
    var ringWidth: int
    var fluorescence: int
    var reconMethod: int
    var reconMethodTomoRecon: int
    var reconMethodGridrec: int
    var reconMethodBackproject: int
    var numThreads: int
    var slicesPerChunk: int
    var debug: int
    const debugFileName: array<SByte>
    var geom: int
    var pswfParam: real
    var sampl: real
    var MaxPixSiz: real
    var ROI: real
    var X0: real
    var Y0: real
    var ltbl: int
    const fname: array<SByte>
    var BP_Method: int
    var BP_MethodRiemann: int
    var BP_MethodRadon: int
    const BP_filterName: array<SByte>
    var BP_filterSize: int
    var RiemannInterpolation: int
    var RiemannInterpolationNone: int
    var RiemannInterpolationBilinear: int
    var RiemannInterpolationCubic: int
    var RadonInterpolation: int
    var RadonInterpolationNone: int
    var RadonInterpolationLinear: int

    /** The text fields have their declared capacities and are separate buffers. */
    ghost predicate Valid() {
      debugFileName.Length == DEBUG_FILE_NAME_SIZE &&
      fname.Length == FNAME_SIZE &&
      BP_filterName.Length == BP_FILTER_NAME_SIZE &&
      debugFileName != fname && debugFileName != BP_filterName && fname != BP_filterName
    }

    function SizesPart(): Sizes
      reads this`numPixels, this`numProjections, this`numSlices, this`sinoScale, this`reconScale
    {
      Sizes(numPixels, numProjections, numSlices, sinoScale, reconScale)
    }

    function CorrectionPart(): Correction
      reads this`paddedSinogramWidth, this`airPixels, this`ringWidth, this`fluorescence,
            this`reconMethod
    {
      Correction(paddedSinogramWidth, airPixels, ringWidth, fluorescence, reconMethod)
    }

    function ExecutionPart(): Execution
      reads this`reconMethodTomoRecon, this`reconMethodGridrec, this`reconMethodBackproject,
            this`numThreads, this`slicesPerChunk, this`debug
    {
      Execution(reconMethodTomoRecon, reconMethodGridrec, reconMethodBackproject,
                numThreads, slicesPerChunk, debug)
    }

    function GridPart(): Grid
      reads this`geom, this`pswfParam, this`sampl, this`MaxPixSiz, this`ROI, this`X0,
            this`Y0, this`ltbl
    {
      Grid(geom, pswfParam, sampl, MaxPixSiz, ROI, X0, Y0, ltbl)
    }

    function BackprojectionPart(): Backprojection
      reads this`BP_Method, this`BP_MethodRiemann, this`BP_MethodRadon
    {
      Backprojection(BP_Method, BP_MethodRiemann, BP_MethodRadon)
    }

    function InterpolationPart(): Interpolation
      reads this`BP_filterSize, this`RiemannInterpolation, this`RiemannInterpolationNone,
            this`RiemannInterpolationBilinear, this`RiemannInterpolationCubic,
            this`RadonInterpolation, this`RadonInterpolationNone, this`RadonInterpolationLinear
    {
      Interpolation(BP_filterSize, RiemannInterpolation, RiemannInterpolationNone,
                    RiemannInterpolationBilinear, RiemannInterpolationCubic,
                    RadonInterpolation, RadonInterpolationNone, RadonInterpolationLinear)
    }

    /** The whole record's current contents. */
    function Value(): Config
      reads this, debugFileName, fname, BP_filterName
    {
      Config(SizesPart(), CorrectionPart(), ExecutionPart(), debugFileName[..], GridPart(),
             fname[..], BackprojectionPart(), BP_filterName[..], InterpolationPart())
    }

    /** The buffer behind one text field. */
    function TextArray(f: TextField): (a: array<SByte>)
      requires Valid()
      ensures a.Length == Capacity(f)
    {
      match f
      case DebugFileName => debugFileName
      case Fname => fname
      case BPFilterName => BP_filterName
    }

    /** Lines 132-133, 142-143 and 147-148: copy `s` into one text field;
        every other field keeps its value. */
    method SetText(f: TextField, s: seq<char>) returns (ok: bool)
      requires Valid()
      modifies TextArray(f)
      ensures ok == (|s| <= Capacity(f))
      ensures Value() == old(Value()).WithText(f, Stamp(old(Value()).Text(f), s))
    {
      ok := CopyText(TextArray(f), s);
    }

    /** `GridrecCStruct()`: ctypes zero-fills a new structure. */
    constructor ()
      ensures Valid() && Value() == ZeroConfig
      ensures fresh(debugFileName) && fresh(fname) && fresh(BP_filterName)
    {
      numPixels, numProjections, numSlices := 0, 0, 0;
      sinoScale, reconScale := 0.0, 0.0;
      paddedSinogramWidth, airPixels, ringWidth, fluorescence := 0, 0, 0, 0;
      reconMethod, reconMethodTomoRecon, reconMethodGridrec, reconMethodBackproject := 0, 0, 0, 0;
      numThreads, slicesPerChunk, debug := 0, 0, 0;
      debugFileName := new SByte[DEBUG_FILE_NAME_SIZE](_ => 0);
      geom := 0;
      pswfParam, sampl, MaxPixSiz, ROI, X0, Y0 := 0.0, 0.0, 0.0, 0.0, 0.0, 0.0;
      ltbl := 0;
      fname := new SByte[FNAME_SIZE](_ => 0);
      BP_Method, BP_MethodRiemann, BP_MethodRadon := 0, 0, 0;
      BP_filterName := new SByte[BP_FILTER_NAME_SIZE](_ => 0);
      BP_filterSize := 0;
      RiemannInterpolation, RiemannInterpolationNone := 0, 0;
      RiemannInterpolationBilinear, RiemannInterpolationCubic := 0, 0;
      RadonInterpolation, RadonInterpolationNone, RadonInterpolationLinear := 0, 0, 0;
      new;
      assert debugFileName[..] == Zeros(DEBUG_FILE_NAME_SIZE);
      assert fname[..] == Zeros(FNAME_SIZE);
      assert BP_filterName[..] == Zeros(BP_FILTER_NAME_SIZE);
    }
  }

  /** A text field after `field[m] = ord(s[m])` for every index the field has
      and `s` reaches: the leading bytes hold the characters, the rest keep
      what the field held. */
  function Stamp(field: seq<SByte>, s: seq<char>): (r: seq<SByte>)
    ensures |r| == |field|
    ensures forall i :: 0 <= i < |field| && i < |s| ==> (r[i] - s[i] as int) % 256 == 0
    ensures forall i :: |s| <= i < |field| ==> r[i] == field[i]
  {
    seq(|field|, i requires 0 <= i < |field| => if i < |s| then CByte(s[i] as int) else field[i])
  }

  /** The copy loop `for m in range(len(s)): field[m] = ord(s[m])`. It stops
      with ctypes' IndexError (`ok` false) at the first index past the
      field's capacity, after the bytes before it were written. */
  method CopyText(field: array<SByte>, s: seq<char>) returns (ok: bool)
    modifies field
    ensures ok == (|s| <= field.Length)
    ensures field[..] == Stamp(old(field[..]), s)
  {
    for m := 0 to |s|
      invariant m <= field.Length
      invariant field[..] == Stamp(old(field[..]), s[..m])
    {
      if m >= field.Length {
        assert Stamp(old(field[..]), s[..m]) == Stamp(old(field[..]), s);
        return false;
      }
      field[m] := CByte(s[m] as int);
    }
    assert s[..|s|] == s;
    return true;
  }

  /** A string at least as long as the field fills it with its leading
      characters. */
  lemma StampOverrun(field: seq<SByte>, s: seq<char>)
    requires |s| >= |field|
    ensures Stamp(field, s) == Encode(s[..|field|])
  {
  }

  /** A string that fits leaves its bytes in front of the untouched tail. */
  lemma StampFitting(field: seq<SByte>, s: seq<char>)
    requires |s| <= |field|
    ensures Stamp(field, s) == Encode(s) + field[|s|..]
  {
  }

  /** A string shorter than a zeroed field stays NUL-terminated, so a C reader
      gets back exactly its bytes; for a Python 2 byte string those read back
      as the string itself. */
  lemma {:induction false} StampReadsBack(n: nat, s: seq<char>)
    requires |s| < n && HasNoNul(s)
    ensures CString(Stamp(Zeros(n), s)) == Encode(s)
    ensures IsByteString(s) ==> Decode(CString(Stamp(Zeros(n), s))) == s
  {
    var buf := Stamp(Zeros(n), s);
    var r := CString(buf);
    forall i | 0 <= i < |s| ensures buf[i] != 0 {
      assert buf[i] == CByte(s[i] as int);
    }
    assert buf[|s|] == 0;
    StampFitting(Zeros(n), s);
    assert r == buf[..|s|];
    assert buf[..|s|] == Encode(s);
    if IsByteString(s) {
      DecodeEncode(s);
    }
  }

  /** A string exactly as long as the field fills it with no terminating NUL,
      so the reader takes the whole field. */
  lemma StampAtCapacity(field: seq<SByte>, s: seq<char>)
    requires |s| == |field| && HasNoNul(s)
    ensures forall i :: 0 <= i < |field| ==> Stamp(field, s)[i] != 0
    ensures CString(Stamp(field, s)) == Stamp(field, s) == Encode(s)
  {
    var buf := Stamp(field, s);
    assert forall i :: 0 <= i < |field| ==> buf[i] == CByte(s[i] as int);
  }
}
