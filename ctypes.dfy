/** How ctypes stores Python integers into the record's C fields, and how a C
    reader sees a `char[]` field. */
module CTypes {

  /** A C `int` (32-bit two's complement). */
  type Int32 = x: int | -0x8000_0000 <= x < 0x8000_0000

  /** A C `signed char`, the element type of ctypes' `c_byte` arrays. */
  type SByte = x: int | -128 <= x < 128

  /** ctypes assigns a Python integer to a `c_int` without overflow checking:
      only its low 32 bits are kept, read back as a signed value. */
  function CInt(x: int): (r: Int32)
  {
    (x + 0x8000_0000) % 0x1_0000_0000 - 0x8000_0000
  }

  /** `stored` is what a `c_int` holds once assigned `x`: a 32-bit value equal
      to `x` modulo 2^32, and `x` itself when `x` fits. */
  predicate StoredAsCInt(stored: int, x: int) {
    -0x8000_0000 <= stored < 0x8000_0000 && (stored - x) % 0x1_0000_0000 == 0 &&
    (-0x8000_0000 <= x < 0x8000_0000 ==> stored == x)
  }

  /** `CInt` keeps `x` modulo 2^32 and leaves a value that already fits alone. */
  lemma CIntWraps(x: int)
    ensures (x - CInt(x)) % 0x1_0000_0000 == 0
    ensures -0x8000_0000 <= x < 0x8000_0000 ==> CInt(x) == x
    ensures StoredAsCInt(CInt(x), x)
  {
  }

  /** The same for a `c_byte`: only the low 8 bits are kept. */
  function CByte(x: int): (r: SByte)
    ensures (x - r) % 256 == 0
    ensures -128 <= x < 128 ==> r == x
  {
    (x + 128) % 256 - 128
  }

  /** The byte a Latin-1 character (the byte of a Python 2 `str`) reads back as. */
  function Unsigned(b: SByte): (r: int)
    ensures 0 <= r < 256 && CByte(r) == b
  {
    if b < 0 then b + 256 else b
  }

  lemma UnsignedCByte(x: int)
    requires 0 <= x < 256
    ensures Unsigned(CByte(x)) == x
  {
  }

  /** What a C reader of a `char[]` field takes as the string: every byte
      before the first NUL, or the whole field when it holds no NUL. */
  function CString(buf: seq<SByte>): (r: seq<SByte>)
    ensures |r| <= |buf| && r == buf[..|r|]
    ensures forall i :: 0 <= i < |r| ==> r[i] != 0
    ensures |r| < |buf| ==> buf[|r|] == 0
  {
    if buf == [] || buf[0] == 0 then [] else [buf[0]] + CString(buf[1..])
  }

  /** The bytes `map(ord, s)` stores, one `c_byte` per character. */
  function Encode(s: seq<char>): (r: seq<SByte>)
    ensures |r| == |s|
    ensures forall i :: 0 <= i < |s| ==> (r[i] - s[i] as int) % 256 == 0
  {
    seq(|s|, i requires 0 <= i < |s| => CByte(s[i] as int))
  }

  /** Reads stored bytes back as Latin-1 characters. */
  function Decode(bytes: seq<SByte>): (s: seq<char>)
    ensures |s| == |bytes|
    ensures forall i :: 0 <= i < |s| ==> s[i] as int < 256 && CByte(s[i] as int) == bytes[i]
  {
    seq(|bytes|, i requires 0 <= i < |bytes| => Unsigned(bytes[i]) as char)
  }

  /** Every character is one byte of a Python 2 `str`. */
  predicate IsByteString(s: seq<char>) {
    forall i :: 0 <= i < |s| ==> s[i] as int < 256
  }

  /** No character is stored as a NUL byte. */
  predicate HasNoNul(s: seq<char>) {
    forall i :: 0 <= i < |s| ==> (s[i] as int) % 256 != 0
  }

  lemma {:induction false} DecodeEncode(s: seq<char>)
    requires IsByteString(s)
    ensures Decode(Encode(s)) == s
  {
    forall i | 0 <= i < |s| ensures Decode(Encode(s))[i] == s[i] {
      UnsignedCByte(s[i] as int);
    }
  }
}
