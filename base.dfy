/** Machine-level values shared by the page manager, the sound manager and the
    video buffer code: bytes, the 16- and 32-bit integer types of the C code,
    little-endian words, and the result types used for the error paths. */
module Base {

  type Byte = b: int | 0 <= b < 0x100
  type Uint16 = w: int | 0 <= w < 0x1_0000
  type Sint16 = w: int | -0x8000 <= w < 0x8000
  type Uint32 = d: int | 0 <= d < 0x1_0000_0000

  datatype Option<T> = None | Some(value: T)

  /** A value or the error that stopped the computation. */
  datatype Result<T, E> = Ok(value: T) | Err(error: E)

  /** Success, or the error that stopped the computation. */
  datatype Outcome<E> = Pass | Fail(error: E)

  /** The value a C conversion of `v` to a signed 16-bit integer gives
      (two's complement wrap-around). */
  function ToSint16(v: int): (r: Sint16)
    ensures (v - r) % 0x1_0000 == 0
    ensures -0x8000 <= v < 0x8000 ==> r == v
  {
    (v + 0x8000) % 0x1_0000 - 0x8000
  }

  /** The value a C conversion of `v` to an unsigned 16-bit integer gives. */
  function ToUint16(v: int): (r: Uint16)
    ensures (v - r) % 0x1_0000 == 0
    ensures 0 <= v < 0x1_0000 ==> r == v
  {
    v % 0x1_0000
  }

  /** Incrementing a wrapped value and wrapping again is wrapping the sum. */
  lemma ToSint16Step(v: int, d: int)
    ensures ToSint16(ToSint16(v) + d) == ToSint16(v + d)
  {
    var k := (v + 0x8000) / 0x1_0000;
    assert ToSint16(v) == v - k * 0x1_0000;
    assert ToSint16(v) + d + 0x8000 == (v + d + 0x8000) - k * 0x1_0000;
  }

  lemma ToUint16Step(v: int, d: int)
    ensures ToUint16(ToUint16(v) + d) == ToUint16(v + d)
  {
    var k := v / 0x1_0000;
    assert ToUint16(v) == v - k * 0x1_0000;
  }

  /** The little-endian 16-bit word stored at byte position `i` of `s`. */
  function Le16(s: seq<Byte>, i: nat): Uint16
    requires i + 2 <= |s|
  {
    s[i] as int + 0x100 * (s[i + 1] as int)
  }

  /** The little-endian 32-bit word stored at byte position `i` of `s`. */
  function Le32(s: seq<Byte>, i: nat): Uint32
    requires i + 4 <= |s|
  {
    s[i] as int + 0x100 * (s[i + 1] as int) + 0x1_0000 * (s[i + 2] as int) + 0x100_0000 * (s[i + 3] as int)
  }

  /** The two bytes a 16-bit word occupies in a little-endian file. */
  function Encode16(w: Uint16): (r: seq<Byte>)
    ensures |r| == 2 && Le16(r, 0) == w
  {
    [w % 0x100, w / 0x100]
  }

  /** The four bytes a 32-bit word occupies in a little-endian file. */
  function Encode32(d: Uint32): (r: seq<Byte>)
    ensures |r| == 4 && Le32(r, 0) == d
  {
    [d % 0x100, (d / 0x100) % 0x100, (d / 0x1_0000) % 0x100, d / 0x100_0000]
  }

  /** A word read inside a larger sequence reads the bytes found there. */
  lemma Le16Within(s: seq<Byte>, i: nat, w: seq<Byte>)
    requires |w| == 2 && i + 2 <= |s| && s[i..i + 2] == w
    ensures Le16(s, i) == Le16(w, 0)
  {
    assert s[i] == w[0] && s[i + 1] == w[1];
  }

  lemma Le32Within(s: seq<Byte>, i: nat, w: seq<Byte>)
    requires |w| == 4 && i + 4 <= |s| && s[i..i + 4] == w
    ensures Le32(s, i) == Le32(w, 0)
  {
    assert s[i] == w[0] && s[i + 1] == w[1] && s[i + 2] == w[2] && s[i + 3] == w[3];
  }
}
