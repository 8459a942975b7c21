/** Bytes and the little-endian integer layouts used by the WAV format. */
module Bytes {

  type Byte = b: int | 0 <= b < 256

  const UINT16_LIMIT: int := 0x1_0000
  const UINT32_LIMIT: int := 0x1_0000_0000

  /** Two bytes of `v`, least significant first (`UInt16.littleEndian`). */
  function LE16(v: int): (r: seq<Byte>)
    requires 0 <= v < UINT16_LIMIT
    ensures |r| == 2
  {
    [v % 256, v / 256]
  }

  /** Four bytes of `v`, least significant first (`UInt32.littleEndian`). */
  function LE32(v: int): (r: seq<Byte>)
    requires 0 <= v < UINT32_LIMIT
    ensures |r| == 4
  {
    LE16(v % UINT16_LIMIT) + LE16(v / UINT16_LIMIT)
  }

  /** The unsigned value of two little-endian bytes. */
  function ReadLE16(b: seq<Byte>): (v: int)
    requires |b| == 2
    ensures 0 <= v < UINT16_LIMIT
  {
    b[0] as int + 256 * (b[1] as int)
  }

  /** The unsigned value of four little-endian bytes. */
  function ReadLE32(b: seq<Byte>): (v: int)
    requires |b| == 4
    ensures 0 <= v < UINT32_LIMIT
  {
    ReadLE16(b[..2]) + UINT16_LIMIT * ReadLE16(b[2..])
  }

  lemma LE16RoundTrip(v: int)
    requires 0 <= v < UINT16_LIMIT
    ensures ReadLE16(LE16(v)) == v
  {
  }

  lemma LE32RoundTrip(v: int)
    requires 0 <= v < UINT32_LIMIT
    ensures ReadLE32(LE32(v)) == v
  {
    var lo, hi := v % UINT16_LIMIT, v / UINT16_LIMIT;
    LE16RoundTrip(lo);
    LE16RoundTrip(hi);
    assert LE32(v)[..2] == LE16(lo);
    assert LE32(v)[2..] == LE16(hi);
  }

  /** Each of four concatenated fields sits at the offset the lengths before it add up to. */
  lemma FourFields<T>(p0: seq<T>, p1: seq<T>, p2: seq<T>, p3: seq<T>)
    ensures var c, a, b, d := p0 + p1 + p2 + p3, |p0|, |p0| + |p1|, |p0| + |p1| + |p2|;
            && c[..a] == p0 && c[a..b] == p1 && c[b..d] == p2 && c[d..] == p3
  {
    var c := p0 + p1 + p2 + p3;
    assert c == (p0 + p1 + p2) + p3;
    assert (p0 + p1 + p2) == (p0 + p1) + p2;
  }

  /** The bytes of an ASCII tag such as "RIFF". */
  function Ascii(s: string): (r: seq<Byte>)
    requires forall i :: 0 <= i < |s| ==> s[i] as int < 128
    ensures |r| == |s|
    ensures forall i :: 0 <= i < |s| ==> r[i] == s[i] as int
  {
    seq(|s|, i requires 0 <= i < |s| => s[i] as int)
  }
}
