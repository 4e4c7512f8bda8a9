/** Octets and the unsigned integer widths of the RTP header, with their
    big-endian (network order) encodings. */
module Bytes {
  type byte = x: int | 0 <= x < 0x100
  type uint16 = x: int | 0 <= x < 0x1_0000
  type uint32 = x: int | 0 <= x < 0x1_0000_0000

  /** Network-order encoding of a 16-bit value. */
  function Be16(v: uint16): (r: seq<byte>)
    ensures |r| == 2
  {
    [v / 0x100, v % 0x100]
  }

  /** Reads a 16-bit value stored in network order. */
  function ReadBe16(b: seq<byte>): (v: uint16)
    requires |b| == 2
    ensures v / 0x100 == b[0] && v % 0x100 == b[1]
  {
    var hi: int := b[0];
    hi * 0x100 + b[1]
  }

  /** Network-order encoding of a 32-bit value. */
  function Be32(v: uint32): (r: seq<byte>)
    ensures |r| == 4
  {
    Be16(v / 0x1_0000) + Be16(v % 0x1_0000)
  }

  /** Reads a 32-bit value stored in network order. */
  function ReadBe32(b: seq<byte>): (v: uint32)
    requires |b| == 4
    ensures v / 0x1_0000 == ReadBe16(b[..2]) && v % 0x1_0000 == ReadBe16(b[2..])
  {
    var hi: int := ReadBe16(b[..2]);
    hi * 0x1_0000 + ReadBe16(b[2..])
  }

  lemma Be16RoundTrip(v: uint16)
    ensures ReadBe16(Be16(v)) == v
  {
  }

  lemma ReadBe16RoundTrip(b: seq<byte>)
    requires |b| == 2
    ensures Be16(ReadBe16(b)) == b
  {
  }

  lemma Be32RoundTrip(v: uint32)
    ensures ReadBe32(Be32(v)) == v
  {
    var e := Be32(v);
    assert e[..2] == Be16(v / 0x1_0000) && e[2..] == Be16(v % 0x1_0000);
    Be16RoundTrip(v / 0x1_0000);
    Be16RoundTrip(v % 0x1_0000);
  }

  lemma ReadBe32RoundTrip(b: seq<byte>)
    requires |b| == 4
    ensures Be32(ReadBe32(b)) == b
  {
    var v := ReadBe32(b);
    ReadBe16RoundTrip(b[..2]);
    ReadBe16RoundTrip(b[2..]);
    assert b == b[..2] + b[2..];
  }
}
