/** Bytes, and the integers of the wire format as the host stores them. */
module Bytes {

  newtype byte = x: int | 0 <= x < 256

  /** A C++ `int`. */
  type int32 = x: int | -0x8000_0000 <= x < 0x8000_0000

  /** A string whose length a C++ `int` can hold. */
  type Payload = s: seq<byte> | |s| < 0x8000_0000

  /** What comparing an `int` with a `std::size_t` does to the `int`. */
  function ToSizeT(v: int32): (n: nat)
    ensures v >= 0 ==> n == v
    ensures v < 0 ==> n - 0x1_0000_0000_0000_0000 == v
  {
    if v < 0 then v + 0x1_0000_0000_0000_0000 else v
  }

  /** The object representation of an `int` on a little-endian host. */
  function EncodeInt(v: int32): (b: seq<byte>)
    ensures |b| == 4
  {
    var u := if v < 0 then v + 0x1_0000_0000 else v;
    [(u % 0x100) as byte, (u / 0x100 % 0x100) as byte, (u / 0x1_0000 % 0x100) as byte, (u / 0x100_0000) as byte]
  }

  function DecodeInt(b: seq<byte>): int32
    requires |b| == 4
  {
    var u := b[0] as int + 0x100 * b[1] as int + 0x1_0000 * b[2] as int + 0x100_0000 * b[3] as int;
    if u < 0x8000_0000 then u else u - 0x1_0000_0000
  }

  /** What the bytes of an `int` are: two's complement, the byte of least weight first. */
  predicate IsLittleEndian(b: seq<byte>, v: int32) {
    && |b| == 4
    && v == b[0] as int + 0x100 * b[1] as int + 0x1_0000 * b[2] as int + 0x100_0000 * b[3] as int
            - (if b[3] >= 0x80 then 0x1_0000_0000 else 0)
  }

  lemma EncodedIsLittleEndian(v: int32)
    ensures IsLittleEndian(EncodeInt(v), v)
  {
    DecodeEncodeInt(v);
    DecodedIsLittleEndian(EncodeInt(v));
  }

  lemma DecodedIsLittleEndian(b: seq<byte>)
    requires |b| == 4
    ensures IsLittleEndian(b, DecodeInt(b))
  {
  }

  lemma DecodeEncodeInt(v: int32)
    ensures DecodeInt(EncodeInt(v)) == v
  {
    var u := if v < 0 then v + 0x1_0000_0000 else v;
    assert u == u % 0x100 + 0x100 * (u / 0x100);
    assert u / 0x100 == u / 0x100 % 0x100 + 0x100 * (u / 0x1_0000);
    assert u / 0x1_0000 == u / 0x1_0000 % 0x100 + 0x100 * (u / 0x100_0000);
  }

  lemma EncodeDecodeInt(b: seq<byte>)
    requires |b| == 4
    ensures EncodeInt(DecodeInt(b)) == b
  {
    var b0, b1, b2, b3 := b[0] as int, b[1] as int, b[2] as int, b[3] as int;
    var u := b0 + 0x100 * b1 + 0x1_0000 * b2 + 0x100_0000 * b3;
    Digits(b0, b1, b2, b3);
    var v: int := DecodeInt(b);
    assert u == if v < 0 then v + 0x1_0000_0000 else v;
    assert b == [b[0], b[1], b[2], b[3]];
  }

  lemma Digits(b0: int, b1: int, b2: int, b3: int)
    requires 0 <= b0 < 0x100 && 0 <= b1 < 0x100 && 0 <= b2 < 0x100 && 0 <= b3 < 0x100
    ensures var u := b0 + 0x100 * b1 + 0x1_0000 * b2 + 0x100_0000 * b3;
            u % 0x100 == b0 && u / 0x100 % 0x100 == b1 && u / 0x1_0000 % 0x100 == b2 && u / 0x100_0000 == b3
  {
    var u := b0 + 0x100 * b1 + 0x1_0000 * b2 + 0x100_0000 * b3;
    assert u / 0x100 == b1 + 0x100 * b2 + 0x1_0000 * b3;
    assert u / 0x1_0000 == b2 + 0x100 * b3;
    assert u / 0x100_0000 == b3;
  }
}
