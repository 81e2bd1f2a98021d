/**
 Fixed-width unsigned values and their little-endian bytes.
 */
module LittleEndian {
  import opened PyInt

  type uint16 = x: int | 0 <= x < 0x1_0000
  type uint32 = x: int | 0 <= x < 0x1_0000_0000

  function Put16(v: uint16): (bs: seq<byte>)
    ensures |bs| == 2
  {
    [v % 256, v / 256]
  }

  function Put32(v: uint32): (bs: seq<byte>)
    ensures |bs| == 4
  {
    [v % 256, v / 256 % 256, v / 0x1_0000 % 256, v / 0x100_0000]
  }

  function Get16(bs: seq<byte>): uint16
    requires |bs| == 2
  {
    var a: int, b: int := bs[0], bs[1];
    a + 256 * b
  }

  function Get32(bs: seq<byte>): uint32
    requires |bs| == 4
  {
    var a: int, b: int, c: int, d: int := bs[0], bs[1], bs[2], bs[3];
    a + 256 * b + 0x1_0000 * c + 0x100_0000 * d
  }

  lemma RoundTrip16(v: uint16)
    ensures Get16(Put16(v)) == v
  {
  }

  lemma RoundTrip32(v: uint32)
    ensures Get32(Put32(v)) == v
  {
    var a := v / 256;
    var b := a / 256;
    assert v / 0x1_0000 == b && v / 0x100_0000 == b / 256;
  }

  lemma Bytes16(bs: seq<byte>)
    requires |bs| == 2
    ensures Put16(Get16(bs)) == bs
  {
  }

  lemma Bytes32(bs: seq<byte>)
    requires |bs| == 4
    ensures Put32(Get32(bs)) == bs
  {
    var v := Get32(bs);
    var b: int, c: int, d: int := bs[1], bs[2], bs[3];
    assert v / 256 == b + 256 * c + 0x1_0000 * d;
    assert v / 0x1_0000 == c + 256 * d;
    assert v / 0x100_0000 == d;
  }

  // ----- bits

  lemma TwoTo32()
    ensures Shl(1, 32) == 0x1_0000_0000
  {
    assert Shl(1, 8) == 0x100;
    assert Shl(1, 16) == 0x1_0000;
    assert Shl(1, 24) == 0x100_0000;
  }

  lemma LowBits(x: nat, i: nat)
    requires i < 8
    ensures TestBit(x % 256, i) == TestBit(x, i)
  {
    AndMask(x, 8);
    assert Shl(1, 8) == 256;
    AndBit(x, 255, i);
    MaskBit(8, i);
  }

  lemma HighBitsOff(x: nat, i: nat)
    requires x < 256 && i >= 8
    ensures !TestBit(x, i)
  {
    assert Shl(1, 8) == 256;
    HighBits(x, 8, i);
  }

  lemma ShiftDown(x: nat, i: nat)
    ensures TestBit(x / 256, i) == TestBit(x, i + 8)
  {
    assert x / 256 == x / 2 / 2 / 2 / 2 / 2 / 2 / 2 / 2;
    ShrBit(x, 8, i);
    assert Shr(x, 8) == x / 2 / 2 / 2 / 2 / 2 / 2 / 2 / 2;
  }

  /** Bit 8k + i of a value is bit i of its byte k. */
  lemma Put32Bit(v: uint32, k: nat, i: nat)
    requires k < 4 && i < 8
    ensures TestBit(Put32(v)[k], i) == TestBit(v, 8 * k + i)
  {
    var a := v / 256;
    var b := a / 256;
    var c := b / 256;
    assert v / 0x1_0000 == b && v / 0x100_0000 == c && c % 256 == c;
    ShiftDown(v, i);
    ShiftDown(a, i);
    ShiftDown(v, i + 8);
    ShiftDown(b, i);
    ShiftDown(a, i + 8);
    ShiftDown(v, i + 16);
    LowBits(v, i);
    LowBits(a, i);
    LowBits(b, i);
  }
}
