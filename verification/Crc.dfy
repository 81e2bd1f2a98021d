/**
 CRC-32 as section 3.2.9 of IEEE 802.3 defines it, as the shift register that computes it
 bit by bit, over the little-endian bytes of a list of 32-bit values; and why it notices
 any single wrong value.
 */
module Crc {
  import opened PyInt
  import opened LittleEndian

  /** The register, least significant bit first. */
  type Register = r: seq<bool> | |r| == 32 witness seq(32, _ => false)

  function BitsOf(v: int): Register { seq(32, i requires 0 <= i < 32 => TestBit(v, i)) }

  const POLY: int := 0xEDB8_8320

  function Xor(a: Register, b: Register): Register {
    seq(32, i requires 0 <= i < 32 => a[i] != b[i])
  }

  /** One step: divide by two and reduce by the polynomial if a one falls out. */
  function Shift(c: Register): Register {
    var half: Register := seq(32, i requires 0 <= i < 32 => i < 31 && c[i + 1]);
    if c[0] then Xor(half, BitsOf(POLY)) else half
  }

  function Shifts(c: Register, n: nat): Register {
    if n == 0 then c else Shift(Shifts(c, n - 1))
  }

  function Feed(c: Register, b: byte): Register {
    Shifts(Xor(c, BitsOf(b)), 8)
  }

  function FeedAll(c: Register, bs: seq<byte>): Register {
    if |bs| == 0 then c else Feed(FeedAll(c, bs[..|bs| - 1]), bs[|bs| - 1])
  }

  function Ones(): Register { seq(32, _ => true) }

  function Checksum(bs: seq<byte>): Register {
    Xor(FeedAll(Ones(), bs), Ones())
  }

  function Bytes(vs: seq<uint32>): (bs: seq<byte>)
    ensures |bs| == 4 * |vs|
  {
    if |vs| == 0 then [] else Bytes(vs[..|vs| - 1]) + Put32(vs[|vs| - 1])
  }

  /** The number a list of bits stands for. */
  function Number(r: seq<bool>): nat {
    if |r| == 0 then 0 else (if r[0] then 1 else 0) + 2 * Number(r[1..])
  }

  lemma {:induction false} NumberBelow(r: seq<bool>)
    ensures Number(r) < Shl(1, |r|)
  {
    if |r| > 0 { NumberBelow(r[1..]); }
  }

  lemma {:induction false} NumberBit(r: seq<bool>, i: nat)
    requires i < |r|
    ensures TestBit(Number(r), i) == r[i]
  {
    if i > 0 { NumberBit(r[1..], i - 1); }
  }

  /** The checksum of a list of values. */
  function CrcOf(vs: seq<uint32>): uint32 {
    NumberBelow(Checksum(Bytes(vs)));
    TwoTo32();
    Number(Checksum(Bytes(vs)))
  }

  // ----- the loops

  method FeedByte(c: Register, b: byte) returns (x: Register)
    ensures x == Feed(c, b)
  {
    x := Xor(c, BitsOf(b));
    var k := 0;
    while k < 8
      invariant 0 <= k <= 8
      invariant x == Shifts(Xor(c, BitsOf(b)), k)
    {
      x := Shift(x);
      k := k + 1;
    }
  }

  method ComputeChecksum(buf: array<byte>) returns (crc: Register)
    ensures crc == Checksum(buf[..])
  {
    var c := Ones();
    var n := 0;
    while n < buf.Length
      invariant 0 <= n <= buf.Length
      invariant c == FeedAll(Ones(), buf[..n])
    {
      assert buf[..n + 1][..n] == buf[..n];
      c := FeedByte(c, buf[n]);
      n := n + 1;
    }
    assert buf[..n] == buf[..];
    crc := Xor(c, Ones());
  }

  method PutUint32(buf: array<byte>, at: nat, v: uint32)
    requires at + 4 <= buf.Length
    modifies buf
    ensures buf[..at + 4] == old(buf[..at]) + Put32(v)
  {
    buf[at], buf[at + 1], buf[at + 2], buf[at + 3] := v % 256, v / 256 % 256, v / 0x1_0000 % 256, v / 0x100_0000;
    assert buf[..at] == old(buf[..at]);
    assert buf[..at + 4] == buf[..at] + [buf[at], buf[at + 1], buf[at + 2], buf[at + 3]];
  }

  /** The buffer is filled value by value, then checksummed. */
  method ComputeCrc(vs: seq<uint32>) returns (crc: uint32)
    ensures crc == CrcOf(vs)
  {
    var buf: array<byte> := new byte[4 * |vs|];
    var i := 0;
    while i < |vs|
      invariant 0 <= i <= |vs|
      invariant buf[..4 * i] == Bytes(vs[..i])
    {
      PutUint32(buf, 4 * i, vs[i]);
      assert vs[..i + 1][..i] == vs[..i];
      i := i + 1;
    }
    assert vs[..i] == vs && buf[..4 * i] == buf[..];
    var c := ComputeChecksum(buf);
    NumberBelow(c);
    TwoTo32();
    crc := Number(c);
  }

  // ----- every step can be undone

  lemma TopBit()
    ensures BitsOf(POLY)[31]
  {
    ShiftDown(POLY, 23);
    ShiftDown(POLY / 256, 15);
    assert POLY / 256 / 256 == 0xEDB8;
    ShiftDown(0xEDB8, 7);
    assert TestBit(7, 2);
    assert TestBit(0x1D, 4);
    assert TestBit(0x76, 6);
    assert TestBit(0xED, 7);
  }

  lemma ShiftBit(c: Register, i: nat)
    requires i < 32
    ensures Shift(c)[i] == ((i < 31 && c[i + 1]) != (c[0] && BitsOf(POLY)[i]))
  {
  }

  lemma ShiftInjective(a: Register, b: Register)
    requires Shift(a) == Shift(b)
    ensures a == b
  {
    TopBit();
    ShiftBit(a, 31);
    ShiftBit(b, 31);
    assert a[0] == b[0];
    forall i: nat | i < 32
      ensures a[i] == b[i]
    {
      if i > 0 {
        ShiftBit(a, i - 1);
        ShiftBit(b, i - 1);
      }
    }
  }

  lemma {:induction false} ShiftsInjective(a: Register, b: Register, n: nat)
    requires Shifts(a, n) == Shifts(b, n)
    ensures a == b
  {
    if n > 0 {
      ShiftInjective(Shifts(a, n - 1), Shifts(b, n - 1));
      ShiftsInjective(a, b, n - 1);
    }
  }

  lemma XorInjective(a: Register, b: Register, c: Register)
    requires Xor(a, c) == Xor(b, c)
    ensures a == b
  {
    forall i | 0 <= i < 32
      ensures a[i] == b[i]
    {
      assert Xor(a, c)[i] == Xor(b, c)[i];
    }
  }

  /** Registers that agree after the same bytes agreed before them. */
  lemma {:induction false} FeedAllInjective(a: Register, b: Register, bs: seq<byte>)
    requires FeedAll(a, bs) == FeedAll(b, bs)
    ensures a == b
  {
    if |bs| > 0 {
      var front, x := bs[..|bs| - 1], BitsOf(bs[|bs| - 1]);
      ShiftsInjective(Xor(FeedAll(a, front), x), Xor(FeedAll(b, front), x), 8);
      XorInjective(FeedAll(a, front), FeedAll(b, front), x);
      FeedAllInjective(a, b, front);
    }
  }

  // ----- four bytes at once

  lemma {:induction false} ShiftsAdd(c: Register, a: nat, b: nat)
    ensures Shifts(Shifts(c, a), b) == Shifts(c, a + b)
  {
    if b > 0 { ShiftsAdd(c, a, b - 1); }
  }

  /** A byte, n places up. */
  function Raised(b: byte, n: nat): Register {
    seq(32, i requires 0 <= i < 32 => n <= i < n + 8 && TestBit(b, i - n))
  }

  lemma ShiftXor(x: Register, b: byte, n: nat)
    requires n < 24
    ensures Shift(Xor(x, Raised(b, n + 1))) == Xor(Shift(x), Raised(b, n))
  {
    var l, r := Shift(Xor(x, Raised(b, n + 1))), Xor(Shift(x), Raised(b, n));
    forall i: nat | i < 32
      ensures l[i] == r[i]
    {
      ShiftBit(Xor(x, Raised(b, n + 1)), i);
      ShiftBit(x, i);
    }
  }

  /** What is added after n steps can be added n places higher before them. */
  lemma {:induction false} ShiftsXor(x: Register, b: byte, m: nat, n: nat)
    requires m + n <= 24
    ensures Shifts(Xor(x, Raised(b, m + n)), n) == Xor(Shifts(x, n), Raised(b, m))
    decreases n
  {
    if n > 0 {
      ShiftsXor(x, b, m + 1, n - 1);
      ShiftXor(Shifts(x, n - 1), b, m);
    }
  }

  lemma RaisedZero(b: byte)
    ensures BitsOf(b) == Raised(b, 0)
  {
    forall i: nat | i < 32
      ensures BitsOf(b)[i] == Raised(b, 0)[i]
    {
      if i >= 8 { HighBitsOff(b, i); }
    }
  }

  /** Feeding a byte to a register that has been shifted n times is feeding it n places up. */
  lemma FeedAfter(x: Register, n: nat, b: byte)
    requires n <= 24
    ensures Feed(Shifts(x, n), b) == Shifts(Xor(x, Raised(b, n)), n + 8)
  {
    RaisedZero(b);
    ShiftsXor(x, b, 0, n);
    ShiftsAdd(Xor(x, Raised(b, n)), n, 8);
  }

  /** A value is its bytes, each in its place. */
  lemma WordFromBytes(c: Register, v: uint32)
    ensures var bs := Put32(v);
      Xor(Xor(Xor(Xor(c, Raised(bs[0], 0)), Raised(bs[1], 8)), Raised(bs[2], 16)), Raised(bs[3], 24))
        == Xor(c, BitsOf(v))
  {
    var bs := Put32(v);
    var r := Xor(Xor(Xor(Xor(c, Raised(bs[0], 0)), Raised(bs[1], 8)), Raised(bs[2], 16)), Raised(bs[3], 24));
    forall i: nat | i < 32
      ensures r[i] == Xor(c, BitsOf(v))[i]
    {
      Put32Bit(v, i / 8, i % 8);
    }
  }

  /** Feeding a value's four bytes is adding the value and shifting 32 times. */
  lemma FeedWord(c: Register, v: uint32)
    ensures FeedAll(c, Put32(v)) == Shifts(Xor(c, BitsOf(v)), 32)
  {
    var bs := Put32(v);
    var x0 := Xor(c, Raised(bs[0], 0));
    var x1 := Xor(x0, Raised(bs[1], 8));
    var x2 := Xor(x1, Raised(bs[2], 16));
    FeedAfter(c, 0, bs[0]);
    FeedAfter(x0, 8, bs[1]);
    FeedAfter(x1, 16, bs[2]);
    FeedAfter(x2, 24, bs[3]);
    FeedFour(c, bs);
    WordFromBytes(c, v);
  }

  lemma FeedFour(c: Register, bs: seq<byte>)
    requires |bs| == 4
    ensures FeedAll(c, bs) == Feed(Feed(Feed(Feed(c, bs[0]), bs[1]), bs[2]), bs[3])
  {
    var b3 := bs[..3];
    var b2 := b3[..2];
    var b1 := b2[..1];
    assert b1[..0] == [];
    assert FeedAll(c, b1) == Feed(c, bs[0]);
    assert FeedAll(c, b2) == Feed(FeedAll(c, b1), bs[1]);
    assert FeedAll(c, b3) == Feed(FeedAll(c, b2), bs[2]);
  }

  // ----- one wrong value

  lemma BitsOfInjective(v: uint32, u: uint32)
    requires BitsOf(v) == BitsOf(u)
    ensures v == u
  {
    TwoTo32();
    forall p: nat | p < 32
      ensures TestBit(v, p) == TestBit(u, p)
    {
      assert BitsOf(v)[p] == BitsOf(u)[p];
    }
    SameBits(v, u, 32);
  }

  lemma {:induction false} NumberInjective(a: seq<bool>, b: seq<bool>)
    requires |a| == |b| && Number(a) == Number(b)
    ensures a == b
  {
    if |a| > 0 {
      assert a[0] == b[0];
      NumberInjective(a[1..], b[1..]);
      assert a == [a[0]] + a[1..] && b == [b[0]] + b[1..];
    }
  }

  lemma {:induction false} FeedAllAppend(c: Register, a: seq<byte>, b: seq<byte>)
    ensures FeedAll(c, a + b) == FeedAll(FeedAll(c, a), b)
  {
    if |b| == 0 {
      assert a + b == a;
    } else {
      var front := b[..|b| - 1];
      assert (a + b)[..|a + b| - 1] == a + front;
      FeedAllAppend(c, a, front);
    }
  }

  lemma {:induction false} BytesAppend(a: seq<uint32>, b: seq<uint32>)
    ensures Bytes(a + b) == Bytes(a) + Bytes(b)
  {
    if |b| == 0 {
      assert a + b == a;
    } else {
      assert (a + b)[..|a + b| - 1] == a + b[..|b| - 1];
      BytesAppend(a, b[..|b| - 1]);
    }
  }

  lemma Around(front: seq<uint32>, v: uint32, back: seq<uint32>)
    ensures FeedAll(Ones(), Bytes(front + [v] + back))
      == FeedAll(Shifts(Xor(FeedAll(Ones(), Bytes(front)), BitsOf(v)), 32), Bytes(back))
  {
    BytesAppend(front + [v], back);
    BytesAppend(front, [v]);
    assert [v][..0] == [];
    assert Bytes([v]) == Put32(v);
    FeedAllAppend(Ones(), Bytes(front + [v]), Bytes(back));
    FeedAllAppend(Ones(), Bytes(front), Put32(v));
    FeedWord(FeedAll(Ones(), Bytes(front)), v);
  }

  /** Lists of equal length that differ in exactly one value have different checksums. */
  lemma OneWrongValue(a: seq<uint32>, i: nat, v: uint32)
    requires i < |a| && v != a[i]
    ensures CrcOf(a[i := v]) != CrcOf(a)
  {
    if CrcOf(a[i := v]) == CrcOf(a) {
      var front, back := a[..i], a[i + 1..];
      assert a == front + [a[i]] + back && a[i := v] == front + [v] + back;
      var c := FeedAll(Ones(), Bytes(front));
      NumberInjective(Checksum(Bytes(a[i := v])), Checksum(Bytes(a)));
      XorInjective(FeedAll(Ones(), Bytes(a[i := v])), FeedAll(Ones(), Bytes(a)), Ones());
      Around(front, v, back);
      Around(front, a[i], back);
      FeedAllInjective(Shifts(Xor(c, BitsOf(v)), 32), Shifts(Xor(c, BitsOf(a[i])), 32), Bytes(back));
      ShiftsInjective(Xor(c, BitsOf(v)), Xor(c, BitsOf(a[i])), 32);
      XorCancel(c, BitsOf(v), BitsOf(a[i]));
      BitsOfInjective(v, a[i]);
    }
  }

  lemma XorCancel(c: Register, a: Register, b: Register)
    requires Xor(c, a) == Xor(c, b)
    ensures a == b
  {
    forall i | 0 <= i < 32
      ensures a[i] == b[i]
    {
      assert Xor(c, a)[i] == Xor(c, b)[i];
    }
  }

  /** The checksum of nothing is zero. */
  lemma EmptyCrc()
    ensures CrcOf([]) == 0
  {
    AllZero(Checksum([]));
  }

  lemma {:induction false} AllZero(r: seq<bool>)
    requires forall i | 0 <= i < |r| :: !r[i]
    ensures Number(r) == 0
  {
    if |r| > 0 { AllZero(r[1..]); }
  }
}
