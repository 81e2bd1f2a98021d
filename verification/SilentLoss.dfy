/**
 What the checksum of a list does not notice: at every place in every list there is exactly
 one value that can be left out unnoticed.
 */
module SilentLoss {
  import opened PyInt
  import opened LittleEndian
  import opened Crc

  // ----- the register run backwards

  function Unshift(c: Register): Register {
    var half := if c[31] then Xor(c, BitsOf(POLY)) else c;
    [c[31]] + half[..31]
  }

  lemma ShiftUnshift(c: Register)
    ensures Shift(Unshift(c)) == c
  {
    TopBit();
    forall i: nat | i < 32
      ensures Shift(Unshift(c))[i] == c[i]
    {
      ShiftBit(Unshift(c), i);
    }
  }

  function Unshifts(c: Register, n: nat): Register
    decreases n
  {
    if n == 0 then c else Unshifts(Unshift(c), n - 1)
  }

  lemma {:induction false} ShiftsUnshifts(c: Register, n: nat)
    ensures Shifts(Unshifts(c, n), n) == c
    decreases n
  {
    if n > 0 {
      ShiftsUnshifts(Unshift(c), n - 1);
      ShiftUnshift(c);
    }
  }

  lemma BitsOfNumber(r: Register)
    ensures BitsOf(Number(r)) == r
  {
    forall i: nat | i < 32
      ensures BitsOf(Number(r))[i] == r[i]
    {
      NumberBit(r, i);
    }
  }

  // ----- one value left out

  /** The value that leaves this register as it was. */
  function Neutral(c: Register): uint32 {
    var r := Xor(c, Unshifts(c, 32));
    NumberBelow(r);
    TwoTo32();
    Number(r)
  }

  lemma NeutralExactly(c: Register, v: uint32)
    ensures Shifts(Xor(c, BitsOf(v)), 32) == c <==> v == Neutral(c)
  {
    var u := Unshifts(c, 32);
    BitsOfNumber(Xor(c, u));
    ShiftsUnshifts(c, 32);
    XorTwice(c, u);
    if Shifts(Xor(c, BitsOf(v)), 32) == c {
      ShiftsInjective(Xor(c, BitsOf(v)), u, 32);
      XorCancel(c, BitsOf(v), BitsOf(Neutral(c)));
      BitsOfInjective(v, Neutral(c));
    }
  }

  lemma XorTwice(a: Register, b: Register)
    ensures Xor(a, Xor(a, b)) == b
  {
  }

  /** The value that can be left out unnoticed after these. */
  function SilentValue(front: seq<uint32>): uint32 { Neutral(FeedAll(Ones(), Bytes(front))) }

  /** Leaving one value out of a list keeps the checksum if and only if it is the silent value
      of what stands before it; what stands behind it does not matter. */
  lemma SilentLossExactly(front: seq<uint32>, v: uint32, back: seq<uint32>)
    ensures CrcOf(front + [v] + back) == CrcOf(front + back) <==> v == SilentValue(front)
  {
    var c := FeedAll(Ones(), Bytes(front));
    var d := Shifts(Xor(c, BitsOf(v)), 32);
    Around(front, v, back);
    BytesAppend(front, back);
    FeedAllAppend(Ones(), Bytes(front), Bytes(back));
    NeutralExactly(c, v);
    var a, b := FeedAll(d, Bytes(back)), FeedAll(c, Bytes(back));
    if CrcOf(front + [v] + back) == CrcOf(front + back) {
      NumberInjective(Checksum(Bytes(front + [v] + back)), Checksum(Bytes(front + back)));
      XorInjective(a, b, Ones());
      FeedAllInjective(d, c, Bytes(back));
    }
  }

  // ----- an instance

  lemma {:induction false} ZeroStays(c: Register, n: nat)
    requires c == BitsOf(0)
    ensures Shifts(c, n) == c
  {
    if n > 0 {
      ZeroStays(c, n - 1);
      forall i: nat | i < 32
        ensures Shift(c)[i] == c[i]
      {
        ShiftBit(c, i);
        ZeroBits(i);
        ZeroBits(0);
        ZeroBits(i + 1);
      }
    }
  }

  /** Thirty-two ones empty the register, and an empty register does not notice a zero. */
  lemma ZeroIsSilent()
    ensures SilentValue([0xFFFF_FFFF]) == 0
  {
    var zero := BitsOf(0);
    TwoTo32();
    forall i: nat | i < 32
      ensures Xor(Ones(), BitsOf(0xFFFF_FFFF))[i] == zero[i] == false
    {
      MaskBit(32, i);
      ZeroBits(i);
    }
    assert Xor(Ones(), BitsOf(0xFFFF_FFFF)) == zero && Xor(zero, zero) == zero;
    Around([], 0xFFFF_FFFF, []);
    assert [] + [0xFFFF_FFFF] + [] == [0xFFFF_FFFF];
    ZeroStays(zero, 32);
    NeutralExactly(zero, 0);
  }
}
