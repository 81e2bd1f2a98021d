/**
 The DBC signal codec: integers packed into the bits of a CAN payload, either
 little-endian (the field grows upwards from its least significant bit) or
 Motorola (it runs downwards from its most significant bit, byte by byte).

 The specification is per bit: a payload bit belongs to a field with some
 significance or does not belong to it at all. The loops are proved to follow it.
 */
module Dbc {
  import opened PyInt

  const BIG_ENDIAN := 1

  /** Motorola numbering: within a byte the bits are counted from the top. It is
      its own inverse. */
  function Mot(p: nat): nat { 8 * (p / 8) + 7 - p % 8 }

  /** The payload bit holding significance j of a field. */
  function Pos(order: int, start: nat, len: nat, j: nat): nat
    requires j < len
  {
    if order == BIG_ENDIAN then Mot(Mot(start) + len - 1 - j) else start + j
  }

  /** The significance a payload bit has in a field; outside 0..len it is not in the field. */
  function Significance(order: int, start: nat, len: nat, p: nat): int {
    if order == BIG_ENDIAN then len - 1 - (Mot(p) - Mot(start)) else p - start
  }

  predicate InField(order: int, start: nat, len: nat, p: nat) {
    0 <= Significance(order, start, len, p) < len
  }

  /** The whole field lies in an 8-byte payload. */
  predicate Inside(order: int, start: nat, len: nat) {
    if order == BIG_ENDIAN then Mot(start) + len <= 64 else start + len <= 64
  }

  predicate BitAt(data: seq<byte>, p: nat) {
    p / 8 < |data| && TestBit(data[p / 8], p % 8)
  }

  function FromBits(bits: seq<bool>): nat {
    if |bits| == 0 then 0 else (if bits[0] then 1 else 0) + 2 * FromBits(bits[1..])
  }

  /** Bit j of a field, as decoding sees it: little-endian fields read eight bytes only. */
  predicate FieldBit(data: seq<byte>, order: int, start: nat, len: nat, j: nat)
    requires j < len
  {
    var p := Pos(order, start, len, j);
    (order == BIG_ENDIAN || p < 64) && BitAt(data, p)
  }

  function RawField(data: seq<byte>, order: int, start: nat, len: nat): nat {
    FromBits(seq(len, j requires 0 <= j < len => FieldBit(data, order, start, len, j)))
  }

  /** The int32_t a number of len bits stands for. */
  function Interpret(u: nat, len: nat, signed: bool): int
    requires len > 0
  {
    var v := if signed && TestBit(u, len - 1) then u - Shl(1, len) else u;
    var w := v % 0x1_0000_0000;
    if w >= 0x8000_0000 then w - 0x1_0000_0000 else w
  }

  function DecodedInt(data: seq<byte>, start: nat, len: nat, order: int, signed: bool): int {
    if len == 0 || len > 32 then 0
    else Interpret(RawField(data, order, start, len), len, signed)
  }

  function DecodedFloat(data: seq<byte>, start: nat, len: nat, factor: real, offset: real,
                        order: int, signed: bool): real
  {
    Scaled(DecodedInt(data, start, len, order, signed), factor, offset)
  }

  function Scaled(n: int, factor: real, offset: real): real { n as real * factor + offset }

  function Step(factor: real): real { if factor > 0.0 then factor else -factor }

  function RawValue(value: real, factor: real, offset: real): int {
    if factor == 0.0 then 0 else Trunc((value - offset) / factor)
  }

  /** Payload bit p after raw has been written into a field. */
  predicate WrittenBit(data: seq<byte>, raw: int, order: int, start: nat, len: nat, p: nat) {
    if InField(order, start, len, p)
    then TestBit(raw, Significance(order, start, len, p))
    else BitAt(data, p)
  }

  function WrittenByte(data: seq<byte>, raw: int, order: int, start: nat, len: nat, i: nat): (b: byte)
  {
    var bits := seq(8, q requires 0 <= q < 8 => WrittenBit(data, raw, order, start, len, 8 * i + q));
    FromBitsRange(bits);
    Shl8();
    FromBits(bits)
  }

  function EncodedBytes(data: seq<byte>, value: real, start: nat, len: nat, factor: real,
                        offset: real, order: int): (r: seq<byte>)
    requires |data| == 8
  {
    if len == 0 || len > 32
    then data
    else
      var raw := RawValue(value, factor, offset);
      seq(8, i requires 0 <= i < 8 => WrittenByte(data, raw, order, start, len, i))
  }

  /** When encoding does not run off the end of the payload: little-endian fields
      are cut at bit 64, Motorola fields fail. */
  predicate EncodeFits(order: int, start: nat, len: nat) {
    len == 0 || len > 32 || order != BIG_ENDIAN || Mot(start) + len <= 64
  }

  // ----- bit lemmas

  lemma Shl8()
    ensures Shl(1, 8) == 256 && Shl(1, 32) == 0x1_0000_0000
            && Shl(1, 64) == 0x1_0000_0000_0000_0000
  {
    assert Shl(1, 16) == 0x1_0000 by { assert Shl(1, 12) == 0x1000; }
    assert Shl(1, 24) == 0x100_0000 by { assert Shl(1, 20) == 0x10_0000; }
    assert Shl(1, 32) == 0x1_0000_0000 by { assert Shl(1, 28) == 0x1000_0000; }
    assert Shl(1, 40) == 0x100_0000_0000 by { assert Shl(1, 36) == 0x10_0000_0000; }
    assert Shl(1, 48) == 0x1_0000_0000_0000 by { assert Shl(1, 44) == 0x1000_0000_0000; }
    assert Shl(1, 56) == 0x100_0000_0000_0000 by { assert Shl(1, 52) == 0x10_0000_0000_0000; }
    assert Shl(1, 60) == 0x1000_0000_0000_0000;
  }

  lemma {:induction false} FromBitsRange(bits: seq<bool>)
    ensures FromBits(bits) < Shl(1, |bits|)
  {
    if |bits| > 0 { FromBitsRange(bits[1..]); }
  }

  lemma {:induction false} FromBitsBit(bits: seq<bool>, p: nat)
    ensures TestBit(FromBits(bits), p) == (p < |bits| && bits[p])
    decreases p
  {
    if |bits| == 0 {
      ZeroBits(p);
    } else {
      assert FromBits(bits) / 2 == FromBits(bits[1..]);
      if p > 0 { FromBitsBit(bits[1..], p - 1); }
    }
  }

  lemma MotInvolution(p: nat)
    ensures Mot(Mot(p)) == p && Mot(p) / 8 == p / 8 && Mot(p) % 8 == 7 - p % 8
  {
  }

  lemma SignificancePos(order: int, start: nat, len: nat, j: nat)
    requires j < len
    ensures Significance(order, start, len, Pos(order, start, len, j)) == j
    ensures InField(order, start, len, Pos(order, start, len, j))
    ensures Inside(order, start, len) ==> Pos(order, start, len, j) < 64
  {
    if order == BIG_ENDIAN { MotInvolution(Mot(start) + len - 1 - j); }
  }

  /** Where a field lies. Little-endian: significance j is j bits above the start bit.
      Motorola: the start bit is the most significant one; the next lower one is the next
      lower bit of the byte, and below bit 0 comes bit 7 of the byte after. */
  lemma FieldWalk(order: int, start: nat, len: nat, j: nat)
    requires j < len
    ensures order != 1 ==> Pos(order, start, len, j) == start + j
    ensures order == 1 && j == len - 1 ==> Pos(order, start, len, j) == start
    ensures order == 1 && j < len - 1 ==>
      var above := Pos(order, start, len, j + 1);
      Pos(order, start, len, j) == if above % 8 == 0 then above + 15 else above - 1
  {
    if order == BIG_ENDIAN {
      MotInvolution(start);
      if j < len - 1 { MotNext(Mot(start) + len - 1 - (j + 1)); }
    }
  }

  lemma MotNext(m: nat)
    ensures Mot(m + 1) == if Mot(m) % 8 == 0 then Mot(m) + 15 else Mot(m) - 1
  {
    var byte, bit := m / 8, m % 8;
    assert m == 8 * byte + bit;
    if bit == 7 {
      assert (m + 1) / 8 == byte + 1 && (m + 1) % 8 == 0;
    } else {
      assert (m + 1) / 8 == byte && (m + 1) % 8 == bit + 1;
    }
    MotInvolution(m);
  }

  lemma ByteBits(b: byte, p: nat)
    requires p >= 8
    ensures !TestBit(b, p)
  {
    Shl8();
    HighBits(b, 8, p);
  }

  lemma WrittenByteBit(data: seq<byte>, raw: int, order: int, start: nat, len: nat, i: nat, q: nat)
    requires q < 8
    ensures TestBit(WrittenByte(data, raw, order, start, len, i), q)
         == WrittenBit(data, raw, order, start, len, 8 * i + q)
  {
    FromBitsBit(seq(8, q requires 0 <= q < 8 => WrittenBit(data, raw, order, start, len, 8 * i + q)), q);
  }

  /** What encoding does to every bit of the payload. */
  lemma EncodedBit(data: seq<byte>, value: real, start: nat, len: nat, factor: real,
                   offset: real, order: int, p: nat)
    requires |data| == 8 && p < 64 && 1 <= len <= 32
    ensures BitAt(EncodedBytes(data, value, start, len, factor, offset, order), p)
         == WrittenBit(data, RawValue(value, factor, offset), order, start, len, p)
  {
    var raw := RawValue(value, factor, offset);
    WrittenByteBit(data, raw, order, start, len, p / 8, p % 8);
    assert 8 * (p / 8) + p % 8 == p;
    assert EncodedBytes(data, value, start, len, factor, offset, order)[p / 8]
        == WrittenByte(data, raw, order, start, len, p / 8);
  }

  /** Writing a field leaves every bit outside it alone, so disjoint fields never
      disturb each other. */
  lemma EncodeFrame(data: seq<byte>, value: real, start: nat, len: nat, factor: real, offset: real,
                    order: int, order2: int, start2: nat, len2: nat, signed2: bool)
    requires |data| == 8 && 1 <= len <= 32 && 1 <= len2 <= 32
    requires forall p: nat | p < 64 :: !(InField(order, start, len, p) && InField(order2, start2, len2, p))
    ensures forall p: nat | p < 64 && !InField(order, start, len, p) ::
      BitAt(EncodedBytes(data, value, start, len, factor, offset, order), p) == BitAt(data, p)
    ensures DecodedInt(EncodedBytes(data, value, start, len, factor, offset, order), start2, len2, order2, signed2)
         == DecodedInt(data, start2, len2, order2, signed2)
  {
    var data' := EncodedBytes(data, value, start, len, factor, offset, order);
    forall p: nat | p < 64 && !InField(order, start, len, p)
      ensures BitAt(data', p) == BitAt(data, p)
    {
      EncodedBit(data, value, start, len, factor, offset, order, p);
    }
    var f := seq(len2, j requires 0 <= j < len2 => FieldBit(data, order2, start2, len2, j));
    var f' := seq(len2, j requires 0 <= j < len2 => FieldBit(data', order2, start2, len2, j));
    forall j | 0 <= j < len2
      ensures f[j] == f'[j]
    {
      SignificancePos(order2, start2, len2, j);
    }
    assert f == f';
  }

  /** The raw field read back is the raw value written, modulo the field's width. */
  lemma RawRoundTrip(data: seq<byte>, value: real, start: nat, len: nat, factor: real,
                     offset: real, order: int)
    requires |data| == 8 && 1 <= len <= 32 && Inside(order, start, len)
    ensures Shl(1, len) > 0
    ensures RawField(EncodedBytes(data, value, start, len, factor, offset, order), order, start, len)
         == RawValue(value, factor, offset) % Shl(1, len)
  {
    var raw := RawValue(value, factor, offset);
    var data' := EncodedBytes(data, value, start, len, factor, offset, order);
    var f := seq(len, j requires 0 <= j < len => FieldBit(data', order, start, len, j));
    ShlPositive(len);
    AndMask(raw, len);
    FromBitsRange(f);
    forall p: nat | p < len
      ensures TestBit(FromBits(f), p) == TestBit(raw % Shl(1, len), p)
    {
      FromBitsBit(f, p);
      AndBit(raw, Shl(1, len) - 1, p);
      MaskBit(len, p);
      SignificancePos(order, start, len, p);
      EncodedBit(data, value, start, len, factor, offset, order, Pos(order, start, len, p));
    }
    SameBits(FromBits(f), raw % Shl(1, len), len);
  }

  /** The values a field of this width can hold and an int32_t can return. */
  predicate Representable(raw: int, len: nat, signed: bool) {
    if signed then len > 0 && -Shl(1, len - 1) <= raw < Shl(1, len - 1)
    else 0 <= raw < Shl(1, len) && raw < 0x8000_0000
  }

  lemma {:induction false} TopBit(u: nat, len: nat)
    requires 1 <= len && u < Shl(1, len)
    ensures TestBit(u, len - 1) == (u >= Shl(1, len - 1))
    decreases len
  {
    if len > 1 { TopBit(u / 2, len - 1); }
  }

  lemma {:induction false} ShlMonotone(a: nat, b: nat)
    requires a <= b
    ensures 0 < Shl(1, a) <= Shl(1, b)
  {
    ShlPositive(a);
    if a < b { ShlMonotone(a, b - 1); }
  }

  /** A number less than m away from zero, modulo m. */
  lemma WrapsTo(n: int, m: int)
    requires 0 < m && -m <= n < m
    ensures n % m == if n >= 0 then n else n + m
  {
    if n >= 0 { ModUnique(n, m, 0, n); } else { ModUnique(n, m, -1, n + m); }
  }

  lemma InterpretInverse(raw: int, len: nat, signed: bool)
    requires 1 <= len <= 32 && Representable(raw, len, signed)
    ensures Shl(1, len) > 0 && Interpret(raw % Shl(1, len), len, signed) == raw
  {
    ShlMonotone(len - 1, len);
    Shl32(len);
    var m, h := Shl(1, len), Shl(1, len - 1);
    SignedBack(raw, m, h, signed);
    Interpreted(raw % m, len, signed, raw, m, h);
  }

  lemma Interpreted(u: nat, len: nat, signed: bool, raw: int, m: int, h: int)
    requires 1 <= len && m == Shl(1, len) && h == Shl(1, len - 1) && u < m
    requires raw == if signed && u >= h then u - m else u
    requires -0x8000_0000 <= raw < 0x8000_0000
    ensures Interpret(u, len, signed) == raw
  {
    TopBit(u, len);
    WrapsTo(raw, 0x1_0000_0000);
  }

  lemma Shl32(len: nat)
    requires len <= 32
    ensures Shl(1, len) <= 0x1_0000_0000
  {
    ShlMonotone(len, 32);
    Shl8();
  }

  /** A number of the field's range, from its remainder. */
  lemma SignedBack(raw: int, m: int, h: int, signed: bool)
    requires 0 < h && m == 2 * h && m <= 0x1_0000_0000
    requires if signed then -h <= raw < h else 0 <= raw < m && raw < 0x8000_0000
    ensures raw == if signed && raw % m >= h then raw % m - m else raw % m
    ensures -0x8000_0000 <= raw < 0x8000_0000
  {
    WrapsTo(raw, m);
  }

  /** Round trip, both byte orders, signed and unsigned: what was encoded with
      factor 1 and offset 0 is what is decoded. */
  lemma RoundTrip(data: seq<byte>, n: int, start: nat, len: nat, order: int, signed: bool)
    requires |data| == 8 && 1 <= len <= 32 && Inside(order, start, len)
    requires Representable(n, len, signed)
    ensures DecodedInt(EncodedBytes(data, n as real, start, len, 1.0, 0.0, order), start, len, order, signed) == n
  {
    assert RawValue(n as real, 1.0, 0.0) == n by {
      assert (n as real - 0.0) / 1.0 == n as real;
      if n < 0 { assert -(n as real) == (-n) as real; }
    }
    DecodedRaw(data, n as real, start, len, 1.0, 0.0, order, signed);
  }

  /** The raw value written is the exact quotient cut towards zero, modulo the field's
      width; a factor of zero writes zero. */
  lemma WritesTowardsZero(data: seq<byte>, value: real, q: real, raw: int, start: nat, len: nat, factor: real,
                          offset: real, order: int)
    requires |data| == 8 && 1 <= len <= 32 && Inside(order, start, len)
    requires if factor == 0.0 then raw == 0 else q * factor == value - offset && TowardsZero(q, raw)
    ensures Shl(1, len) > 0
    ensures RawField(EncodedBytes(data, value, start, len, factor, offset, order), order, start, len)
         == raw % Shl(1, len)
  {
    RawRoundTrip(data, value, start, len, factor, offset, order);
    if factor != 0.0 {
      QuotientUnique(q, value - offset, factor);
      TruncTowardsZero(q, raw);
    }
  }

  lemma QuotientUnique(q: real, x: real, f: real)
    requires f != 0.0 && q * f == x
    ensures x / f == q
  {
  }

  lemma TruncBound(r: real)
    ensures -1.0 < r - Trunc(r) as real < 1.0
  {
  }

  lemma ScaleBound(x: real, f: real)
    requires -1.0 < x < 1.0 && f != 0.0
    ensures -Step(f) < x * f < Step(f)
  {
    if f > 0.0 {
      assert (1.0 - x) * f > 0.0 && (1.0 + x) * f > 0.0;
    } else {
      assert (1.0 - x) * -f > 0.0 && (1.0 + x) * -f > 0.0;
    }
  }

  lemma DivMul(x: real, f: real)
    requires f != 0.0
    ensures (x / f) * f == x
  {
  }

  lemma Distribute(a: real, b: real, f: real)
    ensures (a - b) * f == a * f - b * f
  {
  }

  /** A value that is q steps from the offset is less than a step from its truncation. */
  lemma TruncError(value: real, q: real, factor: real, offset: real)
    requires factor != 0.0 && q * factor == value - offset
    ensures -Step(factor) < value - Scaled(Trunc(q), factor, offset) < Step(factor)
  {
    var raw := Trunc(q) as real;
    TruncBound(q);
    var d := q - raw;
    ScaleBound(d, factor);
    Distribute(q, raw, factor);
    Gap(value, offset, q * factor, raw * factor, d * factor, Step(factor));
  }

  lemma Gap(value: real, offset: real, exact: real, near: real, gap: real, step: real)
    requires exact == value - offset && gap == exact - near && -step < gap < step
    ensures -step < value - (near + offset) < step
  {
  }

  lemma ScaleError(value: real, factor: real, offset: real)
    requires factor != 0.0
    ensures -Step(factor) < value - Scaled(RawValue(value, factor, offset), factor, offset) < Step(factor)
  {
    DivMul(value - offset, factor);
    TruncError(value, (value - offset) / factor, factor, offset);
  }

  /** With any nonzero factor the decoded value is within one step of the
      original, as long as the truncated raw value fits. */
  lemma ScaledRoundTrip(data: seq<byte>, value: real, start: nat, len: nat, factor: real,
                        offset: real, order: int, signed: bool)
    requires |data| == 8 && 1 <= len <= 32 && Inside(order, start, len) && factor != 0.0
    requires Representable(RawValue(value, factor, offset), len, signed)
    ensures var back := DecodedFloat(EncodedBytes(data, value, start, len, factor, offset, order),
                                     start, len, factor, offset, order, signed);
      -Step(factor) < value - back < Step(factor)
  {
    ScaleError(value, factor, offset);
    DecodedRaw(data, value, start, len, factor, offset, order, signed);
    var raw := RawValue(value, factor, offset);
    var sent := EncodedBytes(data, value, start, len, factor, offset, order);
    DecodedAs(sent, start, len, factor, offset, order, signed, raw);
  }

  lemma DecodedAs(data: seq<byte>, start: nat, len: nat, factor: real, offset: real, order: int, signed: bool, raw: int)
    requires DecodedInt(data, start, len, order, signed) == raw
    ensures DecodedFloat(data, start, len, factor, offset, order, signed) == Scaled(raw, factor, offset)
  {
  }

  lemma DecodedRaw(data: seq<byte>, value: real, start: nat, len: nat, factor: real,
                   offset: real, order: int, signed: bool)
    requires |data| == 8 && 1 <= len <= 32 && Inside(order, start, len)
    requires Representable(RawValue(value, factor, offset), len, signed)
    ensures DecodedInt(EncodedBytes(data, value, start, len, factor, offset, order), start, len, order, signed)
         == RawValue(value, factor, offset)
  {
    RawRoundTrip(data, value, start, len, factor, offset, order);
    InterpretInverse(RawValue(value, factor, offset), len, signed);
  }

  // ----- the loops

  method DecodeInt(data: seq<byte>, startBit: nat, bitLen: nat, byteOrder: int, signed: bool)
    returns (value: int)
    ensures value == DecodedInt(data, startBit, bitLen, byteOrder, signed)
  {
    if bitLen == 0 || bitLen > 32 { return 0; }
    if byteOrder == BIG_ENDIAN {
      value := DecodeMotorola(data, startBit, bitLen);
    } else {
      value := DecodeIntel(data, startBit, bitLen);
    }
    TopBitAnd(value, bitLen);
    if signed && And(value, Shl(1, bitLen - 1)) != 0 {
      value := value - Shl(1, bitLen);
    }
    LowWord(value);
    value := And(value, 0xFFFF_FFFF);
    if value >= 0x8000_0000 {
      value := value - 0x1_0000_0000;
    }
  }

  method DecodeFloat(data: seq<byte>, startBit: nat, bitLen: nat, factor: real, offset: real, byteOrder: int,
                     signed: bool)
    returns (value: real)
    ensures value == DecodedFloat(data, startBit, bitLen, factor, offset, byteOrder, signed)
  {
    var n := DecodeInt(data, startBit, bitLen, byteOrder, signed);
    value := n as real * factor + offset;
  }

  lemma LowWord(v: int)
    ensures And(v, 0xFFFF_FFFF) == v % 0x1_0000_0000
  {
    Shl8();
    AndMask(v, 32);
  }

  /** v & (1 << n-1) is nonzero exactly when that bit is set. */
  lemma TopBitAnd(v: int, n: nat)
    requires n > 0
    ensures (And(v, Shl(1, n - 1)) != 0) == TestBit(v, n - 1)
  {
    SingleBit(v, n - 1);
  }

  lemma {:induction false} SingleBit(v: int, k: nat)
    ensures And(v, Shl(1, k)) == if TestBit(v, k) then Shl(1, k) else 0
    ensures Shl(1, k) > 0
    decreases k
  {
    ShlPositive(k);
    ZeroBits(k);
    if k > 0 { SingleBit(v / 2, k - 1); }
    else {
      assert And(v / 2, 0) == 0;
    }
  }

  lemma OneBit(k: nat, p: nat)
    ensures TestBit(Shl(1, k), p) == (p == k)
  {
    ShlBit(1, k, p);
    if p > k { ZeroBits(p - k - 1); }
  }

  /** The number whose bits are the i most significant bits of a Motorola field. */
  function TopBits(data: seq<byte>, start: nat, len: nat, i: nat): int
    requires i <= len
  {
    if i == 0 then 0
    else
      var before := TopBits(data, start, len, i - 1);
      if FieldBit(data, BIG_ENDIAN, start, len, len - i) then Or(before, Shl(1, len - i)) else before
  }

  lemma {:induction false} TopBitsRange(data: seq<byte>, start: nat, len: nat, i: nat)
    requires i <= len
    ensures 0 <= TopBits(data, start, len, i) < Shl(1, len)
  {
    ShlPositive(len);
    if i > 0 {
      TopBitsRange(data, start, len, i - 1);
      OrRange(TopBits(data, start, len, i - 1), len - i, len);
    }
  }

  lemma {:induction false} TopBitsBit(data: seq<byte>, start: nat, len: nat, i: nat, p: nat)
    requires i <= len
    ensures TestBit(TopBits(data, start, len, i), p)
         == (len - i <= p < len && FieldBit(data, BIG_ENDIAN, start, len, p))
  {
    if i == 0 {
      ZeroBits(p);
    } else {
      TopBitsBit(data, start, len, i - 1, p);
      OrBit(TopBits(data, start, len, i - 1), Shl(1, len - i), p);
      OneBit(len - i, p);
    }
  }

  lemma TopBitsAll(data: seq<byte>, start: nat, len: nat)
    ensures TopBits(data, start, len, len) == RawField(data, BIG_ENDIAN, start, len)
  {
    var value := TopBits(data, start, len, len);
    TopBitsRange(data, start, len, len);
    forall p: nat
      ensures TestBit(value, p) == (p < len && FieldBit(data, BIG_ENDIAN, start, len, p))
    {
      TopBitsBit(data, start, len, len, p);
    }
    FieldFromBits(data, BIG_ENDIAN, start, len, value);
  }

  /** The bit the loop looks at is the field's bit of significance len - 1 - i. */
  lemma MotorolaBit(data: seq<byte>, start: nat, len: nat, i: nat, byteI: nat, bitI: nat)
    requires i < len && bitI < 8 && 8 * byteI + 7 - bitI == Mot(start) + i
    ensures FieldBit(data, BIG_ENDIAN, start, len, len - 1 - i)
         == (byteI < |data| && And(Shr(data[byteI], bitI), 1) != 0)
  {
    assert Pos(BIG_ENDIAN, start, len, len - 1 - i) == 8 * byteI + bitI;
    assert (8 * byteI + bitI) / 8 == byteI && (8 * byteI + bitI) % 8 == bitI;
    if byteI < |data| {
      ShrBit(data[byteI], bitI, 0);
      AndOne(Shr(data[byteI], bitI));
    }
  }

  method DecodeMotorola(data: seq<byte>, startBit: nat, bitLen: nat) returns (value: nat)
    requires 1 <= bitLen <= 32
    ensures value == RawField(data, BIG_ENDIAN, startBit, bitLen)
  {
    value := 0;
    var byteI, bitI := startBit / 8, startBit % 8;
    var i := 0;
    while i < bitLen
      invariant 0 <= i <= bitLen && 0 <= bitI < 8 && 0 <= byteI
      invariant 8 * byteI + 7 - bitI == Mot(startBit) + i
      invariant value == TopBits(data, startBit, bitLen, i)
    {
      MotorolaBit(data, startBit, bitLen, i, byteI, bitI);
      TopBitsRange(data, startBit, bitLen, i + 1);
      if byteI < |data| && And(Shr(data[byteI], bitI), 1) != 0 {
        value := Or(value, Shl(1, bitLen - 1 - i));
      }
      bitI := bitI - 1;
      if bitI < 0 {
        bitI, byteI := 7, byteI + 1;
      }
      i := i + 1;
    }
    TopBitsAll(data, startBit, bitLen);
  }

  lemma AndOne(x: int)
    ensures (And(x, 1) != 0) == TestBit(x, 0)
  {
    assert Shl(1, 0) == 1;
    SingleBit(x, 0);
  }

  lemma ZeroBitsAll()
    ensures forall p: nat :: !TestBit(0, p)
  {
    forall p: nat ensures !TestBit(0, p) { ZeroBits(p); }
  }

  /** Setting a bit below n keeps a number below 2^n. */
  lemma OrRange(x: nat, k: nat, n: nat)
    requires k < n && x < Shl(1, n)
    ensures 0 <= Or(x, Shl(1, k)) < Shl(1, n)
  {
    ShlMonotone(k, n - 1);
    assert Shl(1, n) == 2 * Shl(1, n - 1);
    OrBelow(x, Shl(1, k), n);
  }

  lemma {:induction false} OrBelow(x: nat, y: nat, n: nat)
    requires x < Shl(1, n) && y < Shl(1, n)
    ensures 0 <= Or(x, y) < Shl(1, n)
    decreases n
  {
    if n == 0 || x == 0 || y == 0 {
      AndAllOnes(Not(y));
      AndAllOnes(Not(x));
    } else {
      OrBelow(x / 2, y / 2, n - 1);
      assert Not(x) / 2 == Not(x / 2) && Not(y) / 2 == Not(y / 2);
    }
  }

  lemma {:induction false} AndAllOnes(x: int)
    ensures And(x, -1) == x
    decreases if x < 0 then -x else x
  {
    if x != 0 && x != -1 {
      assert (-1) / 2 == -1;
      AndAllOnes(x / 2);
    }
  }

  /** A number with exactly the bits of a field is that field. */
  lemma FieldFromBits(data: seq<byte>, order: int, start: nat, len: nat, value: nat)
    requires value < Shl(1, len)
    requires forall p: nat :: TestBit(value, p) == (p < len && FieldBit(data, order, start, len, p))
    ensures value == RawField(data, order, start, len)
  {
    var f := seq(len, j requires 0 <= j < len => FieldBit(data, order, start, len, j));
    FromBitsRange(f);
    forall p: nat | p < len
      ensures TestBit(FromBits(f), p) == TestBit(value, p)
    {
      FromBitsBit(f, p);
    }
    SameBits(FromBits(f), value, len);
  }

  lemma AddByte(data: seq<byte>, acc: nat, i: nat, b: byte)
    requires acc < Shl(1, 8 * i)
    requires forall p: nat :: TestBit(acc, p) == (p < 8 * i && BitAt(data, p))
    requires b == if i < |data| then data[i] else 0
    ensures 0 <= Or(acc, Shl(b, 8 * i)) < Shl(1, 8 * i + 8)
    ensures forall p: nat ::
      TestBit(Or(acc, Shl(b, 8 * i)), p) == (p < 8 * i + 8 && BitAt(data, p))
  {
    ShlMonotone(8 * i, 8 * i + 8);
    ShlByte(b, 8 * i);
    OrBelow(acc, Shl(b, 8 * i), 8 * i + 8);
    forall p: nat
      ensures TestBit(Or(acc, Shl(b, 8 * i)), p) == (p < 8 * i + 8 && BitAt(data, p))
    {
      OrBit(acc, Shl(b, 8 * i), p);
      ShlBit(b, 8 * i, p);
      if p >= 8 * i + 8 {
        ByteBits(b, p - 8 * i);
      } else if p >= 8 * i {
        assert p / 8 == i && p % 8 == p - 8 * i;
        ZeroBits(p - 8 * i);
      }
    }
  }

  method Gather(data: seq<byte>) returns (acc: nat)
    ensures acc < Shl(1, 64)
    ensures forall p: nat :: TestBit(acc, p) == (p < 64 && BitAt(data, p))
  {
    acc := 0;
    ZeroBitsAll();
    var i := 0;
    while i < 8
      invariant 0 <= i <= 8
      invariant 0 <= acc < Shl(1, 8 * i)
      invariant forall p: nat :: TestBit(acc, p) == (p < 8 * i && BitAt(data, p))
    {
      var b: byte := if i < |data| then data[i] else 0;
      AddByte(data, acc, i, b);
      acc := Or(acc, Shl(b, 8 * i));
      i := i + 1;
    }
  }

  lemma {:induction false} ShlByte(b: byte, s: nat)
    ensures 0 <= Shl(b, s) < Shl(1, s + 8)
  {
    if s == 0 { Shl8(); } else { ShlByte(b, s - 1); }
  }

  method DecodeIntel(data: seq<byte>, startBit: nat, bitLen: nat) returns (value: nat)
    requires 1 <= bitLen <= 32
    ensures forall order :: order != BIG_ENDIAN ==> value == RawField(data, order, startBit, bitLen)
  {
    var raw := Gather(data);
    AndMask(Shr(raw, startBit), bitLen);
    value := And(Shr(raw, startBit), Shl(1, bitLen) - 1);
    forall p: nat
      ensures TestBit(value, p) == (p < bitLen && startBit + p < 64 && BitAt(data, startBit + p))
    {
      AndBit(Shr(raw, startBit), Shl(1, bitLen) - 1, p);
      MaskBit(bitLen, p);
      ShrBit(raw, startBit, p);
    }
    forall order | order != BIG_ENDIAN
      ensures value == RawField(data, order, startBit, bitLen)
    {
      FieldFromBits(data, order, startBit, bitLen, value);
    }
  }

  /** Encodes in place. Running off the end of the buffer with a Motorola field
      is the source's IndexError: ok is false. */
  method EncodeFloat(data: array<byte>, value: real, startBit: nat, bitLen: nat, factor: real,
                     offset: real, byteOrder: int) returns (ok: bool)
    requires data.Length == 8
    modifies data
    ensures ok == EncodeFits(byteOrder, startBit, bitLen)
    ensures ok ==> data[..] == EncodedBytes(old(data[..]), value, startBit, bitLen, factor, offset, byteOrder)
  {
    if bitLen == 0 || bitLen > 32 { return true; }
    var raw := RawValue(value, factor, offset);
    Shl8();
    AndMask(raw, 32);
    ghost var wide := raw;
    raw := And(raw, 0xFFFF_FFFF);
    var mask := Shl(1, bitLen) - 1;
    var v := And(raw, mask);
    AndMask(raw, bitLen);
    forall j: nat
      ensures TestBit(v, j) == (j < bitLen && TestBit(wide, j))
    {
      AndBit(wide, 0xFFFF_FFFF, j);
      MaskBit(32, j);
      AndBit(raw, mask, j);
      MaskBit(bitLen, j);
    }
    if byteOrder == BIG_ENDIAN {
      ok := EncodeMotorola(data, v, wide, startBit, bitLen);
    } else {
      EncodeIntel(data, v, wide, startBit, bitLen, mask, byteOrder);
      ok := true;
    }
    if ok {
      assert data[..] == EncodedBytes(old(data[..]), value, startBit, bitLen, factor, offset, byteOrder);
    }
  }

  /** Two bytes with the same eight bits are the same byte. */
  lemma SameByte(data: seq<byte>, raw: int, order: int, start: nat, len: nat, i: nat, b: byte)
    requires forall q: nat | q < 8 :: TestBit(b, q) == WrittenBit(data, raw, order, start, len, 8 * i + q)
    ensures b == WrittenByte(data, raw, order, start, len, i)
  {
    var bits := seq(8, q requires 0 <= q < 8 => WrittenBit(data, raw, order, start, len, 8 * i + q));
    Shl8();
    forall q: nat | q < 8
      ensures TestBit(b, q) == TestBit(FromBits(bits), q)
    {
      FromBitsBit(bits, q);
    }
    FromBitsRange(bits);
    SameBits(b, FromBits(bits), 8);
  }

  /** Merging the value into the gathered payload writes the field's bits and no others. */
  lemma MergedBits(data: seq<byte>, before: int, mask: int, v: int, wide: int, order: int, start: nat, len: nat)
    requires order != BIG_ENDIAN && 1 <= len <= 32 && mask == Shl(1, len) - 1
    requires forall j: nat :: TestBit(v, j) == (j < len && TestBit(wide, j))
    requires forall p: nat | p < 64 :: TestBit(before, p) == BitAt(data, p)
    ensures var acc := Or(And(before, And(Not(Shl(mask, start)), 0xFFFF_FFFF_FFFF_FFFF)), Shl(v, start));
      forall p: nat | p < 64 :: TestBit(acc, p) == WrittenBit(data, wide, order, start, len, p)
  {
    forall p: nat | p < 64
      ensures TestBit(Or(And(before, And(Not(Shl(mask, start)), 0xFFFF_FFFF_FFFF_FFFF)), Shl(v, start)), p)
        == WrittenBit(data, wide, order, start, len, p)
    {
      Shl8();
      OrBit(And(before, And(Not(Shl(mask, start)), 0xFFFF_FFFF_FFFF_FFFF)), Shl(v, start), p);
      AndBit(before, And(Not(Shl(mask, start)), 0xFFFF_FFFF_FFFF_FFFF), p);
      AndBit(Not(Shl(mask, start)), 0xFFFF_FFFF_FFFF_FFFF, p);
      MaskBit(64, p);
      NotBit(Shl(mask, start), p);
      ShlBit(mask, start, p);
      ShlBit(v, start, p);
      if p >= start { MaskBit(len, p - start); }
    }
  }

  /** Byte i of a payload whose bits are the written ones. */
  lemma TakenByte(data: seq<byte>, acc: int, wide: int, order: int, start: nat, len: nat, i: nat)
    requires i < 8 && forall p: nat | p < 64 :: TestBit(acc, p) == WrittenBit(data, wide, order, start, len, p)
    ensures And(Shr(acc, 8 * i), 0xFF) == WrittenByte(data, wide, order, start, len, i)
  {
    Shl8();
    AndMask(Shr(acc, 8 * i), 8);
    var b: byte := And(Shr(acc, 8 * i), 0xFF);
    forall q: nat | q < 8
      ensures TestBit(b, q) == WrittenBit(data, wide, order, start, len, 8 * i + q)
    {
      AndBit(Shr(acc, 8 * i), 0xFF, q);
      MaskBit(8, q);
      ShrBit(acc, 8 * i, q);
    }
    SameByte(data, wide, order, start, len, i, b);
  }

  method EncodeIntel(data: array<byte>, v: nat, ghost wide: int, startBit: nat, bitLen: nat, mask: int, order: int)
    requires data.Length == 8 && order != BIG_ENDIAN && 1 <= bitLen <= 32
    requires mask == Shl(1, bitLen) - 1
    requires forall j: nat :: TestBit(v, j) == (j < bitLen && TestBit(wide, j))
    modifies data
    ensures forall i | 0 <= i < 8 :: data[i] == WrittenByte(old(data[..]), wide, order, startBit, bitLen, i)
  {
    ghost var was := data[..];
    var acc: int := Gather(data[..]);
    ghost var before := acc;
    acc := And(acc, And(Not(Shl(mask, startBit)), 0xFFFF_FFFF_FFFF_FFFF));
    acc := Or(acc, Shl(v, startBit));
    MergedBits(was, before, mask, v, wide, order, startBit, bitLen);
    var i := 0;
    while i < 8
      invariant 0 <= i <= 8
      invariant forall k | 0 <= k < i :: data[k] == WrittenByte(was, wide, order, startBit, bitLen, k)
    {
      TakenByte(was, acc, wide, order, startBit, bitLen, i);
      data[i] := And(Shr(acc, 8 * i), 0xFF);
      i := i + 1;
    }
  }

  /** Payload bit p after the top i bits of a Motorola field have been written. */
  predicate PartBit(data: seq<byte>, raw: int, start: nat, len: nat, i: nat, p: nat)
    requires i <= len
  {
    if Mot(start) <= Mot(p) < Mot(start) + i
    then TestBit(raw, len - 1 - (Mot(p) - Mot(start)))
    else BitAt(data, p)
  }

  method EncodeMotorola(data: array<byte>, v: nat, ghost wide: int, startBit: nat, bitLen: nat) returns (ok: bool)
    requires data.Length == 8 && 1 <= bitLen <= 32
    requires forall j: nat :: TestBit(v, j) == (j < bitLen && TestBit(wide, j))
    modifies data
    ensures ok == (Mot(startBit) + bitLen <= 64)
    ensures ok ==> forall i | 0 <= i < 8 :: data[i] == WrittenByte(old(data[..]), wide, BIG_ENDIAN, startBit, bitLen, i)
  {
    ghost var was := data[..];
    var byteI, bitI := startBit / 8, startBit % 8;
    var i := 0;
    while i < bitLen
      invariant 0 <= i <= bitLen && 0 <= bitI < 8 && 0 <= byteI
      invariant 8 * byteI + 7 - bitI == Mot(startBit) + i
      invariant i == 0 || Mot(startBit) + i <= 64
      invariant forall p: nat | p < 64 ::
        TestBit(data[p / 8], p % 8) == PartBit(was, wide, startBit, bitLen, i, p)
    {
      if byteI >= 8 { return false; }
      var k := bitLen - 1 - i;
      ghost var b0: byte := data[byteI];
      ShrBit(v, k, 0);
      AndOne(Shr(v, k));
      if And(Shr(v, k), 1) != 0 {
        SetBit(data[byteI], bitI);
        data[byteI] := Or(data[byteI], Shl(1, bitI));
      } else {
        ClearBit(data[byteI], bitI);
        data[byteI] := And(data[byteI], And(Not(Shl(1, bitI)), 0xFF));
      }
      forall p: nat | p < 64
        ensures TestBit(data[p / 8], p % 8) == PartBit(was, wide, startBit, bitLen, i + 1, p)
      {
        assert TestBit(data[p / 8], p % 8) ==
          if p / 8 == byteI && p % 8 == bitI then TestBit(wide, k)
          else if p / 8 == byteI then TestBit(b0, p % 8)
          else TestBit(data[p / 8], p % 8);
      }
      bitI := bitI - 1;
      if bitI < 0 {
        bitI, byteI := 7, byteI + 1;
      }
      i := i + 1;
    }
    ok := true;
    forall i | 0 <= i < 8
      ensures data[i] == WrittenByte(was, wide, BIG_ENDIAN, startBit, bitLen, i)
    {
      forall q: nat | q < 8
        ensures TestBit(data[i], q) == WrittenBit(was, wide, BIG_ENDIAN, startBit, bitLen, 8 * i + q)
      {
        var p := 8 * i + q;
        assert p / 8 == i && p % 8 == q;
      }
      SameByte(was, wide, BIG_ENDIAN, startBit, bitLen, i, data[i]);
    }
  }

  lemma SetBit(b: byte, k: nat)
    requires k < 8
    ensures 0 <= Or(b, Shl(1, k)) < 256
    ensures forall q: nat :: TestBit(Or(b, Shl(1, k)), q) == (q == k || TestBit(b, q))
  {
    Shl8();
    OrRange(b, k, 8);
    forall q: nat
      ensures TestBit(Or(b, Shl(1, k)), q) == (q == k || TestBit(b, q))
    {
      OrBit(b, Shl(1, k), q);
      OneBit(k, q);
    }
  }

  lemma ClearBit(b: byte, k: nat)
    requires k < 8
    ensures 0 <= And(b, And(Not(Shl(1, k)), 0xFF)) < 256
    ensures forall q: nat :: TestBit(And(b, And(Not(Shl(1, k)), 0xFF)), q) == (q != k && TestBit(b, q))
  {
    Shl8();
    AndMask(Not(Shl(1, k)), 8);
    AndRange(b, And(Not(Shl(1, k)), 0xFF), 8);
    forall q: nat
      ensures TestBit(And(b, And(Not(Shl(1, k)), 0xFF)), q) == (q != k && TestBit(b, q))
    {
      AndBit(b, And(Not(Shl(1, k)), 0xFF), q);
      AndBit(Not(Shl(1, k)), 0xFF, q);
      MaskBit(8, q);
      NotBit(Shl(1, k), q);
      OneBit(k, q);
      if q >= 8 { ByteBits(b, q); }
    }
  }

  lemma {:induction false} AndRange(x: nat, y: nat, n: nat)
    requires x < Shl(1, n) && y < Shl(1, n)
    ensures 0 <= And(x, y) < Shl(1, n)
    decreases n
  {
    if n > 0 { AndRange(x / 2, y / 2, n - 1); }
  }
}
