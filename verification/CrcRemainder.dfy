/**
 What the checksum is: the remainder of a division of polynomials over GF(2). Polynomials
 are written as their coefficients, the highest power first, as the bits are sent.
 */
module CrcRemainder {
  import opened PyInt
  import opened LittleEndian
  import opened Crc

  type Poly = seq<bool>

  /** x^32 + x^26 + x^23 + x^22 + x^16 + x^12 + x^11 + x^10 + x^8 + x^7 + x^5 + x^4 + x^2 + x + 1 */
  function Generator(): Degree32 {
    seq(33, i requires 0 <= i < 33 => 32 - i in {32, 26, 23, 22, 16, 12, 11, 10, 8, 7, 5, 4, 2, 1, 0})
  }

  function Zeros(n: nat): Poly { seq(n, _ => false) }

  function Sum(a: Poly, b: Poly): Poly
    requires |a| == |b|
  {
    seq(|a|, i requires 0 <= i < |a| => a[i] != b[i])
  }

  /** A polynomial of degree 32. */
  type Degree32 = g: Poly | |g| == 33 && g[0] witness seq(33, _ => true)

  /** q times g: each further coefficient moves the product up one power. */
  function Product(q: Poly, g: Degree32): (p: Poly)
    ensures |p| == |q| + 32
  {
    if |q| == 0 then Zeros(32) else Grown(Product(q[..|q| - 1], g), q[|q| - 1], g)
  }

  /** A product times x, and g added if b is one. */
  function Grown(p: Poly, b: bool, g: Degree32): (r: Poly)
    requires |p| >= 32
    ensures |r| == |p| + 1
  {
    var n := |p| - 32;
    seq(|p| + 1, i requires 0 <= i < |p| + 1 => (i < |p| && p[i]) != (b && i >= n && g[i - n]))
  }

  /** The message times x^32, with its first 32 coefficients complemented. */
  function Dividend(message: Poly): Poly {
    Sum(message + Zeros(32), seq(32, _ => true) + Zeros(|message|))
  }

  /** Dividing by g gives q and leaves r. */
  ghost predicate Divides(message: Poly, g: Degree32, q: Poly, r: Poly) {
    |q| == |message| && |r| == 32 && Dividend(message) == Sum(Product(q, g), Zeros(|q|) + r)
  }

  // ----- there is only one remainder

  lemma ProductNext(q: Poly, b: bool, g: Degree32, i: nat)
    requires i < |q| + 33
    ensures Product(q + [b], g)[i] == ((i < |q| + 32 && Product(q, g)[i]) != (b && i >= |q| && g[i - |q|]))
  {
    assert (q + [b])[..|q|] == q;
  }

  lemma {:induction false} ProductFront(q: Poly, g: Degree32, k: nat, i: nat)
    requires i < k <= |q|
    ensures Product(q, g)[i] == Product(q[..k], g)[i]
    decreases |q|
  {
    if k < |q| {
      var front := q[..|q| - 1];
      assert q == front + [q[|q| - 1]] && front[..k] == q[..k];
      ProductNext(front, q[|q| - 1], g, i);
      ProductFront(front, g, k, i);
    } else {
      assert q[..k] == q;
    }
  }

  lemma {:induction false} QuotientUnique(q: Poly, q': Poly, g: Degree32)
    requires |q| == |q'| && forall i | 0 <= i < |q| :: Product(q, g)[i] == Product(q', g)[i]
    ensures q == q'
    decreases |q|
  {
    if |q| > 0 {
      var n := |q| - 1;
      var f, f' := q[..n], q'[..n];
      forall i | 0 <= i < n
        ensures Product(f, g)[i] == Product(f', g)[i]
      {
        ProductFront(q, g, n, i);
        ProductFront(q', g, n, i);
      }
      QuotientUnique(f, f', g);
      assert q == f + [q[n]] && q' == f' + [q'[n]];
      ProductNext(f, q[n], g, n);
      ProductNext(f', q'[n], g, n);
    }
  }

  /** A message has one quotient and one remainder. */
  lemma RemainderUnique(message: Poly, g: Degree32, q: Poly, r: Poly, q': Poly, r': Poly)
    requires Divides(message, g, q, r) && Divides(message, g, q', r')
    ensures q == q' && r == r'
  {
    var d := Dividend(message);
    forall i | 0 <= i < |q|
      ensures Product(q, g)[i] == Product(q', g)[i]
    {
      assert d[i] == Sum(Product(q, g), Zeros(|q|) + r)[i] && d[i] == Sum(Product(q', g), Zeros(|q|) + r')[i];
    }
    QuotientUnique(q, q', g);
    forall i | 0 <= i < 32
      ensures r[i] == r'[i]
    {
      assert d[|q| + i] == Sum(Product(q, g), Zeros(|q|) + r)[|q| + i]
        == Sum(Product(q, g), Zeros(|q|) + r')[|q| + i];
    }
  }

  // ----- one bit at a time

  /** The register with its first bit changed. */
  function Flip(c: Register, b: bool): Register { c[0 := c[0] != b] }

  function FeedBits(c: Register, bits: Poly): Register {
    if |bits| == 0 then c else Shift(Flip(FeedBits(c, bits[..|bits| - 1]), bits[|bits| - 1]))
  }

  /** The bits of a byte in the order in which they are sent, the lowest first. */
  function BitsOfByte(b: byte): Poly { seq(8, i requires 0 <= i < 8 => TestBit(b, i)) }

  function Bits(bs: seq<byte>): Poly {
    if |bs| == 0 then [] else Bits(bs[..|bs| - 1]) + BitsOfByte(bs[|bs| - 1])
  }

  /** What is left of a byte after n of its bits. */
  function Left(b: byte, n: nat): Register {
    seq(32, i requires 0 <= i < 32 => i + n < 8 && TestBit(b, i + n))
  }

  lemma ShiftLeft(c: Register, b: byte, n: nat)
    requires n < 8
    ensures Shift(Xor(c, Left(b, n))) == Xor(Shift(Flip(c, TestBit(b, n))), Left(b, n + 1))
  {
    var l, r := Shift(Xor(c, Left(b, n))), Xor(Shift(Flip(c, TestBit(b, n))), Left(b, n + 1));
    forall i: nat | i < 32
      ensures l[i] == r[i]
    {
      ShiftBit(Xor(c, Left(b, n)), i);
      ShiftBit(Flip(c, TestBit(b, n)), i);
    }
  }

  lemma {:induction false} ShiftsLeft(c: Register, b: byte, n: nat)
    requires n <= 8
    ensures Shifts(Xor(c, BitsOf(b)), n) == Xor(FeedBits(c, BitsOfByte(b)[..n]), Left(b, n))
  {
    if n == 0 {
      forall i: nat | i < 32
        ensures BitsOf(b)[i] == Left(b, 0)[i]
      {
        if i >= 8 { HighBitsOff(b, i); }
      }
      assert BitsOf(b) == Left(b, 0);
    } else {
      var bits := BitsOfByte(b)[..n];
      assert bits[..n - 1] == BitsOfByte(b)[..n - 1] && bits[n - 1] == TestBit(b, n - 1);
      ShiftsLeft(c, b, n - 1);
      ShiftLeft(FeedBits(c, bits[..n - 1]), b, n - 1);
    }
  }

  lemma FeedIsBits(c: Register, b: byte)
    ensures Feed(c, b) == FeedBits(c, BitsOfByte(b))
  {
    ShiftsLeft(c, b, 8);
    assert BitsOfByte(b)[..8] == BitsOfByte(b);
    assert Xor(FeedBits(c, BitsOfByte(b)), Left(b, 8)) == FeedBits(c, BitsOfByte(b));
  }

  lemma {:induction false} FeedBitsAppend(c: Register, a: Poly, b: Poly)
    ensures FeedBits(c, a + b) == FeedBits(FeedBits(c, a), b)
  {
    if |b| == 0 {
      assert a + b == a;
    } else {
      assert (a + b)[..|a + b| - 1] == a + b[..|b| - 1];
      FeedBitsAppend(c, a, b[..|b| - 1]);
    }
  }

  lemma {:induction false} FeedAllIsBits(c: Register, bs: seq<byte>)
    ensures FeedAll(c, bs) == FeedBits(c, Bits(bs))
  {
    if |bs| > 0 {
      var front := bs[..|bs| - 1];
      FeedAllIsBits(c, front);
      FeedIsBits(FeedAll(c, front), bs[|bs| - 1]);
      FeedBitsAppend(c, Bits(front), BitsOfByte(bs[|bs| - 1]));
    }
  }

  // ----- the register is the remainder

  lemma DividendNext(s: Poly, b: bool, i: nat)
    requires i < |s| + 33
    ensures Dividend(s + [b])[i] == ((i < |s| + 32 && Dividend(s)[i]) != (i == |s| && b))
  {
  }

  lemma GeneratorBits()
    ensures Generator()[0] && forall j: nat | j < 32 :: Generator()[j + 1] == BitsOf(POLY)[j]
  {
    assert Put32(POLY) == [0x20, 0x83, 0xB8, 0xED];
    assert !TestBit(0x20, 0) && !TestBit(0x20, 1) && !TestBit(0x20, 2) && !TestBit(0x20, 3);
    assert !TestBit(0x20, 4) && TestBit(0x20, 5) && !TestBit(0x20, 6) && !TestBit(0x20, 7);
    assert TestBit(0x83, 0) && TestBit(0x83, 1) && !TestBit(0x83, 2) && !TestBit(0x83, 3);
    assert !TestBit(0x83, 4) && !TestBit(0x83, 5) && !TestBit(0x83, 6) && TestBit(0x83, 7);
    assert !TestBit(0xB8, 0) && !TestBit(0xB8, 1) && !TestBit(0xB8, 2) && TestBit(0xB8, 3);
    assert TestBit(0xB8, 4) && TestBit(0xB8, 5) && !TestBit(0xB8, 6) && TestBit(0xB8, 7);
    assert TestBit(0xED, 0) && !TestBit(0xED, 1) && TestBit(0xED, 2) && TestBit(0xED, 3);
    assert !TestBit(0xED, 4) && TestBit(0xED, 5) && TestBit(0xED, 6) && TestBit(0xED, 7);
    forall j: nat | j < 32
      ensures Generator()[j + 1] == BitsOf(POLY)[j]
    {
      Put32Bit(POLY, j / 8, j % 8);
    }
  }

  lemma {:induction false} RegisterIsRemainder(bits: Poly, g: Degree32) returns (q: Poly)
    requires forall j: nat | j < 32 :: g[j + 1] == BitsOf(POLY)[j]
    ensures Divides(bits, g, q, FeedBits(Ones(), bits))
  {
    if |bits| == 0 {
      q := [];
    } else {
      var s, b := bits[..|bits| - 1], bits[|bits| - 1];
      var r := FeedBits(Ones(), s);
      var f := RegisterIsRemainder(s, g);
      q := f + [r[0] != b];
      assert bits == s + [b];
      OneMore(s, b, g, f, r);
    }
  }

  lemma OneMore(s: Poly, b: bool, g: Degree32, f: Poly, r: Register)
    requires forall j: nat | j < 32 :: g[j + 1] == BitsOf(POLY)[j]
    requires Divides(s, g, f, r)
    ensures Divides(s + [b], g, f + [r[0] != b], Shift(Flip(r, b)))
  {
    var q, n := r[0] != b, |s|;
    var d, p := Dividend(s + [b]), Sum(Product(f + [q], g), Zeros(n + 1) + Shift(Flip(r, b)));
    forall i: nat | i < n + 33
      ensures d[i] == p[i]
    {
      DividendNext(s, b, i);
      ProductNext(f, q, g, i);
      if i < n + 32 { assert Dividend(s)[i] == Sum(Product(f, g), Zeros(n) + r)[i]; }
      if i > n { ShiftBit(Flip(r, b), i - n - 1); }
    }
  }

  lemma ChecksumIsRemainder(bs: seq<byte>) returns (q: Poly)
    ensures Divides(Bits(bs), Generator(), q, Xor(Checksum(bs), Ones()))
  {
    GeneratorBits();
    FeedAllIsBits(Ones(), bs);
    q := RegisterIsRemainder(Bits(bs), Generator());
    assert Xor(Checksum(bs), Ones()) == FeedAll(Ones(), bs);
  }

  // ----- lists of values

  /** The bits of the values in the order in which they are sent, the lowest first. */
  function Message(vs: seq<uint32>): Poly {
    seq(32 * |vs|, i requires 0 <= i < 32 * |vs| => TestBit(vs[i / 32], i % 32))
  }

  lemma {:induction false} BitsAt(bs: seq<byte>, n: nat, i: nat)
    requires n < |bs| && i < 8
    ensures |Bits(bs)| == 8 * |bs| && Bits(bs)[8 * n + i] == TestBit(bs[n], i)
  {
    var m := |bs| - 1;
    if m > 0 { BitsAt(bs[..m], if n < m then n else 0, i); }
  }

  lemma {:induction false} BytesAt(vs: seq<uint32>, k: nat, j: nat)
    requires k < |vs| && j < 4
    ensures Bytes(vs)[4 * k + j] == Put32(vs[k])[j]
  {
    if k < |vs| - 1 { BytesAt(vs[..|vs| - 1], k, j); }
  }

  lemma ValueBit(vs: seq<uint32>, k: nat, j: nat, i: nat)
    requires k < |vs| && j < 4 && i < 8
    ensures |Bits(Bytes(vs))| == 32 * |vs| && Bits(Bytes(vs))[32 * k + 8 * j + i] == TestBit(vs[k], 8 * j + i)
  {
    BitsAt(Bytes(vs), 4 * k + j, i);
    BytesAt(vs, k, j);
    Put32Bit(vs[k], j, i);
  }

  lemma BitsOfValues(vs: seq<uint32>)
    ensures Bits(Bytes(vs)) == Message(vs)
  {
    if |vs| > 0 { ValueBit(vs, 0, 0, 0); }
    forall x: nat | x < 32 * |vs|
      ensures Bits(Bytes(vs))[x] == Message(vs)[x]
    {
      var k, y := x / 32, x % 32;
      ValueBit(vs, k, y / 8, y % 8);
    }
  }

  lemma CrcBit(vs: seq<uint32>, i: nat)
    requires i < 32
    ensures TestBit(CrcOf(vs), i) == Checksum(Bytes(vs))[i]
  {
    NumberBit(Checksum(Bytes(vs)), i);
  }

  /** Bit i of the checksum of a list is the complement of the coefficient of x^(31 - i) of
      what the generator leaves of the list's bits times x^32, their first 32 complemented. */
  lemma CrcIsRemainder(vs: seq<uint32>, r: Poly)
    ensures (exists q :: Divides(Message(vs), Generator(), q, r))
      <==> |r| == 32 && forall i: nat | i < 32 :: r[i] == !TestBit(CrcOf(vs), i)
  {
    BitsOfValues(vs);
    var c := Xor(Checksum(Bytes(vs)), Ones());
    var q := ChecksumIsRemainder(Bytes(vs));
    forall i: nat | i < 32
      ensures c[i] == !TestBit(CrcOf(vs), i)
    {
      CrcBit(vs, i);
    }
    if q' :| Divides(Message(vs), Generator(), q', r) {
      RemainderUnique(Message(vs), Generator(), q, c, q', r);
    }
    if |r| == 32 && forall i: nat | i < 32 :: r[i] == !TestBit(CrcOf(vs), i) {
      assert r == c;
    }
  }
}
