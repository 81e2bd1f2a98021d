/**
 The usual check value of the checksum, by its quotient and its remainder.
 */
module CrcCheck {
  import opened PyInt
  import opened LittleEndian
  import opened Crc
  import opened CrcRemainder

  /** The characters from '1' to '9'. */
  const DIGITS: seq<byte> := [0x31, 0x32, 0x33, 0x34, 0x35, 0x36, 0x37, 0x38, 0x39]

  /** Where their bits are one, */
  predicate MessageBit(i: int) {
    i in {0, 4, 5, 9, 12, 13, 16, 17, 20, 21, 26, 28, 29, 32, 34, 36, 37, 41, 42, 44, 45, 48, 49, 50, 52, 53, 59, 60,
          61, 64, 67, 68, 69}
  }

  /** those of their quotient, */
  predicate QuotientBit(i: int) {
    i in {1, 2, 3, 6, 9, 11, 12, 13, 14, 15, 16, 22, 24, 27, 28, 30, 32, 35, 37, 40, 42, 44, 47, 48, 51, 53, 54, 55,
          59, 60, 62, 64, 67, 69}
  }

  /** and those of their remainder. */
  predicate RemainderBit(i: int) {
    i in {0, 3, 4, 6, 7, 9, 10, 14, 15, 16, 17, 19, 26, 28, 29}
  }

  function Quotient(): Poly { seq(72, i requires 0 <= i < 72 => QuotientBit(i)) }

  function Remainder(): Poly { seq(32, i requires 0 <= i < 32 => RemainderBit(i)) }

  // ----- a coefficient of a product

  predicate At(q: Poly, i: int) { 0 <= i < |q| && q[i] }

  /** One term for each power in the generator. */
  predicate Coefficient(q: Poly, i: int) {
    var a := ((At(q, i) != At(q, i - 6)) != At(q, i - 9)) != At(q, i - 10);
    var b := ((At(q, i - 16) != At(q, i - 20)) != At(q, i - 21)) != At(q, i - 22);
    var c := ((At(q, i - 24) != At(q, i - 25)) != At(q, i - 27)) != At(q, i - 28);
    (a != b) != (c != ((At(q, i - 30) != At(q, i - 31)) != At(q, i - 32)))
  }

  lemma {:induction false} ProductAt(q: Poly, i: nat)
    requires i < |q| + 32
    ensures Product(q, Generator())[i] == Coefficient(q, i)
    decreases |q|
  {
    if |q| > 0 {
      var f, b := q[..|q| - 1], q[|q| - 1];
      assert q == f + [b];
      ProductNext(f, b, Generator(), i);
      if i < |f| + 32 { ProductAt(f, i); }
      CoefficientNext(f, b, i);
    }
  }

  lemma CoefficientNext(q: Poly, b: bool, i: nat)
    requires i < |q| + 33
    ensures Coefficient(q + [b], i) == (Coefficient(q, i) != (b && i >= |q| && Generator()[i - |q|]))
  {
  }

  // ----- the division

  /** A coefficient of the quotient's product. */
  predicate Terms(i: int) {
    var a := ((QuotientBit(i) != QuotientBit(i - 6)) != QuotientBit(i - 9)) != QuotientBit(i - 10);
    var b := ((QuotientBit(i - 16) != QuotientBit(i - 20)) != QuotientBit(i - 21)) != QuotientBit(i - 22);
    var c := ((QuotientBit(i - 24) != QuotientBit(i - 25)) != QuotientBit(i - 27)) != QuotientBit(i - 28);
    (a != b) != (c != ((QuotientBit(i - 30) != QuotientBit(i - 31)) != QuotientBit(i - 32)))
  }

  lemma QuotientAt(i: int)
    ensures At(Quotient(), i) == QuotientBit(i)
  {
  }

  lemma QuotientTerms(i: int)
    ensures Coefficient(Quotient(), i) == Terms(i)
  {
    forall j: int
      ensures At(Quotient(), j) == QuotientBit(j)
    {
      QuotientAt(j);
    }
  }

  predicate Matching(i: int) {
    ((i < 72 && MessageBit(i)) != (i < 32)) == (Terms(i) != (i >= 72 && RemainderBit(i - 72)))
  }

  lemma FirstMatch(i: int)
    requires 0 <= i < 52
    ensures Matching(i)
  {
  }

  lemma LastMatch(i: int)
    requires 52 <= i < 104
    ensures Matching(i)
  {
  }

  lemma LowBits8(v: nat)
    ensures TestBit(v, 0) == (v % 2 == 1) && TestBit(v, 1) == (v / 2 % 2 == 1) && TestBit(v, 2) == (v / 4 % 2 == 1)
    ensures TestBit(v, 3) == (v / 8 % 2 == 1) && TestBit(v, 4) == (v / 16 % 2 == 1)
    ensures TestBit(v, 5) == (v / 32 % 2 == 1) && TestBit(v, 6) == (v / 64 % 2 == 1)
    ensures TestBit(v, 7) == (v / 128 % 2 == 1)
  {
    assert v / 4 == v / 2 / 2 && v / 8 == v / 4 / 2 && v / 16 == v / 8 / 2;
    assert v / 32 == v / 16 / 2 && v / 64 == v / 32 / 2 && v / 128 == v / 64 / 2;
    assert TestBit(v, 7) == TestBit(v / 16, 3) && TestBit(v, 6) == TestBit(v / 16, 2);
  }

  lemma FirstDigits(n: nat, i: nat)
    requires n < 3 && i < 8
    ensures TestBit(0x31 + n, i) == MessageBit(8 * n + i)
  {
    LowBits8(0x31 + n);
  }

  lemma MiddleDigits(n: nat, i: nat)
    requires 3 <= n < 6 && i < 8
    ensures TestBit(0x31 + n, i) == MessageBit(8 * n + i)
  {
    LowBits8(0x31 + n);
  }

  lemma LastDigits(n: nat, i: nat)
    requires 6 <= n < 9 && i < 8
    ensures TestBit(0x31 + n, i) == MessageBit(8 * n + i)
  {
    LowBits8(0x31 + n);
  }

  lemma DigitBits(n: nat, i: nat)
    requires n < 9 && i < 8
    ensures DIGITS[n] == 0x31 + n && TestBit(0x31 + n, i) == MessageBit(8 * n + i)
  {
    if n < 3 { FirstDigits(n, i); } else if n < 6 { MiddleDigits(n, i); } else { LastDigits(n, i); }
  }

  lemma DividendBits(i: nat)
    requires i < 104
    ensures |Bits(DIGITS)| == 72 && Dividend(Bits(DIGITS))[i] == ((i < 72 && MessageBit(i)) != (i < 32))
  {
    BitsAt(DIGITS, 0, 0);
    if i < 72 {
      BitsAt(DIGITS, i / 8, i % 8);
      DigitBits(i / 8, i % 8);
    }
  }

  lemma DigitsDivided()
    ensures Divides(Bits(DIGITS), Generator(), Quotient(), Remainder())
  {
    var d, p := Dividend(Bits(DIGITS)),
      Sum(Product(Quotient(), Generator()), Zeros(72) + Remainder());
    DividendBits(0);
    forall i: nat | i < 104
      ensures d[i] == p[i]
    {
      DividendBits(i);
      QuotientTerms(i);
      if i < 52 { FirstMatch(i); } else { LastMatch(i); }
      ProductAt(Quotient(), i);
    }
  }

  // ----- the value

  lemma ValueByte(k: nat, b: byte, i: nat)
    requires k < 4 && i < 8 && b == if k == 0 then 0x26 else if k == 1 then 0x39 else if k == 2 then 0xF4 else 0xCB
    ensures TestBit(b, i) == !RemainderBit(8 * k + i)
  {
    LowBits8(b);
  }

  lemma ValueBits(i: nat)
    requires i < 32
    ensures TestBit(0xCBF4_3926, i) == !RemainderBit(i)
  {
    var bs := Put32(0xCBF4_3926);
    assert bs == [0x26, 0x39, 0xF4, 0xCB];
    Put32Bit(0xCBF4_3926, i / 8, i % 8);
    ValueByte(i / 8, bs[i / 8], i % 8);
  }

  /** The checksum of the characters from '1' to '9' is 0xCBF43926. */
  lemma CheckValue()
    ensures Number(Checksum(DIGITS)) == 0xCBF4_3926
  {
    var c := Checksum(DIGITS);
    var q := ChecksumIsRemainder(DIGITS);
    DigitsDivided();
    RemainderUnique(Bits(DIGITS), Generator(), q, Xor(c, Ones()), Quotient(), Remainder());
    NumberBelow(c);
    TwoTo32();
    forall i: nat | i < 32
      ensures BitsOf(Number(c))[i] == BitsOf(0xCBF4_3926)[i]
    {
      NumberBit(c, i);
      ValueBits(i);
      assert Xor(c, Ones())[i] == Remainder()[i];
    }
    BitsOfInjective(Number(c), 0xCBF4_3926);
  }
}
