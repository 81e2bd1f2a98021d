/**
 Bit operations on unbounded integers, with the two's-complement reading of
 negative numbers that the simulator's source language gives them. Every
 operation recurses on halves, so that its meaning is its effect on TestBit.
 */
module PyInt {

  type byte = x: int | 0 <= x < 256

  /** Bit p of x; negative numbers have infinitely many leading ones. */
  predicate TestBit(x: int, p: nat)
    decreases p
  {
    if p == 0 then x % 2 == 1 else TestBit(x / 2, p - 1)
  }

  function Not(x: int): int { -x - 1 }

  function And(x: int, y: int): int
    decreases if x < 0 then -x else x
  {
    if x == 0 || y == 0 then 0
    else if x == -1 then y
    else 2 * And(x / 2, y / 2) + (if x % 2 == 1 && y % 2 == 1 then 1 else 0)
  }

  function Or(x: int, y: int): int { Not(And(Not(x), Not(y))) }

  function Shl(x: int, s: nat): int
    decreases s
  {
    if s == 0 then x else 2 * Shl(x, s - 1)
  }

  function Shr(x: int, s: nat): int
    decreases s
  {
    if s == 0 then x else Shr(x / 2, s - 1)
  }

  /** int(r): truncation towards zero. */
  function Trunc(r: real): int { if r >= 0.0 then r.Floor else -((-r).Floor) }

  /** n is q with its fraction dropped: never further from zero than q, and less than one
      away from it. */
  predicate TowardsZero(q: real, n: int) {
    && (q >= 0.0 ==> 0 <= n && n as real <= q < n as real + 1.0)
    && (q <= 0.0 ==> n <= 0 && n as real - 1.0 < q <= n as real)
  }

  /** Every number has exactly one such integer. */
  lemma TruncTowardsZero(q: real, n: int)
    ensures TowardsZero(q, n) <==> n == Trunc(q)
  {
  }

  lemma {:induction false} ZeroBits(p: nat)
    ensures !TestBit(0, p) && TestBit(-1, p)
  {
    if p > 0 { ZeroBits(p - 1); }
  }

  lemma {:induction false} NotBit(x: int, p: nat)
    ensures TestBit(Not(x), p) == !TestBit(x, p)
    decreases p
  {
    if p > 0 {
      assert Not(x) / 2 == Not(x / 2);
      NotBit(x / 2, p - 1);
    }
  }

  lemma {:induction false} AndBit(x: int, y: int, p: nat)
    ensures TestBit(And(x, y), p) == (TestBit(x, p) && TestBit(y, p))
    decreases p
  {
    ZeroBits(p);
    if x != 0 && y != 0 && x != -1 && p > 0 {
      AndBit(x / 2, y / 2, p - 1);
    }
  }

  lemma {:induction false} OrBit(x: int, y: int, p: nat)
    ensures TestBit(Or(x, y), p) == (TestBit(x, p) || TestBit(y, p))
  {
    AndBit(Not(x), Not(y), p);
    NotBit(x, p);
    NotBit(y, p);
    NotBit(And(Not(x), Not(y)), p);
  }

  lemma {:induction false} ShlBit(x: int, s: nat, p: nat)
    ensures TestBit(Shl(x, s), p) == (p >= s && TestBit(x, p - s))
  {
    if s > 0 && p > 0 { ShlBit(x, s - 1, p - 1); }
  }

  lemma {:induction false} ShrBit(x: int, s: nat, p: nat)
    ensures TestBit(Shr(x, s), p) == TestBit(x, p + s)
    decreases s
  {
    if s > 0 { ShrBit(x / 2, s - 1, p); }
  }

  /** (1 << n) - 1 is n ones. */
  lemma {:induction false} MaskBit(n: nat, p: nat)
    ensures TestBit(Shl(1, n) - 1, p) == (p < n)
  {
    if n == 0 {
      ZeroBits(p);
    } else if p > 0 {
      assert (Shl(1, n) - 1) / 2 == Shl(1, n - 1) - 1;
      MaskBit(n - 1, p - 1);
    }
  }

  lemma {:induction false} ShlPositive(n: nat)
    ensures Shl(1, n) > 0
  {
    if n > 0 { ShlPositive(n - 1); }
  }

  /** A number below 2^n has no bit from n upwards. */
  lemma {:induction false} HighBits(x: nat, n: nat, p: nat)
    requires x < Shl(1, n) && n <= p
    ensures !TestBit(x, p)
    decreases p
  {
    if n == 0 {
      ZeroBits(p);
    } else {
      HighBits(x / 2, n - 1, p - 1);
    }
  }

  /** Numbers below 2^n are equal when their n low bits are. */
  lemma {:induction false} SameBits(x: nat, y: nat, n: nat)
    requires x < Shl(1, n) && y < Shl(1, n)
    requires forall p: nat | p < n :: TestBit(x, p) == TestBit(y, p)
    ensures x == y
    decreases n
  {
    if n > 0 {
      assert TestBit(x, 0) == TestBit(y, 0);
      forall p: nat | p < n - 1
        ensures TestBit(x / 2, p) == TestBit(y / 2, p)
      {
        assert TestBit(x, p + 1) == TestBit(y, p + 1);
      }
      SameBits(x / 2, y / 2, n - 1);
    }
  }

  /** x & (2^n - 1) is the remainder modulo 2^n, also for negative x. */
  lemma {:induction false} AndMask(x: int, n: nat)
    ensures Shl(1, n) > 0 && And(x, Shl(1, n) - 1) == x % Shl(1, n)
    decreases n
  {
    ShlPositive(n);
    var m := Shl(1, n);
    if x == 0 {
    } else if n == 0 {
    } else {
      AndMask(x / 2, n - 1);
      var h := Shl(1, n - 1);
      assert m == 2 * h && (m - 1) / 2 == h - 1;
      DivModTwice(x, h);
      if x == -1 {
        assert (-1) / 2 == -1;
        ModMinusOne(m);
      } else if m - 1 == 0 {
      }
    }
  }

  lemma ModMinusOne(m: int)
    requires m > 0
    ensures (-1) % m == m - 1
  {
    var q := (-1) / m;
    assert -1 == m * q + (-1) % m;
    assert q == -1;
  }

  lemma DivModTwice(x: int, h: int)
    requires h > 0
    ensures x % (2 * h) == 2 * ((x / 2) % h) + x % 2
  {
    var q := (x / 2) / h;
    var r := (x / 2) % h;
    assert x / 2 == h * q + r;
    assert x == 2 * (x / 2) + x % 2;
    assert x == (2 * h) * q + (2 * r + x % 2);
    ModUnique(x, 2 * h, q, 2 * r + x % 2);
  }

  lemma ModUnique(x: int, m: int, q: int, r: int)
    requires m > 0 && 0 <= r < m && x == m * q + r
    ensures x % m == r && x / m == q
  {
    var d := x / m - q;
    assert x == m * (x / m) + x % m;
    assert m * d == r - x % m by {
      assert m * d == m * (x / m) - m * q;
    }
    assert d == 0;
  }
}
