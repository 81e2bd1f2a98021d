/**
 What the comparison operators mean: for a condition after a cycle, and for a received
 value against its operand. Bitwise operators work on the integers left when the
 fractions are cut off.
 */
module Conditions {
  import opened PyInt
  import opened Blocks
  import opened Engine
  import opened Dataflow
  import opened Signals

  ghost predicate IsCondition(p: Plan, k: nat, s: Slot) {
    k < |p.places| && p.rule == Act && s == p.places[k].slot && s.ConditionSlot? && s.enabled
  }

  /** An enabled condition that sees x is, after the cycle, 1 or 0, and 1 exactly when x is
      equal to, different from, greater than, less than, at least or at most its argument
      (operators 0 to 5). An operator beyond 7, or a negative one, never holds. */
  lemma ConditionMeans(p: Plan, s: State, t: Tick, k: nat, cfg: ConditionCfg, x: real, v: real)
    requires WellFormed(p, s) && IsCondition(p, k, cfg)
    requires x == SeenInputs(p, s, t, Step(p, s, t), k)[0] && v == Step(p, s, t).vars[p.places[k].base]
    requires cfg.operator != 6 && cfg.operator != 7
    ensures v == 1.0 || v == 0.0
    ensures cfg.operator == 0 ==> (v == 1.0 <==> x == cfg.arg)
    ensures cfg.operator == 1 ==> (v == 1.0 <==> x != cfg.arg)
    ensures cfg.operator == 2 ==> (v == 1.0 <==> x > cfg.arg)
    ensures cfg.operator == 3 ==> (v == 1.0 <==> x < cfg.arg)
    ensures cfg.operator == 4 ==> (v == 1.0 <==> x >= cfg.arg)
    ensures cfg.operator == 5 ==> (v == 1.0 <==> x <= cfg.arg)
    ensures cfg.operator < 0 || cfg.operator > 7 ==> v == 0.0
  {
    ConditionStep(p, s, t, k);
  }

  /** Operator 6 of a condition shows the low sixteen bits that both numbers have, as a
      number; operator 7 shows the 32-bit complement of that, which is never zero. */
  lemma ConditionBits(p: Plan, s: State, t: Tick, k: nat, cfg: ConditionCfg, x: real, i: int, a: int, v: real)
    requires WellFormed(p, s) && IsCondition(p, k, cfg)
    requires x == SeenInputs(p, s, t, Step(p, s, t), k)[0] && v == Step(p, s, t).vars[p.places[k].base]
    requires TowardsZero(x, i) && TowardsZero(cfg.arg, a)
    ensures cfg.operator == 6 ==> v == v.Floor as real
    ensures cfg.operator == 6 ==>
      forall j: nat :: TestBit(v.Floor, j) <==> j < 16 && TestBit(i, j) && TestBit(a, j)
    ensures cfg.operator == 7 ==> v != 0.0 && v == v.Floor as real
    ensures cfg.operator == 7 ==>
      forall j: nat :: TestBit(v.Floor, j) <==> j < 32 && !(j < 16 && TestBit(i, j) && TestBit(a, j))
  {
    ConditionStep(p, s, t, k);
    TruncTowardsZero(x, i);
    TruncTowardsZero(cfg.arg, a);
    CommonBits(i, a);
    Complement(And(And(i, a), 0xFFFF));
  }

  lemma CommonBits(i: int, a: int)
    ensures 0 <= And(And(i, a), 0xFFFF) < 0x1_0000
    ensures forall j: nat :: TestBit(And(And(i, a), 0xFFFF), j) <==> j < 16 && TestBit(i, j) && TestBit(a, j)
  {
    AndMask(And(i, a), 16);
    assert Shl(1, 16) == 0x1_0000 by { assert Shl(1, 12) == 0x1000; }
    forall j: nat
      ensures TestBit(And(And(i, a), 0xFFFF), j) <==> j < 16 && TestBit(i, j) && TestBit(a, j)
    {
      AndBit(And(i, a), 0xFFFF, j);
      AndBit(i, a, j);
      MaskBit(16, j);
    }
  }

  lemma Complement(both: int)
    requires 0 <= both < 0x1_0000
    ensures And(Not(both), 0xFFFF_FFFF) > 0
    ensures forall j: nat :: TestBit(And(Not(both), 0xFFFF_FFFF), j) <==> j < 32 && !TestBit(both, j)
  {
    AndMask(Not(both), 32);
    assert Shl(1, 32) == 0x1_0000_0000 by {
      assert Shl(1, 12) == 0x1000 && Shl(1, 24) == 0x100_0000;
    }
    forall j: nat
      ensures TestBit(And(Not(both), 0xFFFF_FFFF), j) <==> j < 32 && !TestBit(both, j)
    {
      AndBit(Not(both), 0xFFFF_FFFF, j);
      NotBit(both, j);
      MaskBit(32, j);
    }
  }

  // ----- CAN inputs

  /** Two numbers have a one in the same place, and are not both negative. */
  ghost predicate Overlap(i: int, a: int) {
    (i >= 0 || a >= 0) && exists j: nat :: TestBit(i, j) && TestBit(a, j)
  }

  /** Does the received value x pass against the operand y? */
  ghost predicate Passes(operator: int, x: real, y: real) {
    || (operator == 0 && x == y)
    || (operator == 1 && x != y)
    || (operator == 2 && x > y)
    || (operator == 3 && x < y)
    || (operator == 4 && x >= y)
    || (operator == 5 && x <= y)
    || (operator == 6 && Overlap(Trunc(x), Trunc(y)))
    || (operator == 7 && !Overlap(Trunc(x), Trunc(y)))
  }

  lemma {:induction false} AndSign(i: int, a: int)
    ensures And(i, a) < 0 <==> i < 0 && a < 0
    decreases if i < 0 then -i else i
  {
    if i != 0 && a != 0 && i != -1 { AndSign(i / 2, a / 2); }
  }

  lemma {:induction false} SomeBit(x: int) returns (j: nat)
    requires x != 0
    ensures TestBit(x, j)
    decreases if x < 0 then -x else x
  {
    if x % 2 == 1 {
      j := 0;
    } else {
      j := SomeBit(x / 2);
      j := j + 1;
    }
  }

  lemma AndPositive(i: int, a: int)
    ensures And(i, a) > 0 <==> Overlap(i, a)
  {
    AndSign(i, a);
    if And(i, a) > 0 {
      var j := SomeBit(And(i, a));
      AndBit(i, a, j);
    } else if Overlap(i, a) {
      var j: nat :| TestBit(i, j) && TestBit(a, j);
      AndBit(i, a, j);
      ZeroBits(j);
    }
  }

  lemma ComparisonPasses(operator: int, x: real, y: real)
    ensures Compare(operator, x, y, true) <==> Passes(operator, x, y)
  {
    AndPositive(Trunc(x), Trunc(y));
  }
}
