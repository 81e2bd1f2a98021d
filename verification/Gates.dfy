/**
 Virtual inputs over whole runs: two or three terms, each a variable's truth or its
 negation, combined by AND, OR or NAND, and shown through a latch.
 */
module Gates {
  import opened Blocks
  import opened Engine
  import opened Latches
  import opened Timing

  /** Selection 0 is AND and 1 is OR; everything else is NAND. */
  predicate Gate(cond: int, a: bool, b: bool) {
    || (cond == 0 && a && b)
    || (cond == 1 && (a || b))
    || (cond != 0 && cond != 1 && !(a && b))
  }

  /** A term: the variable is not zero, or, negated, it is. */
  predicate Term(negate: bool, x: real) { if negate then x == 0.0 else x != 0.0 }

  /** The logic of a virtual input on the values x, y and z of its variables. The third
      variable counts unless it is number 0. */
  predicate Logic(s: VirtCfg, x: real, y: real, z: real) {
    var first := Gate(s.cond0, Term(s.not0, x), Term(s.not1, y));
    (s.var2 == 0 && first) || (s.var2 != 0 && Gate(s.cond1, first, Term(s.not2, z)))
  }

  lemma TermIsLogic(s: VirtCfg, ins: seq<real>)
    requires s.enabled && |ins| == |Reads(s)|
    ensures VirtTerm(s, ins) == Logic(s, ins[0], ins[1], if s.var2 == 0 then 0.0 else ins[2])
  {
  }

  ghost predicate IsVirt(p: Plan, k: nat, s: Slot) {
    k < |p.places| && p.rule == Act && s == p.places[k].slot && s.VirtSlot? && s.enabled
  }

  /** The logic of a virtual input in cycle n, on the values it sees there. */
  predicate LogicIn(p: Plan, ticks: seq<Tick>, k: nat, s: VirtCfg, n: nat)
    requires p.Valid() && n < |ticks| && k < |p.places| && s == p.places[k].slot && s.enabled
  {
    var ins := InputsIn(p, ticks, n, k);
    Logic(s, ins[0], ins[1], if s.var2 == 0 then 0.0 else ins[2])
  }

  /** The logic in each of the first n cycles. */
  function LogicUpTo(p: Plan, ticks: seq<Tick>, k: nat, s: VirtCfg, n: nat): (levels: seq<bool>)
    requires p.Valid() && n <= |ticks| && k < |p.places| && s == p.places[k].slot && s.enabled
    ensures |levels| == n
  {
    if n == 0 then [] else LogicUpTo(p, ticks, k, s, n - 1) + [LogicIn(p, ticks, k, s, n - 1)]
  }

  lemma {:induction false} VirtLatched(p: Plan, ticks: seq<Tick>, k: nat, s: VirtCfg, n: nat)
    requires p.Valid() && IsVirt(p, k, s) && n <= |ticks|
    ensures CellAfter(p, ticks, n, k).mem == VirtMem(Latched(s.mode, false, LogicUpTo(p, ticks, k, s, n)))
    ensures n > 0 ==>
      CellAfter(p, ticks, n, k).vals[0] == FromBool(Latched(s.mode, false, LogicUpTo(p, ticks, k, s, n)).out)
  {
    if n == 0 {
      assert ticks[..0] == [];
    } else {
      VirtLatched(p, ticks, k, s, n - 1);
      VirtTurn(p, ticks, k, s, n - 1, LogicUpTo(p, ticks, k, s, n - 1));
    }
  }

  lemma VirtTurn(p: Plan, ticks: seq<Tick>, k: nat, s: VirtCfg, n: nat, levels: seq<bool>)
    requires p.Valid() && IsVirt(p, k, s) && n < |ticks|
    requires CellAfter(p, ticks, n, k).mem == VirtMem(Latched(s.mode, false, levels))
    ensures var l := Latched(s.mode, false, levels + [LogicIn(p, ticks, k, s, n)]);
      CellAfter(p, ticks, n + 1, k) == Cell(VirtMem(l), [FromBool(l.out)])
  {
    CellNext(p, ticks, n, k);
    TermIsLogic(s, InputsIn(p, ticks, n, k));
    LatchedMore(s.mode, false, levels, LogicIn(p, ticks, k, s, n));
  }

  /** After every cycle of every run an enabled virtual input is 1 or 0: momentary, 1
      exactly when its logic holds; latching, exactly when its logic has come true an odd
      number of times. */
  lemma VirtShows(p: Plan, ticks: seq<Tick>, k: nat, s: VirtCfg, n: nat, levels: seq<bool>, v: real)
    requires p.Valid() && IsVirt(p, k, s) && 0 < n <= |ticks|
    requires levels == LogicUpTo(p, ticks, k, s, n) && v == CellAfter(p, ticks, n, k).vals[0]
    ensures v == 1.0 || v == 0.0
    ensures s.mode == 0 ==> (v == 1.0 <==> LogicIn(p, ticks, k, s, n - 1))
    ensures s.mode == 1 ==> (v == 1.0 <==> Presses(false, levels) % 2 == 1)
    ensures s.mode != 0 && s.mode != 1 ==> v == 0.0
  {
    VirtLatched(p, ticks, k, s, n);
    LatchShows(s.mode, false, levels);
  }
}
