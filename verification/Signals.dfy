/**
 Reading one slot's equation off a cycle: what a slot sees of a variable, and what a
 momentary virtual input, a counter and a condition make of it.
 */
module Signals {
  import opened Blocks
  import opened Engine
  import opened Dataflow

  /** Only CAN inputs change before the slots run. */
  lemma SeenAs(p: Plan, s: State, t: Tick, k: nat, y: int)
    requires WellFormed(p, s) && k <= |p.places| && 0 <= y < p.size
    ensures p.owners[y] < k ==> Seen(p, s, t, Step(p, s, t), k, y) == Step(p, s, t).vars[y]
    ensures p.owners[y] >= k && (p.owners[y] < |p.places| ==> !p.places[p.owners[y]].slot.CanInSlot?) ==>
      Seen(p, s, t, Step(p, s, t), k, y) == s.vars[y]
  {
    if p.owners[y] < |p.places| { VarOfCell(p, s, y); }
  }

  ghost predicate IsMomentaryVirt(p: Plan, s: State, k: nat)
    requires WellFormed(p, s)
  {
    && k < |p.places| && p.rule == Act
    && p.places[k].slot.VirtSlot? && p.places[k].slot.enabled && p.places[k].slot.mode == MODE_MOMENTARY
    && s.mem[k].latch.out == s.mem[k].latch.last
  }

  /** A momentary virtual input is its logic, nothing more. */
  lemma MomentaryVirt(p: Plan, s: State, t: Tick, k: nat)
    requires WellFormed(p, s) && IsMomentaryVirt(p, s, k)
    ensures var n := Step(p, s, t);
      var b := VirtTerm(p.places[k].slot, SeenInputs(p, s, t, n, k));
      n.mem[k] == VirtMem(Latch(b, b)) && n.vars[p.places[k].base] == FromBool(b)
  {
    var n := Step(p, s, t);
    StepSatisfies(p, s, t);
    assert SlotEquation(p, s, t, n, k);
    assert CellAt(p, n, k).vals[0] == n.vars[p.places[k].base];
  }

  /** A two-term virtual input without its third term. */
  lemma TwoTerms(s: VirtCfg, ins: seq<real>)
    requires s.enabled && s.var2 == 0 && |ins| == |Reads(s)|
    ensures VirtTerm(s, ins) == Combine(s.cond0, Truthy(ins[0]) != s.not0, Truthy(ins[1]) != s.not1)
  {
  }

  lemma ConditionStep(p: Plan, s: State, t: Tick, k: nat)
    requires WellFormed(p, s) && k < |p.places| && p.rule == Act
    requires p.places[k].slot.ConditionSlot? && p.places[k].slot.enabled
    ensures var n := Step(p, s, t);
      n.vars[p.places[k].base] == ConditionValue(p.places[k].slot, SeenInputs(p, s, t, n, k)[0])
  {
    var n := Step(p, s, t);
    StepSatisfies(p, s, t);
    assert SlotEquation(p, s, t, n, k);
    assert CellAt(p, n, k).vals[0] == n.vars[p.places[k].base];
  }

  lemma CounterStep(p: Plan, s: State, t: Tick, k: nat)
    requires WellFormed(p, s) && k < |p.places| && p.rule == Act && p.places[k].slot.CounterSlot?
    ensures var n := Step(p, s, t);
      Cell(n.mem[k], [n.vars[p.places[k].base]])
        == CounterFire(p.places[k].slot, Cell(s.mem[k], [s.vars[p.places[k].base]]), SeenInputs(p, s, t, n, k), s.time)
  {
    var n := Step(p, s, t);
    StepSatisfies(p, s, t);
    assert SlotEquation(p, s, t, n, k);
    assert CellAt(p, n, k) == Cell(n.mem[k], [n.vars[p.places[k].base]]);
    assert CellAt(p, s, k) == Cell(s.mem[k], [s.vars[p.places[k].base]]);
  }

  lemma OutputStep(p: Plan, s: State, t: Tick, k: nat)
    requires WellFormed(p, s) && k < |p.places| && p.rule == Act
    requires p.places[k].slot.OutputSlot? && p.places[k].slot.enabled
    ensures var n := Step(p, s, t);
      n.vars[p.places[k].base] == FromBool(Truthy(SeenInputs(p, s, t, n, k)[0]))
  {
    var n := Step(p, s, t);
    StepSatisfies(p, s, t);
    assert SlotEquation(p, s, t, n, k);
    assert CellAt(p, n, k).vals[0] == n.vars[p.places[k].base];
  }

  /** Variables nobody writes never change. */
  lemma ConstantStep(p: Plan, s: State, t: Tick, y: int)
    requires WellFormed(p, s) && 0 <= y < p.size && p.owners[y] == |p.places|
    ensures Step(p, s, t).vars[y] == s.vars[y]
  {
    StepSatisfies(p, s, t);
  }

  /** An enabled output is 1 while the input it sees is not zero, and 0 otherwise; its
      other three variables are always 0. */
  lemma OutputShows(p: Plan, s: State, t: Tick, k: nat, x: real, y: int, v: real)
    requires WellFormed(p, s) && k < |p.places| && p.rule == Act
    requires p.places[k].slot.OutputSlot? && p.places[k].slot.enabled
    requires x == SeenInputs(p, s, t, Step(p, s, t), k)[0]
    requires 0 <= y < p.size && p.owners[y] == k && v == Step(p, s, t).vars[y]
    ensures v == if y == p.places[k].base && x != 0.0 then 1.0 else 0.0
  {
    var n := Step(p, s, t);
    StepSatisfies(p, s, t);
    assert SlotEquation(p, s, t, n, k);
    VarOfCell(p, n, y);
  }

  /** An enabled CAN output samples the input it sees; a disabled one keeps its sample. */
  lemma CanOutSamples(p: Plan, s: State, t: Tick, k: nat)
    requires WellFormed(p, s) && k < |p.places| && p.rule == Act && p.places[k].slot.CanOutSlot?
    ensures var n := Step(p, s, t);
      n.mem[k].sample == if p.places[k].slot.enabled then SeenInputs(p, s, t, n, k)[0] else s.mem[k].sample
  {
    var n := Step(p, s, t);
    StepSatisfies(p, s, t);
    assert SlotEquation(p, s, t, n, k);
    assert CellAt(p, n, k).mem == n.mem[k];
  }

  /** Every variable of a disabled slot is 0 after a cycle, unless the slot is a CAN input:
      that one is left as it was. */
  lemma DisabledShows(p: Plan, s: State, t: Tick, k: nat, y: int)
    requires WellFormed(p, s) && k < |p.places| && p.rule == Act && !p.places[k].slot.enabled
    requires 0 <= y < p.size && p.owners[y] == k
    ensures Step(p, s, t).vars[y] == if p.places[k].slot.CanInSlot? then s.vars[y] else 0.0
  {
    var n := Step(p, s, t);
    StepSatisfies(p, s, t);
    assert SlotEquation(p, s, t, n, k);
    VarOfCell(p, n, y);
    VarOfCell(p, s, y);
    if p.places[k].slot.CanInSlot? { DisabledHearsNothing(p.places[k].slot, CellAt(p, s, k), t.rx, t.extIde, s.time); }
  }

  lemma {:induction false} DisabledHearsNothing(s: CanInCfg, c: Cell, rx: seq<Frame>, extIde: int, now: int)
    requires !s.enabled && Fits(s, c)
    ensures ReceiveAll(s, c, rx, extIde, now) == c
  {
    if |rx| > 0 { DisabledHearsNothing(s, c, rx[..|rx| - 1], extIde, now); }
  }
}
