/**
 The cycle as synchronous dataflow. The engine runs its slots one after another on a
 shared vector; here the same cycle is a system of equations, one per slot, in which
 a slot sees this cycle's value of every variable whose writer runs before it and the
 start-of-cycle value of every other. Received CAN frames belong to the start of the
 cycle, the timeout of a CAN input to its own position: the outputs and the digital
 inputs see a CAN input before its timeout, everything later sees it after.
 */
module Dataflow {
  import opened Blocks
  import opened Engine

  /** The cell of position k when the slots start to run. */
  function StartCell(p: Plan, s: State, t: Tick, k: nat): (c: Cell)
    requires WellFormed(p, s) && k < |p.places|
    ensures Fits(p.places[k].slot, c)
  {
    if p.places[k].slot.CanInSlot?
    then ReceiveAll(p.places[k].slot, CellAt(p, s, k), t.rx, t.extIde, s.time)
    else CellAt(p, s, k)
  }

  /** The value of variable y when the slots start to run. */
  function StartVar(p: Plan, s: State, t: Tick, y: int): real
    requires WellFormed(p, s) && 0 <= y < p.size
  {
    var k := p.owners[y];
    if k == |p.places| then s.vars[y]
    else
      assert p.Owns(k, y);
      StartCell(p, s, t, k).vals[y - p.places[k].base]
  }

  /** The value of y that position k sees in the cycle from s to n. */
  function Seen(p: Plan, s: State, t: Tick, n: State, k: nat, y: int): real
    requires WellFormed(p, s) && WellFormed(p, n) && 0 <= y < p.size
  {
    if p.owners[y] < k then n.vars[y] else StartVar(p, s, t, y)
  }

  function SeenInputs(p: Plan, s: State, t: Tick, n: State, k: nat): (r: seq<real>)
    requires WellFormed(p, s) && WellFormed(p, n) && k < |p.places|
    ensures |r| == |Reads(p.places[k].slot)|
  {
    var rs := Reads(p.places[k].slot);
    seq(|rs|, j requires 0 <= j < |rs| => Seen(p, s, t, n, k, rs[j]))
  }

  ghost predicate SlotEquation(p: Plan, s: State, t: Tick, n: State, k: nat)
    requires WellFormed(p, s) && WellFormed(p, n) && k < |p.places|
  {
    CellAt(p, n, k)
      == p.rule(p.places[k].slot, StartCell(p, s, t, k), SeenInputs(p, s, t, n, k), s.time,
              PinLevel(t, p.places[k].number))
  }

  /** n is the state after s under the dataflow reading. */
  ghost predicate Equations(p: Plan, s: State, t: Tick, n: State)
    requires WellFormed(p, s)
  {
    && WellFormed(p, n)
    && n.time == s.time + CYCLE_MS
    && (forall y | 0 <= y < p.size && p.owners[y] == |p.places| :: n.vars[y] == s.vars[y])
    && (forall k | 0 <= k < |p.places| :: SlotEquation(p, s, t, n, k))
  }

  // ----- what one in-place update does

  lemma VarOfCell(p: Plan, s: State, y: int)
    requires WellFormed(p, s) && 0 <= y < p.size && p.owners[y] < |p.places|
    ensures p.Owns(p.owners[y], y)
    ensures s.vars[y] == CellAt(p, s, p.owners[y]).vals[y - p.places[p.owners[y]].base]
  {
  }

  /** A variable is seen in its owner's cell, this cycle's or the start's. */
  lemma SeenInCell(p: Plan, s: State, t: Tick, n: State, k: nat, y: int)
    requires WellFormed(p, s) && WellFormed(p, n) && 0 <= y < p.size && k <= |p.places|
    ensures p.owners[y] == |p.places| ==> Seen(p, s, t, n, k, y) == s.vars[y]
    ensures p.owners[y] < |p.places| ==>
      p.Owns(p.owners[y], y) && Seen(p, s, t, n, k, y) ==
        (if p.owners[y] < k then CellAt(p, n, p.owners[y]) else StartCell(p, s, t, p.owners[y]))
          .vals[y - p.places[p.owners[y]].base]
  {
    if p.owners[y] < k { VarOfCell(p, n, y); }
  }

  /** States that agree on the variables of a slot and on its memory agree on its cell. */
  lemma SameCell(p: Plan, s: State, n: State, k: nat)
    requires WellFormed(p, s) && WellFormed(p, n) && k < |p.places| && s.mem[k] == n.mem[k]
    requires forall y | 0 <= y < p.size && p.owners[y] == k :: s.vars[y] == n.vars[y]
    ensures CellAt(p, s, k) == CellAt(p, n, k)
  {
    forall y | p.places[k].base <= y < p.places[k].base + Width(p.places[k].slot)
      ensures s.vars[y] == n.vars[y]
    {
      assert p.Owns(k, y);
    }
  }

  lemma PutCellEffect(p: Plan, s: State, k: nat, c: Cell)
    requires WellFormed(p, s) && k < |p.places| && Fits(p.places[k].slot, c)
    ensures CellAt(p, PutCell(p, s, k, c), k) == c
    ensures forall y | 0 <= y < p.size && p.owners[y] != k :: PutCell(p, s, k, c).vars[y] == s.vars[y]
    ensures forall i | 0 <= i < |p.places| && i != k :: CellAt(p, PutCell(p, s, k, c), i) == CellAt(p, s, i)
  {
    var r := PutCell(p, s, k, c);
    assert CellAt(p, r, k).vals == c.vals;
    forall y | 0 <= y < p.size && p.owners[y] != k
      ensures r.vars[y] == s.vars[y]
    {
      assert !p.Owns(k, y);
    }
    forall i | 0 <= i < |p.places| && i != k
      ensures CellAt(p, r, i) == CellAt(p, s, i)
    {
      SameCell(p, r, s, i);
    }
  }

  lemma RunSlotEffect(p: Plan, s: State, t: Tick, k: nat)
    requires WellFormed(p, s) && k < |p.places|
    ensures CellAt(p, RunSlot(p, s, t, k), k)
      == p.rule(p.places[k].slot, CellAt(p, s, k), Values(s.vars, Reads(p.places[k].slot)), s.time,
              PinLevel(t, p.places[k].number))
    ensures forall y | 0 <= y < p.size && p.owners[y] != k :: RunSlot(p, s, t, k).vars[y] == s.vars[y]
    ensures forall i | 0 <= i < |p.places| && i != k :: CellAt(p, RunSlot(p, s, t, k), i) == CellAt(p, s, i)
  {
    PutCellEffect(p, s, k,
      p.rule(p.places[k].slot, CellAt(p, s, k), Values(s.vars, Reads(p.places[k].slot)), s.time,
           PinLevel(t, p.places[k].number)));
  }

  // ----- reception, slot by slot

  lemma DeliverOne(p: Plan, s: State, t: Tick, k: nat, r: State)
    requires WellFormed(p, s) && k < |p.places| && r == DeliverTo(p, s, t, k)
    ensures forall i | 0 <= i < |p.places| :: CellAt(p, r, i) == if i == k then StartCell(p, s, t, k)
        else CellAt(p, s, i)
    ensures forall y | 0 <= y < p.size && p.owners[y] == |p.places| :: r.vars[y] == s.vars[y]
  {
    if p.places[k].slot.CanInSlot? {
      PutCellEffect(p, s, k, StartCell(p, s, t, k));
    }
  }

  lemma {:induction false} DeliverEffect(p: Plan, s: State, t: Tick, k: nat)
    requires WellFormed(p, s) && k <= |p.places|
    ensures forall i | 0 <= i < |p.places| ::
      CellAt(p, DeliverFrom(p, s, t, k), i) == if k <= i then StartCell(p, s, t, i) else CellAt(p, s, i)
    ensures forall y | 0 <= y < p.size && p.owners[y] == |p.places| :: DeliverFrom(p, s, t, k).vars[y] == s.vars[y]
    decreases |p.places| - k
  {
    if k < |p.places| {
      var r := DeliverTo(p, s, t, k);
      DeliverOne(p, s, t, k, r);
      DeliverEffect(p, r, t, k + 1);
      forall i | 0 <= i < |p.places|
        ensures CellAt(p, DeliverFrom(p, s, t, k), i) == if k <= i then StartCell(p, s, t, i) else CellAt(p, s, i)
      {
        assert k + 1 <= i ==> StartCell(p, r, t, i) == StartCell(p, s, t, i);
      }
    }
  }

  lemma DeliveredVars(p: Plan, s: State, t: Tick)
    requires WellFormed(p, s)
    ensures forall y | 0 <= y < p.size :: DeliverFrom(p, s, t, 0).vars[y] == StartVar(p, s, t, y)
  {
    DeliverEffect(p, s, t, 0);
    forall y | 0 <= y < p.size
      ensures DeliverFrom(p, s, t, 0).vars[y] == StartVar(p, s, t, y)
    {
      if p.owners[y] < |p.places| { VarOfCell(p, DeliverFrom(p, s, t, 0), y); }
    }
  }

  // ----- the slots, one after another

  /** The first k positions have run. */
  ghost function RunTo(p: Plan, s: State, t: Tick, k: nat): (r: State)
    requires WellFormed(p, s) && k <= |p.places|
    ensures WellFormed(p, r) && r.time == s.time
  {
    if k == 0 then s else RunSlot(p, RunTo(p, s, t, k - 1), t, k - 1)
  }

  lemma RunFromStep(p: Plan, s: State, t: Tick, k: nat, next: nat)
    requires WellFormed(p, s) && k < |p.places| && next == k + 1
    ensures RunFrom(p, s, t, k) == RunFrom(p, RunSlot(p, s, t, k), t, next)
  {
  }

  lemma {:induction false} RunRest(p: Plan, s: State, t: Tick, k: nat)
    requires WellFormed(p, s) && k <= |p.places|
    ensures RunFrom(p, RunTo(p, s, t, k), t, k) == RunFrom(p, s, t, 0)
  {
    if k > 0 {
      RunRest(p, s, t, k - 1);
      RunFromStep(p, RunTo(p, s, t, k - 1), t, k - 1, k);
    }
  }

  /** The states between the slots. */
  ghost function Trace(p: Plan, s: State, t: Tick): (tr: seq<State>)
    requires WellFormed(p, s)
    ensures |tr| == |p.places| + 1 && tr[0] == s
  {
    seq(|p.places| + 1, k requires 0 <= k <= |p.places| => RunTo(p, s, t, k))
  }

  lemma TraceStep(p: Plan, s: State, t: Tick, k: nat)
    requires WellFormed(p, s) && k < |p.places|
    ensures WellFormed(p, Trace(p, s, t)[k]) && Trace(p, s, t)[k].time == s.time
    ensures Trace(p, s, t)[k + 1] == RunSlot(p, Trace(p, s, t)[k], t, k)
  {
  }

  lemma TraceEnd(p: Plan, s: State, t: Tick)
    requires WellFormed(p, s)
    ensures Trace(p, s, t)[|p.places|] == RunFrom(p, s, t, 0)
  {
    RunRest(p, s, t, |p.places|);
  }

  /** From a to b, nothing changed but the cell of position k. */
  ghost predicate Touches(p: Plan, a: State, b: State, k: nat)
    requires WellFormed(p, a) && WellFormed(p, b)
  {
    && (forall y | 0 <= y < p.size && p.owners[y] != k :: b.vars[y] == a.vars[y])
    && (forall i | 0 <= i < |p.places| && i != k :: CellAt(p, b, i) == CellAt(p, a, i))
  }

  /** A trace in which step i touches position i only. */
  ghost predicate InOrder(p: Plan, tr: seq<State>) {
    && |tr| == |p.places| + 1
    && (forall i | 0 <= i < |tr| :: WellFormed(p, tr[i]))
    && (forall i | 0 <= i < |p.places| :: Touches(p, tr[i], tr[i + 1], i))
  }

  lemma TraceInOrder(p: Plan, s: State, t: Tick)
    requires WellFormed(p, s)
    ensures InOrder(p, Trace(p, s, t)) && Trace(p, s, t)[|p.places|] == RunFrom(p, s, t, 0)
  {
    var tr := Trace(p, s, t);
    TraceEnd(p, s, t);
    assert forall i | 0 <= i < |tr| :: WellFormed(p, tr[i]);
    forall i: nat | i < |p.places|
      ensures Touches(p, tr[i], tr[i + 1], i)
    {
      TraceStep(p, s, t, i);
      RunSlotEffect(p, tr[i], t, i);
    }
  }

  lemma {:induction false} TraceVar(p: Plan, tr: seq<State>, lo: nat, hi: nat, y: int)
    requires p.Valid() && InOrder(p, tr) && lo <= hi < |tr| && 0 <= y < p.size && !(lo <= p.owners[y] < hi)
    ensures tr[hi].vars[y] == tr[lo].vars[y]
  {
    if lo < hi {
      TraceVar(p, tr, lo, hi - 1, y);
      assert Touches(p, tr[hi - 1], tr[hi - 1 + 1], hi - 1);
    }
  }

  lemma {:induction false} TraceCell(p: Plan, tr: seq<State>, lo: nat, hi: nat, i: nat)
    requires InOrder(p, tr) && lo <= hi < |tr| && i < |p.places| && !(lo <= i < hi)
    ensures CellAt(p, tr[hi], i) == CellAt(p, tr[lo], i)
  {
    if lo < hi {
      TraceCell(p, tr, lo, hi - 1, i);
      assert Touches(p, tr[hi - 1], tr[hi - 1 + 1], hi - 1);
    }
  }

  /** Position k runs in a vector that is final below it and untouched from it on. */
  lemma MixedVector(p: Plan, tr: seq<State>, k: nat)
    requires InOrder(p, tr) && k < |p.places|
    ensures forall y | 0 <= y < p.size ::
      tr[k].vars[y] == if p.owners[y] < k then tr[|p.places|].vars[y] else tr[0].vars[y]
  {
    forall y | 0 <= y < p.size
      ensures tr[k].vars[y] == if p.owners[y] < k then tr[|p.places|].vars[y] else tr[0].vars[y]
    {
      if p.owners[y] < k {
        TraceVar(p, tr, k, |p.places|, y);
      } else {
        TraceVar(p, tr, 0, k, y);
      }
    }
  }

  /** The cell position k leaves behind, in terms of the vector it runs in. */
  lemma RunEquation(p: Plan, s: State, t: Tick, k: nat)
    requires WellFormed(p, s) && k < |p.places|
    ensures InOrder(p, Trace(p, s, t))
    ensures CellAt(p, RunFrom(p, s, t, 0), k)
      == p.rule(p.places[k].slot, CellAt(p, s, k), Values(Trace(p, s, t)[k].vars, Reads(p.places[k].slot)),
              s.time, PinLevel(t, p.places[k].number))
  {
    var tr := Trace(p, s, t);
    TraceInOrder(p, s, t);
    TraceStep(p, s, t, k);
    RunSlotEffect(p, tr[k], t, k);
    TraceCell(p, tr, 0, k, k);
    TraceCell(p, tr, k + 1, |p.places|, k);
  }

  lemma TimeDoesNotMatter(p: Plan, s: State, time: int, k: nat)
    requires WellFormed(p, s) && k < |p.places|
    ensures CellAt(p, s.(time := time), k) == CellAt(p, s, k)
  {
  }

  /** Refinement: the in-place cycle satisfies the dataflow equations. */
  lemma StepSatisfies(p: Plan, s: State, t: Tick)
    requires WellFormed(p, s)
    ensures Equations(p, s, t, Step(p, s, t))
  {
    forall y | 0 <= y < p.size && p.owners[y] == |p.places|
      ensures Step(p, s, t).vars[y] == s.vars[y]
    {
      StepConstant(p, s, t, y);
    }
    forall k | 0 <= k < |p.places|
      ensures SlotEquation(p, s, t, Step(p, s, t), k)
    {
      StepSlot(p, s, t, k);
    }
  }

  lemma StepConstant(p: Plan, s: State, t: Tick, y: int)
    requires WellFormed(p, s) && 0 <= y < p.size && p.owners[y] == |p.places|
    ensures Step(p, s, t).vars[y] == s.vars[y]
  {
    var d := DeliverFrom(p, s, t, 0);
    DeliverEffect(p, s, t, 0);
    TraceInOrder(p, d, t);
    TraceVar(p, Trace(p, d, t), 0, |p.places|, y);
  }

  lemma StepSlot(p: Plan, s: State, t: Tick, k: nat)
    requires WellFormed(p, s) && k < |p.places|
    ensures SlotEquation(p, s, t, Step(p, s, t), k)
  {
    var d := DeliverFrom(p, s, t, 0);
    var tr, n := Trace(p, d, t), Step(p, s, t);
    DeliverEffect(p, s, t, 0);
    DeliveredVars(p, s, t);
    TraceInOrder(p, d, t);
    RunEquation(p, d, t, k);
    MixedVector(p, tr, k);
    assert Values(tr[k].vars, Reads(p.places[k].slot)) == SeenInputs(p, s, t, n, k);
    TimeDoesNotMatter(p, RunFrom(p, d, t, 0), n.time, k);
  }

  /** The equations determine everything: two solutions agree on positions below k. */
  lemma {:induction false} SolutionsAgree(p: Plan, s: State, t: Tick, n: State, m: State, k: nat)
    requires WellFormed(p, s) && Equations(p, s, t, n) && Equations(p, s, t, m) && k <= |p.places|
    ensures forall i | 0 <= i < k :: CellAt(p, n, i) == CellAt(p, m, i)
    ensures forall y | 0 <= y < p.size && p.owners[y] < k :: n.vars[y] == m.vars[y]
  {
    if k > 0 {
      SolutionsAgree(p, s, t, n, m, k - 1);
      var i := k - 1;
      assert SlotEquation(p, s, t, n, i) && SlotEquation(p, s, t, m, i);
      assert SeenInputs(p, s, t, n, i) == SeenInputs(p, s, t, m, i);
      forall y | 0 <= y < p.size && p.owners[y] == i
        ensures n.vars[y] == m.vars[y]
      {
        VarOfCell(p, n, y);
        VarOfCell(p, m, y);
      }
    }
  }

  /** A state satisfies the dataflow equations exactly when it is the one the in-place
      cycle computes. */
  lemma StepIsTheSolution(p: Plan, s: State, t: Tick, n: State)
    requires WellFormed(p, s)
    ensures Equations(p, s, t, n) <==> n == Step(p, s, t)
  {
    StepSatisfies(p, s, t);
    if Equations(p, s, t, n) {
      var m := Step(p, s, t);
      SolutionsAgree(p, s, t, n, m, |p.places|);
      assert n.vars == m.vars;
      forall k | 0 <= k < |p.places|
        ensures n.mem[k] == m.mem[k]
      {
        assert CellAt(p, n, k) == CellAt(p, m, k);
      }
      assert n.mem == m.mem;
    }
  }
}
