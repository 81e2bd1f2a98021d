/**
 What a counter's reset edge means over whole runs. Because a firing reset leaves
 before the edge memories are updated, the reset is a level, not an edge.
 */
module CounterLaws {
  import opened Blocks
  import opened Engine
  import opened Dataflow
  import opened Equivalence

  ghost predicate IsCounter(p: Plan, k: nat, edge: int) {
    && k < |p.places| && p.rule == Act
    && p.places[k].slot.CounterSlot? && p.places[k].slot.enabled
    && p.places[k].slot.resetEdge == edge
  }

  /** The level of a counter's j-th input (increment, decrement, reset) in a cycle. */
  predicate InputLevel(p: Plan, s: State, t: Tick, k: nat, j: nat)
    requires WellFormed(p, s) && k < |p.places| && j < |Reads(p.places[k].slot)|
  {
    Truthy(SeenInputs(p, s, t, Step(p, s, t), k)[j])
  }

  /** The level of a counter's reset input in the last cycle of a run. */
  predicate ResetLevel(p: Plan, ticks: seq<Tick>, k: nat)
    requires p.Valid() && k < |p.places| && |ticks| > 0
    requires p.places[k].slot.CounterSlot? && p.places[k].slot.enabled
  {
    InputLevel(p, Run(p, ticks[..|ticks| - 1]), ticks[|ticks| - 1], k, 2)
  }

  /** The reset input has been high in some cycle of the run. */
  predicate HasBeenHigh(p: Plan, ticks: seq<Tick>, k: nat)
    requires p.Valid() && k < |p.places|
    requires p.places[k].slot.CounterSlot? && p.places[k].slot.enabled
  {
    |ticks| > 0 && (HasBeenHigh(p, ticks[..|ticks| - 1], k) || ResetLevel(p, ticks, k))
  }

  /** The counter's cell after one more cycle in which the reset does, or does not, fire. */
  function AfterCycle(p: Plan, s: State, t: Tick, k: nat, reset: bool): Cell
    requires WellFormed(p, s) && k < |p.places|
    requires p.places[k].slot.CounterSlot? && p.places[k].slot.enabled
  {
    var c := CellAt(p, s, k);
    if reset then c.(vals := [0.0])
    else CounterCount(p.places[k].slot, c, SeenInputs(p, s, t, Step(p, s, t), k), s.time)
  }

  lemma CounterEquation(p: Plan, s: State, t: Tick, k: nat)
    requires WellFormed(p, s) && k < |p.places| && p.rule == Act
    requires p.places[k].slot.CounterSlot? && p.places[k].slot.enabled
    ensures CellAt(p, Step(p, s, t), k)
      == AfterCycle(p, s, t, k, Edge(p.places[k].slot.resetEdge, s.mem[k].lastReset, InputLevel(p, s, t, k, 2)))
  {
    StepSatisfies(p, s, t);
    assert SlotEquation(p, s, t, Step(p, s, t), k);
  }

  /** Rising and Both never remember a high reset input. */
  lemma {:induction false} NeverRemembers(p: Plan, ticks: seq<Tick>, k: nat)
    requires p.Valid() && (IsCounter(p, k, EDGE_RISING) || IsCounter(p, k, EDGE_BOTH))
    ensures !Run(p, ticks).mem[k].lastReset
  {
    if |ticks| > 0 {
      NeverRemembers(p, ticks[..|ticks| - 1], k);
      CounterEquation(p, Run(p, ticks[..|ticks| - 1]), ticks[|ticks| - 1], k);
    }
  }

  /** Rising and Both alike: the counter resets in exactly the cycles in which its reset
      input is high. */
  lemma RisingOrBothIsLevel(p: Plan, ticks: seq<Tick>, t: Tick, k: nat)
    requires p.Valid() && (IsCounter(p, k, EDGE_RISING) || IsCounter(p, k, EDGE_BOTH))
    ensures CellAt(p, Run(p, ticks + [t]), k)
      == AfterCycle(p, Run(p, ticks), t, k, ResetLevel(p, ticks + [t], k))
  {
    assert (ticks + [t])[..|ticks|] == ticks;
    NeverRemembers(p, ticks, k);
    CounterEquation(p, Run(p, ticks), t, k);
  }

  /** Falling remembers whether its reset input has ever been high. */
  lemma {:induction false} FallingRemembers(p: Plan, ticks: seq<Tick>, k: nat)
    requires p.Valid() && IsCounter(p, k, EDGE_FALLING) && !p.places[k].slot.holdToReset
    ensures Run(p, ticks).mem[k].lastReset == HasBeenHigh(p, ticks, k)
  {
    if |ticks| > 0 {
      FallingRemembers(p, ticks[..|ticks| - 1], k);
      CounterEquation(p, Run(p, ticks[..|ticks| - 1]), ticks[|ticks| - 1], k);
    }
  }

  /** Falling, without hold-to-reset: the counter never resets before its reset input has
      first been high, and from then on resets in exactly the cycles in which it is low. */
  lemma FallingIsLevelOnceHigh(p: Plan, ticks: seq<Tick>, t: Tick, k: nat)
    requires p.Valid() && IsCounter(p, k, EDGE_FALLING) && !p.places[k].slot.holdToReset
    ensures CellAt(p, Run(p, ticks + [t]), k)
      == AfterCycle(p, Run(p, ticks), t, k, HasBeenHigh(p, ticks, k) && !ResetLevel(p, ticks + [t], k))
  {
    assert (ticks + [t])[..|ticks|] == ticks;
    FallingRemembers(p, ticks, k);
    CounterEquation(p, Run(p, ticks), t, k);
  }

  /** q is p with the reset edge of one counter changed. */
  ghost predicate OtherEdge(p: Plan, q: Plan, k: nat, edge: int)
    requires k < |p.places|
  {
    && SameLayout(p, q) && p.places[k].slot.CounterSlot?
    && (forall i | 0 <= i < |p.places| && i != k :: q.places[i] == p.places[i])
    && q.places[k].slot == p.places[k].slot.(resetEdge := edge)
  }

  lemma SameStep(p: Plan, q: Plan, k: nat, s: State, t: Tick)
    requires WellFormed(p, s) && q.Valid()
    requires IsCounter(p, k, EDGE_RISING) && OtherEdge(p, q, k, EDGE_BOTH) && !s.mem[k].lastReset
    ensures WellFormed(q, s) && Step(q, s, t) == Step(p, s, t)
  {
    var n := Step(p, s, t);
    assert WellFormed(q, s);
    assert WellFormed(q, n);
    StepSatisfies(p, s, t);
    forall i | 0 <= i < |q.places|
      ensures SlotEquation(q, s, t, n, i)
    {
      assert SlotEquation(p, s, t, n, i);
      SameSlotEquation(p, q, k, s, t, n, i);
    }
    StepIsTheSolution(q, s, t, n);
  }

  lemma SameSight(p: Plan, q: Plan, k: nat, s: State, t: Tick, n: State, i: nat)
    requires WellFormed(p, s) && WellFormed(q, s) && WellFormed(p, n) && WellFormed(q, n)
    requires k < |p.places| && OtherEdge(p, q, k, EDGE_BOTH) && i < |p.places|
    ensures StartCell(q, s, t, i) == StartCell(p, s, t, i) && CellAt(q, n, i) == CellAt(p, n, i)
    ensures SeenInputs(q, s, t, n, i) == SeenInputs(p, s, t, n, i)
  {
    var rs := Reads(p.places[i].slot);
    assert Reads(q.places[i].slot) == rs;
    forall j | 0 <= j < |rs|
      ensures SeenInputs(q, s, t, n, i)[j] == SeenInputs(p, s, t, n, i)[j]
    {
      var o := p.owners[rs[j]];
      if o < |p.places| { assert StartCell(q, s, t, o) == StartCell(p, s, t, o); }
    }
  }

  lemma SameSlotEquation(p: Plan, q: Plan, k: nat, s: State, t: Tick, n: State, i: nat)
    requires WellFormed(p, s) && WellFormed(q, s) && WellFormed(p, n) && WellFormed(q, n)
    requires IsCounter(p, k, EDGE_RISING) && OtherEdge(p, q, k, EDGE_BOTH) && !s.mem[k].lastReset
    requires i < |p.places| && SlotEquation(p, s, t, n, i)
    ensures SlotEquation(q, s, t, n, i)
  {
    SameSight(p, q, k, s, t, n, i);
  }

  /** A counter with resetEdge Both is the same counter as one with Rising: changing one
      into the other changes no state of any run. */
  lemma {:induction false} RisingEqualsBoth(p: Plan, q: Plan, k: nat, ticks: seq<Tick>)
    requires p.Valid() && q.Valid() && IsCounter(p, k, EDGE_RISING) && OtherEdge(p, q, k, EDGE_BOTH)
    ensures Run(q, ticks) == Run(p, ticks)
  {
    if |ticks| == 0 {
      assert Init(p).mem == Init(q).mem;
    } else {
      var before := ticks[..|ticks| - 1];
      RisingEqualsBoth(p, q, k, before);
      NeverRemembers(p, before, k);
      SameStep(p, q, k, Run(p, before), ticks[|ticks| - 1]);
    }
  }
}
