/**
 One cycle of the logic engine, and runs of any length.

 A plan lists all slots of a device in the order in which they run, each with its
 1-based number within its category and the first variable it writes. A cycle
 delivers the received CAN frames, then runs the slots one after another, all of
 them in place on one vector of variables. The k-th slot to run is "position k".
 */
module Engine {
  import opened Blocks

  datatype Place = Place(slot: Slot, number: nat, base: nat)

  /** What a slot does in one cycle. It is a parameter of the plan: what is proved about
      the order of evaluation holds for every lawful rule. */
  type Rule = (Slot, Cell, seq<real>, int, bool) -> Cell

  /** A rule stays within the slot's cell and looks at nothing Erase erases, nor at a
      pin unless the slot is a digital input. */
  ghost predicate Lawful(rule: Rule) {
    && (forall s, c, ins, now, pin | Fits(s, c) && |ins| == |Reads(s)| :: Fits(s, rule(s, c, ins, now, pin)))
    && (forall s, t, c, ins, now, pin, pin' |
          Fits(s, c) && |ins| == |Reads(s)| && Erase(s) == Erase(t) && (s.DigInSlot? ==> pin == pin') ::
          rule(s, c, ins, now, pin) == rule(t, c, ins, now, pin'))
  }

  /** owners[y] is the position that writes variable y, or |places| if nothing does.
      Nothing writes variables 0 and 1, AlwaysFalse and AlwaysTrue. */
  datatype Plan = Plan(size: nat, places: seq<Place>, owners: seq<nat>, rule: Rule) {

    predicate Owns(k: nat, y: int)
      requires k < |places|
    {
      places[k].base <= y < places[k].base + Width(places[k].slot)
    }

    ghost predicate Valid() {
      && 1 < size == |owners| && owners[0] == owners[1] == |places|
      && (forall k | 0 <= k < |places| :: places[k].base + Width(places[k].slot) <= size)
      && (forall y | 0 <= y < size :: owners[y] <= |places|)
      && (forall k, y | 0 <= k < |places| && 0 <= y < size :: Owns(k, y) <==> owners[y] == k)
      && (forall k | 0 <= k < |places| :: ReadsWithin(Reads(places[k].slot), size))
      && Lawful(rule)
    }
  }

  predicate ReadsWithin(rs: seq<int>, size: nat) {
    forall j | 0 <= j < |rs| :: 0 <= rs[j] < size
  }

  /** The whole runtime state: the clock, the variables, and the private memory of
      each slot in evaluation order. */
  datatype State = State(time: int, vars: seq<real>, mem: seq<Mem>)

  /** One cycle's stimulus: pin levels by 1-based input number, and the received frames. */
  datatype Tick = Tick(pins: map<int, bool>, rx: seq<Frame>, extIde: int)

  predicate PinLevel(t: Tick, n: int) { n in t.pins && t.pins[n] }

  ghost predicate WellFormed(p: Plan, s: State) {
    && p.Valid()
    && |s.vars| == p.size && |s.mem| == |p.places|
    && forall k | 0 <= k < |p.places| :: Matches(p.places[k].slot, s.mem[k])
  }

  function CellAt(p: Plan, s: State, k: nat): (c: Cell)
    requires WellFormed(p, s) && k < |p.places|
    ensures Fits(p.places[k].slot, c)
  {
    Cell(s.mem[k], s.vars[p.places[k].base..p.places[k].base + Width(p.places[k].slot)])
  }

  function Splice(vars: seq<real>, base: nat, vals: seq<real>): (r: seq<real>)
    requires base + |vals| <= |vars|
    ensures |r| == |vars|
    ensures forall y :: 0 <= y < |vars| ==>
      r[y] == if base <= y < base + |vals| then vals[y - base] else vars[y]
  {
    seq(|vars|, y requires 0 <= y < |vars| => if base <= y < base + |vals| then vals[y - base] else vars[y])
  }

  function PutCell(p: Plan, s: State, k: nat, c: Cell): (r: State)
    requires WellFormed(p, s) && k < |p.places| && Fits(p.places[k].slot, c)
    ensures WellFormed(p, r) && r.time == s.time
  {
    s.(vars := Splice(s.vars, p.places[k].base, c.vals), mem := s.mem[k := c.mem])
  }

  function Values(vars: seq<real>, rs: seq<int>): (r: seq<real>)
    requires ReadsWithin(rs, |vars|)
    ensures |r| == |rs|
  {
    seq(|rs|, j requires 0 <= j < |rs| => vars[rs[j]])
  }

  /** Position k runs, in place. */
  function RunSlot(p: Plan, s: State, t: Tick, k: nat): (r: State)
    requires WellFormed(p, s) && k < |p.places|
    ensures WellFormed(p, r) && r.time == s.time
  {
    var slot := p.places[k].slot;
    PutCell(p, s, k,
      p.rule(slot, CellAt(p, s, k), Values(s.vars, Reads(slot)), s.time, PinLevel(t, p.places[k].number)))
  }

  /** Positions k, k+1, ... run. */
  function RunFrom(p: Plan, s: State, t: Tick, k: nat): (r: State)
    requires WellFormed(p, s) && k <= |p.places|
    ensures WellFormed(p, r) && r.time == s.time
    decreases |p.places| - k
  {
    if k == |p.places| then s else RunFrom(p, RunSlot(p, s, t, k), t, k + 1)
  }

  /** The slot at position k takes the cycle's frames, if it is a CAN input. */
  function DeliverTo(p: Plan, s: State, t: Tick, k: nat): (r: State)
    requires WellFormed(p, s) && k < |p.places|
    ensures WellFormed(p, r) && r.time == s.time
  {
    var slot := p.places[k].slot;
    if slot.CanInSlot?
    then PutCell(p, s, k, ReceiveAll(slot, CellAt(p, s, k), t.rx, t.extIde, s.time))
    else s
  }

  function DeliverFrom(p: Plan, s: State, t: Tick, k: nat): (r: State)
    requires WellFormed(p, s) && k <= |p.places|
    ensures WellFormed(p, r) && r.time == s.time
    decreases |p.places| - k
  {
    if k == |p.places| then s else DeliverFrom(p, DeliverTo(p, s, t, k), t, k + 1)
  }

  const CYCLE_MS := 2

  function Step(p: Plan, s: State, t: Tick): (r: State)
    requires WellFormed(p, s)
    ensures WellFormed(p, r) && r.time == s.time + CYCLE_MS
  {
    RunFrom(p, DeliverFrom(p, s, t, 0), t, 0).(time := s.time + CYCLE_MS)
  }

  /** Power-on: everything is zero except AlwaysTrue. */
  function Init(p: Plan): (s: State)
    requires p.Valid()
    ensures WellFormed(p, s)
  {
    State(0,
      seq(p.size, y => if y == 1 then 1.0 else 0.0),
      seq(|p.places|, k requires 0 <= k < |p.places| => PowerOn(p.places[k].slot)))
  }

  /** The state after a stimulus of any length, from power-on. */
  function Run(p: Plan, ticks: seq<Tick>): (s: State)
    requires p.Valid()
    ensures WellFormed(p, s) && s.time == CYCLE_MS * |ticks|
  {
    if |ticks| == 0 then Init(p)
    else Step(p, Run(p, ticks[..|ticks| - 1]), ticks[|ticks| - 1])
  }

  /** The rule of the firmware's function blocks. */
  function Act(s: Slot, c: Cell, ins: seq<real>, now: int, pin: bool): Cell {
    if Fits(s, c) && |ins| == |Reads(s)| then Fire(s, c, ins, now, pin) else c
  }

  lemma ActLawful()
    ensures Lawful(Act)
  {
    forall s, t, c, ins, now, pin, pin' |
      Fits(s, c) && |ins| == |Reads(s)| && Erase(s) == Erase(t) && (s.DigInSlot? ==> pin == pin')
      ensures Act(s, c, ins, now, pin) == Act(t, c, ins, now, pin')
    {
      ErasedFire(s, t, c, ins, now, pin, pin');
    }
  }

  // ----- observation

  /** Outputs are observed by pin number, CAN outputs by their place on the bus. */
  datatype ObsKey = OutKey(n: nat) | CanKey(ide: int, id: int, startBit: nat, bitLength: nat)

  predicate Observed(p: Plan, k: nat)
    requires k < |p.places|
  {
    p.places[k].slot.OutputSlot? || (p.places[k].slot.CanOutSlot? && p.places[k].slot.enabled)
  }

  function KeyOf(p: Plan, k: nat): ObsKey
    requires k < |p.places| && Observed(p, k)
  {
    var s := p.places[k].slot;
    if s.OutputSlot? then OutKey(p.places[k].number) else CanKey(s.ide, s.id, s.startBit, s.bitLength)
  }

  /** An output shows whether it is active, a CAN output the variable it sampled. */
  function Shown(p: Plan, s: State, k: nat): real
    requires WellFormed(p, s) && k < |p.places| && Observed(p, k)
  {
    if p.places[k].slot.OutputSlot? then s.vars[p.places[k].base] else s.mem[k].sample
  }

  /** What the first n positions show; a later slot with the same key wins. */
  function ObserveUpTo(p: Plan, s: State, n: nat): map<ObsKey, real>
    requires WellFormed(p, s) && n <= |p.places|
  {
    if n == 0 then map[]
    else
      var o := ObserveUpTo(p, s, n - 1);
      if Observed(p, n - 1) then o[KeyOf(p, n - 1) := Shown(p, s, n - 1)] else o
  }

  function Observe(p: Plan, s: State): map<ObsKey, real>
    requires WellFormed(p, s)
  {
    ObserveUpTo(p, s, |p.places|)
  }
}
