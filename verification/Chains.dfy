/**
 Configurations that show in which order two slots of one category run. The first of the
 two follows AlwaysTrue, the second follows the first, an output follows the second. In
 order the second is on at the end of the cycle in which the first comes on, out of order
 a cycle later. Of two CAN outputs with one place on the bus the later one shows.
 */
module Chains {
  import opened Boards
  import opened Blocks
  import opened Engine
  import opened Configs
  import opened Dataflow
  import opened Transplant
  import opened Equivalence
  import opened ConfigEquivalence
  import opened Signals

  // ----- a board with nothing to do

  const NO_OUTPUT: OutputCfg := OutputSlot(false, 0)
  const NO_INPUT: DigInCfg := DigInSlot(false, 0, false, 20)
  const NO_CAN_INPUT: CanInCfg := CanInSlot(false, false, 1000, 0, 0, 0, 8, 1.0, 0.0, 0, false, 0, 0.0, 0)
  const NO_CAN_OUTPUT: CanOutCfg := CanOutSlot(false, 0, 0, 0, 0, 8, 1.0, 0.0, 0, 1000)
  const NO_VIRTUAL: VirtCfg := VirtSlot(false, false, 0, 0, false, 0, 0, false, 0, 0)
  const NO_FLASHER: FlasherCfg := FlasherSlot(false, 0, 500, 500)
  const NO_COUNTER: CounterCfg := CounterSlot(false, 0, 0, 0, 0, 10, 0, 0, 0, false, false, 2000)
  const NO_CONDITION: ConditionCfg := ConditionSlot(false, 0, 0, 0.0)

  function Repeat<T>(n: nat, x: T): (r: seq<T>)
    ensures |r| == n && forall i | 0 <= i < n :: r[i] == x
  {
    seq(n, _ => x)
  }

  /** Every slot disabled. */
  function Blank(b: Board): (c: Config)
    requires b.Valid()
    ensures c.FullLength() && c.board == b
  {
    Config(b, Repeat(b.outputs, NO_OUTPUT), Repeat(b.digInputs, NO_INPUT), Repeat(b.canInputs, NO_CAN_INPUT),
      Repeat(b.canOutputs, NO_CAN_OUTPUT), Repeat(b.virtInputs, NO_VIRTUAL), Repeat(b.flashers, NO_FLASHER),
      Repeat(b.counters, NO_COUNTER), Repeat(b.conditions, NO_CONDITION))
  }

  /** The disabled slot at position k. */
  function IdleAt(b: Board, k: nat): Slot
    requires b.Valid() && k < Blank(b).Length()
  {
    Blank(b).SlotAt(k)
  }

  predicate IsIdle(s: Slot) {
    || s == NO_OUTPUT || s == NO_INPUT || s == NO_CAN_INPUT || s == NO_CAN_OUTPUT
    || s == NO_VIRTUAL || s == NO_FLASHER || s == NO_COUNTER || s == NO_CONDITION
  }

  lemma IdleIsIdle(b: Board, k: nat)
    requires b.Valid() && k < Blank(b).Length()
    ensures IsIdle(IdleAt(b, k))
  {
  }

  lemma IdleAlike(s: Slot, t: Slot)
    requires IsIdle(s) && IsIdle(t) && SameCategory(s, t)
    ensures s == t
  {
  }

  // ----- the chain

  predicate Logic(s: Slot) { s.VirtSlot? || s.FlasherSlot? || s.CounterSlot? || s.ConditionSlot? }

  /** A slot of the same category that follows variable x. */
  function Follower(s: Slot, x: int): (t: Slot)
    ensures SameCategory(s, t)
  {
    if s.CanOutSlot? then CanOutSlot(true, x, 0, 0, 0, 8, 1.0, 0.0, 0, 1000)
    else if s.VirtSlot? then VirtSlot(true, false, x, BOOL_AND, false, 1, 0, false, 0, MODE_MOMENTARY)
    else if s.FlasherSlot? then FlasherSlot(true, x, 500, 0)
    else if s.CounterSlot? then
      CounterSlot(true, x, 0, 0, 0, 10, EDGE_RISING, EDGE_RISING, EDGE_RISING, false, false, 2000)
    else if s.ConditionSlot? then ConditionSlot(true, x, OP_NE, 0.0)
    else s
  }

  /** Two positions of one category whose order may matter. */
  predicate Linked(b: Board, u: nat, v: nat) {
    && b.Valid() && b.outputs > 0
    && u < Blank(b).Length() && v < Blank(b).Length() && u != v
    && (Logic(IdleAt(b, u)) || IdleAt(b, u).CanOutSlot?) && SameCategory(IdleAt(b, u), IdleAt(b, v))
  }

  /** The slot at position k, which would be idle: the first output follows z, position u
      follows AlwaysTrue, position v follows y. */
  function Put(u: nat, v: nat, y: int, z: int, k: nat, idle: Slot): (s: Slot)
    ensures SameCategory(idle, s)
  {
    if idle.OutputSlot? then (if k == 0 then OutputSlot(true, z) else idle)
    else if k == u then Follower(idle, 1)
    else if k == v then Follower(idle, y)
    else idle
  }

  function Chain(b: Board, u: nat, v: nat): (c: Config)
    requires Linked(b, u, v)
    ensures c.FullLength() && c.board == b
  {
    var a := Blank(b);
    ChainOf(a, u, v, a.Base(u), a.Base(v))
  }

  function ChainOf(a: Config, u: nat, v: nat, y: int, z: int): (c: Config)
    requires a.FullLength()
    ensures c.FullLength() && c.board == a.board
  {
    Config(a.board,
      seq(|a.outputs|, i requires 0 <= i < |a.outputs| => PutOutput(z, i, a.outputs[i])),
      a.inputs,
      a.canInputs,
      seq(|a.canOutputs|, i requires 0 <= i < |a.canOutputs| => PutCan(u, v, y, a.CanOutPos(i), a.canOutputs[i])),
      seq(|a.virtualInputs|, i requires 0 <= i < |a.virtualInputs| =>
        PutVirt(u, v, y, a.VirtPos(i), a.virtualInputs[i])),
      seq(|a.flashers|, i requires 0 <= i < |a.flashers| => PutFlasher(u, v, y, a.FlasherPos(i), a.flashers[i])),
      seq(|a.counters|, i requires 0 <= i < |a.counters| => PutCounter(u, v, y, a.CounterPos(i), a.counters[i])),
      seq(|a.conditions|, i requires 0 <= i < |a.conditions| =>
        PutCondition(u, v, y, a.ConditionPos(i), a.conditions[i])))
  }

  function PutOutput(z: int, k: nat, s: OutputCfg): OutputCfg { if k == 0 then OutputSlot(true, z) else s }

  function PutCan(u: nat, v: nat, y: int, k: nat, s: CanOutCfg): CanOutCfg { Put(u, v, y, 0, k, s) }

  function PutVirt(u: nat, v: nat, y: int, k: nat, s: VirtCfg): VirtCfg { Put(u, v, y, 0, k, s) }

  function PutFlasher(u: nat, v: nat, y: int, k: nat, s: FlasherCfg): FlasherCfg { Put(u, v, y, 0, k, s) }

  function PutCounter(u: nat, v: nat, y: int, k: nat, s: CounterCfg): CounterCfg { Put(u, v, y, 0, k, s) }

  function PutCondition(u: nat, v: nat, y: int, k: nat, s: ConditionCfg): ConditionCfg { Put(u, v, y, 0, k, s) }

  lemma ChainOfSlot(a: Config, u: nat, v: nat, y: int, z: int, k: nat)
    requires a.FullLength() && k < a.Length()
    requires (k == u || k == v) ==> Logic(a.SlotAt(k)) || a.SlotAt(k).CanOutSlot?
    ensures ChainOf(a, u, v, y, z).Length() == a.Length()
    ensures ChainOf(a, u, v, y, z).SlotAt(k) == Put(u, v, y, z, k, a.SlotAt(k))
  {
    if k < a.CanInPos(0) {
      FirstSlot(a, u, v, y, z, k);
    } else if k < a.FlasherPos(0) {
      MiddleSlot(a, u, v, y, z, k);
    } else {
      LastSlot(a, u, v, y, z, k);
    }
  }

  lemma FirstSlot(a: Config, u: nat, v: nat, y: int, z: int, k: nat)
    requires a.FullLength() && k < a.CanInPos(0) && k < a.Length()
    requires (k == u || k == v) ==> Logic(a.SlotAt(k)) || a.SlotAt(k).CanOutSlot?
    ensures ChainOf(a, u, v, y, z).Length() == a.Length()
    ensures ChainOf(a, u, v, y, z).SlotAt(k) == Put(u, v, y, z, k, a.SlotAt(k))
  {
  }

  lemma MiddleSlot(a: Config, u: nat, v: nat, y: int, z: int, k: nat)
    requires a.FullLength() && a.CanInPos(0) <= k < a.FlasherPos(0) && k < a.Length()
    requires (k == u || k == v) ==> Logic(a.SlotAt(k)) || a.SlotAt(k).CanOutSlot?
    ensures ChainOf(a, u, v, y, z).Length() == a.Length()
    ensures ChainOf(a, u, v, y, z).SlotAt(k) == Put(u, v, y, z, k, a.SlotAt(k))
  {
  }

  lemma LastSlot(a: Config, u: nat, v: nat, y: int, z: int, k: nat)
    requires a.FullLength() && a.FlasherPos(0) <= k < a.Length()
    ensures ChainOf(a, u, v, y, z).Length() == a.Length()
    ensures ChainOf(a, u, v, y, z).SlotAt(k) == Put(u, v, y, z, k, a.SlotAt(k))
  {
  }

  // ----- it is accepted

  lemma ConstantsFree(c: Config)
    requires c.FullLength()
    ensures 1 < c.board.Size() && c.Owner(0) == c.Owner(1) == c.Length() && !c.Pinned(0) && !c.Pinned(1)
  {
  }

  /** The variable of a logic slot. */
  lemma LogicVar(c: Config, k: nat)
    requires c.FullLength() && k < c.Length() && Logic(c.SlotAt(k))
    ensures 1 < c.Base(k) < c.board.Size() && c.Owner(c.Base(k)) == k && !c.Pinned(c.Base(k))
  {
    ConstantsFree(c);
    assert c.OwnsVar(k, c.Base(k));
    Layout(c, k);
    NotAnOutput(c, k);
    if c.Pinned(c.Base(k)) { PinnedOwner(c, c.Base(k)); }
  }

  lemma NotAnOutput(c: Config, k: nat)
    requires c.FullLength() && k < c.Length() && !c.SlotAt(k).OutputSlot?
    ensures c.board.outputs <= k
  {
  }

  lemma CanOutVar(c: Config, k: nat)
    requires c.FullLength() && k < c.Length() && c.SlotAt(k).CanOutSlot?
    ensures c.Base(k) == 0
  {
  }

  /** What can be followed can be referred to. */
  lemma Followable(c: Config, k: nat)
    requires c.FullLength() && k < c.Length() && (Logic(c.SlotAt(k)) || c.SlotAt(k).CanOutSlot?)
    ensures 0 <= c.Base(k) < c.board.Size() && !c.Pinned(c.Base(k))
  {
    if c.SlotAt(k).CanOutSlot? {
      CanOutVar(c, k);
      ConstantsFree(c);
    } else {
      LogicVar(c, k);
    }
  }

  lemma FollowerAccepted(c: Config, s: Slot, x: int)
    requires c.FullLength() && IsIdle(s) && 0 <= x < c.board.Size() && !c.Pinned(x)
    ensures c.RefsIn(Follower(s, x)) && forall r | r in Reads(Follower(s, x)) :: !c.Pinned(r)
  {
    ConstantsFree(c);
  }

  lemma PutAccepted(c: Config, u: nat, v: nat, y: int, z: int, k: nat, s: Slot)
    requires c.FullLength() && k < c.Length() && c.SlotAt(k) == Put(u, v, y, z, k, s) && IsIdle(s)
    requires 0 <= y < c.board.Size() && !c.Pinned(y) && 0 <= z < c.board.Size() && !c.Pinned(z)
    ensures SlotAccepted(c, k)
  {
    ConstantsFree(c);
    FollowerAccepted(c, s, 1);
    FollowerAccepted(c, s, y);
  }

  lemma ChainSlot(b: Board, u: nat, v: nat, k: nat)
    requires Linked(b, u, v) && k < Blank(b).Length()
    ensures k < Chain(b, u, v).Length() == Blank(b).Length()
    ensures Chain(b, u, v).SlotAt(k) == Put(u, v, Blank(b).Base(u), Blank(b).Base(v), k, IdleAt(b, k))
  {
    var a := Blank(b);
    ChainOfSlot(a, u, v, a.Base(u), a.Base(v), k);
  }

  lemma SameLayoutOf(a: Config, c: Config, y: int)
    requires a.FullLength() && c.FullLength() && a.board == c.board
    ensures a.Length() == c.Length() && a.Owner(y) == c.Owner(y) && a.Pinned(y) == c.Pinned(y)
  {
  }

  lemma ChainAccepted(b: Board, u: nat, v: nat)
    requires Linked(b, u, v)
    ensures Chain(b, u, v).Accepted()
  {
    var a, c := Blank(b), Chain(b, u, v);
    Followable(a, u);
    Followable(a, v);
    SameLayoutOf(a, c, a.Base(u));
    SameLayoutOf(a, c, a.Base(v));
    forall k | 0 <= k < c.Length()
      ensures c.RefsIn(c.SlotAt(k)) && forall r | r in Reads(c.SlotAt(k)) :: !c.Pinned(r)
    {
      ChainSlot(b, u, v, k);
      IdleIsIdle(b, k);
      PutAccepted(c, u, v, a.Base(u), a.Base(v), k, IdleAt(b, k));
    }
  }

  // ----- one slot following

  const SILENT := Tick(map[], [], 0)

  function Silence(n: nat): (ts: seq<Tick>)
    ensures |ts| == n
  {
    if n == 0 then [] else Silence(n - 1) + [SILENT]
  }

  lemma RunOn(p: Plan, n: nat)
    requires p.Valid()
    ensures Run(p, Silence(n + 1)) == Step(p, Run(p, Silence(n)), SILENT)
  {
    assert Silence(n + 1)[..n] == Silence(n);
  }

  /** The slot has done nothing yet. */
  ghost predicate Fresh(p: Plan, s: State, k: nat)
    requires WellFormed(p, s)
  {
    && k < |p.places| && Width(p.places[k].slot) == 1
    && s.mem[k] == PowerOn(p.places[k].slot) && s.vars[p.places[k].base] == 0.0
  }

  ghost predicate Constants(p: Plan, s: State)
    requires WellFormed(p, s)
  {
    s.vars[0] == 0.0 && s.vars[1] == 1.0
  }

  /** The inputs of a follower: what it follows, and constants. */
  predicate Follows(s: Slot, ins: seq<real>) {
    && |ins| > 0 && (ins[0] == 0.0 || ins[0] == 1.0)
    && (s.VirtSlot? ==> |ins| == 2 && ins[1] == 1.0)
    && (s.CounterSlot? ==> |ins| == 3 && ins[1] == ins[2] == 0.0)
  }

  /** A fresh follower takes over what it sees at once, a flasher from the second cycle on. */
  lemma FollowerFires(s: Slot, x: int, ins: seq<real>, now: int, pin: bool)
    requires IsIdle(s) && Logic(s) && |ins| == |Reads(Follower(s, x))| && Follows(s, ins)
    requires s.FlasherSlot? ==> 0 < now
    ensures var t := Follower(s, x);
      Fire(t, Cell(PowerOn(t), [0.0]), ins, now, pin).vals == [ins[0]]
  {
  }

  lemma FlasherWaits(s: Slot, x: int, ins: seq<real>, pin: bool)
    requires s.FlasherSlot? && |ins| == |Reads(Follower(s, x))|
    ensures var t := Follower(s, x);
      Fire(t, Cell(PowerOn(t), [0.0]), ins, 0, pin) == Cell(PowerOn(t), [0.0])
  {
  }

  lemma SlotFires(p: Plan, s: State, t: Tick, k: nat)
    requires WellFormed(p, s) && p.rule == Act && k < |p.places| && !p.places[k].slot.CanInSlot?
    ensures var n := Step(p, s, t);
      CellAt(p, n, k)
        == Fire(p.places[k].slot, CellAt(p, s, k), SeenInputs(p, s, t, n, k), s.time, PinLevel(t, p.places[k].number))
  {
    StepSatisfies(p, s, t);
    assert SlotEquation(p, s, t, Step(p, s, t), k);
  }

  lemma FollowerSees(p: Plan, s: State, t: Tick, k: nat, idle: Slot, x: int)
    requires WellFormed(p, s) && Constants(p, s) && p.owners[0] == p.owners[1] == |p.places| && 0 <= x < p.size
    requires k < |p.places| && p.places[k].slot == Follower(idle, x) && IsIdle(idle) && Logic(idle)
    ensures var n := Step(p, s, t);
      var ins, v := SeenInputs(p, s, t, n, k), Seen(p, s, t, n, k, x);
      |ins| > 0 && ins[0] == v && (v == 0.0 || v == 1.0 ==> Follows(idle, ins))
  {
    SeenAs(p, s, t, k, 0);
    SeenAs(p, s, t, k, 1);
  }

  lemma FreshCell(p: Plan, s: State, k: nat)
    requires WellFormed(p, s) && Fresh(p, s, k)
    ensures CellAt(p, s, k) == Cell(PowerOn(p.places[k].slot), [0.0])
  {
  }

  lemma FollowerStep(p: Plan, s: State, t: Tick, k: nat, idle: Slot, x: int)
    requires WellFormed(p, s) && p.rule == Act && Constants(p, s) && p.owners[0] == p.owners[1] == |p.places|
    requires 0 <= x < p.size && k < |p.places| && p.places[k].slot == Follower(idle, x)
    requires IsIdle(idle) && Logic(idle) && Fresh(p, s, k) && (idle.FlasherSlot? ==> 0 < s.time)
    ensures var n := Step(p, s, t);
      var v := Seen(p, s, t, n, k, x);
      v == 0.0 || v == 1.0 ==> n.vars[p.places[k].base] == v
  {
    var n := Step(p, s, t);
    var v := Seen(p, s, t, n, k, x);
    if v == 0.0 || v == 1.0 {
      SlotFires(p, s, t, k);
      FreshCell(p, s, k);
      FollowerSees(p, s, t, k, idle, x);
      FollowerFires(idle, x, SeenInputs(p, s, t, n, k), s.time, PinLevel(t, p.places[k].number));
      assert CellAt(p, n, k).vals[0] == n.vars[p.places[k].base];
    }
  }

  lemma FlasherStaysFresh(p: Plan, s: State, t: Tick, k: nat, idle: Slot, x: int)
    requires WellFormed(p, s) && p.rule == Act && k < |p.places| && p.places[k].slot == Follower(idle, x)
    requires idle.FlasherSlot? && Fresh(p, s, k) && s.time == 0
    ensures Fresh(p, Step(p, s, t), k)
  {
    var n := Step(p, s, t);
    SlotFires(p, s, t, k);
    FreshCell(p, s, k);
    FlasherWaits(idle, x, SeenInputs(p, s, t, n, k), PinLevel(t, p.places[k].number));
    assert CellAt(p, n, k).vals[0] == n.vars[p.places[k].base];
  }

  // ----- the chain in a run

  /** The plan of a chain of logic slots: position u follows AlwaysTrue and writes y,
      position v follows y and writes z, the first output follows z. */
  ghost predicate IsChain(p: Plan, s: Slot, u: nat, v: nat, y: int, z: int) {
    && p.Valid() && p.rule == Act && IsIdle(s) && Logic(s)
    && 0 < u < |p.places| && 0 < v < |p.places| && u != v
    && p.places[0].slot == OutputSlot(true, z)
    && p.places[u].slot == Follower(s, 1) && p.places[u].base == y
    && p.places[v].slot == Follower(s, y) && p.places[v].base == z
    && 1 < y < p.size && 1 < z < p.size
    && p.owners[0] == p.owners[1] == |p.places| && p.owners[y] == u && p.owners[z] == v
  }

  ghost predicate Ripe(p: Plan, n: State, s: Slot, u: nat, v: nat)
    requires WellFormed(p, n)
  {
    Fresh(p, n, u) && Fresh(p, n, v) && Constants(p, n) && (s.FlasherSlot? ==> 0 < n.time)
  }

  lemma RipeStep(p: Plan, n: State, s: Slot, u: nat, v: nat, y: int, z: int)
    requires IsChain(p, s, u, v, y, z) && WellFormed(p, n) && Ripe(p, n, s, u, v)
    ensures Step(p, n, SILENT).vars[z] == FromBool(u < v)
  {
    FollowerStep(p, n, SILENT, u, s, 1);
    SeenAs(p, n, SILENT, u, 1);
    FollowerStep(p, n, SILENT, v, s, y);
    SeenAs(p, n, SILENT, v, y);
  }

  /** Cycles until a follower can come on. */
  function Delay(s: Slot): nat { if s.FlasherSlot? then 1 else 0 }

  lemma StartsFresh(p: Plan, s: Slot, u: nat, v: nat, y: int, z: int)
    requires IsChain(p, s, u, v, y, z)
    ensures Fresh(p, Init(p), u) && Fresh(p, Init(p), v) && Constants(p, Init(p)) && Init(p).time == 0
  {
  }

  lemma Ripens(p: Plan, s: Slot, u: nat, v: nat, y: int, z: int)
    requires IsChain(p, s, u, v, y, z)
    ensures Ripe(p, Run(p, Silence(Delay(s))), s, u, v)
  {
    StartsFresh(p, s, u, v, y, z);
    if s.FlasherSlot? {
      RunOn(p, 0);
      FlasherStaysFresh(p, Init(p), SILENT, u, s, 1);
      FlasherStaysFresh(p, Init(p), SILENT, v, s, y);
      ConstantStep(p, Init(p), SILENT, 0);
      ConstantStep(p, Init(p), SILENT, 1);
    }
  }

  lemma OutputFollows(p: Plan, s: Slot, u: nat, v: nat, y: int, z: int)
    requires IsChain(p, s, u, v, y, z)
    ensures Run(p, Silence(Delay(s) + 2)).vars[p.places[0].base] == FromBool(u < v)
  {
    var d := Delay(s);
    Ripens(p, s, u, v, y, z);
    RunOn(p, d);
    RipeStep(p, Run(p, Silence(d)), s, u, v, y, z);
    RunOn(p, d + 1);
    var n := Run(p, Silence(d + 1));
    OutputStep(p, n, SILENT, 0);
    SeenAs(p, n, SILENT, 0, z);
  }

  /** Nothing but the first output shows under its number. */
  lemma NumbersDiffer(c: Config, k: nat)
    requires c.FullLength() && 0 < k < c.Length() && Observed(c.Compile(), k)
    ensures KeyOf(c.Compile(), k) != OutKey(1)
  {
  }

  lemma OutputShown(c: Config, s: State)
    requires c.FullLength() && c.board.outputs > 0
    requires WellFormed(c.Compile(), s)
    ensures var p := c.Compile();
      OutKey(1) in Observe(p, s) && Observe(p, s)[OutKey(1)] == s.vars[p.places[0].base]
  {
    var p := c.Compile();
    AtOutput(c, 0);
    forall k: nat | 0 < k < |p.places| && Observed(p, k)
      ensures KeyOf(p, k) != OutKey(1)
    {
      NumbersDiffer(c, k);
    }
    assert KeyOf(p, 0) == OutKey(1);
    ObservedValue(p, s, |p.places|, 0);
  }

  lemma ChainSlots(b: Board, u: nat, v: nat, c: Config, s: Slot)
    requires Linked(b, u, v) && Logic(IdleAt(b, u)) && c == Chain(b, u, v) && s == IdleAt(b, u)
    ensures var y, z := Blank(b).Base(u), Blank(b).Base(v);
      && IsIdle(s) && 0 < u < c.Length() && 0 < v < c.Length()
      && c.SlotAt(0) == OutputSlot(true, z) && c.SlotAt(u) == Follower(s, 1) && c.SlotAt(v) == Follower(s, y)
  {
    var a := Blank(b);
    AtOutput(a, 0);
    ChainSlot(b, u, v, 0);
    ChainSlot(b, u, v, u);
    ChainSlot(b, u, v, v);
    IdleIsIdle(b, u);
    IdleIsIdle(b, v);
    IdleAlike(s, IdleAt(b, v));
    NotAnOutput(a, u);
    NotAnOutput(a, v);
  }

  lemma WiredPlan(c: Config, s: Slot, u: nat, v: nat, y: int, z: int)
    requires c.Accepted() && IsIdle(s) && Logic(s) && 0 < u < c.Length() && 0 < v < c.Length() && u != v
    requires c.SlotAt(0) == OutputSlot(true, z) && c.SlotAt(u) == Follower(s, 1) && c.SlotAt(v) == Follower(s, y)
    requires c.Base(u) == y && c.Base(v) == z && 1 < y < c.board.Size() && 1 < z < c.board.Size()
    requires c.Owner(0) == c.Owner(1) == c.Length() && c.Owner(y) == u && c.Owner(z) == v
    ensures IsChain(c.Compile(), s, u, v, y, z)
  {
    CompileValid(c);
    PlaceOf(c, 0);
    PlaceOf(c, u);
    PlaceOf(c, v);
    OwnerOf(c, 0);
    OwnerOf(c, 1);
    OwnerOf(c, y);
    OwnerOf(c, z);
  }

  lemma PlaceOf(c: Config, k: nat)
    requires c.FullLength() && k < c.Length()
    ensures var p := c.Compile();
      |p.places| == c.Length() && p.places[k].slot == c.SlotAt(k) && p.places[k].base == c.Base(k)
  {
  }

  lemma OwnerOf(c: Config, y: int)
    requires c.FullLength() && 0 <= y < c.board.Size()
    ensures var p := c.Compile(); p.size == c.board.Size() == |p.owners| && p.owners[y] == c.Owner(y)
  {
  }

  lemma ChainPlan(b: Board, u: nat, v: nat, c: Config, y: nat, z: nat)
    requires Linked(b, u, v) && Logic(IdleAt(b, u)) && c == Chain(b, u, v)
    requires y == Blank(b).Base(u) && z == Blank(b).Base(v)
    ensures c.Accepted() && IsChain(c.Compile(), IdleAt(b, u), u, v, y, z)
  {
    var a := Blank(b);
    ChainAccepted(b, u, v);
    ChainSlots(b, u, v, c, IdleAt(b, u));
    LogicVar(a, u);
    LogicVar(a, v);
    ChainLayout(a, c, u, v);
    WiredPlan(c, IdleAt(b, u), u, v, y, z);
  }

  lemma ChainLayout(a: Config, c: Config, u: nat, v: nat)
    requires a.FullLength() && c.FullLength() && a.board == c.board && u < a.Length() && v < a.Length()
    ensures u < c.Length() && c.Base(u) == a.Base(u) && v < c.Length() && c.Base(v) == a.Base(v)
    ensures c.Owner(a.Base(u)) == a.Owner(a.Base(u)) && c.Owner(a.Base(v)) == a.Owner(a.Base(v))
    ensures c.Owner(0) == c.Owner(1) == c.Length()
  {
    SameRow(a, c, u);
    SameRow(a, c, v);
    SameOwner(a, c, a.Base(u));
    SameOwner(a, c, a.Base(v));
    ConstantsFree(c);
  }

  // ----- two CAN outputs with one place on the bus

  const PLACE := CanKey(0, 0, 0, 8)

  ghost predicate IsPair(p: Plan, u: nat, v: nat) {
    && p.Valid() && p.rule == Act && u < |p.places| && v < |p.places| && u != v
    && p.places[u].slot == Follower(NO_CAN_OUTPUT, 1) && p.places[v].slot == Follower(NO_CAN_OUTPUT, 0)
    && p.owners[0] == p.owners[1] == |p.places|
    && forall k | 0 <= k < |p.places| && k != u && k != v && Observed(p, k) :: KeyOf(p, k) != PLACE
  }

  lemma SampleStep(p: Plan, k: nat, x: int)
    requires p.Valid() && p.rule == Act && k < |p.places| && p.places[k].slot == Follower(NO_CAN_OUTPUT, x)
    requires 0 <= x < p.size && p.owners[x] == |p.places|
    ensures Step(p, Init(p), SILENT).mem[k] == SampleMem(Init(p).vars[x])
  {
    var n := Step(p, Init(p), SILENT);
    SlotFires(p, Init(p), SILENT, k);
    SeenAs(p, Init(p), SILENT, k, x);
    assert CellAt(p, n, k).mem == n.mem[k];
  }

  /** The later of the two shows. */
  lemma PairShows(p: Plan, u: nat, v: nat)
    requires IsPair(p, u, v)
    ensures PLACE in View(p, Silence(1)) && View(p, Silence(1))[PLACE] == FromBool(v < u)
  {
    RunOn(p, 0);
    SampleStep(p, u, 1);
    SampleStep(p, v, 0);
    ObservedValue(p, Run(p, Silence(1)), |p.places|, if u < v then v else u);
  }

  lemma PairPlan(b: Board, u: nat, v: nat, c: Config)
    requires Linked(b, u, v) && IdleAt(b, u).CanOutSlot? && c == Chain(b, u, v)
    ensures c.Accepted() && IsPair(c.Compile(), u, v)
  {
    var a, p := Blank(b), c.Compile();
    ChainAccepted(b, u, v);
    CompileValid(c);
    ChainSlot(b, u, v, u);
    ChainSlot(b, u, v, v);
    IdleIsIdle(b, u);
    IdleIsIdle(b, v);
    CanOutVar(a, u);
    ConstantsFree(c);
    forall k: nat | k < |p.places| && k != u && k != v && Observed(p, k)
      ensures KeyOf(p, k) != PLACE
    {
      ChainSlot(b, u, v, k);
      IdleIsIdle(b, k);
    }
  }

  // ----- what a chain shows

  /** Where and when a chain through slots like s shows its order. */
  function Probe(s: Slot): ObsKey { if s.CanOutSlot? then PLACE else OutKey(1) }

  function Watch(s: Slot): nat { if s.CanOutSlot? then 1 else Delay(s) + 2 }

  lemma LogicShows(b: Board, u: nat, v: nat, s: Slot, c: Config, y: nat, z: nat)
    requires Linked(b, u, v) && s == IdleAt(b, u) && Logic(s) && c == Chain(b, u, v)
    requires y == Blank(b).Base(u) && z == Blank(b).Base(v)
    ensures c.Accepted() && OutKey(1) in Shows(c, Silence(Delay(s) + 2))
    ensures Shows(c, Silence(Delay(s) + 2))[OutKey(1)] == FromBool(u < v)
  {
    ChainPlan(b, u, v, c, y, z);
    OutputFollows(c.Compile(), s, u, v, y, z);
    OutputShown(c, Run(c.Compile(), Silence(Delay(s) + 2)));
  }

  /** A chain shows in which order its slots run. */
  lemma ChainShows(b: Board, u: nat, v: nat, s: Slot, c: Config)
    requires Linked(b, u, v) && s == IdleAt(b, u) && c == Chain(b, u, v)
    ensures c.Accepted() && Probe(s) in Shows(c, Silence(Watch(s)))
    ensures Shows(c, Silence(Watch(s)))[Probe(s)] == FromBool(if s.CanOutSlot? then v < u else u < v)
  {
    if s.CanOutSlot? {
      PairPlan(b, u, v, c);
      PairShows(c.Compile(), u, v);
    } else {
      LogicShows(b, u, v, s, c, Blank(b).Base(u), Blank(b).Base(v));
    }
  }
}
