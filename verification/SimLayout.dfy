/**
 Where the simulator's lists sit in a plan: each group of slots takes consecutive
 positions and evenly spaced variables.
 */
module SimLayout {
  import opened Boards
  import opened Blocks
  import opened Engine
  import opened Configs
  import opened Dataflow
  import CanFrames

  /** The first variable of each block of the variable map. */
  datatype Bases = Bases(digIn: nat, canIn: nat, virtIn: nat, output: nat, flasher: nat, condition: nat, counter: nat)

  /** The first position of each category in the order of evaluation. */
  datatype Order = Order(digIn: nat, canIn: nat, canOut: nat, virt: nat, flasher: nat, counter: nat, condition: nat,
    end: nat)

  function OrderOf(cfg: Config): Order {
    var digIn := |cfg.outputs|;
    var canIn := digIn + |cfg.inputs|;
    var canOut := canIn + |cfg.canInputs|;
    var virt := canOut + |cfg.canOutputs|;
    var flasher := virt + |cfg.virtualInputs|;
    var counter := flasher + |cfg.flashers|;
    var condition := counter + |cfg.counters|;
    Order(digIn, canIn, canOut, virt, flasher, counter, condition, condition + |cfg.conditions|)
  }

  function BasesOf(cfg: Config): Bases {
    var b := cfg.board;
    Bases(b.DigInBase(), b.CanInBase(), b.VirtBase(), b.OutputBase(), b.FlasherBase(), b.ConditionBase(),
      b.CounterBase())
  }

  /** The slots xs run from position lo on and write from variable base on. */
  ghost predicate GroupLaid(places: seq<Place>, xs: seq<Slot>, lo: nat, base: nat, stride: nat) {
    && lo + |xs| <= |places|
    && forall i: nat | i < |xs| :: places[lo + i] == Place(xs[i], i + 1, base + stride * i)
  }

  ghost predicate Laid(p: Plan, cfg: Config, b: Bases, o: Order) {
    && p.Valid() && IsFire(p.rule) && o == OrderOf(cfg) && |p.places| == o.end
    && GroupLaid(p.places, cfg.outputs, 0, b.output, 4)
    && GroupLaid(p.places, cfg.inputs, o.digIn, b.digIn, 1)
    && GroupLaid(p.places, cfg.canInputs, o.canIn, b.canIn, 2)
    && GroupLaid(p.places, cfg.canOutputs, o.canOut, 0, 0)
    && GroupLaid(p.places, cfg.virtualInputs, o.virt, b.virtIn, 1)
    && GroupLaid(p.places, cfg.flashers, o.flasher, b.flasher, 1)
    && GroupLaid(p.places, cfg.counters, o.counter, b.counter, 1)
    && GroupLaid(p.places, cfg.conditions, o.condition, b.condition, 1)
  }

  lemma PlaceAt(cfg: Config, k: nat)
    requires cfg.FullLength() && k < cfg.Length()
    ensures |cfg.Compile().places| == cfg.Length()
    ensures cfg.Compile().places[k] == Place(cfg.SlotAt(k), cfg.NumberAt(k), cfg.Base(k))
  {
  }

  lemma OrderPositions(cfg: Config)
    requires cfg.FullLength()
    ensures var o := OrderOf(cfg);
      && o.digIn == cfg.DigInPos(0) && o.canIn == cfg.CanInPos(0) && o.canOut == cfg.CanOutPos(0)
      && o.virt == cfg.VirtPos(0) && o.flasher == cfg.FlasherPos(0) && o.counter == cfg.CounterPos(0)
      && o.condition == cfg.ConditionPos(0) && o.end == cfg.Length() == |cfg.Compile().places|
  {
  }

  lemma OutputsLaid(cfg: Config)
    requires cfg.FullLength()
    ensures GroupLaid(cfg.Compile().places, cfg.outputs, 0, BasesOf(cfg).output, 4)
  {
    OrderPositions(cfg);
    forall i: nat | i < |cfg.outputs|
      ensures cfg.Compile().places[i] == Place(cfg.outputs[i], i + 1, BasesOf(cfg).output + 4 * i)
    {
      AtOutput(cfg, i);
      PlaceAt(cfg, i);
    }
  }

  lemma InputsLaid(cfg: Config)
    requires cfg.FullLength()
    ensures GroupLaid(cfg.Compile().places, cfg.inputs, OrderOf(cfg).digIn, BasesOf(cfg).digIn, 1)
  {
    OrderPositions(cfg);
    forall i: nat | i < |cfg.inputs|
      ensures cfg.Compile().places[OrderOf(cfg).digIn + i] == Place(cfg.inputs[i], i + 1, BasesOf(cfg).digIn + i)
    {
      AtDigIn(cfg, i);
      PlaceAt(cfg, OrderOf(cfg).digIn + i);
    }
  }

  lemma CanInputsLaid(cfg: Config)
    requires cfg.FullLength()
    ensures GroupLaid(cfg.Compile().places, cfg.canInputs, OrderOf(cfg).canIn, BasesOf(cfg).canIn, 2)
  {
    OrderPositions(cfg);
    forall i: nat | i < |cfg.canInputs|
      ensures cfg.Compile().places[OrderOf(cfg).canIn + i] == Place(cfg.canInputs[i], i + 1, BasesOf(cfg).canIn + 2 * i)
    {
      AtCanIn(cfg, i);
      PlaceAt(cfg, OrderOf(cfg).canIn + i);
    }
  }

  lemma CanOutputsLaid(cfg: Config)
    requires cfg.FullLength()
    ensures GroupLaid(cfg.Compile().places, cfg.canOutputs, OrderOf(cfg).canOut, 0, 0)
  {
    OrderPositions(cfg);
    forall i: nat | i < |cfg.canOutputs|
      ensures cfg.Compile().places[OrderOf(cfg).canOut + i] == Place(cfg.canOutputs[i], i + 1, 0)
    {
      AtCanOut(cfg, i);
      PlaceAt(cfg, OrderOf(cfg).canOut + i);
    }
  }

  lemma VirtualInputsLaid(cfg: Config)
    requires cfg.FullLength()
    ensures GroupLaid(cfg.Compile().places, cfg.virtualInputs, OrderOf(cfg).virt, BasesOf(cfg).virtIn, 1)
  {
    OrderPositions(cfg);
    forall i: nat | i < |cfg.virtualInputs|
      ensures cfg.Compile().places[OrderOf(cfg).virt + i] == Place(cfg.virtualInputs[i], i + 1, BasesOf(cfg).virtIn + i)
    {
      AtVirt(cfg, i);
      PlaceAt(cfg, OrderOf(cfg).virt + i);
    }
  }

  lemma FlashersLaid(cfg: Config)
    requires cfg.FullLength()
    ensures GroupLaid(cfg.Compile().places, cfg.flashers, OrderOf(cfg).flasher, BasesOf(cfg).flasher, 1)
  {
    OrderPositions(cfg);
    forall i: nat | i < |cfg.flashers|
      ensures cfg.Compile().places[OrderOf(cfg).flasher + i] == Place(cfg.flashers[i], i + 1, BasesOf(cfg).flasher + i)
    {
      AtFlasher(cfg, i);
      PlaceAt(cfg, OrderOf(cfg).flasher + i);
    }
  }

  lemma CountersLaid(cfg: Config)
    requires cfg.FullLength()
    ensures GroupLaid(cfg.Compile().places, cfg.counters, OrderOf(cfg).counter, BasesOf(cfg).counter, 1)
  {
    OrderPositions(cfg);
    forall i: nat | i < |cfg.counters|
      ensures cfg.Compile().places[OrderOf(cfg).counter + i] == Place(cfg.counters[i], i + 1, BasesOf(cfg).counter + i)
    {
      AtCounter(cfg, i);
      PlaceAt(cfg, OrderOf(cfg).counter + i);
    }
  }

  lemma ConditionsLaid(cfg: Config)
    requires cfg.FullLength()
    ensures GroupLaid(cfg.Compile().places, cfg.conditions, OrderOf(cfg).condition, BasesOf(cfg).condition, 1)
  {
    OrderPositions(cfg);
    forall i: nat | i < |cfg.conditions|
      ensures cfg.Compile().places[OrderOf(cfg).condition + i]
          == Place(cfg.conditions[i], i + 1, BasesOf(cfg).condition + i)
    {
      AtCondition(cfg, i);
      PlaceAt(cfg, OrderOf(cfg).condition + i);
    }
  }

  /** The compiled plan runs the groups in the fixed order, on their variables. */
  lemma CompiledLaid(cfg: Config)
    requires cfg.Accepted()
    ensures Laid(cfg.Compile(), cfg, BasesOf(cfg), OrderOf(cfg))
  {
    CompileValid(cfg);
    OrderPositions(cfg);
    OutputsLaid(cfg);
    InputsLaid(cfg);
    CanInputsLaid(cfg);
    CanOutputsLaid(cfg);
    VirtualInputsLaid(cfg);
    FlashersLaid(cfg);
    CountersLaid(cfg);
    ConditionsLaid(cfg);
  }

  // ----- one slot's turn

  /** The rule is the function blocks'. */
  ghost predicate IsFire(rule: Rule) {
    forall s, c, ins, now, pin {:trigger Fire(s, c, ins, now, pin)} | Fits(s, c) && |ins| == |Reads(s)| ::
      rule(s, c, ins, now, pin) == Fire(s, c, ins, now, pin)
  }

  /** A slot can run on a vector of this size. */
  predicate CanRun(s: Slot, size: nat, base: nat) {
    base + Width(s) <= size && ReadsWithin(Reads(s), size)
  }

  /** What one turn makes of a slot's memory and the variables. */
  function After(rule: Rule, s: Slot, m: Mem, vars: seq<real>, base: nat, now: int, pin: bool): (r: (Mem, seq<real>))
    ensures |r.1| == |vars|
  {
    if !CanRun(s, |vars|, base) then (m, vars)
    else
      var c := rule(s, Cell(m, vars[base..base + Width(s)]), Values(vars, Reads(s)), now, pin);
      if |c.vals| != Width(s) then (m, vars) else (c.mem, Splice(vars, base, c.vals))
  }

  lemma AfterFire(rule: Rule, s: Slot, m: Mem, vars: seq<real>, base: nat, now: int, pin: bool, c: Cell)
    requires IsFire(rule) && CanRun(s, |vars|, base) && Matches(s, m)
    requires c == Fire(s, Cell(m, vars[base..base + Width(s)]), Values(vars, Reads(s)), now, pin)
    ensures After(rule, s, m, vars, base, now, pin) == (c.mem, Splice(vars, base, c.vals))
  {
  }

  /** A slot with one variable. */
  lemma AfterOne(rule: Rule, s: Slot, m: Mem, vars: seq<real>, base: nat, now: int, pin: bool, m': Mem, v: real)
    requires IsFire(rule) && CanRun(s, |vars|, base) && Matches(s, m) && Width(s) == 1
    requires Fire(s, Cell(m, [vars[base]]), Values(vars, Reads(s)), now, pin) == Cell(m', [v])
    ensures After(rule, s, m, vars, base, now, pin) == (m', vars[base := v])
  {
    assert vars[base..base + 1] == [vars[base]];
    assert Splice(vars, base, [v]) == vars[base := v];
  }

  /** An enabled counter. */
  lemma AfterCount(rule: Rule, s: Slot, m: Mem, vars: seq<real>, base: nat, now: int, m': Mem, v: real)
    requires IsFire(rule) && s.CounterSlot? && s.enabled && CanRun(s, |vars|, base) && Matches(s, m)
    requires 0 <= s.incInput < |vars| && 0 <= s.decInput < |vars| && 0 <= s.resetInput < |vars|
    requires CounterFire(s, Cell(m, [vars[base]]), [vars[s.incInput], vars[s.decInput], vars[s.resetInput]], now)
        == Cell(m', [v])
    ensures After(rule, s, m, vars, base, now, false) == (m', vars[base := v])
  {
    assert Reads(s) == [s.incInput, s.decInput, s.resetInput];
    assert Values(vars, Reads(s)) == [vars[s.incInput], vars[s.decInput], vars[s.resetInput]];
    AfterOne(rule, s, m, vars, base, now, false, m', v);
  }

  predicate Level(pins: map<int, bool>, n: int) { n in pins && pins[n] }

  /** What the loop over a group works on. */
  datatype Part = Part(mems: seq<Mem>, vars: seq<real>)

  /** The first n slots of a group take their turns. */
  function Turns(rule: Rule, xs: seq<Slot>, part: Part, base: nat, stride: nat, now: int, pins: map<int, bool>,
                 n: nat): (r: Part)
    requires n <= |xs| == |part.mems|
    ensures |r.mems| == |part.mems| && |r.vars| == |part.vars|
  {
    if n == 0 then part
    else
      var before := Turns(rule, xs, part, base, stride, now, pins, n - 1);
      var (m, vars) := After(rule, xs[n - 1], before.mems[n - 1], before.vars, base + stride * (n - 1), now,
        Level(pins, n));
      Part(before.mems[n - 1 := m], vars)
  }

  /** Slot i of a group takes its turn. */
  function Turned(rule: Rule, s: Slot, part: Part, i: nat, base: nat, now: int, pin: bool): (r: Part)
    requires i < |part.mems|
    ensures |r.mems| == |part.mems| && |r.vars| == |part.vars|
  {
    var after := After(rule, s, part.mems[i], part.vars, base, now, pin);
    Part(part.mems[i := after.0], after.1)
  }

  /** What the loop over a group works on, before each turn and after the last. */
  ghost predicate Rota(rule: Rule, xs: seq<Slot>, parts: seq<Part>, base: nat, stride: nat, now: int,
                       pins: map<int, bool>) {
    && |parts| == |xs| + 1
    && forall i: nat | i < |xs| :: RotaAt(rule, xs, parts, base, stride, now, pins, i)
  }

  ghost predicate RotaAt(rule: Rule, xs: seq<Slot>, parts: seq<Part>, base: nat, stride: nat, now: int,
                         pins: map<int, bool>, i: nat)
    requires i < |xs| && i + 1 < |parts|
  {
    |parts[i].mems| == |xs| && parts[i + 1] == Turned(rule, xs[i], parts[i], i, base + stride * i, now,
      Level(pins, i + 1))
  }

  lemma MakeRota(rule: Rule, xs: seq<Slot>, part: Part, base: nat, stride: nat, now: int, pins: map<int, bool>)
    returns (parts: seq<Part>)
    requires |part.mems| == |xs|
    ensures Rota(rule, xs, parts, base, stride, now, pins) && parts[0] == part
    ensures parts[|xs|] == Turns(rule, xs, part, base, stride, now, pins, |xs|)
  {
    parts := seq(|xs| + 1, i requires 0 <= i <= |xs| => Turns(rule, xs, part, base, stride, now, pins, i));
    forall i: nat | i < |xs|
      ensures RotaAt(rule, xs, parts, base, stride, now, pins, i)
    {
      NextTurn(rule, xs, part, base, stride, now, pins, i);
    }
  }

  lemma NextTurn(rule: Rule, xs: seq<Slot>, part: Part, base: nat, stride: nat, now: int, pins: map<int, bool>, i: nat)
    requires i < |xs| == |part.mems|
    ensures Turns(rule, xs, part, base, stride, now, pins, i + 1)
      == Turned(rule, xs[i], Turns(rule, xs, part, base, stride, now, pins, i), i, base + stride * i, now,
        Level(pins, i + 1))
  {
  }

  /** Turn i of a rota, for a slot that can take it. */
  lemma RotaTurn(rule: Rule, xs: seq<Slot>, parts: seq<Part>, base: nat, stride: nat, now: int, pins: map<int, bool>,
                 i: nat, size: nat, b: nat, pin: bool)
    requires Rota(rule, xs, parts, base, stride, now, pins) && AllRun(xs, size, base, stride) && i < |xs|
    requires b == base + stride * i && pin == Level(pins, i + 1)
    ensures CanRun(xs[i], size, b) && |parts[i].mems| == |xs|
    ensures parts[i + 1] == Turned(rule, xs[i], parts[i], i, b, now, pin)
  {
    assert RotaAt(rule, xs, parts, base, stride, now, pins, i);
    assert CanRun(xs[i], size, base + stride * i);
  }

  /** A state whose list of memories contains a group's. */
  function With(time: int, a: seq<Mem>, part: Part, c: seq<Mem>): State {
    State(time, part.vars, a + part.mems + c)
  }

  /** One turn is the engine's step at that position. */
  lemma TurnIsRunSlot(p: Plan, t: Tick, time: int, a: seq<Mem>, part: Part, c: seq<Mem>, slot: Slot, i: nat, base: nat,
                      pin: bool)
    requires WellFormed(p, With(time, a, part, c)) && i < |part.mems|
    requires |a| + i < |p.places| && p.places[|a| + i] == Place(slot, i + 1, base)
    requires slot.DigInSlot? ==> pin == PinLevel(t, i + 1)
    ensures var r := After(p.rule, slot, part.mems[i], part.vars, base, time, pin);
      RunSlot(p, With(time, a, part, c), t, |a| + i) == With(time, a, Part(part.mems[i := r.0], r.1), c)
  {
    var s := With(time, a, part, c);
    var k := |a| + i;
    var cell := CellAt(p, s, k);
    assert s.mem[k] == part.mems[i];
    assert p.rule(slot, cell, Values(s.vars, Reads(slot)), time, pin)
      == p.rule(slot, cell, Values(s.vars, Reads(slot)), time, PinLevel(t, i + 1));
    assert Fits(slot, p.rule(slot, cell, Values(s.vars, Reads(slot)), time, pin));
    var m := After(p.rule, slot, part.mems[i], part.vars, base, time, pin).0;
    assert s.mem[k := m] == a + part.mems[i := m] + c;
  }

  /** A cycle's states, position by position. */
  ghost predicate Along(p: Plan, t: Tick, tr: seq<State>) {
    && |tr| == |p.places| + 1 && p.Valid()
    && forall k: nat | k < |p.places| :: Leads(p, t, tr, k)
  }

  ghost predicate Leads(p: Plan, t: Tick, tr: seq<State>, k: nat) {
    k < |p.places| && k + 1 < |tr| && WellFormed(p, tr[k]) && tr[k + 1] == RunSlot(p, tr[k], t, k)
  }

  lemma TurnAlong(p: Plan, t: Tick, tr: seq<State>, time: int, a: seq<Mem>, part: Part, c: seq<Mem>,
                  xs: seq<Slot>, base: nat, stride: nat, pins: map<int, bool>, n: nat)
    requires Along(p, t, tr) && GroupLaid(p.places, xs, |a|, base, stride) && 0 < n <= |xs| == |part.mems|
    requires tr[|a| + (n - 1)] == With(time, a, part, c)
    requires pins == t.pins || !xs[n - 1].DigInSlot?
    ensures
      var r := After(p.rule, xs[n - 1], part.mems[n - 1], part.vars, base + stride * (n - 1), time, Level(pins, n));
      tr[|a| + n] == With(time, a, Part(part.mems[n - 1 := r.0], r.1), c)
  {
    var i := n - 1;
    var k := |a| + i;
    assert p.places[k] == Place(xs[i], i + 1, base + stride * i);
    assert Leads(p, t, tr, k);
    TurnIsRunSlot(p, t, time, a, part, c, xs[i], i, base + stride * i, Level(pins, n));
  }

  /** The loop over a group takes the cycle past its positions. */
  lemma {:induction false} TurnsAlong(p: Plan, t: Tick, tr: seq<State>, time: int, a: seq<Mem>, part: Part, c: seq<Mem>,
                                      xs: seq<Slot>, base: nat, stride: nat, pins: map<int, bool>, n: nat)
    requires Along(p, t, tr) && GroupLaid(p.places, xs, |a|, base, stride) && n <= |xs| == |part.mems|
    requires tr[|a|] == With(time, a, part, c)
    requires pins == t.pins || forall i | 0 <= i < |xs| :: !xs[i].DigInSlot?
    ensures tr[|a| + n] == With(time, a, Turns(p.rule, xs, part, base, stride, time, pins, n), c)
  {
    if n > 0 {
      TurnsAlong(p, t, tr, time, a, part, c, xs, base, stride, pins, n - 1);
      TurnAlong(p, t, tr, time, a, Turns(p.rule, xs, part, base, stride, time, pins, n - 1), c, xs, base, stride, pins,
        n);
    }
  }

  /** Every slot of a group can run. */
  ghost predicate AllRun(xs: seq<Slot>, size: nat, base: nat, stride: nat) {
    forall i: nat | i < |xs| :: CanRun(xs[i], size, base + stride * i)
  }

  lemma GroupRuns(p: Plan, xs: seq<Slot>, lo: nat, base: nat, stride: nat)
    requires p.Valid() && GroupLaid(p.places, xs, lo, base, stride)
    ensures AllRun(xs, p.size, base, stride)
  {
    forall i: nat | i < |xs|
      ensures CanRun(xs[i], p.size, base + stride * i)
    {
      assert p.places[lo + i] == Place(xs[i], i + 1, base + stride * i);
    }
  }

  // ----- the states within a cycle

  /** The state in which position k runs. */
  ghost function Midway(p: Plan, s: State, t: Tick, k: nat): (r: State)
    requires WellFormed(p, s) && k <= |p.places|
    ensures |r.vars| == p.size
  {
    RunTo(p, DeliverFrom(p, s, t, 0), t, k)
  }

  lemma TraceIsAlong(p: Plan, d: State, t: Tick)
    requires WellFormed(p, d)
    ensures var tr := Trace(p, d, t); Along(p, t, tr) && tr[0] == d && tr[|p.places|] == RunFrom(p, d, t, 0)
  {
    TraceInOrder(p, d, t);
    var tr := Trace(p, d, t);
    forall k: nat | k < |p.places|
      ensures Leads(p, t, tr, k)
    {
      TraceStep(p, d, t, k);
    }
  }

  lemma SourcesNow(p: Plan, cfg: Config, b: Bases, o: Order, vars: seq<real>)
    requires Laid(p, cfg, b, o) && |vars| == p.size
    ensures CanFrames.SourcesIn(cfg.canOutputs, vars)
  {
    SourcesRead(p, cfg, b, o);
  }

  lemma SourcesRead(p: Plan, cfg: Config, b: Bases, o: Order)
    requires Laid(p, cfg, b, o)
    ensures forall vars: seq<real> | |vars| == p.size :: CanFrames.SourcesIn(cfg.canOutputs, vars)
  {
    forall i | 0 <= i < |cfg.canOutputs| && cfg.canOutputs[i].enabled
      ensures 0 <= cfg.canOutputs[i].input < p.size
    {
      assert p.places[o.canOut + i].slot == cfg.canOutputs[i];
      assert Reads(cfg.canOutputs[i])[0] == cfg.canOutputs[i].input;
    }
  }
}
