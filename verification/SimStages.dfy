/**
 The loops over the groups, one after another, as the engine's pass over all positions.
 */
module SimStages {
  import opened Blocks
  import opened Engine
  import opened Configs
  import opened Dataflow
  import opened RxLoop
  import opened SimLayout
  import opened SimLists

  /** The memories of all slots, group by group. */
  datatype Memories = Memories(outs: seq<Mem>, dins: seq<Mem>, cins: seq<Mem>, samples: seq<Mem>, virts: seq<Mem>,
                               flashers: seq<Mem>, counters: seq<Mem>, conditions: seq<Mem>)
  {
    function Flat(): seq<Mem> {
      outs + dins + cins + samples + virts + flashers + counters + conditions
    }
  }

  /** The plan is the configuration's, laid out and with the function blocks' rule. */
  ghost predicate Consistent(p: Plan, cfg: Config, b: Bases, o: Order, rule: Rule, take: Taker) {
    Laid(p, cfg, b, o) && rule == p.rule && IsFire(rule) && IsReceive(take)
  }

  // ----- a group's loop, on the whole state

  lemma GroupAlong(p: Plan, t: Tick, tr: seq<State>, s: State, a: seq<Mem>, mems: seq<Mem>, c: seq<Mem>, flat: seq<Mem>,
                   xs: seq<Slot>, lo: nat, base: nat, stride: nat, pins: map<int, bool>, r: Part)
    requires Along(p, t, tr) && |xs| == |mems| && lo == |a| && GroupLaid(p.places, xs, lo, base, stride)
    requires pins == t.pins || forall i | 0 <= i < |xs| :: !xs[i].DigInSlot?
    requires s == tr[lo] && s.mem == a + mems + c && flat == a + r.mems + c
    requires r == Turns(p.rule, xs, Part(mems, s.vars), base, stride, s.time, pins, |xs|)
    ensures tr[lo + |xs|] == State(s.time, r.vars, flat)
  {
    TurnsAlong(p, t, tr, s.time, a, Part(mems, s.vars), c, xs, base, stride, pins, |xs|);
  }

  lemma OutsFlat(ms: Memories, mems: seq<Mem>)
    ensures var a, c: seq<Mem> := [], ms.dins + ms.cins + ms.samples + ms.virts + ms.flashers + ms.counters
        + ms.conditions;
      ms.Flat() == a + ms.outs + c && ms.(outs := mems).Flat() == a + mems + c
  {
  }

  lemma OutsAlong(p: Plan, t: Tick, tr: seq<State>, s: State, ms: Memories, xs: seq<Slot>, lo: nat, hi: nat, base: nat,
                  r: Part, next: Memories)
    requires Along(p, t, tr) && |xs| == |ms.outs| && lo == 0 && GroupLaid(p.places, xs, lo, base, 4)
    requires forall i | 0 <= i < |xs| :: !xs[i].DigInSlot?
    requires hi == lo + |xs| && s == tr[lo] && s.mem == ms.Flat() && next == ms.(outs := r.mems)
    requires r == Turns(p.rule, xs, Part(ms.outs, s.vars), base, 4, s.time, map[], |xs|)
    ensures tr[hi] == State(s.time, r.vars, next.Flat())
  {
    OutsFlat(ms, r.mems);
    GroupAlong(p, t, tr, s, [], ms.outs, ms.dins + ms.cins + ms.samples + ms.virts + ms.flashers + ms.counters
      + ms.conditions, next.Flat(), xs, lo, base, 4, map[], r);
  }

  lemma DinsFlat(ms: Memories, mems: seq<Mem>)
    ensures var a, c: seq<Mem> := ms.outs, ms.cins + ms.samples + ms.virts + ms.flashers + ms.counters + ms.conditions;
      ms.Flat() == a + ms.dins + c && ms.(dins := mems).Flat() == a + mems + c
  {
  }

  lemma DinsAlong(p: Plan, t: Tick, tr: seq<State>, s: State, ms: Memories, xs: seq<Slot>, lo: nat, hi: nat, base: nat,
                  r: Part, next: Memories)
    requires Along(p, t, tr) && |xs| == |ms.dins| && lo == |ms.outs| && GroupLaid(p.places, xs, lo, base, 1)
    requires hi == lo + |xs| && s == tr[lo] && s.mem == ms.Flat() && next == ms.(dins := r.mems)
    requires r == Turns(p.rule, xs, Part(ms.dins, s.vars), base, 1, s.time, t.pins, |xs|)
    ensures tr[hi] == State(s.time, r.vars, next.Flat())
  {
    DinsFlat(ms, r.mems);
    GroupAlong(p, t, tr, s, ms.outs, ms.dins, ms.cins + ms.samples + ms.virts + ms.flashers + ms.counters
      + ms.conditions, next.Flat(), xs, lo, base, 1, t.pins, r);
  }

  lemma CinsFlat(ms: Memories, mems: seq<Mem>)
    ensures var a, c: seq<Mem> := ms.outs + ms.dins, ms.samples + ms.virts + ms.flashers + ms.counters + ms.conditions;
      ms.Flat() == a + ms.cins + c && ms.(cins := mems).Flat() == a + mems + c
  {
  }

  lemma CinsAlong(p: Plan, t: Tick, tr: seq<State>, s: State, ms: Memories, xs: seq<Slot>, lo: nat, hi: nat, base: nat,
                  r: Part, next: Memories)
    requires Along(p, t, tr) && |xs| == |ms.cins| && lo == |ms.outs| + |ms.dins| && GroupLaid(p.places, xs, lo, base, 2)
    requires forall i | 0 <= i < |xs| :: !xs[i].DigInSlot?
    requires hi == lo + |xs| && s == tr[lo] && s.mem == ms.Flat() && next == ms.(cins := r.mems)
    requires r == Turns(p.rule, xs, Part(ms.cins, s.vars), base, 2, s.time, map[], |xs|)
    ensures tr[hi] == State(s.time, r.vars, next.Flat())
  {
    CinsFlat(ms, r.mems);
    GroupAlong(p, t, tr, s, ms.outs + ms.dins, ms.cins, ms.samples + ms.virts + ms.flashers + ms.counters
      + ms.conditions, next.Flat(), xs, lo, base, 2, map[], r);
  }

  lemma SamplesFlat(ms: Memories, mems: seq<Mem>)
    ensures var a, c: seq<Mem> := ms.outs + ms.dins + ms.cins, ms.virts + ms.flashers + ms.counters + ms.conditions;
      ms.Flat() == a + ms.samples + c && ms.(samples := mems).Flat() == a + mems + c
  {
  }

  lemma SamplesAlong(p: Plan, t: Tick, tr: seq<State>, s: State, ms: Memories, xs: seq<Slot>, lo: nat, hi: nat,
                     base: nat, r: Part, next: Memories)
    requires Along(p, t, tr) && |xs| == |ms.samples| && lo == |ms.outs| + |ms.dins| + |ms.cins|
        && GroupLaid(p.places, xs, lo, base, 0)
    requires forall i | 0 <= i < |xs| :: !xs[i].DigInSlot?
    requires hi == lo + |xs| && s == tr[lo] && s.mem == ms.Flat() && next == ms.(samples := r.mems)
    requires r == Turns(p.rule, xs, Part(ms.samples, s.vars), base, 0, s.time, map[], |xs|)
    ensures tr[hi] == State(s.time, r.vars, next.Flat())
  {
    SamplesFlat(ms, r.mems);
    GroupAlong(p, t, tr, s, ms.outs + ms.dins + ms.cins, ms.samples,
      ms.virts + ms.flashers + ms.counters + ms.conditions, next.Flat(), xs, lo, base, 0, map[], r);
  }

  lemma VirtsFlat(ms: Memories, mems: seq<Mem>)
    ensures var a, c: seq<Mem> := ms.outs + ms.dins + ms.cins + ms.samples, ms.flashers + ms.counters + ms.conditions;
      ms.Flat() == a + ms.virts + c && ms.(virts := mems).Flat() == a + mems + c
  {
  }

  lemma VirtsAlong(p: Plan, t: Tick, tr: seq<State>, s: State, ms: Memories, xs: seq<Slot>, lo: nat, hi: nat,
                   base: nat, r: Part, next: Memories)
    requires Along(p, t, tr) && |xs| == |ms.virts| && lo == |ms.outs| + |ms.dins| + |ms.cins| + |ms.samples|
        && GroupLaid(p.places, xs, lo, base, 1)
    requires forall i | 0 <= i < |xs| :: !xs[i].DigInSlot?
    requires hi == lo + |xs| && s == tr[lo] && s.mem == ms.Flat() && next == ms.(virts := r.mems)
    requires r == Turns(p.rule, xs, Part(ms.virts, s.vars), base, 1, s.time, map[], |xs|)
    ensures tr[hi] == State(s.time, r.vars, next.Flat())
  {
    VirtsFlat(ms, r.mems);
    GroupAlong(p, t, tr, s, ms.outs + ms.dins + ms.cins + ms.samples, ms.virts,
      ms.flashers + ms.counters + ms.conditions, next.Flat(), xs, lo, base, 1, map[], r);
  }

  lemma FlashersFlat(ms: Memories, mems: seq<Mem>)
    ensures var a, c: seq<Mem> := ms.outs + ms.dins + ms.cins + ms.samples + ms.virts, ms.counters + ms.conditions;
      ms.Flat() == a + ms.flashers + c && ms.(flashers := mems).Flat() == a + mems + c
  {
  }

  lemma FlashersAlong(p: Plan, t: Tick, tr: seq<State>, s: State, ms: Memories, xs: seq<Slot>, lo: nat, hi: nat,
                      base: nat, r: Part, next: Memories)
    requires Along(p, t, tr) && |xs| == |ms.flashers| && lo == |ms.outs| + |ms.dins| + |ms.cins| + |ms.samples|
        + |ms.virts| && GroupLaid(p.places, xs, lo, base, 1)
    requires forall i | 0 <= i < |xs| :: !xs[i].DigInSlot?
    requires hi == lo + |xs| && s == tr[lo] && s.mem == ms.Flat() && next == ms.(flashers := r.mems)
    requires r == Turns(p.rule, xs, Part(ms.flashers, s.vars), base, 1, s.time, map[], |xs|)
    ensures tr[hi] == State(s.time, r.vars, next.Flat())
  {
    FlashersFlat(ms, r.mems);
    GroupAlong(p, t, tr, s, ms.outs + ms.dins + ms.cins + ms.samples + ms.virts, ms.flashers,
      ms.counters + ms.conditions, next.Flat(), xs, lo, base, 1, map[], r);
  }

  lemma CountersFlat(ms: Memories, mems: seq<Mem>)
    ensures var a, c: seq<Mem> := ms.outs + ms.dins + ms.cins + ms.samples + ms.virts + ms.flashers, ms.conditions;
      ms.Flat() == a + ms.counters + c && ms.(counters := mems).Flat() == a + mems + c
  {
  }

  lemma CountersAlong(p: Plan, t: Tick, tr: seq<State>, s: State, ms: Memories, xs: seq<Slot>, lo: nat, hi: nat,
                      base: nat, r: Part, next: Memories)
    requires Along(p, t, tr) && |xs| == |ms.counters| && lo == |ms.outs| + |ms.dins| + |ms.cins| + |ms.samples|
        + |ms.virts| + |ms.flashers| && GroupLaid(p.places, xs, lo, base, 1)
    requires forall i | 0 <= i < |xs| :: !xs[i].DigInSlot?
    requires hi == lo + |xs| && s == tr[lo] && s.mem == ms.Flat() && next == ms.(counters := r.mems)
    requires r == Turns(p.rule, xs, Part(ms.counters, s.vars), base, 1, s.time, map[], |xs|)
    ensures tr[hi] == State(s.time, r.vars, next.Flat())
  {
    CountersFlat(ms, r.mems);
    GroupAlong(p, t, tr, s, ms.outs + ms.dins + ms.cins + ms.samples + ms.virts + ms.flashers, ms.counters,
      ms.conditions, next.Flat(), xs, lo, base, 1, map[], r);
  }

  lemma ConditionsFlat(ms: Memories, mems: seq<Mem>)
    ensures var a, c: seq<Mem> := ms.outs + ms.dins + ms.cins + ms.samples + ms.virts + ms.flashers + ms.counters, [];
      ms.Flat() == a + ms.conditions + c && ms.(conditions := mems).Flat() == a + mems + c
  {
  }

  lemma ConditionsAlong(p: Plan, t: Tick, tr: seq<State>, s: State, ms: Memories, xs: seq<Slot>, lo: nat, hi: nat,
                        base: nat, r: Part, next: Memories)
    requires Along(p, t, tr) && |xs| == |ms.conditions| && lo == |ms.outs| + |ms.dins| + |ms.cins| + |ms.samples|
        + |ms.virts| + |ms.flashers| + |ms.counters| && GroupLaid(p.places, xs, lo, base, 1)
    requires forall i | 0 <= i < |xs| :: !xs[i].DigInSlot?
    requires hi == lo + |xs| && s == tr[lo] && s.mem == ms.Flat() && next == ms.(conditions := r.mems)
    requires r == Turns(p.rule, xs, Part(ms.conditions, s.vars), base, 1, s.time, map[], |xs|)
    ensures tr[hi] == State(s.time, r.vars, next.Flat())
  {
    ConditionsFlat(ms, r.mems);
    GroupAlong(p, t, tr, s, ms.outs + ms.dins + ms.cins + ms.samples + ms.virts + ms.flashers + ms.counters,
      ms.conditions, [], next.Flat(), xs, lo, base, 1, map[], r);
  }

  /** Draining the received frames, on the whole state. */
  lemma CinsDelivered(p: Plan, take: Taker, t: Tick, s: State, ms: Memories, xs: seq<Slot>, lo: nat, base: nat, r: Part,
                      next: Memories)
    requires IsReceive(take) && WellFormed(p, s) && |xs| == |ms.cins| && lo == |ms.outs| + |ms.dins|
    requires GroupLaid(p.places, xs, lo, base, 2) && Receivers(p, lo, |xs|)
    requires forall k | 0 <= k < |p.places| && p.places[k].slot.CanInSlot? :: lo <= k < lo + |xs|
    requires s.mem == ms.Flat() && next == ms.(cins := r.mems)
    requires r == Drained(take, xs, Part(ms.cins, s.vars), base, t.rx, t.extIde, s.time, |t.rx|)
    ensures DeliverFrom(p, s, t, 0) == State(s.time, r.vars, next.Flat())
  {
    CinsFlat(ms, r.mems);
    DrainedIsDelivery(p, take, s, t, ms.outs + ms.dins, Part(ms.cins, s.vars),
      ms.samples + ms.virts + ms.flashers + ms.counters + ms.conditions, xs, base);
  }

  /** A cycle is reception, then every position's turn, then the tick of the clock. */
  lemma CycleAlong(p: Plan, s: State, t: Tick, tr: seq<State>)
    requires WellFormed(p, s) && tr == Trace(p, DeliverFrom(p, s, t, 0), t)
    ensures Along(p, t, tr) && tr[0] == DeliverFrom(p, s, t, 0)
    ensures Engine.Step(p, s, t) == tr[|p.places|].(time := tr[|p.places|].time + CYCLE_MS)
    ensures forall k | 0 <= k <= |p.places| :: tr[k] == Midway(p, s, t, k)
  {
    TraceIsAlong(p, DeliverFrom(p, s, t, 0), t);
  }

  predicate PoweredOn(xs: seq<Slot>, ms: seq<Mem>) {
    |ms| == |xs| && forall i: nat | i < |xs| :: ms[i] == PowerOn(xs[i])
  }

  predicate AllPoweredOn(places: seq<Place>, mem: seq<Mem>) {
    |mem| == |places| && forall k | 0 <= k < |places| :: mem[k] == PowerOn(places[k].slot)
  }

  lemma GroupAtPowerOn(places: seq<Place>, mem: seq<Mem>, done: seq<Mem>, lo: nat, xs: seq<Slot>, base: nat,
                       stride: nat, ms: seq<Mem>)
    requires AllPoweredOn(places, mem) && lo == |done| && GroupLaid(places, xs, lo, base, stride) && PoweredOn(xs, ms)
        && done <= mem
    ensures done + ms <= mem
  {
    forall i: nat | i < |ms|
      ensures mem[lo + i] == ms[i]
    {
      assert places[lo + i].slot == xs[i];
    }
  }

  // Lists of zeros hold powered-on slots.

  lemma OutsPoweredOn(xs: seq<OutputCfg>, outState: seq<int>)
    requires |outState| == |xs| && forall i | 0 <= i < |xs| :: outState[i] == 0
    ensures PoweredOn(xs, OutMems(outState))
  {
  }

  predicate AllOff(ls: seq<Latch>) {
    forall i | 0 <= i < |ls| :: ls[i] == Latch(false, false)
  }

  lemma DinsPoweredOn(xs: seq<DigInCfg>, ls: seq<Latch>)
    requires |ls| == |xs| && AllOff(ls)
    ensures var f := Nos(|xs|); PoweredOn(xs, DinMems(ls, f, f, Zeros(|xs|), f))
  {
  }

  lemma CinsPoweredOn(xs: seq<CanInCfg>, ls: seq<Latch>)
    requires |ls| == |xs| && AllOff(ls)
    ensures PoweredOn(xs, CinMems(ls, Zeros(|xs|)))
  {
  }

  lemma SamplesPoweredOn(xs: seq<CanOutCfg>)
    ensures PoweredOn(xs, SampleMems(seq(|xs|, _ => 0.0)))
  {
  }

  lemma VirtsPoweredOn(xs: seq<VirtCfg>, ls: seq<Latch>)
    requires |ls| == |xs| && AllOff(ls)
    ensures PoweredOn(xs, ViMems(ls))
  {
  }

  lemma FlashersPoweredOn(xs: seq<FlasherCfg>)
    ensures PoweredOn(xs, FlMems(Zeros(|xs|), Zeros(|xs|)))
  {
  }

  lemma CountersPoweredOn(xs: seq<CounterCfg>)
    ensures var f := Nos(|xs|); PoweredOn(xs, CtMems(f, f, f, map[], map[]))
  {
  }

  /** At power-on the groups together hold what the engine's memories are. */
  lemma PowerOnIsInit(p: Plan, cfg: Config, b: Bases, o: Order, ms: Memories)
    requires Laid(p, cfg, b, o)
    requires PoweredOn(cfg.outputs, ms.outs) && PoweredOn(cfg.inputs, ms.dins) && PoweredOn(cfg.canInputs, ms.cins)
    requires PoweredOn(cfg.canOutputs, ms.samples) && PoweredOn(cfg.virtualInputs, ms.virts)
    requires PoweredOn(cfg.flashers, ms.flashers) && PoweredOn(cfg.counters, ms.counters)
    requires PoweredOn(cfg.conditions, ms.conditions)
    ensures Init(p).mem == ms.Flat()
  {
    var places, mem := p.places, Init(p).mem;
    assert AllPoweredOn(places, mem);
    GroupAtPowerOn(places, mem, [], 0, cfg.outputs, b.output, 4, ms.outs);
    assert [] + ms.outs == ms.outs;
    GroupAtPowerOn(places, mem, ms.outs, o.digIn, cfg.inputs, b.digIn, 1, ms.dins);
    var a := ms.outs + ms.dins;
    GroupAtPowerOn(places, mem, a, o.canIn, cfg.canInputs, b.canIn, 2, ms.cins);
    GroupAtPowerOn(places, mem, a + ms.cins, o.canOut, cfg.canOutputs, 0, 0, ms.samples);
    var d := a + ms.cins + ms.samples;
    GroupAtPowerOn(places, mem, d, o.virt, cfg.virtualInputs, b.virtIn, 1, ms.virts);
    GroupAtPowerOn(places, mem, d + ms.virts, o.flasher, cfg.flashers, b.flasher, 1, ms.flashers);
    var e := d + ms.virts + ms.flashers;
    GroupAtPowerOn(places, mem, e, o.counter, cfg.counters, b.counter, 1, ms.counters);
    GroupAtPowerOn(places, mem, e + ms.counters, o.condition, cfg.conditions, b.condition, 1, ms.conditions);
  }

  ghost function Offs(n: nat): seq<Latch> { seq(n, _ => Latch(false, false)) }

  function Nos(n: nat): seq<bool> { seq(n, _ => false) }

  function Zeros(n: nat): seq<int> { seq(n, _ => 0) }

  /** Variables at power-on: AlwaysTrue is 1. */
  function FirstVars(n: nat): seq<real> { seq(n, y => if y == 1 then 1.0 else 0.0) }

  /** The memories of lists full of zeros. */
  ghost function ZeroMemories(cfg: Config): Memories {
    var d, f, c := |cfg.inputs|, |cfg.flashers|, |cfg.counters|;
    Memories(OutMems(Zeros(|cfg.outputs|)), DinMems(Offs(d), Nos(d), Nos(d), Zeros(d), Nos(d)),
             CinMems(Offs(|cfg.canInputs|), Zeros(|cfg.canInputs|)), SampleMems(seq(|cfg.canOutputs|, _ => 0.0)),
             ViMems(Offs(|cfg.virtualInputs|)), FlMems(Zeros(f), Zeros(f)),
               CtMems(Nos(c), Nos(c), Nos(c), map[], map[]),
             seq(|cfg.conditions|, _ => ConditionMem))
  }

  lemma ZeroIsInit(p: Plan, cfg: Config, b: Bases, o: Order)
    requires Laid(p, cfg, b, o)
    ensures Init(p) == State(0, FirstVars(p.size), ZeroMemories(cfg).Flat())
  {
    OutsPoweredOn(cfg.outputs, Zeros(|cfg.outputs|));
    DinsPoweredOn(cfg.inputs, Offs(|cfg.inputs|));
    CinsPoweredOn(cfg.canInputs, Offs(|cfg.canInputs|));
    SamplesPoweredOn(cfg.canOutputs);
    VirtsPoweredOn(cfg.virtualInputs, Offs(|cfg.virtualInputs|));
    FlashersPoweredOn(cfg.flashers);
    CountersPoweredOn(cfg.counters);
    PowerOnIsInit(p, cfg, b, o, ZeroMemories(cfg));
  }

  lemma OffLatches(ls: seq<InputLatch>)
    requires forall i | 0 <= i < |ls| :: ls[i].Value() == Latch(false, false)
    ensures LatchesOf(ls) == Offs(|ls|)
  {
  }

  lemma ActIsFire()
    ensures IsFire(Act)
  {
  }

  lemma TakeIsReceive()
    ensures IsReceive(Take)
  {
  }

  // ----- observation, group by group

  /** What is seen of the first k positions, for each k. */
  ghost predicate Show(p: Plan, s: State, seen: seq<map<ObsKey, real>>) {
    WellFormed(p, s) && |seen| == |p.places| + 1 && forall k: nat | k < |seen| :: ShowAt(p, s, seen, k)
  }

  ghost predicate ShowAt(p: Plan, s: State, seen: seq<map<ObsKey, real>>, k: nat)
    requires WellFormed(p, s) && k < |seen| <= |p.places| + 1
  {
    seen[k] == ObserveUpTo(p, s, k)
  }

  lemma MakeShow(p: Plan, s: State) returns (seen: seq<map<ObsKey, real>>)
    requires WellFormed(p, s)
    ensures Show(p, s, seen) && seen[0] == map[]
  {
    seen := seq(|p.places| + 1, k requires 0 <= k <= |p.places| => ObserveUpTo(p, s, k));
    forall k: nat | k < |seen|
      ensures ShowAt(p, s, seen, k)
    {
    }
  }

  lemma OutputShown(p: Plan, cfg: Config, b: Bases, o: Order, s: State, seen: seq<map<ObsKey, real>>, i: nat)
    requires Laid(p, cfg, b, o) && Show(p, s, seen) && i < |cfg.outputs|
    ensures b.output + 4 * i < |s.vars| && i + 1 < |seen|
    ensures seen[i + 1] == seen[i][OutKey(i + 1) := s.vars[b.output + 4 * i]]
  {
    assert p.places[0 + i] == Place(cfg.outputs[i], i + 1, b.output + 4 * i);
    assert ShowAt(p, s, seen, i) && ShowAt(p, s, seen, i + 1);
  }

  lemma CanOutputShown(p: Plan, cfg: Config, b: Bases, o: Order, s: State, seen: seq<map<ObsKey, real>>, i: nat,
                       k: nat, m: Mem)
    requires Laid(p, cfg, b, o) && Show(p, s, seen) && i < |cfg.canOutputs| && k == o.canOut + i
    requires k < |s.mem| && m == s.mem[k]
    ensures m.SampleMem? && k + 1 < |seen|
    ensures var c := cfg.canOutputs[i];
      seen[k + 1] == if c.enabled then seen[k][CanKey(c.ide, c.id, c.startBit, c.bitLength) := m.sample] else seen[k]
  {
    assert p.places[o.canOut + i] == Place(cfg.canOutputs[i], i + 1, 0 + 0 * i);
    assert ShowAt(p, s, seen, k) && ShowAt(p, s, seen, k + 1);
  }

  lemma {:induction false} HiddenRange(p: Plan, s: State, lo: nat, hi: nat)
    requires WellFormed(p, s) && lo <= hi <= |p.places| && forall k | lo <= k < hi :: !Observed(p, k)
    ensures ObserveUpTo(p, s, hi) == ObserveUpTo(p, s, lo)
  {
    if lo < hi { HiddenRange(p, s, lo, hi - 1); }
  }

  /** Between the outputs and the CAN outputs nothing is observed. */
  lemma NothingShown(p: Plan, cfg: Config, b: Bases, o: Order, s: State, seen: seq<map<ObsKey, real>>)
    requires Laid(p, cfg, b, o) && Show(p, s, seen)
    ensures o.digIn <= o.canOut < |seen| && seen[o.canOut] == seen[o.digIn]
  {
    forall k | o.digIn <= k < o.canOut
      ensures !Observed(p, k)
    {
      if k < o.canIn { assert p.places[o.digIn + (k - o.digIn)].slot == cfg.inputs[k - o.digIn]; }
      else { assert p.places[o.canIn + (k - o.canIn)].slot == cfg.canInputs[k - o.canIn]; }
    }
    HiddenRange(p, s, o.digIn, o.canOut);
    assert ShowAt(p, s, seen, o.digIn) && ShowAt(p, s, seen, o.canOut);
  }

  /** Nor after the CAN outputs. */
  lemma LogicHidden(p: Plan, cfg: Config, b: Bases, o: Order, s: State, seen: seq<map<ObsKey, real>>)
    requires Laid(p, cfg, b, o) && Show(p, s, seen)
    ensures o.virt < |seen| && seen[o.virt] == Engine.Observe(p, s)
  {
    forall k | o.virt <= k < o.end
      ensures !Observed(p, k)
    {
      if k < o.flasher { assert p.places[o.virt + (k - o.virt)].slot == cfg.virtualInputs[k - o.virt]; }
      else if k < o.counter { assert p.places[o.flasher + (k - o.flasher)].slot == cfg.flashers[k - o.flasher]; }
      else if k < o.condition { assert p.places[o.counter + (k - o.counter)].slot == cfg.counters[k - o.counter]; }
      else { assert p.places[o.condition + (k - o.condition)].slot == cfg.conditions[k - o.condition]; }
    }
    HiddenRange(p, s, o.virt, o.end);
    assert ShowAt(p, s, seen, o.virt);
  }
}
