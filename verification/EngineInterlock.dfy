/**
 A safety property of the deployed engine configuration over all its runs: the crank
 latch is set only while the two-button chord is held and the run latch only while it
 is not, so the starter output and the engine-run output are never on together.
 */
module EngineInterlock {
  import opened Blocks
  import opened Engine
  import opened Configs
  import opened Dataflow
  import opened Transplant
  import opened Equivalence
  import opened EngineDocs
  import opened Signals
  import opened EngineRewrite

  // Positions.
  const STARTER := 0
  const WIPER := 4
  const CHORD := 74
  const START_REQ := 75
  const ARMED := 76
  const RUN_LATCH := 94
  const CRANK_LATCH := 95
  const ENGINE_RUN := 98
  const CRANKED := 99

  /** The slots the interlock is made of. */
  ghost predicate InterlockPlan(p: Plan) {
    && |p.places| == 130 && p.size == |p.owners| == 217 && p.rule == Act
    && p.places[STARTER].slot == Out(72) && p.places[STARTER].base == 87
    && p.places[WIPER].slot == Out(123) && p.places[WIPER].base == 103
    && p.places[CHORD].slot == Two(11, BOOL_AND, false, 7, BOOL_OR) && p.places[CHORD].base == 71
    && p.places[START_REQ].slot == Two(71, BOOL_AND, false, 9, BOOL_OR) && p.places[START_REQ].base == 72
    && p.places[ARMED].slot == Two(71, BOOL_AND, false, 124, BOOL_OR) && p.places[ARMED].base == 73
    && p.places[RUN_LATCH].slot == Counter(73, EDGE_FALLING, 71, EDGE_RISING, 0, EDGE_RISING, false, 0)
    && p.places[RUN_LATCH].base == 155
    && p.places[CRANK_LATCH].slot == Counter(72, EDGE_RISING, 71, EDGE_FALLING, 0, EDGE_RISING, false, 0)
    && p.places[CRANK_LATCH].base == 156
    && p.places[ENGINE_RUN].slot == AtLeastOne(155) && p.places[ENGINE_RUN].base == 123
    && p.places[CRANKED].slot == AtLeastOne(156) && p.places[CRANKED].base == 124
    && p.owners[0] == 130 && p.owners[71] == CHORD && p.owners[72] == START_REQ && p.owners[73] == ARMED
    && p.owners[155] == RUN_LATCH && p.owners[156] == CRANK_LATCH
    && p.owners[123] == ENGINE_RUN && p.owners[124] == CRANKED
  }

  lemma DeployedInterlock()
    ensures Deployed().Accepted() && Deployed().Compile().Valid() && InterlockPlan(Deployed().Compile())
  {
    var cfg := Deployed();
    DeployedAccepted();
    CompileValid(cfg);
    BoardFacts();
    PositionFacts(cfg);
    Owners(cfg, 0);
    Owners(cfg, 71);
    Owners(cfg, 72);
    Owners(cfg, 73);
    Owners(cfg, 123);
    Owners(cfg, 124);
    Owners(cfg, 155);
    Owners(cfg, 156);
  }

  /** The signals at the end of a cycle. */
  datatype Wires = Wires(chord: bool, start: bool, armed: bool, run: real, crank: real, engineRun: bool, cranked: bool)

  function SignalsOf(s: State): Wires
    requires |s.vars| == 217
  {
    Wires(Truthy(s.vars[71]), Truthy(s.vars[72]), Truthy(s.vars[73]), s.vars[155], s.vars[156],
      Truthy(s.vars[123]), Truthy(s.vars[124]))
  }

  /** What holds at the end of every cycle. */
  predicate Interlocked(g: Wires) {
    && (g.start ==> g.chord)
    && (g.armed ==> g.chord && g.crank == 1.0)
    && (g.crank == 0.0 || (g.crank == 1.0 && g.chord))
    && (g.run == 0.0 || (g.run == 1.0 && !g.chord))
    && g.engineRun == (g.run == 1.0) && g.cranked == (g.crank == 1.0)
  }

  /** The latches remember the signals they watch. */
  predicate Watches(m: Mem, inc: bool, dec: bool) {
    m.CounterMem? && m.lastInc == inc && m.lastDec == dec && !m.lastReset
  }

  ghost predicate Safe(p: Plan, s: State)
    requires InterlockPlan(p)
  {
    && WellFormed(p, s) && s.vars[0] == 0.0
    && IsMomentaryVirt(p, s, CHORD) && IsMomentaryVirt(p, s, START_REQ) && IsMomentaryVirt(p, s, ARMED)
    && Interlocked(SignalsOf(s))
    && Watches(s.mem[RUN_LATCH], SignalsOf(s).armed, SignalsOf(s).chord)
    && Watches(s.mem[CRANK_LATCH], SignalsOf(s).start, SignalsOf(s).chord)
  }

  /** The logic of one cycle, as the slots' equations give it. */
  lemma LogicStep(p: Plan, s: State, t: Tick)
    requires InterlockPlan(p) && Safe(p, s)
    ensures var m := Step(p, s, t);
      var g, h := SignalsOf(s), SignalsOf(m);
      && m.vars[0] == 0.0
      && IsMomentaryVirt(p, m, CHORD) && IsMomentaryVirt(p, m, START_REQ) && IsMomentaryVirt(p, m, ARMED)
      && (h.start ==> h.chord) && h.armed == (h.chord && g.cranked)
  {
    var m := Step(p, s, t);
    ConstantStep(p, s, t, 0);
    MomentaryVirt(p, s, t, CHORD);
    MomentaryVirt(p, s, t, START_REQ);
    MomentaryVirt(p, s, t, ARMED);
    TwoTerms(p.places[START_REQ].slot, SeenInputs(p, s, t, m, START_REQ));
    TwoTerms(p.places[ARMED].slot, SeenInputs(p, s, t, m, ARMED));
    SeenAs(p, s, t, START_REQ, 71);
    SeenAs(p, s, t, ARMED, 71);
    SeenAs(p, s, t, ARMED, 124);
  }

  lemma LatchStep(p: Plan, s: State, t: Tick)
    requires InterlockPlan(p) && Safe(p, s)
    ensures var m := Step(p, s, t);
      && Cell(m.mem[RUN_LATCH], [m.vars[155]])
        == CounterFire(p.places[RUN_LATCH].slot, Cell(s.mem[RUN_LATCH], [s.vars[155]]), [m.vars[73], m.vars[71], 0.0],
          s.time)
      && Cell(m.mem[CRANK_LATCH], [m.vars[156]])
        == CounterFire(p.places[CRANK_LATCH].slot, Cell(s.mem[CRANK_LATCH], [s.vars[156]]),
          [m.vars[72], m.vars[71], 0.0], s.time)
      && SignalsOf(m).engineRun == (m.vars[155] >= 1.0) && SignalsOf(m).cranked == (m.vars[156] >= 1.0)
  {
    var m := Step(p, s, t);
    CounterStep(p, s, t, RUN_LATCH);
    CounterStep(p, s, t, CRANK_LATCH);
    ConditionStep(p, s, t, ENGINE_RUN);
    ConditionStep(p, s, t, CRANKED);
    LatchInputs(p, s, t);
    SeenAs(p, s, t, ENGINE_RUN, 155);
    SeenAs(p, s, t, CRANKED, 156);
  }

  lemma LatchInputs(p: Plan, s: State, t: Tick)
    requires InterlockPlan(p) && Safe(p, s)
    ensures var m := Step(p, s, t);
      && SeenInputs(p, s, t, m, RUN_LATCH) == [m.vars[73], m.vars[71], 0.0]
      && SeenInputs(p, s, t, m, CRANK_LATCH) == [m.vars[72], m.vars[71], 0.0]
  {
    SeenAs(p, s, t, RUN_LATCH, 73);
    SeenAs(p, s, t, RUN_LATCH, 71);
    SeenAs(p, s, t, RUN_LATCH, 0);
    SeenAs(p, s, t, CRANK_LATCH, 72);
    SeenAs(p, s, t, CRANK_LATCH, 71);
    SeenAs(p, s, t, CRANK_LATCH, 0);
  }

  /** A latch is a counter between zero and one that is never reset. */
  lemma LatchLogic(s: CounterCfg, m: Mem, v: real, inc: real, dec: real, now: int)
    requires s.enabled && s.minCount == 0 && s.maxCount == 1 && !s.wrapAround && !s.holdToReset
        && s.resetEdge == EDGE_RISING
    requires m.CounterMem? && !m.lastReset && (v == 0.0 || v == 1.0)
    ensures var c := CounterFire(s, Cell(m, [v]), [inc, dec, 0.0], now);
      && Watches(c.mem, Truthy(inc), Truthy(dec))
      && c.vals[0] ==
           if Edge(s.decEdge, m.lastDec, Truthy(dec)) then 0.0
           else if Edge(s.incEdge, m.lastInc, Truthy(inc)) then 1.0 else v
  {
  }

  lemma StaysSafe(p: Plan, s: State, t: Tick)
    requires InterlockPlan(p) && Safe(p, s)
    ensures Safe(p, Step(p, s, t))
  {
    var m := Step(p, s, t);
    LogicStep(p, s, t);
    LatchStep(p, s, t);
    LatchLogic(p.places[RUN_LATCH].slot, s.mem[RUN_LATCH], s.vars[155], m.vars[73], m.vars[71], s.time);
    LatchLogic(p.places[CRANK_LATCH].slot, s.mem[CRANK_LATCH], s.vars[156], m.vars[72], m.vars[71], s.time);
  }

  lemma {:induction false} AlwaysSafe(p: Plan, ticks: seq<Tick>)
    requires p.Valid() && InterlockPlan(p)
    ensures Safe(p, Run(p, ticks))
  {
    if |ticks| > 0 {
      AlwaysSafe(p, ticks[..|ticks| - 1]);
      StaysSafe(p, Run(p, ticks[..|ticks| - 1]), ticks[|ticks| - 1]);
    }
  }

  /** At the end of every cycle of every run: crank latch set implies chord, run latch set
      implies no chord. */
  lemma LatchesExclude(ticks: seq<Tick>)
    ensures Deployed().Accepted() && Deployed().Compile().Valid() && |Run(Deployed().Compile(), ticks).vars| == 217
    ensures var g := SignalsOf(Run(Deployed().Compile(), ticks));
      (g.crank == 0.0 || (g.crank == 1.0 && g.chord)) && (g.run == 0.0 || (g.run == 1.0 && !g.chord))
  {
    DeployedInterlock();
    AlwaysSafe(Deployed().Compile(), ticks);
  }

  /** The two outputs show last cycle's START_REQ and ENGINE_RUN. */
  lemma OutputsExclude(p: Plan, ticks: seq<Tick>)
    requires p.Valid() && InterlockPlan(p)
    ensures Run(p, ticks).vars[87] == 0.0 || Run(p, ticks).vars[103] == 0.0
  {
    if |ticks| > 0 {
      var s, t := Run(p, ticks[..|ticks| - 1]), ticks[|ticks| - 1];
      AlwaysSafe(p, ticks[..|ticks| - 1]);
      OutputStep(p, s, t, STARTER);
      OutputStep(p, s, t, WIPER);
      SeenAs(p, s, t, STARTER, 72);
      SeenAs(p, s, t, WIPER, 123);
    }
  }

  /** Pin n shows its output's active variable. */
  lemma PinShown(k: nat, s: State)
    requires k < 8 && Deployed().Accepted() && WellFormed(Deployed().Compile(), s)
    ensures var p := Deployed().Compile();
      k < |p.places| && OutKey(k + 1) in Observe(p, s) && Observe(p, s)[OutKey(k + 1)] == s.vars[p.places[k].base]
  {
    var p := Deployed().Compile();
    PositionFacts(Deployed());
    ObservedPositions(k);
    OutputNumbers(k);
    forall j | k < j < |p.places| && Observed(p, j)
      ensures KeyOf(p, j) != KeyOf(p, k)
    {
      OutputNumbers(j);
    }
    ObservedValue(p, s, |p.places|, k);
  }

  lemma OutputNumbers(k: nat)
    requires k < 130
    ensures Deployed().Length() == 130
    ensures Deployed().NumberAt(k) == k + 1 || k >= 8
    ensures Deployed().SlotAt(k).OutputSlot? <==> k < 8
  {
    PositionFacts(Deployed());
  }

  lemma PinsShown(p: Plan, s: State)
    requires Deployed().Accepted() && p == Deployed().Compile() && InterlockPlan(p) && WellFormed(p, s)
    ensures var o := Observe(p, s);
      OutKey(1) in o && OutKey(5) in o && o[OutKey(1)] == s.vars[87] && o[OutKey(5)] == s.vars[103]
  {
    PinShown(STARTER, s);
    PinShown(WIPER, s);
  }

  /** In no cycle of no run are output 1 (starter) and output 5 (engine run) both on. */
  lemma StarterAndRunExclude(ticks: seq<Tick>)
    ensures Deployed().Accepted() && Deployed().Compile().Valid()
    ensures var o := View(Deployed().Compile(), ticks);
      OutKey(1) in o && OutKey(5) in o && (o[OutKey(1)] == 0.0 || o[OutKey(5)] == 0.0)
  {
    DeployedInterlock();
    var p := Deployed().Compile();
    OutputsExclude(p, ticks);
    PinsShown(p, Run(p, ticks));
  }

  /** The rewrite inherits it. */
  lemma ReferenceExcludes(ticks: seq<Tick>)
    ensures Reference().Accepted() && Reference().Compile().Valid()
    ensures var o := View(Reference().Compile(), ticks);
      OutKey(1) in o && OutKey(5) in o && (o[OutKey(1)] == 0.0 || o[OutKey(5)] == 0.0)
  {
    StarterAndRunExclude(ticks);
    ReferenceIsEquivalent(ticks);
  }
}
