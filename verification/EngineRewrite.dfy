/**
 The deployed engine configuration and its rewrite are the same program: for every
 stimulus of any length both devices show the same.

 The proof goes half way first. Renumbering the virtual inputs is a correspondence of
 plans. Re-expressing the heater's reset is not: the two counters remember different
 things. A Falling reset on ENGINE_RUN holds once ENGINE_RUN has been high; a Rising
 reset on NOT_ENGINE_RUN holds from the start. They agree because until ENGINE_RUN is
 high nothing can press the heater switch through.
 */
module EngineRewrite {
  import opened Boards
  import opened Blocks
  import opened Engine
  import opened Configs
  import opened Dataflow
  import opened Transplant
  import opened Equivalence
  import opened EngineDocs
  import opened Signals

  // ----- the variables the documents use

  predicate UsedVar(x: int) {
    x == 0 || x == 1 || x == 5 || x == 6 || x == 7 || x == 9 || x == 11
    || 71 <= x < 81 || 123 <= x < 126 || 155 <= x < 158
  }

  function OwnerOf(x: int): nat
    requires UsedVar(x)
  {
    if x < 2 then 130
    else if x < 7 then x + 3
    else if x < 12 then 10 + (x - 7) / 2
    else if x < 81 then x + 3
    else if x < 126 then x - 25
    else x - 61
  }

  lemma Owners(cfg: Config, x: int)
    requires cfg.FullLength() && cfg.board == DINGOPDM_V7 && UsedVar(x)
    ensures |cfg.Compile().owners| == 217 && |cfg.Compile().places| == 130
    ensures cfg.Compile().owners[x] == OwnerOf(x)
    ensures OwnerOf(x) < 130 ==> cfg.Compile().places[OwnerOf(x)].base == x
  {
    BoardFacts();
    PositionFacts(cfg);
  }

  // ----- renumbering

  predicate Live(k: nat) { k < 13 || 42 <= k < 46 || 74 <= k < 83 || 94 <= k < 97 || 98 <= k < 101 }

  /** The rewrite puts NOT_ENGINE_RUN first and shifts the other virtual inputs up. */
  function Shift(k: nat): nat { if 74 <= k < 83 then k + 1 else k }

  function ShiftVar(x: int): int { if 71 <= x < 80 then x + 1 else x }

  function Correspondence(): map<nat, nat> { map k: nat | k < 130 && Live(k) :: Shift(k) }

  /** t is s with its references shifted. */
  predicate ShiftedSlot(s: Slot, t: Slot) {
    && Erase(s) == Erase(t) && |Reads(s)| == |Reads(t)|
    && forall j | 0 <= j < |Reads(s)| ::
      UsedVar(Reads(s)[j]) && Reads(s)[j] != 80 && Reads(t)[j] == ShiftVar(Reads(s)[j])
  }

  /** Slot by slot, the documents agree up to the shift. */
  lemma SlotsShifted(k: nat)
    requires Live(k)
    ensures k < Deployed().Length() && Shift(k) < Renumbered().Length()
    ensures ShiftedSlot(Deployed().SlotAt(k), Renumbered().SlotAt(Shift(k)))
  {
    PositionFacts(Deployed());
    PositionFacts(Renumbered());
    if k < 46 {
      FirstSlotsShifted(k);
    } else if k < 83 {
      VirtSlotsShifted(k - 74);
    } else {
      LastSlotsShifted(k);
    }
  }

  lemma FirstSlotsShifted(k: nat)
    requires Live(k) && k < 46
    ensures k < Deployed().Length() && k < Renumbered().Length()
    ensures ShiftedSlot(Deployed().SlotAt(k), Renumbered().SlotAt(k))
  {
    PositionFacts(Deployed());
    PositionFacts(Renumbered());
  }

  lemma VirtSlotsShifted(i: nat)
    requires i < 9
    ensures ShiftedSlot(Deployed().virtualInputs[i], Renumbered().virtualInputs[i + 1])
  {
  }

  lemma LastSlotsShifted(k: nat)
    requires Live(k) && 83 <= k
    ensures k < Deployed().Length() && k < Renumbered().Length()
    ensures ShiftedSlot(Deployed().SlotAt(k), Renumbered().SlotAt(k))
  {
    PositionFacts(Deployed());
    PositionFacts(Renumbered());
  }

  lemma ReadShifted(p: Plan, q: Plan, i: nat, x: int)
    requires p == Deployed().Compile() && q == Renumbered().Compile()
    requires Live(i) && UsedVar(x) && x != 80
    ensures UsedVar(ShiftVar(x)) && |p.owners| == p.size && |q.owners| == q.size
    ensures x < p.size && ShiftVar(x) < q.size
    ensures SameRead(p, q, Correspondence(), i, x, ShiftVar(x))
  {
    Owners(Deployed(), x);
    Owners(Renumbered(), ShiftVar(x));
    BoardFacts();
    OwnersShifted(x);
  }

  lemma OwnersShifted(x: int)
    requires UsedVar(x) && x != 80
    ensures UsedVar(ShiftVar(x))
    ensures OwnerOf(x) == 130 ==> ShiftVar(x) == x
    ensures OwnerOf(x) != 130 ==> Live(OwnerOf(x)) && OwnerOf(ShiftVar(x)) == Shift(OwnerOf(x))
  {
  }

  lemma PlaceShifted(k: nat)
    requires Live(k)
    requires Deployed().Compile().Valid() && Renumbered().Compile().Valid()
    ensures k < |Deployed().Compile().places| && Shift(k) < |Renumbered().Compile().places|
    ensures SamePlace(Deployed().Compile(), Renumbered().Compile(), Correspondence(), k)
  {
    var p, q := Deployed().Compile(), Renumbered().Compile();
    PositionFacts(Deployed());
    PositionFacts(Renumbered());
    SlotsShifted(k);
    var s, t := p.places[k].slot, q.places[Shift(k)].slot;
    forall j | 0 <= j < |Reads(s)|
      ensures SameRead(p, q, Correspondence(), k, Reads(s)[j], Reads(t)[j])
    {
      ReadShifted(p, q, k, Reads(s)[j]);
    }
    NumberShifted(k);
  }

  lemma NumberShifted(k: nat)
    requires k < 130
    ensures Deployed().Length() == Renumbered().Length() == 130
    ensures Deployed().NumberAt(k) == Renumbered().NumberAt(k)
    ensures 13 <= k ==> !Deployed().SlotAt(k).OutputSlot? && !Deployed().SlotAt(k).DigInSlot?
  {
    PositionFacts(Deployed());
    PositionFacts(Renumbered());
  }

  /** Eight outputs and four CAN outputs are observed, in both documents. */
  lemma ObservedPositions(k: nat)
    requires k < 130
    ensures Deployed().Length() == Renumbered().Length() == 130
    ensures Observed(Deployed().Compile(), k) <==> (k < 8 || 42 <= k < 46)
    ensures Observed(Renumbered().Compile(), k) <==> (k < 8 || 42 <= k < 46)
  {
    PositionFacts(Deployed());
    PositionFacts(Renumbered());
  }

  lemma RenumberingSame(ticks: seq<Tick>)
    ensures Deployed().Accepted() && Renumbered().Accepted()
    ensures Deployed().Compile().Valid() && Renumbered().Compile().Valid()
    ensures View(Deployed().Compile(), ticks) == View(Renumbered().Compile(), ticks)
  {
    DeployedAccepted();
    RewriteAccepted(123, EDGE_FALLING);
    CompileValid(Deployed());
    CompileValid(Renumbered());
    var p, q, rho := Deployed().Compile(), Renumbered().Compile(), Correspondence();
    forall k | k in rho
      ensures k < |p.places| && rho[k] < |q.places| && SamePlace(p, q, rho, k)
    {
      PlaceShifted(k);
    }
    assert Corresponds(p, q, rho);
    RenumberingCovers();
    ObservationallyEqual(p, q, rho, ticks);
  }

  lemma RenumberingCovers()
    ensures Covers(Deployed().Compile(), Renumbered().Compile(), Correspondence())
  {
    var p, q, rho := Deployed().Compile(), Renumbered().Compile(), Correspondence();
    PositionFacts(Deployed());
    PositionFacts(Renumbered());
    forall k: nat | k < 130
      ensures Observed(p, k) <==> (k < 8 || 42 <= k < 46)
      ensures Observed(q, k) <==> (k < 8 || 42 <= k < 46)
    {
      ObservedPositions(k);
    }
    forall j: nat | j < |q.places| && Observed(q, j)
      ensures exists i :: 0 <= i < |p.places| && Observed(p, i) && i in rho && rho[i] == j
    {
      assert Observed(p, j) && j in rho && rho[j] == j;
    }
  }

  // ----- the heater's reset

  /** The heater counter's position, and those of NOT_ENGINE_RUN and HEATER_PRESS. */
  const HEATER := 96
  const NOT_RUN := 74
  const PRESS := 81

  function HeaterSlot(resetInput: int, edge: int): CounterCfg {
    Counter(78, EDGE_RISING, 0, EDGE_RISING, resetInput, edge, true, 2000)
  }

  /** The two heater counters: same count, same edges, but the first one remembers whether
      ENGINE_RUN has been high, and until then nothing has been counted. */
  predicate SameHeater(c: Cell, d: Cell) {
    && c.mem.CounterMem? && d.mem.CounterMem? && |c.vals| == 1 && c.vals == d.vals
    && c.mem.(lastReset := false) == d.mem && !c.mem.lastDec
    && (!c.mem.lastReset ==> !c.mem.lastInc && c.vals[0] == 0.0)
  }

  /** If the switch comes through only while the engine runs, the heater counter reset on
      ENGINE_RUN falling keeps step with the one reset on NOT_ENGINE_RUN rising. */
  lemma HeatersKeepStep(c: Cell, d: Cell, press: real, run: real, notRun: real, now: int)
    requires SameHeater(c, d)
    requires Truthy(press) ==> Truthy(run)
    requires Truthy(notRun) == !Truthy(run)
    ensures SameHeater(
      CounterFire(HeaterSlot(123, EDGE_FALLING), c, [press, 0.0, run], now),
      CounterFire(HeaterSlot(71, EDGE_RISING), d, [press, 0.0, notRun], now))
  {
  }

  /** The slots the argument is about. */
  ghost predicate HeaterPlan(p: Plan, resetInput: int, edge: int) {
    && |p.places| == 130 && p.size == |p.owners| == 217 && p.rule == Act
    && p.places[HEATER].slot == HeaterSlot(resetInput, edge) && p.places[HEATER].base == 157
    && p.places[NOT_RUN].slot == VirtSlot(true, true, 123, BOOL_AND, false, 1, BOOL_AND, false, 0, MODE_MOMENTARY)
    && p.places[NOT_RUN].base == 71
    && p.places[PRESS].slot == Two(5, BOOL_AND, false, 123, BOOL_AND) && p.places[PRESS].base == 78
    && p.owners[0] == p.owners[1] == 130 && p.owners[123] == 98 && p.places[98].slot.ConditionSlot?
    && p.owners[71] == NOT_RUN && p.owners[78] == PRESS && p.owners[157] == HEATER
  }

  lemma HeaterPlaces(resetInput: int, edge: int)
    requires resetInput == 71 || resetInput == 123
    ensures Rewrite(resetInput, edge).FullLength() && HeaterPlan(Rewrite(resetInput, edge).Compile(), resetInput, edge)
  {
    var cfg := Rewrite(resetInput, edge);
    BoardFacts();
    PositionFacts(cfg);
    Owners(cfg, 0);
    Owners(cfg, 1);
    Owners(cfg, 71);
    Owners(cfg, 78);
    Owners(cfg, 123);
    Owners(cfg, 157);
  }

  /** p and q differ in the heater counter only. */
  ghost predicate HeatersDiffer(p: Plan, q: Plan) {
    && p.Valid() && q.Valid() && HeaterPlan(p, 123, EDGE_FALLING) && HeaterPlan(q, 71, EDGE_RISING)
    && p.owners == q.owners
    && forall k | 0 <= k < 130 && k != HEATER :: p.places[k] == q.places[k]
  }

  lemma DocumentsDiffer()
    ensures Renumbered().Accepted() && Reference().Accepted()
    ensures HeatersDiffer(Renumbered().Compile(), Reference().Compile())
  {
    RewriteAccepted(123, EDGE_FALLING);
    RewriteAccepted(71, EDGE_RISING);
    CompileValid(Renumbered());
    CompileValid(Reference());
    HeaterPlaces(123, EDGE_FALLING);
    HeaterPlaces(71, EDGE_RISING);
    OneBoard(Renumbered(), Reference());
    var p, q := Renumbered().Compile(), Reference().Compile();
    forall k | 0 <= k < 130 && k != HEATER
      ensures p.places[k] == q.places[k]
    {
      SameElsewhere(k);
    }
  }

  lemma SameElsewhere(k: nat)
    requires k < 130 && k != HEATER
    ensures Renumbered().Length() == Reference().Length() == 130
    ensures Renumbered().SlotAt(k) == Reference().SlotAt(k)
  {
    PositionFacts(Renumbered());
    PositionFacts(Reference());
  }

  /** The devices are in the same state but for what the heater counters remember. */
  ghost predicate InStep(p: Plan, q: Plan, s: State, n: State)
    requires HeatersDiffer(p, q)
  {
    && WellFormed(p, s) && WellFormed(q, n)
    && s.time == n.time && s.vars == n.vars && s.vars[0] == 0.0 && s.vars[1] == 1.0
    && (forall k | 0 <= k < 130 && k != HEATER :: s.mem[k] == n.mem[k])
    && SameHeater(Cell(s.mem[HEATER], [s.vars[157]]), Cell(n.mem[HEATER], [n.vars[157]]))
    && IsMomentaryVirt(p, s, NOT_RUN) && IsMomentaryVirt(p, s, PRESS)
  }

  lemma HeaterSees(p: Plan, q: Plan, s: State, n: State, t: Tick)
    requires HeatersDiffer(p, q) && InStep(p, q, s, n)
    ensures var m := Step(p, s, t);
      && SeenInputs(p, s, t, m, HEATER) == [m.vars[78], 0.0, s.vars[123]]
      && m.vars[0] == 0.0 && m.vars[1] == 1.0
  {
    SeenAs(p, s, t, HEATER, 78);
    SeenAs(p, s, t, HEATER, 0);
    SeenAs(p, s, t, HEATER, 123);
    ConstantStep(p, s, t, 0);
    ConstantStep(p, s, t, 1);
  }

  lemma NotRunSignal(p: Plan, q: Plan, s: State, n: State, t: Tick)
    requires HeatersDiffer(p, q) && InStep(p, q, s, n)
    ensures var m := Step(p, s, t);
      Truthy(m.vars[71]) == !Truthy(s.vars[123]) && IsMomentaryVirt(p, m, NOT_RUN)
  {
    SeenAs(p, s, t, NOT_RUN, 123);
    SeenAs(p, s, t, NOT_RUN, 1);
    MomentaryVirt(p, s, t, NOT_RUN);
    TwoTerms(p.places[NOT_RUN].slot, SeenInputs(p, s, t, Step(p, s, t), NOT_RUN));
  }

  lemma PressSignal(p: Plan, q: Plan, s: State, n: State, t: Tick)
    requires HeatersDiffer(p, q) && InStep(p, q, s, n)
    ensures var m := Step(p, s, t);
      (Truthy(m.vars[78]) ==> Truthy(s.vars[123])) && IsMomentaryVirt(p, m, PRESS)
  {
    SeenAs(p, s, t, PRESS, 123);
    MomentaryVirt(p, s, t, PRESS);
    TwoTerms(p.places[PRESS].slot, SeenInputs(p, s, t, Step(p, s, t), PRESS));
  }

  /** What the heater counters see in one cycle: the reset signals are opposites, and the
      switch comes through only while the engine runs. */
  lemma HeaterInputs(p: Plan, q: Plan, s: State, n: State, t: Tick)
    requires HeatersDiffer(p, q) && InStep(p, q, s, n)
    ensures var m := Step(p, s, t);
      && SeenInputs(p, s, t, m, HEATER) == [m.vars[78], 0.0, s.vars[123]]
      && (Truthy(m.vars[78]) ==> Truthy(s.vars[123]))
      && Truthy(m.vars[71]) == !Truthy(s.vars[123])
      && m.vars[0] == 0.0 && m.vars[1] == 1.0
      && IsMomentaryVirt(p, m, NOT_RUN) && IsMomentaryVirt(p, m, PRESS)
  {
    HeaterSees(p, q, s, n, t);
    NotRunSignal(p, q, s, n, t);
    PressSignal(p, q, s, n, t);
  }

  /** m with the reference device's heater memory. */
  function Swapped(m: State): State
    requires |m.mem| == 130 && m.mem[HEATER].CounterMem?
  {
    m.(mem := m.mem[HEATER := m.mem[HEATER].(lastReset := false)])
  }

  /** Everything but the heater sees and does the same. */
  lemma OthersAlike(p: Plan, q: Plan, s: State, n: State, t: Tick, m: State, k: nat)
    requires HeatersDiffer(p, q) && InStep(p, q, s, n) && WellFormed(p, m) && k < 130 && k != HEATER
    requires WellFormed(q, Swapped(m)) && SlotEquation(p, s, t, m, k)
    ensures SlotEquation(q, n, t, Swapped(m), k)
  {
    SameSeen(p, q, s, n, t, m, k);
    assert CellAt(q, Swapped(m), k) == CellAt(p, m, k);
    assert StartCell(q, n, t, k) == StartCell(p, s, t, k);
  }

  lemma SameSeen(p: Plan, q: Plan, s: State, n: State, t: Tick, m: State, k: nat)
    requires HeatersDiffer(p, q) && InStep(p, q, s, n) && WellFormed(p, m) && k < 130 && k != HEATER
    requires WellFormed(q, Swapped(m))
    ensures SeenInputs(q, n, t, Swapped(m), k) == SeenInputs(p, s, t, m, k)
  {
    var rs := Reads(p.places[k].slot);
    forall j | 0 <= j < |rs|
      ensures SeenInputs(q, n, t, Swapped(m), k)[j] == SeenInputs(p, s, t, m, k)[j]
    {
      SameVarSeen(p, q, s, n, t, m, k, rs[j]);
    }
  }

  lemma SameVarSeen(p: Plan, q: Plan, s: State, n: State, t: Tick, m: State, k: nat, y: int)
    requires HeatersDiffer(p, q) && InStep(p, q, s, n) && WellFormed(p, m) && k < 130 && 0 <= y < 217
    requires WellFormed(q, Swapped(m))
    ensures Seen(q, n, t, Swapped(m), k, y) == Seen(p, s, t, m, k, y)
  {
    var o := p.owners[y];
    if o == HEATER {
      HeaterSeen(p, q, s, n, t, m, k, y);
    } else if o < 130 {
      assert StartCell(q, n, t, o) == StartCell(p, s, t, o);
      assert CellAt(q, Swapped(m), o) == CellAt(p, m, o);
      CellsSeenAlike(p, q, s, n, t, m, Swapped(m), k, k, y, y);
    } else {
      SeenInCell(p, s, t, m, k, y);
      SeenInCell(q, n, t, Swapped(m), k, y);
    }
  }

  lemma HeaterSeen(p: Plan, q: Plan, s: State, n: State, t: Tick, m: State, k: nat, y: int)
    requires HeatersDiffer(p, q) && InStep(p, q, s, n) && WellFormed(p, m) && k < 130 && 0 <= y < 217
    requires WellFormed(q, Swapped(m)) && p.owners[y] == HEATER
    ensures Seen(q, n, t, Swapped(m), k, y) == Seen(p, s, t, m, k, y)
  {
    SeenInCell(p, s, t, m, k, y);
    SeenInCell(q, n, t, Swapped(m), k, y);
    assert p.Owns(HEATER, y) && y == 157;
  }

  /** What the reference device's heater counter sees. */
  lemma ReferenceHeaterInputs(p: Plan, q: Plan, s: State, n: State, t: Tick, m: State)
    requires HeatersDiffer(p, q) && InStep(p, q, s, n) && m == Step(p, s, t)
    requires m.mem[HEATER].CounterMem? && WellFormed(q, Swapped(m))
    ensures SeenInputs(q, n, t, Swapped(m), HEATER) == [m.vars[78], 0.0, m.vars[71]]
  {
    HeaterInputs(p, q, s, n, t);
    SeenInCell(q, n, t, Swapped(m), HEATER, 78);
    SeenInCell(q, n, t, Swapped(m), HEATER, 0);
    SeenInCell(q, n, t, Swapped(m), HEATER, 71);
    assert CellAt(q, Swapped(m), NOT_RUN).vals[0] == m.vars[71];
    assert CellAt(q, Swapped(m), PRESS).vals[0] == m.vars[78];
  }

  lemma HeaterAlike(p: Plan, q: Plan, s: State, n: State, t: Tick)
    requires HeatersDiffer(p, q) && InStep(p, q, s, n)
    ensures var m := Step(p, s, t);
      && m.mem[HEATER].CounterMem? && WellFormed(q, Swapped(m))
      && SlotEquation(q, n, t, Swapped(m), HEATER)
      && SameHeater(Cell(m.mem[HEATER], [m.vars[157]]), Cell(Swapped(m).mem[HEATER], [m.vars[157]]))
  {
    var m := Step(p, s, t);
    var m' := Swapped(m);
    HeaterInputs(p, q, s, n, t);
    CounterStep(p, s, t, HEATER);
    assert WellFormed(q, m');
    ReferenceHeaterInputs(p, q, s, n, t, m);
    HeatersKeepStep(Cell(s.mem[HEATER], [s.vars[157]]), Cell(n.mem[HEATER], [n.vars[157]]),
      m.vars[78], s.vars[123], m.vars[71], s.time);
    OneCell(q, n, HEATER);
    OneCell(q, m', HEATER);
  }

  lemma OneCell(p: Plan, s: State, k: nat)
    requires WellFormed(p, s) && k < |p.places| && Width(p.places[k].slot) == 1
    ensures CellAt(p, s, k) == Cell(s.mem[k], [s.vars[p.places[k].base]])
  {
  }

  lemma StaysInStep(p: Plan, q: Plan, s: State, n: State, t: Tick)
    requires HeatersDiffer(p, q) && InStep(p, q, s, n)
    ensures InStep(p, q, Step(p, s, t), Step(q, n, t))
  {
    var m := Step(p, s, t);
    HeaterInputs(p, q, s, n, t);
    HeaterAlike(p, q, s, n, t);
    StepSatisfies(p, s, t);
    forall k | 0 <= k < 130
      ensures SlotEquation(q, n, t, Swapped(m), k)
    {
      if k != HEATER {
        assert SlotEquation(p, s, t, m, k);
        OthersAlike(p, q, s, n, t, m, k);
      }
    }
    StepIsTheSolution(q, n, t, Swapped(m));
  }

  lemma {:induction false} AlwaysInStep(p: Plan, q: Plan, ticks: seq<Tick>)
    requires HeatersDiffer(p, q)
    ensures InStep(p, q, Run(p, ticks), Run(q, ticks))
  {
    if |ticks| == 0 {
      assert Init(p).vars == Init(q).vars;
    } else {
      var before := ticks[..|ticks| - 1];
      AlwaysInStep(p, q, before);
      StaysInStep(p, q, Run(p, before), Run(q, before), ticks[|ticks| - 1]);
    }
  }

  lemma {:induction false} SameShow(p: Plan, q: Plan, s: State, n: State, k: nat)
    requires HeatersDiffer(p, q) && InStep(p, q, s, n) && k <= 130
    ensures ObserveUpTo(p, s, k) == ObserveUpTo(q, n, k)
  {
    if k > 0 {
      SameShow(p, q, s, n, k - 1);
      if k - 1 != HEATER { assert p.places[k - 1] == q.places[k - 1]; }
    }
  }

  /** The deployed document and the reference document show the same after every stimulus
      of any length, on every output pin and in every CAN output. */
  lemma ReferenceIsEquivalent(ticks: seq<Tick>)
    ensures Deployed().Accepted() && Reference().Accepted()
    ensures Deployed().Compile().Valid() && Reference().Compile().Valid()
    ensures View(Deployed().Compile(), ticks) == View(Reference().Compile(), ticks)
  {
    RenumberingSame(ticks);
    DocumentsDiffer();
    var p, q := Renumbered().Compile(), Reference().Compile();
    AlwaysInStep(p, q, ticks);
    SameShow(p, q, Run(p, ticks), Run(q, ticks), 130);
  }
}
