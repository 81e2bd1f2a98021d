/**
 Running the simulator over a whole trace: its log is the engine's view of the run, cycle by
 cycle, and its frames go out in the cadence of their intervals.
 */
module TraceRun {
  import opened Blocks
  import opened Engine
  import opened Configs
  import opened Equivalence
  import opened SimLayout
  import opened TraceSpec
  import opened EngineDocs
  import opened EngineRewrite
  import CanFrames
  import CanRuns
  import Sim

  // ----- the course of a run

  lemma RunNext(p: Plan, ticks: seq<Tick>, n: nat)
    requires p.Valid() && n < |ticks|
    ensures Run(p, ticks[..n + 1]) == Step(p, Run(p, ticks[..n]), ticks[n])
  {
    assert ticks[..n + 1][..n] == ticks[..n];
  }

  /** One more cycle of the transmitter's run. */
  lemma FramesNext(slots: seq<CanOutCfg>, placed: seq<int>, heads: seq<CanFrames.FrameHead>, views: seq<seq<real>>,
                   n: nat, look: CanFrames.Status)
    requires |slots| == |placed| && CanRuns.AllSources(slots, views) && n < |views|
    requires look.Status? && look.slots == slots && look.placed == placed
    requires look.frames == CanRuns.FramesAfter(slots, placed, views[..n], CanFrames.PoweredFrames(heads))
    ensures CanFrames.Served(look, views[n], 2 * n)
         == CanFrames.Status(slots, placed, CanRuns.FramesAfter(slots, placed, views[..n + 1],
           CanFrames.PoweredFrames(heads)),
                             CanRuns.BusIn(slots, placed, heads, views, n))
  {
    assert views[..n + 1][..n] == views[..n];
  }

  lemma ViewsReadable(u: Setup, ticks: seq<Tick>)
    requires u.Sound()
    ensures CanRuns.AllSources(u.slots, Views(u.p, ticks, u.k))
    ensures forall n: nat | n < |ticks| :: |Views(u.p, ticks, u.k)[n]| == u.p.size
  {
  }

  /** The transmitter after n cycles of a run. */
  ghost function LookAfter(u: Setup, ticks: seq<Tick>, n: nat): CanFrames.Status
    requires u.Sound() && CanRuns.AllSources(u.slots, Views(u.p, ticks, u.k)) && n <= |ticks|
  {
    var views := Views(u.p, ticks, u.k);
    CanFrames.Status(u.slots, u.placed, CanRuns.FramesAfter(u.slots, u.placed, views[..n],
      CanFrames.PoweredFrames(u.heads)),
                     if n == 0 then [] else CanRuns.BusIn(u.slots, u.placed, u.heads, views, n - 1))
  }

  /** The states of the engine's runs, and the transmitter's, are the course of a run. */
  ghost function CourseOf(u: Setup, ticks: seq<Tick>): History
    requires u.Sound() && CanRuns.AllSources(u.slots, Views(u.p, ticks, u.k))
  {
    History(seq(|ticks| + 1, n requires 0 <= n <= |ticks| => Run(u.p, ticks[..n])),
            seq(|ticks| + 1, n requires 0 <= n <= |ticks| => LookAfter(u, ticks, n)),
            seq(|ticks|, n requires 0 <= n < |ticks| => CanRuns.BusIn(u.slots, u.placed, u.heads,
              Views(u.p, ticks, u.k), n)),
            Log(u.p, ticks))
  }

  lemma CourseFollows(u: Setup, ticks: seq<Tick>)
    requires u.Sound()
    ensures CanRuns.AllSources(u.slots, Views(u.p, ticks, u.k))
    ensures Follows(u, ticks, CourseOf(u, ticks))
  {
    ViewsReadable(u, ticks);
    CourseBegins(u, ticks);
    forall n: nat | n < |ticks|
      ensures CycleOf(u, ticks, CourseOf(u, ticks), n)
    {
      CourseParts(u, ticks, n);
      CourseStep(u, ticks, CourseOf(u, ticks), n, Run(u.p, ticks[..n]), Views(u.p, ticks, u.k));
    }
  }

  lemma CourseBegins(u: Setup, ticks: seq<Tick>)
    requires u.Sound() && CanRuns.AllSources(u.slots, Views(u.p, ticks, u.k))
    ensures var c := CourseOf(u, ticks);
      && |c.states| == |c.looks| == |ticks| + 1 && |c.bus| == |c.log| == |ticks|
      && c.states[0] == Init(u.p) && c.looks[0] == u.First()
  {
    assert ticks[..0] == [] && Views(u.p, ticks, u.k)[..0] == [];
    assert CourseOf(u, ticks).states[0] == Run(u.p, ticks[..0]);
    assert CourseOf(u, ticks).looks[0] == LookAfter(u, ticks, 0);
  }

  lemma CourseParts(u: Setup, ticks: seq<Tick>, n: nat)
    requires u.Sound() && CanRuns.AllSources(u.slots, Views(u.p, ticks, u.k)) && n < |ticks|
    ensures var c := CourseOf(u, ticks);
      && n + 1 < |c.states| && n + 1 < |c.looks| && n < |c.bus| && n < |c.log|
      && c.states[n] == Run(u.p, ticks[..n]) && c.states[n + 1] == Run(u.p, ticks[..n + 1])
      && c.looks[n] == LookAfter(u, ticks, n) && c.looks[n + 1] == LookAfter(u, ticks, n + 1)
      && c.bus[n] == CanRuns.BusIn(u.slots, u.placed, u.heads, Views(u.p, ticks, u.k), n)
      && c.log[n] == View(u.p, ticks[..n + 1])
  {
  }

  lemma CourseStep(u: Setup, ticks: seq<Tick>, c: History, n: nat, s: State, views: seq<seq<real>>)
    requires u.Sound() && n < |ticks| && n + 1 < |c.states| && n + 1 < |c.looks| && n < |c.bus| && n < |c.log|
    requires views == Views(u.p, ticks, u.k) && CanRuns.AllSources(u.slots, views)
    requires s == Run(u.p, ticks[..n]) && c.states[n] == s && c.states[n + 1] == Run(u.p, ticks[..n + 1])
    requires c.looks[n] == LookAfter(u, ticks, n) && c.looks[n + 1] == LookAfter(u, ticks, n + 1)
    requires c.bus[n] == CanRuns.BusIn(u.slots, u.placed, u.heads, views, n)
    requires c.log[n] == View(u.p, ticks[..n + 1])
    ensures CycleOf(u, ticks, c, n)
  {
    RunNext(u.p, ticks, n);
    FramesNext(u.slots, u.placed, u.heads, views, n, c.looks[n]);
    assert views[n] == Midway(u.p, s, ticks[n], u.k).vars;
    assert c.looks[n + 1] == CanFrames.Served(c.looks[n], views[n], 2 * n);
  }

  // ----- the simulator

  lemma SetupSound(sim: Sim.Sim)
    requires sim.Valid()
    ensures SetupOf(sim).Sound()
  {
    SourcesRead(sim.plan, sim.cfg, sim.base, sim.order);
  }

  /** Every frame is due in the first cycle, so only if all of them fit is there a second. */
  lemma FitsAtFirst(s: CanFrames.Status, heads: seq<CanFrames.FrameHead>, n: nat)
    requires s.Status? && |s.slots| == |s.placed| && |s.frames| == |heads|
    ensures AllFit(s.slots, s.placed, heads) ==> CanFrames.FitsNow(s, 2 * n)
    ensures s.frames == CanFrames.PoweredFrames(heads) ==> (CanFrames.FitsNow(s, 2 * n)
        <==> AllFit(s.slots, s.placed, heads))
  {
  }

  /** One cycle of a run. */
  method Turn(sim: Sim.Sim, s: Stimulus, ghost ticks: seq<Tick>, ghost c: History, ghost n: nat) returns (ok: bool)
    requires CycleOf(SetupOf(sim), ticks, c, n) && ticks[n] == Tick(s.pins, s.rx, 0) && Under(sim, c, n)
    requires CanFrames.FitsNow(c.looks[n], 2 * n) == AllFit(sim.transmitter.slots, sim.transmitter.placed,
        sim.transmitter.heads)
    modifies sim, sim.dinLatch, sim.cinLatch, sim.viLatch, sim.transmitter, sim.transmitter.buffers
    ensures ok == AllFit(sim.transmitter.slots, sim.transmitter.placed, sim.transmitter.heads)
    ensures ok ==> Under(sim, c, n + 1)
  {
    ok := sim.Step(s.pins, s.rx, 0);
  }

  /** What is seen and sent after that. */
  method See(sim: Sim.Sim, ghost ticks: seq<Tick>, ghost c: History, ghost n: nat)
    returns (o: map<ObsKey, real>, tx: seq<CanFrames.Message>)
    requires CycleOf(SetupOf(sim), ticks, c, n) && Under(sim, c, n + 1)
    ensures o == c.log[n] && tx == c.bus[n] && Under(sim, c, n + 1)
  {
    tx := sim.transmitter.tx;
    o := sim.Observe();
  }

  lemma CycleAt(u: Setup, ticks: seq<Tick>, c: History, n: nat)
    requires Follows(u, ticks, c) && n < |ticks|
    ensures CycleOf(u, ticks, c, n)
  {
  }

  /** In the first cycle every frame is due; later it is known that all of them fit. */
  lemma FitsUnder(sim: Sim.Sim, ticks: seq<Tick>, c: History, n: nat)
    requires Follows(SetupOf(sim), ticks, c) && n < |ticks| && Under(sim, c, n)
    ensures CanFrames.FitsNow(c.looks[n], 2 * n) == AllFit(sim.transmitter.slots, sim.transmitter.placed,
        sim.transmitter.heads)
  {
    FitsAtFirst(sim.transmitter.Look(), sim.transmitter.heads, n);
  }

  lemma Longer<T>(part: seq<T>, x: T, all: seq<T>, n: nat)
    requires n < |all| && IsPart(part, all, n) && x == all[n]
    ensures IsPart(part + [x], all, n + 1)
  {
  }

  lemma Gone(sim: Sim.Sim, ticks: seq<Tick>, c: History, log: seq<map<ObsKey, real>>, sent: seq<seq<CanFrames.Message>>)
    requires Going(sim, ticks, c, |ticks|, log, sent)
    ensures log == c.log && sent == c.bus
    ensures |ticks| > 0 ==> AllFit(sim.transmitter.slots, sim.transmitter.placed, sim.transmitter.heads)
  {
  }

  /** One cycle of a run, logged. */
  method LogTurn(sim: Sim.Sim, s: Stimulus, log: seq<map<ObsKey, real>>, sent: seq<seq<CanFrames.Message>>,
                 ghost ticks: seq<Tick>, ghost c: History, ghost n: nat)
    returns (log': seq<map<ObsKey, real>>, sent': seq<seq<CanFrames.Message>>, ok: bool)
    requires n < |ticks| && ticks[n] == Tick(s.pins, s.rx, 0) && Going(sim, ticks, c, n, log, sent)
    modifies sim, sim.dinLatch, sim.cinLatch, sim.viLatch, sim.transmitter, sim.transmitter.buffers
    ensures ok <==> AllFit(sim.transmitter.slots, sim.transmitter.placed, sim.transmitter.heads)
    ensures ok ==> Going(sim, ticks, c, n + 1, log', sent')
  {
    CycleAt(SetupOf(sim), ticks, c, n);
    FitsUnder(sim, ticks, c, n);
    log', sent' := log, sent;
    ok := Turn(sim, s, ticks, c, n);
    if ok {
      var o, tx := See(sim, ticks, c, n);
      Longer(log, o, c.log, n);
      Longer(sent, tx, c.bus, n);
      log', sent' := log + [o], sent + [tx];
    }
  }

  method Drive(sim: Sim.Sim, trace: seq<Stimulus>, ghost ticks: seq<Tick>, ghost c: History)
    returns (log: seq<map<ObsKey, real>>, sent: seq<seq<CanFrames.Message>>, ok: bool)
    requires ticks == Ticks(trace) && Going(sim, ticks, c, 0, [], [])
    modifies sim, sim.dinLatch, sim.cinLatch, sim.viLatch, sim.transmitter, sim.transmitter.buffers
    ensures !ok ==> trace != [] && !AllFit(sim.transmitter.slots, sim.transmitter.placed, sim.transmitter.heads)
    ensures ok ==> Going(sim, ticks, c, |ticks|, log, sent)
  {
    log, sent, ok := [], [], true;
    var n := 0;
    while n < |trace|
      invariant 0 <= n <= |trace| && Going(sim, ticks, c, n, log, sent)
    {
      log, sent, ok := LogTurn(sim, trace[n], log, sent, ticks, c, n);
      if !ok {
        return;
      }
      n := n + 1;
    }
    ok := true;
  }

  lemma RunEnds(u: Setup, ticks: seq<Tick>, c: History)
    requires u.Sound() && CanRuns.AllSources(u.slots, Views(u.p, ticks, u.k)) && c == CourseOf(u, ticks)
    ensures LogOf(u.p, ticks, c.log) && |c.bus| == |ticks| && OnBus(u, ticks, c.bus)
  {
  }

  lemma RunBegins(sim: Sim.Sim, ticks: seq<Tick>, c: History)
    requires Started(sim) && Follows(SetupOf(sim), ticks, c)
    ensures Going(sim, ticks, c, 0, [], [])
  {
    assert c.log[..0] == [] && c.bus[..0] == [];
  }

  /** Steps and observes once per cycle of the trace: the log is the engine's view of the run.
      It fails exactly if there is a frame with a field that runs off its payload, since
      every frame is sent in the first cycle. */
  method RunTrace(sim: Sim.Sim, trace: seq<Stimulus>) returns (log: seq<map<ObsKey, real>>,
                  sent: seq<seq<CanFrames.Message>>, ok: bool)
    requires Started(sim)
    modifies sim, sim.dinLatch, sim.cinLatch, sim.viLatch, sim.transmitter, sim.transmitter.buffers
    ensures ok <==> trace == [] || AllFit(sim.transmitter.slots, sim.transmitter.placed, sim.transmitter.heads)
    ensures ok ==> LogOf(sim.plan, Ticks(trace), log)
    ensures ok ==> |sent| == |trace| && OnBus(SetupOf(sim), Ticks(trace), sent)
  {
    ghost var u, ticks := SetupOf(sim), Ticks(trace);
    SetupSound(sim);
    CourseFollows(u, ticks);
    ghost var c := CourseOf(u, ticks);
    RunBegins(sim, ticks, c);
    log, sent, ok := Drive(sim, trace, ticks, c);
    if ok {
      Gone(sim, ticks, c, log, sent);
      RunEnds(u, ticks, c);
    }
  }

  // ----- comparing two configurations

  lemma LogsAgree(p: Plan, q: Plan, ticks: seq<Tick>)
    requires p.Valid() && q.Valid()
    requires forall n: nat | n < |ticks| :: SameView(p, q, ticks, n)
    ensures Log(p, ticks) == Log(q, ticks)
  {
    var a, b := Log(p, ticks), Log(q, ticks);
    forall n: nat | n < |ticks|
      ensures a[n] == b[n]
    {
      assert SameView(p, q, ticks, n);
    }
  }

  /** Nothing sets the two apart after cycle n. */
  ghost predicate SameView(p: Plan, q: Plan, ticks: seq<Tick>, n: nat)
    requires p.Valid() && q.Valid() && n < |ticks|
  {
    View(p, ticks[..n + 1]) == View(q, ticks[..n + 1])
  }

  /** No CAN output is in Motorola order. */
  predicate AllIntel(slots: seq<CanOutCfg>) {
    forall i | 0 <= i < |slots| :: slots[i].byteOrder != 1
  }

  lemma IntelFits(slots: seq<CanOutCfg>, placed: seq<int>, heads: seq<CanFrames.FrameHead>)
    requires |slots| == |placed| && AllIntel(slots)
    ensures AllFit(slots, placed, heads)
  {
  }

  /** A simulator of a configuration with no Motorola field runs every trace. */
  method RunConfig(cfg: Config, trace: seq<Stimulus>) returns (log: seq<map<ObsKey, real>>)
    requires cfg.Accepted() && AllIntel(cfg.canOutputs)
    ensures LogOf(cfg.Compile(), Ticks(trace), log)
  {
    var sim := new Sim.Sim(cfg);
    IntelFits(sim.transmitter.slots, sim.transmitter.placed, sim.transmitter.heads);
    var sent, ok;
    log, sent, ok := RunTrace(sim, trace);
  }

  /** The engine configuration and its reference log the same on every trace of any length. */
  method CompareEngines(trace: seq<Stimulus>) returns (a: seq<map<ObsKey, real>>, b: seq<map<ObsKey, real>>)
    ensures a == b && |a| == |trace|
  {
    DeployedAccepted();
    RewriteAccepted(71, EDGE_RISING);
    a := RunConfig(Deployed(), trace);
    b := RunConfig(Reference(), trace);
    EnginesAgree(Ticks(trace));
  }

  lemma EnginesAgree(ticks: seq<Tick>)
    ensures Deployed().Accepted() && Reference().Accepted()
    ensures Deployed().Compile().Valid() && Reference().Compile().Valid()
    ensures Log(Deployed().Compile(), ticks) == Log(Reference().Compile(), ticks)
  {
    ReferenceIsEquivalent([]);
    forall n: nat | n < |ticks|
      ensures SameView(Deployed().Compile(), Reference().Compile(), ticks, n)
    {
      ReferenceIsEquivalent(ticks[..n + 1]);
    }
    LogsAgree(Deployed().Compile(), Reference().Compile(), ticks);
  }
}
