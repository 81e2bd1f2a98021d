/**
 What running the simulator over a trace should give: the engine's view after each cycle,
 and the frames on the bus.
 */
module TraceSpec {
  import opened Blocks
  import opened Engine
  import opened Equivalence
  import opened SimLayout
  import CanFrames
  import CanRuns
  import Sim

  /** The stimulus of one cycle: pin levels and received frames, with standard identifiers. */
  datatype Stimulus = Stimulus(pins: map<int, bool>, rx: seq<Frame>)

  function Ticks(trace: seq<Stimulus>): (ticks: seq<Tick>)
    ensures |ticks| == |trace|
  {
    seq(|trace|, n requires 0 <= n < |trace| => Tick(trace[n].pins, trace[n].rx, 0))
  }

  /** What is seen after each cycle of a run. */
  function Log(p: Plan, ticks: seq<Tick>): (log: seq<map<ObsKey, real>>)
    requires p.Valid()
    ensures |log| == |ticks|
  {
    seq(|ticks|, n requires 0 <= n < |ticks| => View(p, ticks[..n + 1]))
  }

  /** The variables at position k's turn in cycle n. */
  ghost function ViewAt(p: Plan, ticks: seq<Tick>, n: nat, k: nat): seq<real>
    requires p.Valid() && k <= |p.places| && n < |ticks|
  {
    Midway(p, Run(p, ticks[..n]), ticks[n], k).vars
  }

  /** The variables at position k's turn, cycle by cycle. */
  ghost function Views(p: Plan, ticks: seq<Tick>, k: nat): (views: seq<seq<real>>)
    requires p.Valid() && k <= |p.places|
    ensures |views| == |ticks|
  {
    seq(|ticks|, n requires 0 <= n < |ticks| => ViewAt(p, ticks, n, k))
  }

  /** No frame has a field that runs off its payload. */
  predicate AllFit(slots: seq<CanOutCfg>, placed: seq<int>, heads: seq<CanFrames.FrameHead>)
    requires |slots| == |placed|
  {
    forall j | 0 <= j < |heads| :: CanFrames.FrameFits(slots, placed, j)
  }

  /** The course of a run: states before and after each cycle, likewise the transmitter, what
      each cycle puts on the bus, and what is seen after it. */
  datatype History = History(states: seq<State>, looks: seq<CanFrames.Status>, bus: seq<seq<CanFrames.Message>>,
                             log: seq<map<ObsKey, real>>)

  /** What does not change in a run; the CAN outputs' turn is at position k. */
  datatype Setup = Setup(p: Plan, k: nat, slots: seq<CanOutCfg>, placed: seq<int>, heads: seq<CanFrames.FrameHead>) {
    ghost predicate Sound() {
      && p.Valid() && k <= |p.places| && |slots| == |placed|
      && forall vars: seq<real> | |vars| == p.size :: CanFrames.SourcesIn(slots, vars)
    }

    /** The transmitter at power-on. */
    function First(): CanFrames.Status { CanFrames.Status(slots, placed, CanFrames.PoweredFrames(heads), []) }
  }

  ghost function SetupOf(sim: Sim.Sim): Setup {
    var t := sim.transmitter;
    Setup(sim.plan, sim.order.virt, t.slots, t.placed, t.heads)
  }

  /** Cycle n of the run is a cycle of the engine and of the transmitter. */
  ghost predicate CycleOf(u: Setup, ticks: seq<Tick>, c: History, n: nat) {
    && u.Sound() && n < |ticks| && n + 1 < |c.states| && n + 1 < |c.looks| && n < |c.bus| && n < |c.log|
    && WellFormed(u.p, c.states[n]) && c.states[n].time == 2 * n
    && c.states[n + 1] == Step(u.p, c.states[n], ticks[n])
    && c.looks[n + 1] == CanFrames.Served(c.looks[n], Midway(u.p, c.states[n], ticks[n], u.k).vars, 2 * n)
    && c.looks[n + 1].Status? && c.bus[n] == c.looks[n + 1].tx
    && c.log[n] == Observe(u.p, c.states[n + 1])
  }

  ghost predicate Follows(u: Setup, ticks: seq<Tick>, c: History) {
    && u.Sound() && |c.states| == |c.looks| == |ticks| + 1 && |c.bus| == |c.log| == |ticks|
    && c.states[0] == Init(u.p) && c.looks[0] == u.First()
    && forall n: nat | n < |ticks| :: CycleOf(u, ticks, c, n)
  }

  /** The simulator n cycles into a run. */
  ghost predicate Under(sim: Sim.Sim, c: History, n: nat)
    reads sim, sim.dinLatch, sim.cinLatch, sim.viLatch, sim.transmitter, sim.transmitter.buffers
  {
    && sim.Valid() && n < |c.states| && n < |c.looks|
    && sim.St() == c.states[n] && sim.transmitter.Look() == c.looks[n]
    && (n > 0 ==> AllFit(sim.transmitter.slots, sim.transmitter.placed, sim.transmitter.heads))
  }

  /** The simulator, just started. */
  ghost predicate Started(sim: Sim.Sim)
    reads sim, sim.dinLatch, sim.cinLatch, sim.viLatch, sim.transmitter, sim.transmitter.buffers
  {
    sim.Valid() && sim.St() == Init(sim.plan) && sim.transmitter.Look() == SetupOf(sim).First()
  }

  /** The log of a run is what is seen after each of its cycles. */
  ghost predicate LogOf(p: Plan, ticks: seq<Tick>, log: seq<map<ObsKey, real>>) {
    p.Valid() && log == Log(p, ticks)
  }

  /** Each cycle has put on the bus what the variables at the CAN outputs' turn make of the frames. */
  ghost predicate OnBus(u: Setup, ticks: seq<Tick>, sent: seq<seq<CanFrames.Message>>) {
    && u.Sound() && CanRuns.AllSources(u.slots, Views(u.p, ticks, u.k)) && |sent| <= |ticks|
    && forall n: nat | n < |sent| :: sent[n] == CanRuns.BusIn(u.slots, u.placed, u.heads, Views(u.p, ticks, u.k), n)
  }

  /** The first n elements. */
  ghost predicate IsPart<T>(part: seq<T>, all: seq<T>, n: nat) {
    n <= |all| && part == all[..n]
  }

  /** The simulator n cycles into the run, with what has been logged and sent. */
  ghost predicate Going(sim: Sim.Sim, ticks: seq<Tick>, c: History, n: nat, log: seq<map<ObsKey, real>>,
                        sent: seq<seq<CanFrames.Message>>)
    reads sim, sim.dinLatch, sim.cinLatch, sim.viLatch, sim.transmitter, sim.transmitter.buffers
  {
    Follows(SetupOf(sim), ticks, c) && Under(sim, c, n) && IsPart(log, c.log, n) && IsPart(sent, c.bus, n)
  }
}
