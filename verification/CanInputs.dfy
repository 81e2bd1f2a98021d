/**
 CAN inputs over whole runs. What an enabled one shows after a cycle is determined by the
 frames it has heard: the last one's value, what its latch makes of the comparisons, and
 nothing at all once it has been silent for longer than its timeout.
 */
module CanInputs {
  import opened PyInt
  import opened Blocks
  import opened Engine
  import opened Dataflow
  import opened Conditions
  import opened Latches
  import Dbc

  ghost predicate IsCanIn(p: Plan, k: nat, s: Slot) {
    k < |p.places| && p.rule == Act && s == p.places[k].slot && s.CanInSlot? && s.enabled
  }

  /** A frame is for this input: same identifier of the same kind, and a field to read. */
  predicate For(s: CanInCfg, extIde: int, f: Frame) {
    extIde == s.ide && f.id == s.id && s.bitLength > 0
  }

  /** The value a frame carries. */
  function Carried(s: CanInCfg, f: Frame): real {
    Dbc.DecodedFloat(f.data, s.startBit, s.bitLength, s.factor, s.offset, s.byteOrder, s.signed)
  }

  /** The frames among rx that are for this input. */
  function HeardOf(s: CanInCfg, extIde: int, rx: seq<Frame>): seq<Frame> {
    if |rx| == 0 then []
    else
      var before := HeardOf(s, extIde, rx[..|rx| - 1]);
      if For(s, extIde, rx[|rx| - 1]) then before + [rx[|rx| - 1]] else before
  }

  /** All frames of a run that are for this input. */
  function Heard(s: CanInCfg, ticks: seq<Tick>): seq<Frame> {
    if |ticks| == 0 then []
    else Heard(s, ticks[..|ticks| - 1]) + HeardOf(s, ticks[|ticks| - 1].extIde, ticks[|ticks| - 1].rx)
  }

  /** When the last of them came, in milliseconds; zero if none has. */
  function HeardAt(s: CanInCfg, ticks: seq<Tick>): int {
    if |ticks| == 0 then 0
    else if HeardOf(s, ticks[|ticks| - 1].extIde, ticks[|ticks| - 1].rx) != [] then 2 * (|ticks| - 1)
    else HeardAt(s, ticks[..|ticks| - 1])
  }

  /** Whether each of these frames passes the comparison. */
  ghost function Results(s: CanInCfg, fs: seq<Frame>): (levels: seq<bool>)
    ensures |levels| == |fs|
    ensures forall i | 0 <= i < |fs| :: levels[i] == Passes(s.operator, Carried(s, fs[i]), s.operand)
  {
    seq(|fs|, i requires 0 <= i < |fs| => Passes(s.operator, Carried(s, fs[i]), s.operand))
  }

  /** What the input shows, its comparison and its value, after hearing these frames. */
  ghost function Showing(s: CanInCfg, fs: seq<Frame>): seq<real> {
    if |fs| == 0 then [0.0, 0.0]
    else [FromBool(Latched(s.mode, false, Results(s, fs)).out), Carried(s, fs[|fs| - 1])]
  }

  /** What it remembers. */
  ghost function Remembered(s: CanInCfg, fs: seq<Frame>, at: int): Mem {
    CanInMem(Latched(s.mode, false, Results(s, fs)), at)
  }

  lemma ResultsMore(s: CanInCfg, fs: seq<Frame>, f: Frame)
    ensures Results(s, fs + [f]) == Results(s, fs) + [Passes(s.operator, Carried(s, f), s.operand)]
  {
  }

  /** One frame for this input. */
  lemma HearOne(s: CanInCfg, c: Cell, fs: seq<Frame>, at: int, f: Frame, extIde: int, now: int)
    requires s.enabled && Fits(s, c) && c.mem == Remembered(s, fs, at) && For(s, extIde, f)
    ensures Receive(s, c, f, extIde, now) == Cell(Remembered(s, fs + [f], now), Showing(s, fs + [f]))
  {
    ResultsMore(s, fs, f);
    LatchedMore(s.mode, false, Results(s, fs), Passes(s.operator, Carried(s, f), s.operand));
    ComparisonPasses(s.operator, Carried(s, f), s.operand);
  }

  /** All frames of a cycle. */
  lemma {:induction false} HearAll(s: CanInCfg, c: Cell, fs: seq<Frame>, at: int, rx: seq<Frame>, extIde: int, now: int)
    requires s.enabled && Fits(s, c) && c.mem == Remembered(s, fs, at)
    ensures var g := HeardOf(s, extIde, rx);
      ReceiveAll(s, c, rx, extIde, now)
        == if g == [] then c else Cell(Remembered(s, fs + g, now), Showing(s, fs + g))
  {
    if |rx| > 0 {
      var before, f := rx[..|rx| - 1], rx[|rx| - 1];
      var g := HeardOf(s, extIde, before);
      HearAll(s, c, fs, at, before, extIde, now);
      if For(s, extIde, f) {
        assert fs + (g + [f]) == (fs + g) + [f];
        assert g == [] ==> fs + g == fs;
        HearOne(s, ReceiveAll(s, c, before, extIde, now), fs + g, if g == [] then at else now, f, extIde, now);
      }
    }
  }

  /** Silent for longer than the timeout, in the cycle at time now. */
  predicate Silent(s: CanInCfg, at: int, now: int) { s.timeoutEnabled && now - at > s.timeout }

  /** The input's cell after a run. */
  ghost function Expected(s: CanInCfg, ticks: seq<Tick>): Cell
    requires |ticks| > 0
  {
    var at := HeardAt(s, ticks);
    Cell(Remembered(s, Heard(s, ticks), at),
      if Silent(s, at, 2 * (|ticks| - 1)) then [0.0, 0.0] else Showing(s, Heard(s, ticks)))
  }

  /** From one cycle to the next; c is the cell before. Silence does not end by itself. */
  lemma HearCycle(s: CanInCfg, c: Cell, ticks: seq<Tick>, t: Tick)
    requires s.enabled && Fits(s, c)
    requires if |ticks| == 0 then c == Cell(PowerOn(s), [0.0, 0.0]) else c == Expected(s, ticks)
    ensures var now := CYCLE_MS * |ticks|;
      TimeoutFire(s, ReceiveAll(s, c, t.rx, t.extIde, now), now) == Expected(s, ticks + [t])
  {
    var fs, at, now := Heard(s, ticks), HeardAt(s, ticks), CYCLE_MS * |ticks|;
    var g := HeardOf(s, t.extIde, t.rx);
    assert (ticks + [t])[..|ticks|] == ticks;
    HearAll(s, c, fs, at, t.rx, t.extIde, now);
    assert g == [] ==> fs + g == fs;
    if |ticks| == 0 { assert Results(s, fs) == []; }
  }

  // ----- in a run

  lemma PowerOnCell(p: Plan, k: nat, s: CanInCfg)
    requires p.Valid() && IsCanIn(p, k, s)
    ensures CellAt(p, Init(p), k) == Cell(PowerOn(s), [0.0, 0.0])
  {
    assert p.Owns(k, p.places[k].base) && p.Owns(k, p.places[k].base + 1);
  }

  lemma CanInNext(p: Plan, ticks: seq<Tick>, k: nat, s: CanInCfg)
    requires p.Valid() && IsCanIn(p, k, s) && |ticks| > 0
    ensures var c, t := CellAt(p, Run(p, ticks[..|ticks| - 1]), k), ticks[|ticks| - 1];
      var now := CYCLE_MS * (|ticks| - 1);
      Fits(s, c) && CellAt(p, Run(p, ticks), k) == TimeoutFire(s, ReceiveAll(s, c, t.rx, t.extIde, now), now)
  {
    var before := Run(p, ticks[..|ticks| - 1]);
    StepSatisfies(p, before, ticks[|ticks| - 1]);
    assert SlotEquation(p, before, ticks[|ticks| - 1], Run(p, ticks), k);
  }

  lemma {:induction false} CanInRun(p: Plan, ticks: seq<Tick>, k: nat, s: CanInCfg)
    requires p.Valid() && IsCanIn(p, k, s) && |ticks| > 0
    ensures CellAt(p, Run(p, ticks), k) == Expected(s, ticks)
  {
    var before, t := ticks[..|ticks| - 1], ticks[|ticks| - 1];
    CanInNext(p, ticks, k, s);
    if |before| == 0 { PowerOnCell(p, k, s); } else { CanInRun(p, before, k, s); }
    assert before + [t] == ticks;
    HearCycle(s, CellAt(p, Run(p, before), k), before, t);
  }

  /** After every run of at least one cycle: the first variable v of an enabled CAN input
      shows its comparison, the second one w its value. Both are zero if it has not heard a
      frame yet, or none for longer than the timeout; otherwise w is the last frame's value
      and v is 1 or 0: momentary, 1 exactly when that value passes; latching, exactly when
      the values heard have begun to pass an odd number of times. */
  lemma CanInputShows(p: Plan, ticks: seq<Tick>, k: nat, s: CanInCfg, fs: seq<Frame>, v: real, w: real)
    requires p.Valid() && IsCanIn(p, k, s) && |ticks| > 0 && fs == Heard(s, ticks)
    requires v == CellAt(p, Run(p, ticks), k).vals[0] && w == CellAt(p, Run(p, ticks), k).vals[1]
    ensures v == 1.0 || v == 0.0
    ensures fs == [] || (s.timeoutEnabled && 2 * (|ticks| - 1) - HeardAt(s, ticks) > s.timeout) ==> v == w == 0.0
    ensures fs != [] && !(s.timeoutEnabled && 2 * (|ticks| - 1) - HeardAt(s, ticks) > s.timeout) ==>
      && w == Carried(s, fs[|fs| - 1])
      && (s.mode == 0 ==> (v == 1.0 <==> Passes(s.operator, w, s.operand)))
      && (s.mode == 1 ==> (v == 1.0 <==> Presses(false, Results(s, fs)) % 2 == 1))
      && (s.mode != 0 && s.mode != 1 ==> v == 0.0)
  {
    CanInRun(p, ticks, k, s);
    LatchShows(s.mode, false, Results(s, fs));
  }

  /** The eight operators of a momentary CAN input, once a frame has been heard in time. */
  lemma MomentaryCompares(p: Plan, ticks: seq<Tick>, k: nat, s: CanInCfg, v: real, w: real)
    requires p.Valid() && IsCanIn(p, k, s) && |ticks| > 0 && s.mode == 0 && Heard(s, ticks) != []
    requires s.timeoutEnabled ==> 2 * (|ticks| - 1) - HeardAt(s, ticks) <= s.timeout
    requires v == CellAt(p, Run(p, ticks), k).vals[0] && w == CellAt(p, Run(p, ticks), k).vals[1]
    ensures s.operator == 0 ==> (v == 1.0 <==> w == s.operand)
    ensures s.operator == 1 ==> (v == 1.0 <==> w != s.operand)
    ensures s.operator == 2 ==> (v == 1.0 <==> w > s.operand)
    ensures s.operator == 3 ==> (v == 1.0 <==> w < s.operand)
    ensures s.operator == 4 ==> (v == 1.0 <==> w >= s.operand)
    ensures s.operator == 5 ==> (v == 1.0 <==> w <= s.operand)
    ensures s.operator == 6 ==> (v == 1.0 <==> Overlap(Trunc(w), Trunc(s.operand)))
    ensures s.operator == 7 ==> (v == 1.0 <==> !Overlap(Trunc(w), Trunc(s.operand)))
  {
    CanInputShows(p, ticks, k, s, Heard(s, ticks), v, w);
  }
}
