/**
 Debouncing over whole runs. The reference is a level defined from the pin's history alone:
 the pin once it has been steady for longer than the debounce time, the previous level
 until then. A digital input is its latch applied to that level, in every mode.
 */
module Debounce {
  import opened Blocks
  import opened Engine
  import opened Latches
  import opened Timing

  /** The pin holds one level in cycles lo up to hi, both included. */
  predicate Steady(pins: seq<bool>, lo: nat, hi: nat)
    requires hi < |pins|
  {
    forall n | lo <= n <= hi :: pins[n] == pins[hi]
  }

  /** In cycle n the pin has held one level for more than d milliseconds. */
  ghost predicate SteadyFor(pins: seq<bool>, n: nat, d: int)
    requires n < |pins|
  {
    exists m: nat :: m <= n && CYCLE_MS * (n - m) > d && Steady(pins, m, n)
  }

  /** The debounced level in cycle n. The first cycle takes the pin as it is. */
  ghost predicate Level(pins: seq<bool>, n: nat, d: int)
    requires n < |pins|
  {
    if n == 0 || SteadyFor(pins, n, d) then pins[n] else Level(pins, n - 1, d)
  }

  /** The latch after n cycles: shown the debounced level every cycle. */
  ghost function LatchAfter(s: DigInCfg, pins: seq<bool>, n: nat): Latch
    requires n <= |pins|
  {
    if n == 0 then Latch(false, false)
    else Check(LatchAfter(s, pins, n - 1), s.mode, s.invert, Level(pins, n - 1, s.debounceTime))
  }

  /** The cells of a digital input before and after each cycle. */
  ghost predicate DigInTrace(s: DigInCfg, cells: seq<Cell>, pins: seq<bool>) {
    && s.enabled && |cells| == |pins| + 1 && cells[0].mem == PowerOn(s)
    && (forall n | 0 <= n < |cells| :: Fits(s, cells[n]))
    && (forall n | 0 <= n < |pins| :: cells[n + 1] == DigInFire(s, cells[n], CYCLE_MS * n, pins[n]))
  }

  /** After n cycles the pin's last change was in cycle m. */
  predicate ChangedAt(pins: seq<bool>, n: nat, m: nat)
    requires n <= |pins|
  {
    0 < m < n && pins[m - 1] != pins[m] && Steady(pins, m, n - 1)
  }

  /** What a debouncing input remembers after n cycles: the last pin level, and, while a
      change is pending, the cycle of that change. */
  ghost predicate Remembers(s: DigInCfg, c: Cell, pins: seq<bool>, n: nat)
    requires 0 < n <= |pins| && Fits(s, c)
  {
    && c.mem.init && c.mem.last == pins[n - 1]
    && c.mem.latch == LatchAfter(s, pins, n)
    && c.vals[0] == FromBool(c.mem.latch.out)
    && (c.mem.check ==> exists m: nat :: c.mem.trig == CYCLE_MS * m && ChangedAt(pins, n, m))
    && (!c.mem.check ==> Level(pins, n - 1, s.debounceTime) == pins[n - 1])
  }

  /** In the cycle of a change the pin has been steady for no time at all. */
  lemma JustChanged(pins: seq<bool>, n: nat, d: int)
    requires 0 < n < |pins| && pins[n - 1] != pins[n]
    ensures SteadyFor(pins, n, d) <==> 0 > d
    ensures ChangedAt(pins, n + 1, n)
  {
    assert Steady(pins, n, n);
  }

  /** While the pin holds, it has been steady since its last change and no longer. */
  lemma StillSteady(pins: seq<bool>, n: nat, m: nat, d: int)
    requires n < |pins| && ChangedAt(pins, n, m) && pins[n - 1] == pins[n]
    ensures SteadyFor(pins, n, d) <==> CYCLE_MS * (n - m) > d
    ensures ChangedAt(pins, n + 1, m)
  {
    assert forall i | m <= i <= n - 1 :: pins[i] == pins[n - 1];
    assert Steady(pins, m, n);
  }

  lemma FirstTurn(s: DigInCfg, c: Cell, pins: seq<bool>)
    requires s.enabled && Fits(s, c) && c.mem == PowerOn(s) && 0 < |pins|
    ensures Remembers(s, DigInFire(s, c, 0, pins[0]), pins, 1)
  {
    assert LatchAfter(s, pins, 0) == Latch(false, false);
  }

  lemma NextTurn(s: DigInCfg, c: Cell, pins: seq<bool>, n: nat)
    requires s.enabled && Fits(s, c) && 0 < n < |pins| && Remembers(s, c, pins, n)
    ensures Remembers(s, DigInFire(s, c, CYCLE_MS * n, pins[n]), pins, n + 1)
  {
    if pins[n - 1] != pins[n] {
      JustChanged(pins, n, s.debounceTime);
    } else if c.mem.check {
      var m: nat :| c.mem.trig == CYCLE_MS * m && ChangedAt(pins, n, m);
      StillSteady(pins, n, m, s.debounceTime);
    }
  }

  lemma {:induction false} AlwaysRemembers(s: DigInCfg, cells: seq<Cell>, pins: seq<bool>, n: nat)
    requires DigInTrace(s, cells, pins) && 0 < n <= |pins|
    ensures Remembers(s, cells[n], pins, n)
  {
    assert cells[n - 1 + 1] == DigInFire(s, cells[n - 1], CYCLE_MS * (n - 1), pins[n - 1]);
    if n == 1 {
      FirstTurn(s, cells[0], pins);
    } else {
      AlwaysRemembers(s, cells, pins, n - 1);
      NextTurn(s, cells[n - 1], pins, n - 1);
    }
  }

  // ----- in a run

  ghost predicate IsDigIn(p: Plan, k: nat) {
    k < |p.places| && p.rule == Act && p.places[k].slot.DigInSlot? && p.places[k].slot.enabled
  }

  /** The levels of the pin of position k, cycle by cycle. */
  function Pins(p: Plan, ticks: seq<Tick>, k: nat): (pins: seq<bool>)
    requires k < |p.places|
    ensures |pins| == |ticks|
  {
    seq(|ticks|, n requires 0 <= n < |ticks| => PinLevel(ticks[n], p.places[k].number))
  }

  /** The input's variable after n cycles. */
  function PinVar(p: Plan, ticks: seq<Tick>, n: nat, k: nat): real
    requires p.Valid() && n <= |ticks| && k < |p.places| && p.places[k].slot.DigInSlot?
  {
    CellAfter(p, ticks, n, k).vals[0]
  }

  lemma DigInInRun(p: Plan, ticks: seq<Tick>, k: nat) returns (cells: seq<Cell>)
    requires p.Valid() && IsDigIn(p, k)
    ensures |cells| == |ticks| + 1 && DigInTrace(p.places[k].slot, cells, Pins(p, ticks, k))
    ensures forall n | 0 <= n <= |ticks| :: cells[n].vals[0] == PinVar(p, ticks, n, k)
  {
    cells := seq(|ticks| + 1, n requires 0 <= n <= |ticks| => CellAfter(p, ticks, n, k));
    var pins := Pins(p, ticks, k);
    forall n | 0 <= n < |pins|
      ensures cells[n + 1] == DigInFire(p.places[k].slot, cells[n], CYCLE_MS * n, pins[n])
    {
      CellNext(p, ticks, n, k);
    }
    assert ticks[..0] == [];
  }

  /** In every run an enabled digital input shows, after each cycle, its latch applied to
      the debounced level, whatever its mode. */
  lemma DebounceIsExact(p: Plan, ticks: seq<Tick>, n: nat, k: nat)
    requires p.Valid() && IsDigIn(p, k) && n < |ticks|
    ensures PinVar(p, ticks, n + 1, k) == FromBool(LatchAfter(p.places[k].slot, Pins(p, ticks, k), n + 1).out)
  {
    var cells := DigInInRun(p, ticks, k);
    AlwaysRemembers(p.places[k].slot, cells, Pins(p, ticks, k), n + 1);
  }

  lemma {:induction false} MomentaryLatch(s: DigInCfg, pins: seq<bool>, n: nat)
    requires s.mode == MODE_MOMENTARY && n <= |pins|
    ensures LatchAfter(s, pins, n).out == LatchAfter(s, pins, n).last
    ensures n > 0 ==> LatchAfter(s, pins, n).out == (Level(pins, n - 1, s.debounceTime) != s.invert)
  {
    if n > 0 { MomentaryLatch(s, pins, n - 1); }
  }

  ghost predicate IsMomentary(p: Plan, k: nat) { IsDigIn(p, k) && p.places[k].slot.mode == MODE_MOMENTARY }

  /** A momentary input is the debounced level xor invert after every cycle. */
  lemma MomentaryIsLevel(p: Plan, ticks: seq<Tick>, n: nat, k: nat)
    requires p.Valid() && IsMomentary(p, k) && n < |ticks|
    ensures var s := p.places[k].slot;
      PinVar(p, ticks, n + 1, k) == FromBool(Level(Pins(p, ticks, k), n, s.debounceTime) != s.invert)
  {
    DebounceIsExact(p, ticks, n, k);
    MomentaryLatch(p.places[k].slot, Pins(p, ticks, k), n + 1);
  }

  /** Both halves of the debounce law: once the pin has held one level for more than the
      debounce time the variable is that level, inverted if asked; until then, after the
      first cycle, the variable does not change. */
  lemma ChangesExactlyWhenSteady(p: Plan, ticks: seq<Tick>, n: nat, k: nat)
    requires p.Valid() && IsMomentary(p, k) && n < |ticks|
    ensures var s, pins := p.places[k].slot, Pins(p, ticks, k);
      PinVar(p, ticks, n + 1, k) ==
      if n == 0 || SteadyFor(pins, n, s.debounceTime) then FromBool(pins[n] != s.invert) else PinVar(p, ticks, n, k)
  {
    MomentaryIsLevel(p, ticks, n, k);
    if n > 0 { MomentaryIsLevel(p, ticks, n - 1, k); }
  }

  // ----- the latching modes

  /** The debounced levels of the first n cycles. */
  ghost function LevelsUpTo(pins: seq<bool>, n: nat, d: int): (levels: seq<bool>)
    requires n <= |pins|
    ensures |levels| == n && forall i | 0 <= i < n :: levels[i] == Level(pins, i, d)
  {
    seq(n, i requires 0 <= i < n => Level(pins, i, d))
  }

  lemma {:induction false} LatchAfterIsLatched(s: DigInCfg, pins: seq<bool>, n: nat)
    requires n <= |pins|
    ensures LatchAfter(s, pins, n) == Latched(s.mode, s.invert, LevelsUpTo(pins, n, s.debounceTime))
  {
    if n > 0 {
      LatchAfterIsLatched(s, pins, n - 1);
      assert LevelsUpTo(pins, n, s.debounceTime)[..n - 1] == LevelsUpTo(pins, n - 1, s.debounceTime);
    }
  }

  /** A latching digital input is on after a cycle exactly when its debounced level, inverted
      if asked, has come on an odd number of times. */
  lemma LatchingCountsPresses(p: Plan, ticks: seq<Tick>, n: nat, k: nat, s: DigInCfg, levels: seq<bool>)
    requires p.Valid() && IsDigIn(p, k) && s == p.places[k].slot && s.mode == 1 && n < |ticks|
    requires levels == LevelsUpTo(Pins(p, ticks, k), n + 1, s.debounceTime)
    ensures PinVar(p, ticks, n + 1, k) == if Presses(s.invert, levels) % 2 == 1 then 1.0 else 0.0
  {
    DebounceIsExact(p, ticks, n, k);
    LatchAfterIsLatched(s, Pins(p, ticks, k), n + 1);
    LatchShows(s.mode, s.invert, levels);
  }
}
