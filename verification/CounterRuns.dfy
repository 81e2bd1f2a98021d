/**
 What counters count to over whole runs, in plain arithmetic. When a counter resets and
 when its inputs have an edge is defined from the levels of its inputs alone; between
 resets a counter that wraps around holds increments minus decrements modulo
 maxCount + 1, and one that does not stops at maxCount.
 */
module CounterRuns {
  import opened Blocks
  import opened Engine
  import opened PyInt
  import opened Timing

  /** The levels of a counter's inputs in one cycle. */
  datatype Levels = Levels(inc: bool, dec: bool, rst: bool)

  /** Edge selection 0 is rising, 1 is falling and 2 is both; any other selects nothing. */
  predicate HasEdge(edge: int, before: bool, after: bool) {
    || (edge == 0 && !before && after)
    || (edge == 1 && before && !after)
    || (edge == 2 && before != after)
  }

  /** The levels in the last cycle before n in which the counter did not reset. A cycle
      in which it resets is forgotten; at power-on every input counts as low. */
  function Before(s: CounterCfg, h: seq<Levels>, n: nat): Levels
    requires n <= |h|
    decreases n, 0
  {
    if n == 0 then Levels(false, false, false)
    else if Resetting(s, h, n - 1) then Before(s, h, n - 1)
    else h[n - 1]
  }

  /** The time of the last increment edge before cycle n, in milliseconds. */
  function LastUp(s: CounterCfg, h: seq<Levels>, n: nat): int
    requires n <= |h|
    decreases n, 0
  {
    if n == 0 then 0 else if Up(s, h, n - 1) then 2 * (n - 1) else LastUp(s, h, n - 1)
  }

  /** The time of the last decrement edge before cycle n. */
  function LastDown(s: CounterCfg, h: seq<Levels>, n: nat): int
    requires n <= |h|
    decreases n, 0
  {
    if n == 0 then 0 else if Down(s, h, n - 1) then 2 * (n - 1) else LastDown(s, h, n - 1)
  }

  /** In cycle n the counter resets: its reset input has the selected edge, or, with
      hold-to-reset, an input is high resetTime after its last edge. */
  predicate Resetting(s: CounterCfg, h: seq<Levels>, n: nat)
    requires n < |h|
    decreases n, 1
  {
    || HasEdge(s.resetEdge, Before(s, h, n).rst, h[n].rst)
    || (s.holdToReset && h[n].inc && 2 * n - LastUp(s, h, n) >= s.resetTime)
    || (s.holdToReset && h[n].dec && 2 * n - LastDown(s, h, n) >= s.resetTime)
  }

  /** An increment edge that counts. */
  predicate Up(s: CounterCfg, h: seq<Levels>, n: nat)
    requires n < |h|
    decreases n, 2
  {
    !Resetting(s, h, n) && HasEdge(s.incEdge, Before(s, h, n).inc, h[n].inc)
  }

  /** A decrement edge that counts. */
  predicate Down(s: CounterCfg, h: seq<Levels>, n: nat)
    requires n < |h|
    decreases n, 2
  {
    !Resetting(s, h, n) && HasEdge(s.decEdge, Before(s, h, n).dec, h[n].dec)
  }

  /** How many increment edges cycles a up to b have, b not included. */
  function Ups(s: CounterCfg, h: seq<Levels>, a: nat, b: nat): nat
    requires a <= b <= |h|
    decreases b
  {
    if a == b then 0 else Ups(s, h, a, b - 1) + if Up(s, h, b - 1) then 1 else 0
  }

  function Downs(s: CounterCfg, h: seq<Levels>, a: nat, b: nat): nat
    requires a <= b <= |h|
    decreases b
  {
    if a == b then 0 else Downs(s, h, a, b - 1) + if Down(s, h, b - 1) then 1 else 0
  }

  // ----- a counter by itself

  function InputsOf(l: Levels): seq<real> { [FromBool(l.inc), FromBool(l.dec), FromBool(l.rst)] }

  /** The cells of a counter before and after each cycle, and the levels of its inputs. */
  ghost predicate CounterTrace(s: CounterCfg, cells: seq<Cell>, h: seq<Levels>) {
    && s.enabled && |cells| == |h| + 1 && cells[0].mem == PowerOn(s)
    && (forall n | 0 <= n < |cells| :: Fits(s, cells[n]))
    && (forall n | 0 <= n < |h| :: cells[n + 1] == CounterFire(s, cells[n], InputsOf(h[n]), CYCLE_MS * n))
  }

  /** What a counter remembers after n cycles. */
  function Remembered(s: CounterCfg, h: seq<Levels>, n: nat): Mem
    requires n <= |h|
  {
    var l := Before(s, h, n);
    CounterMem(l.inc, l.dec, l.rst, LastUp(s, h, n), LastDown(s, h, n))
  }

  lemma EdgeIs(edge: int, before: bool, after: bool)
    ensures Edge(edge, before, after) == HasEdge(edge, before, after)
  {
  }

  /** One cycle: what is remembered, when the counter resets and what it counts. */
  lemma Turn(s: CounterCfg, h: seq<Levels>, n: nat, v: real)
    requires s.enabled && n < |h|
    ensures var m := Remembered(s, h, n);
      Resets(s, m, h[n].inc, h[n].dec, h[n].rst, CYCLE_MS * n) == Resetting(s, h, n)
    ensures CounterFire(s, Cell(Remembered(s, h, n), [v]), InputsOf(h[n]), CYCLE_MS * n)
      == Cell(Remembered(s, h, n + 1), [Next(s, Resetting(s, h, n), Up(s, h, n), Down(s, h, n), v)])
  {
    var m := Remembered(s, h, n);
    CounterCases(s, m, v, InputsOf(h[n]), CYCLE_MS * n);
    EdgeIs(s.resetEdge, m.lastReset, h[n].rst);
    EdgeIs(s.incEdge, m.lastInc, h[n].inc);
    EdgeIs(s.decEdge, m.lastDec, h[n].dec);
  }

  /** The count after a cycle: a reset clears it, an increment edge comes before a
      decrement edge. */
  function Next(s: CounterCfg, reset: bool, up: bool, down: bool, v: real): real {
    if reset then 0.0
    else
      var w := if !up then v else if v + 1.0 <= s.maxCount as real then v + 1.0
      else if s.wrapAround then 0.0 else s.maxCount as real;
      if !down then w else if w != 0.0 then w - 1.0 else if s.wrapAround then s.maxCount as real else s.minCount as real
  }

  lemma {:induction false} TraceRemembers(s: CounterCfg, cells: seq<Cell>, h: seq<Levels>, n: nat)
    requires CounterTrace(s, cells, h) && n <= |h|
    ensures cells[n].mem == Remembered(s, h, n)
    ensures n < |h| ==>
      cells[n + 1].vals == [Next(s, Resetting(s, h, n), Up(s, h, n), Down(s, h, n), cells[n].vals[0])]
  {
    if n > 0 {
      TraceRemembers(s, cells, h, n - 1);
      TurnOf(s, cells, h, n - 1);
    }
    if n < |h| { TurnOf(s, cells, h, n); }
  }

  lemma TurnOf(s: CounterCfg, cells: seq<Cell>, h: seq<Levels>, n: nat)
    requires CounterTrace(s, cells, h) && n < |h| && cells[n].mem == Remembered(s, h, n)
    ensures cells[n + 1]
      == Cell(Remembered(s, h, n + 1), [Next(s, Resetting(s, h, n), Up(s, h, n), Down(s, h, n), cells[n].vals[0])])
  {
    assert cells[n + 1] == CounterFire(s, cells[n], InputsOf(h[n]), CYCLE_MS * n);
    assert cells[n] == Cell(Remembered(s, h, n), [cells[n].vals[0]]);
    Turn(s, h, n, cells[n].vals[0]);
  }

  // ----- counting, cycle by cycle

  /** The counts before and after each cycle. */
  predicate Counts(s: CounterCfg, h: seq<Levels>, cs: seq<real>) {
    && |cs| == |h| + 1
    && forall n | 0 <= n < |h| :: cs[n + 1] == Next(s, Resetting(s, h, n), Up(s, h, n), Down(s, h, n), cs[n])
  }

  /** Cycles a up to b, b not included, have no reset. */
  predicate NoReset(s: CounterCfg, h: seq<Levels>, a: nat, b: nat)
    requires a <= b <= |h|
  {
    forall n | a <= n < b :: !Resetting(s, h, n)
  }

  /** (v + d) mod m one step further up. */
  lemma ModUp(v: int, d: int, m: int)
    requires m > 0
    ensures (v + d + 1) % m == if (v + d) % m + 1 == m then 0 else (v + d) % m + 1
  {
    var q, r := (v + d) / m, (v + d) % m;
    assert v + d == m * q + r;
    if r + 1 == m {
      assert v + d + 1 == m * (q + 1);
      ModUnique(v + d + 1, m, q + 1, 0);
    } else {
      ModUnique(v + d + 1, m, q, r + 1);
    }
  }

  lemma ModDown(v: int, d: int, m: int)
    requires m > 0
    ensures (v + d - 1) % m == if (v + d) % m == 0 then m - 1 else (v + d) % m - 1
  {
    ModUp(v, d - 1, m);
  }

  lemma {:induction false} Wraps(s: CounterCfg, h: seq<Levels>, cs: seq<real>, v: nat, a: nat, b: nat)
    requires Counts(s, h, cs) && a <= b <= |h| && NoReset(s, h, a, b) && s.wrapAround
    requires v <= s.maxCount && cs[a] == v as real
    ensures cs[b] == ((v + Ups(s, h, a, b) - Downs(s, h, a, b)) % (s.maxCount + 1)) as real
    decreases b
  {
    var m := s.maxCount + 1;
    if a == b {
      ModUnique(v, m, 0, v);
    } else {
      Wraps(s, h, cs, v, a, b - 1);
      var d := Ups(s, h, a, b - 1) - Downs(s, h, a, b - 1);
      assert cs[b - 1 + 1] == Next(s, false, Up(s, h, b - 1), Down(s, h, b - 1), cs[b - 1]);
      WrapStep(s, Up(s, h, b - 1), Down(s, h, b - 1), v, d, m);
    }
  }

  lemma WrapStep(s: CounterCfg, up: bool, down: bool, v: int, d: int, m: int)
    requires s.wrapAround && m == s.maxCount + 1 > 0
    ensures Next(s, false, up, down, ((v + d) % m) as real)
      == ((v + (d + (if up then 1 else 0) - (if down then 1 else 0))) % m) as real
  {
    ModUp(v, d, m);
    ModDown(v, d, m);
  }

  lemma {:induction false} Stops(s: CounterCfg, h: seq<Levels>, cs: seq<real>, v: int, a: nat, b: nat)
    requires Counts(s, h, cs) && a <= b <= |h| && NoReset(s, h, a, b) && !s.wrapAround
    requires Downs(s, h, a, b) == 0 && v <= s.maxCount && cs[a] == v as real
    ensures cs[b] == (if v + Ups(s, h, a, b) <= s.maxCount then v + Ups(s, h, a, b) else s.maxCount) as real
    decreases b
  {
    if a < b {
      Stops(s, h, cs, v, a, b - 1);
      assert cs[b - 1 + 1] == Next(s, false, Up(s, h, b - 1), false, cs[b - 1]);
    }
  }

  lemma {:induction false} NegativeMax(s: CounterCfg, h: seq<Levels>, cs: seq<real>, a: nat, b: nat)
    requires Counts(s, h, cs) && a <= b <= |h| && NoReset(s, h, a, b) && s.maxCount < 0
    requires Downs(s, h, a, b) == 0 && cs[a] == 0.0
    ensures cs[b] == if s.wrapAround || Ups(s, h, a, b) == 0 then 0.0 else s.maxCount as real
    decreases b
  {
    if a < b {
      NegativeMax(s, h, cs, a, b - 1);
      assert cs[b - 1 + 1] == Next(s, false, Up(s, h, b - 1), false, cs[b - 1]);
    }
  }

  lemma FromZero(s: CounterCfg, h: seq<Levels>, cs: seq<real>, a: nat, b: nat, n: nat)
    requires Counts(s, h, cs) && a <= b <= |h| && NoReset(s, h, a, b)
    requires Downs(s, h, a, b) == 0 && cs[a] == 0.0 && n == Ups(s, h, a, b)
    ensures s.wrapAround && s.maxCount >= 0 ==> cs[b] == (n % (s.maxCount + 1)) as real
    ensures s.wrapAround && s.maxCount < 0 ==> cs[b] == 0.0
    ensures !s.wrapAround && (n == 0 || n <= s.maxCount) ==> cs[b] == n as real
    ensures !s.wrapAround && n > 0 && n > s.maxCount ==> cs[b] == s.maxCount as real
  {
    if s.maxCount < 0 {
      NegativeMax(s, h, cs, a, b);
    } else if s.wrapAround {
      Wraps(s, h, cs, 0, a, b);
    } else {
      Stops(s, h, cs, 0, a, b);
    }
  }

  // ----- in a run

  ghost predicate IsCounter(p: Plan, k: nat) {
    k < |p.places| && p.rule == Act && p.places[k].slot.CounterSlot? && p.places[k].slot.enabled
  }

  function LevelsIn(p: Plan, ticks: seq<Tick>, n: nat, k: nat): Levels
    requires p.Valid() && n < |ticks| && k < |p.places|
    requires p.places[k].slot.CounterSlot? && p.places[k].slot.enabled
  {
    var ins := InputsIn(p, ticks, n, k);
    Levels(Truthy(ins[0]), Truthy(ins[1]), Truthy(ins[2]))
  }

  /** The levels of a counter's inputs, cycle by cycle. */
  function History(p: Plan, ticks: seq<Tick>, k: nat): (h: seq<Levels>)
    requires p.Valid() && k < |p.places|
    requires p.places[k].slot.CounterSlot? && p.places[k].slot.enabled
    ensures |h| == |ticks|
  {
    seq(|ticks|, n requires 0 <= n < |ticks| => LevelsIn(p, ticks, n, k))
  }

  /** The counter's variable after n cycles. */
  function Count(p: Plan, ticks: seq<Tick>, n: nat, k: nat): real
    requires p.Valid() && n <= |ticks| && k < |p.places| && p.places[k].slot.CounterSlot?
  {
    CellAfter(p, ticks, n, k).vals[0]
  }

  lemma OnlyLevels(s: CounterCfg, c: Cell, ins: seq<real>, ins': seq<real>, now: int)
    requires Fits(s, c) && s.enabled && |ins| == |ins'| == |Reads(s)|
    requires forall j | 0 <= j < 3 :: Truthy(ins[j]) == Truthy(ins'[j])
    ensures CounterFire(s, c, ins, now) == CounterFire(s, c, ins', now)
  {
  }

  lemma CounterNext(p: Plan, ticks: seq<Tick>, n: nat, k: nat)
    requires p.Valid() && IsCounter(p, k) && n < |ticks|
    ensures CellAfter(p, ticks, n + 1, k)
      == CounterFire(p.places[k].slot, CellAfter(p, ticks, n, k), InputsOf(LevelsIn(p, ticks, n, k)), CYCLE_MS * n)
  {
    CellNext(p, ticks, n, k);
    OnlyLevels(p.places[k].slot, CellAfter(p, ticks, n, k), InputsIn(p, ticks, n, k),
      InputsOf(LevelsIn(p, ticks, n, k)), CYCLE_MS * n);
  }

  /** Slot s is the enabled counter at position k, and h is the history of its inputs. */
  ghost predicate RunOf(p: Plan, ticks: seq<Tick>, k: nat, s: Slot, h: seq<Levels>)
    requires p.Valid()
  {
    IsCounter(p, k) && s == p.places[k].slot && h == History(p, ticks, k)
  }

  /** The cells of position k before and after each cycle. */
  function CellsOf(p: Plan, ticks: seq<Tick>, k: nat): (cells: seq<Cell>)
    requires p.Valid() && k < |p.places|
    ensures |cells| == |ticks| + 1
    ensures forall n | 0 <= n <= |ticks| :: cells[n] == CellAfter(p, ticks, n, k) && Fits(p.places[k].slot, cells[n])
  {
    seq(|ticks| + 1, n requires 0 <= n <= |ticks| => CellAfter(p, ticks, n, k))
  }

  lemma CounterInRun(p: Plan, ticks: seq<Tick>, k: nat, s: CounterCfg, h: seq<Levels>, cells: seq<Cell>)
    requires p.Valid() && RunOf(p, ticks, k, s, h) && cells == CellsOf(p, ticks, k)
    ensures CounterTrace(s, cells, h)
  {
    forall n | 0 <= n < |ticks|
      ensures cells[n + 1] == CounterFire(s, cells[n], InputsOf(h[n]), CYCLE_MS * n)
    {
      CounterNext(p, ticks, n, k);
    }
    assert ticks[..0] == [];
  }

  lemma CountsInRun(p: Plan, ticks: seq<Tick>, k: nat, s: CounterCfg, h: seq<Levels>) returns (cs: seq<real>)
    requires p.Valid() && RunOf(p, ticks, k, s, h)
    ensures Counts(s, h, cs) && |cs| == |ticks| + 1
    ensures forall n | 0 <= n <= |ticks| :: cs[n] == Count(p, ticks, n, k)
  {
    var cells := CellsOf(p, ticks, k);
    CounterInRun(p, ticks, k, s, h, cells);
    cs := CountsOf(s, cells, h);
  }

  lemma CountsOf(s: CounterCfg, cells: seq<Cell>, h: seq<Levels>) returns (cs: seq<real>)
    requires CounterTrace(s, cells, h)
    ensures Counts(s, h, cs) && |cs| == |cells| && forall n | 0 <= n < |cells| :: cs[n] == cells[n].vals[0]
  {
    cs := seq(|cells|, n requires 0 <= n < |cells| => cells[n].vals[0]);
    forall n | 0 <= n < |h|
      ensures cs[n + 1] == Next(s, Resetting(s, h, n), Up(s, h, n), Down(s, h, n), cs[n])
    {
      TraceRemembers(s, cells, h, n);
    }
  }

  /** One cycle: a reset clears the count; without an edge it stays; an increment edge alone
      adds one, unless that passes maxCount; a decrement edge alone takes one off, or, at
      zero, gives maxCount with wrap-around and minCount without. */
  lemma CountStep(p: Plan, ticks: seq<Tick>, k: nat, s: CounterCfg, h: seq<Levels>, n: nat, v: real, w: real)
    requires p.Valid() && RunOf(p, ticks, k, s, h) && n < |ticks|
    requires v == Count(p, ticks, n, k) && w == Count(p, ticks, n + 1, k)
    ensures Resetting(s, h, n) ==> w == 0.0
    ensures !Resetting(s, h, n) && !Up(s, h, n) && !Down(s, h, n) ==> w == v
    ensures Up(s, h, n) && !Down(s, h, n) && v + 1.0 <= s.maxCount as real ==> w == v + 1.0
    ensures Up(s, h, n) && !Down(s, h, n) && v + 1.0 > s.maxCount as real ==>
      w == if s.wrapAround then 0.0 else s.maxCount as real
    ensures Down(s, h, n) && !Up(s, h, n) && v != 0.0 ==> w == v - 1.0
    ensures Down(s, h, n) && !Up(s, h, n) && v == 0.0 ==>
      w == if s.wrapAround then s.maxCount as real else s.minCount as real
    ensures Up(s, h, n) && Down(s, h, n) && v + 1.0 != 0.0 && v + 1.0 <= s.maxCount as real ==> w == v
  {
    var cs := CountsInRun(p, ticks, k, s, h);
    assert cs[n] == v && cs[n + 1] == w;
  }

  /** A counter that wraps around is arithmetic modulo maxCount + 1: from a count v within
      its range, over any cycles without a reset, it holds v plus the increment edges minus
      the decrement edges, in whatever order they come. */
  lemma WrapsModulo(p: Plan, ticks: seq<Tick>, k: nat, s: CounterCfg, h: seq<Levels>, v: nat, a: nat, b: nat)
    requires p.Valid() && RunOf(p, ticks, k, s, h) && a <= b <= |ticks| && NoReset(s, h, a, b)
    requires s.wrapAround && v <= s.maxCount && Count(p, ticks, a, k) == v as real
    ensures Count(p, ticks, b, k) == ((v + Ups(s, h, a, b) - Downs(s, h, a, b)) % (s.maxCount + 1)) as real
  {
    var cs := CountsInRun(p, ticks, k, s, h);
    assert cs[a] == Count(p, ticks, a, k) && cs[b] == Count(p, ticks, b, k);
    Wraps(s, h, cs, v, a, b);
  }

  /** From zero, over cycles without a reset or a decrement edge, n increment edges count to
      n modulo maxCount + 1 with wrap-around and to the smaller of n and maxCount without.
      With a negative maxCount the first edge gives maxCount, or zero with wrap-around. */
  lemma CountsUp(p: Plan, ticks: seq<Tick>, k: nat, s: CounterCfg, h: seq<Levels>, a: nat, b: nat, n: nat)
    requires p.Valid() && RunOf(p, ticks, k, s, h) && a <= b <= |ticks| && NoReset(s, h, a, b)
    requires Count(p, ticks, a, k) == 0.0 && Downs(s, h, a, b) == 0 && n == Ups(s, h, a, b)
    ensures s.wrapAround && s.maxCount >= 0 ==> Count(p, ticks, b, k) == (n % (s.maxCount + 1)) as real
    ensures s.wrapAround && s.maxCount < 0 ==> Count(p, ticks, b, k) == 0.0
    ensures !s.wrapAround && (n == 0 || n <= s.maxCount) ==> Count(p, ticks, b, k) == n as real
    ensures !s.wrapAround && n > 0 && n > s.maxCount ==> Count(p, ticks, b, k) == s.maxCount as real
  {
    var cs := CountsInRun(p, ticks, k, s, h);
    assert cs[a] == Count(p, ticks, a, k) && cs[b] == Count(p, ticks, b, k);
    FromZero(s, h, cs, a, b, n);
  }
}
