/**
 The loop that drains the received frames: frame after frame, each offered to every CAN
 input in turn, which comes to the same as every CAN input taking the whole list.
 */
module RxLoop {
  import opened Blocks
  import opened Engine
  import opened Configs
  import opened Dataflow
  import opened SimLayout

  /** How a CAN input takes a frame. */
  type Taker = (Slot, Cell, Frame, int, int) -> Cell

  ghost predicate IsReceive(take: Taker) {
    forall s: Slot, c, f, extIde, now {:trigger Receive(s, c, f, extIde, now)} | s.CanInSlot? && Fits(s, c) ::
      take(s, c, f, extIde, now) == Receive(s, c, f, extIde, now)
  }

  /** The function blocks' way to take a frame. */
  function Take(s: Slot, c: Cell, f: Frame, extIde: int, now: int): Cell {
    if s.CanInSlot? && Fits(s, c) then Receive(s, c, f, extIde, now) else c
  }

  /** What a CAN input makes of its memory and the variables when a frame arrives. */
  function Taken(take: Taker, s: Slot, m: Mem, vars: seq<real>, base: nat, f: Frame, extIde: int,
                 now: int): (r: (Mem, seq<real>))
    ensures |r.1| == |vars|
  {
    if base + Width(s) > |vars| then (m, vars)
    else
      var c := take(s, Cell(m, vars[base..base + Width(s)]), f, extIde, now);
      if |c.vals| != Width(s) then (m, vars) else (c.mem, Splice(vars, base, c.vals))
  }

  /** The first n CAN inputs have been offered a frame. */
  function Offered(take: Taker, xs: seq<Slot>, part: Part, base: nat, f: Frame, extIde: int, now: int,
                   n: nat): (r: Part)
    requires n <= |xs| == |part.mems|
    ensures |r.mems| == |part.mems| && |r.vars| == |part.vars|
  {
    if n == 0 then part
    else
      var before := Offered(take, xs, part, base, f, extIde, now, n - 1);
      var (m, vars) := Taken(take, xs[n - 1], before.mems[n - 1], before.vars, base + 2 * (n - 1), f, extIde, now);
      Part(before.mems[n - 1 := m], vars)
  }

  /** The first m frames have been drained. */
  function Drained(take: Taker, xs: seq<Slot>, part: Part, base: nat, rx: seq<Frame>, extIde: int, now: int,
                   m: nat): (r: Part)
    requires m <= |rx| && |xs| == |part.mems|
    ensures |r.mems| == |part.mems| && |r.vars| == |part.vars|
  {
    if m == 0 then part
    else Offered(take, xs, Drained(take, xs, part, base, rx, extIde, now, m - 1), base, rx[m - 1], extIde, now, |xs|)
  }

  /** CAN input i has been offered the frame. */
  function OfferedOne(take: Taker, s: Slot, part: Part, i: nat, base: nat, f: Frame, extIde: int, now: int): (r: Part)
    requires i < |part.mems|
    ensures |r.mems| == |part.mems| && |r.vars| == |part.vars|
  {
    var after := Taken(take, s, part.mems[i], part.vars, base, f, extIde, now);
    Part(part.mems[i := after.0], after.1)
  }

  /** What the loop over the CAN inputs works on, before each of them is offered a frame and
      after the last. */
  ghost predicate Round(take: Taker, xs: seq<Slot>, parts: seq<Part>, base: nat, f: Frame, extIde: int, now: int) {
    && |parts| == |xs| + 1
    && forall i: nat | i < |xs| :: RoundAt(take, xs, parts, base, f, extIde, now, i)
  }

  ghost predicate RoundAt(take: Taker, xs: seq<Slot>, parts: seq<Part>, base: nat, f: Frame, extIde: int, now: int,
                          i: nat)
    requires i < |xs| && i + 1 < |parts|
  {
    |parts[i].mems| == |xs| && parts[i + 1] == OfferedOne(take, xs[i], parts[i], i, base + 2 * i, f, extIde, now)
  }

  lemma MakeRound(take: Taker, xs: seq<Slot>, part: Part, base: nat, f: Frame, extIde: int, now: int)
    returns (parts: seq<Part>)
    requires |part.mems| == |xs|
    ensures Round(take, xs, parts, base, f, extIde, now) && parts[0] == part
    ensures parts[|xs|] == Offered(take, xs, part, base, f, extIde, now, |xs|)
  {
    parts := seq(|xs| + 1, i requires 0 <= i <= |xs| => Offered(take, xs, part, base, f, extIde, now, i));
    forall i: nat | i < |xs|
      ensures RoundAt(take, xs, parts, base, f, extIde, now, i)
    {
      NextOffered(take, xs, part, base, f, extIde, now, i);
    }
  }

  lemma NextOffered(take: Taker, xs: seq<Slot>, part: Part, base: nat, f: Frame, extIde: int, now: int, i: nat)
    requires i < |xs| == |part.mems|
    ensures Offered(take, xs, part, base, f, extIde, now, i + 1)
      == OfferedOne(take, xs[i], Offered(take, xs, part, base, f, extIde, now, i), i, base + 2 * i, f, extIde, now)
  {
  }

  lemma OfferedLast(take: Taker, xs: seq<Slot>, part: Part, base: nat, f: Frame, extIde: int, now: int, n: nat)
    requires 0 < n <= |xs| == |part.mems|
    ensures Offered(take, xs, part, base, f, extIde, now, n)
      == OfferedOne(take, xs[n - 1], Offered(take, xs, part, base, f, extIde, now, n - 1), n - 1, base + 2 * (n - 1),
           f, extIde, now)
  {
  }

  lemma RoundTurn(take: Taker, xs: seq<Slot>, parts: seq<Part>, base: nat, f: Frame, extIde: int, now: int, i: nat)
    requires Round(take, xs, parts, base, f, extIde, now) && i < |xs|
    ensures |parts[i].mems| == |xs| && parts[i + 1] == OfferedOne(take, xs[i], parts[i], i, base + 2 * i, f, extIde,
        now)
  {
    assert RoundAt(take, xs, parts, base, f, extIde, now, i);
  }

  // ----- the same on engine states

  predicate Receivers(p: Plan, lo: nat, n: nat) {
    lo + n <= |p.places| && forall k | lo <= k < lo + n :: p.places[k].slot.CanInSlot?
  }

  /** The first m frames, and for the first n CAN inputs one more, have been taken. */
  ghost predicate Took(p: Plan, s: State, r: State, lo: nat, count: nat, t: Tick, m: nat, n: nat)
    requires WellFormed(p, s)
  {
    && WellFormed(p, r) && r.time == s.time
    && (n > 0 ==> m < |t.rx|) && m <= |t.rx| && lo + count <= |p.places|
    && (forall k | 0 <= k < |p.places| && !(lo <= k < lo + count) :: CellAt(p, r, k) == CellAt(p, s, k))
    && (forall k | lo <= k < lo + count :: TookAt(p, s, r, k, t, lo, m, n))
    && (forall y | 0 <= y < p.size && p.owners[y] == |p.places| :: r.vars[y] == s.vars[y])
  }

  ghost predicate TookAt(p: Plan, s: State, r: State, k: nat, t: Tick, lo: nat, m: nat, n: nat)
    requires WellFormed(p, s) && WellFormed(p, r) && k < |p.places| && m <= |t.rx| && (lo <= k < lo + n ==> m < |t.rx|)
  {
    var rx := if lo <= k < lo + n then t.rx[..m + 1] else t.rx[..m];
    && p.places[k].slot.CanInSlot?
    && CellAt(p, r, k) == ReceiveAll(p.places[k].slot, CellAt(p, s, k), rx, t.extIde, s.time)
  }

  /** Position k takes frame f. */
  ghost function PutTaken(p: Plan, r: State, k: nat, f: Frame, extIde: int): (q: State)
    requires WellFormed(p, r) && k < |p.places| && p.places[k].slot.CanInSlot?
    ensures WellFormed(p, q) && q.time == r.time
  {
    PutCell(p, r, k, Receive(p.places[k].slot, CellAt(p, r, k), f, extIde, r.time))
  }

  lemma PutTakenEffect(p: Plan, r: State, k: nat, f: Frame, extIde: int, q: State)
    requires WellFormed(p, r) && k < |p.places| && p.places[k].slot.CanInSlot? && q == PutTaken(p, r, k, f, extIde)
    ensures CellAt(p, q, k) == Receive(p.places[k].slot, CellAt(p, r, k), f, extIde, r.time)
    ensures forall i | 0 <= i < |p.places| && i != k :: CellAt(p, q, i) == CellAt(p, r, i)
    ensures forall y | 0 <= y < p.size && p.owners[y] == |p.places| :: q.vars[y] == r.vars[y]
  {
    PutCellEffect(p, r, k, Receive(p.places[k].slot, CellAt(p, r, k), f, extIde, r.time));
  }

  lemma TookCell(p: Plan, s: State, r: State, q: State, i: nat, t: Tick, lo: nat, m: nat, n: nat)
    requires WellFormed(p, s) && WellFormed(p, r) && WellFormed(p, q) && i < |p.places| && 0 < n && m < |t.rx|
    requires TookAt(p, s, r, i, t, lo, m, n - 1) && r.time == s.time
    requires if i == lo + (n - 1) then CellAt(p, q, i) == Receive(p.places[i].slot, CellAt(p, r, i), t.rx[m], t.extIde,
        r.time)
             else CellAt(p, q, i) == CellAt(p, r, i)
    ensures TookAt(p, s, q, i, t, lo, m, n)
  {
    assert t.rx[..m + 1][..m] == t.rx[..m];
  }

  lemma TookOne(p: Plan, s: State, r: State, q: State, lo: nat, count: nat, t: Tick, m: nat, n: nat)
    requires WellFormed(p, s) && 0 < n <= count && m < |t.rx| && Took(p, s, r, lo, count, t, m, n - 1)
    requires Receivers(p, lo, n) && q == PutTaken(p, r, lo + (n - 1), t.rx[m], t.extIde)
    ensures Took(p, s, q, lo, count, t, m, n)
  {
    PutTakenEffect(p, r, lo + (n - 1), t.rx[m], t.extIde, q);
    forall i | lo <= i < lo + count
      ensures TookAt(p, s, q, i, t, lo, m, n)
    {
      assert TookAt(p, s, r, i, t, lo, m, n - 1);
      TookCell(p, s, r, q, i, t, lo, m, n);
    }
  }

  lemma NextFrame(p: Plan, s: State, r: State, lo: nat, count: nat, t: Tick, m: nat)
    requires WellFormed(p, s) && 0 < m <= |t.rx| && Took(p, s, r, lo, count, t, m - 1, count)
    ensures Took(p, s, r, lo, count, t, m, 0)
  {
    forall k | lo <= k < lo + count
      ensures TookAt(p, s, r, k, t, lo, m, 0)
    {
      assert TookAt(p, s, r, k, t, lo, m - 1, count);
    }
  }

  /** Once all frames are drained the state is the one reception by slots gives. */
  lemma TookAll(p: Plan, s: State, r: State, lo: nat, count: nat, t: Tick)
    requires WellFormed(p, s) && Took(p, s, r, lo, count, t, |t.rx|, 0)
    requires forall k | 0 <= k < |p.places| && p.places[k].slot.CanInSlot? :: lo <= k < lo + count
    ensures r == DeliverFrom(p, s, t, 0)
  {
    var d := DeliverFrom(p, s, t, 0);
    DeliverEffect(p, s, t, 0);
    assert t.rx[..|t.rx|] == t.rx;
    forall k | 0 <= k < |p.places|
      ensures CellAt(p, r, k) == CellAt(p, d, k)
    {
      if lo <= k < lo + count { assert TookAt(p, s, r, k, t, lo, |t.rx|, 0); }
    }
    SameCells(p, r, d);
  }

  lemma SameCells(p: Plan, r: State, d: State)
    requires WellFormed(p, r) && WellFormed(p, d) && r.time == d.time
    requires forall k | 0 <= k < |p.places| :: CellAt(p, r, k) == CellAt(p, d, k)
    requires forall y | 0 <= y < p.size && p.owners[y] == |p.places| :: r.vars[y] == d.vars[y]
    ensures r == d
  {
    forall y | 0 <= y < p.size
      ensures r.vars[y] == d.vars[y]
    {
      if p.owners[y] < |p.places| {
        VarOfCell(p, r, y);
        VarOfCell(p, d, y);
      }
    }
    assert r.vars == d.vars;
    forall k | 0 <= k < |p.places|
      ensures r.mem[k] == d.mem[k]
    {
      assert CellAt(p, r, k) == CellAt(p, d, k);
    }
    assert r.mem == d.mem;
  }

  // ----- the loop drains as the slots receive

  /** One CAN input takes one frame. */
  lemma TakenIsPut(p: Plan, take: Taker, time: int, a: seq<Mem>, part: Part, c: seq<Mem>, slot: Slot, i: nat, base: nat,
                   f: Frame, extIde: int)
    requires IsReceive(take) && WellFormed(p, With(time, a, part, c)) && i < |part.mems|
    requires |a| + i < |p.places| && p.places[|a| + i] == Place(slot, i + 1, base) && slot.CanInSlot?
    ensures
      var s := With(time, a, part, c);
      With(time, a, OfferedOne(take, slot, part, i, base, f, extIde, time), c)
        == PutTaken(p, s, |a| + i, f, extIde)
  {
    var s := With(time, a, part, c);
    var k := |a| + i;
    assert s.mem[k] == part.mems[i];
    var r := Receive(slot, CellAt(p, s, k), f, extIde, time);
    assert s.mem[k := r.mem] == a + part.mems[i := r.mem] + c;
  }

  /** Positions lo, lo + 1, ... take a frame, n of them. */
  ghost function TakeFrame(p: Plan, s: State, lo: nat, n: nat, f: Frame, extIde: int): (r: State)
    requires WellFormed(p, s) && Receivers(p, lo, n)
    ensures WellFormed(p, r) && r.time == s.time
  {
    if n == 0 then s
    else
      PutTaken(p, TakeFrame(p, s, lo, n - 1, f, extIde), lo + (n - 1), f, extIde)
  }

  lemma TakeFrameLast(p: Plan, s: State, lo: nat, n: nat, f: Frame, extIde: int)
    requires WellFormed(p, s) && 0 < n && Receivers(p, lo, n)
    ensures TakeFrame(p, s, lo, n, f, extIde)
      == PutTaken(p, TakeFrame(p, s, lo, n - 1, f, extIde), lo + (n - 1), f, extIde)
  {
  }

  lemma {:induction false} TakeFrameTook(p: Plan, s: State, r: State, lo: nat, count: nat, t: Tick, m: nat, n: nat)
    requires WellFormed(p, s) && m < |t.rx| && n <= count && Took(p, s, r, lo, count, t, m, 0) && Receivers(p, lo, n)
    ensures Took(p, s, TakeFrame(p, r, lo, n, t.rx[m], t.extIde), lo, count, t, m, n)
  {
    if n > 0 {
      TakeFrameTook(p, s, r, lo, count, t, m, n - 1);
      var before := TakeFrame(p, r, lo, n - 1, t.rx[m], t.extIde);
      TookOne(p, s, before, PutTaken(p, before, lo + (n - 1), t.rx[m], t.extIde), lo, count, t, m, n);
      TakeFrameLast(p, r, lo, n, t.rx[m], t.extIde);
    }
  }

  lemma OfferedStep(p: Plan, take: Taker, time: int, a: seq<Mem>, before: Part, after: Part, c: seq<Mem>, xs: seq<Slot>,
                    base: nat, f: Frame, extIde: int, n: nat, r: State)
    requires IsReceive(take) && GroupLaid(p.places, xs, |a|, base, 2) && Receivers(p, |a|, n)
    requires 0 < n <= |xs| == |before.mems| && WellFormed(p, r) && r == With(time, a, before, c)
    requires after == OfferedOne(take, xs[n - 1], before, n - 1, base + 2 * (n - 1), f, extIde, time)
    ensures With(time, a, after, c) == PutTaken(p, r, |a| + (n - 1), f, extIde)
  {
    assert p.places[|a| + (n - 1)] == Place(xs[n - 1], n, base + 2 * (n - 1));
    TakenIsPut(p, take, time, a, before, c, xs[n - 1], n - 1, base + 2 * (n - 1), f, extIde);
  }

  lemma {:induction false} OfferedTakes(p: Plan, take: Taker, time: int, a: seq<Mem>, part: Part, c: seq<Mem>,
                                        xs: seq<Slot>, base: nat, f: Frame, extIde: int, n: nat)
    requires IsReceive(take) && GroupLaid(p.places, xs, |a|, base, 2) && Receivers(p, |a|, n)
    requires n <= |xs| == |part.mems| && WellFormed(p, With(time, a, part, c))
    ensures With(time, a, Offered(take, xs, part, base, f, extIde, time, n), c)
      == TakeFrame(p, With(time, a, part, c), |a|, n, f, extIde)
  {
    if n > 0 {
      var before := Offered(take, xs, part, base, f, extIde, time, n - 1);
      OfferedTakes(p, take, time, a, part, c, xs, base, f, extIde, n - 1);
      var s, r := With(time, a, part, c), With(time, a, before, c);
      OfferedLast(take, xs, part, base, f, extIde, time, n);
      OfferedStep(p, take, time, a, before, Offered(take, xs, part, base, f, extIde, time, n), c, xs, base, f, extIde,
        n, r);
      TakeFrameLast(p, s, |a|, n, f, extIde);
    }
  }

  /** The first m frames, one after another. */
  ghost function TakeFrames(p: Plan, s: State, lo: nat, n: nat, rx: seq<Frame>, extIde: int, m: nat): (r: State)
    requires WellFormed(p, s) && Receivers(p, lo, n) && m <= |rx|
    ensures WellFormed(p, r) && r.time == s.time
  {
    if m == 0 then s else TakeFrame(p, TakeFrames(p, s, lo, n, rx, extIde, m - 1), lo, n, rx[m - 1], extIde)
  }

  lemma TookNothing(p: Plan, s: State, t: Tick, lo: nat, count: nat)
    requires Receivers(p, lo, count) && WellFormed(p, s)
    ensures Took(p, s, s, lo, count, t, 0, 0)
  {
    assert t.rx[..0] == [];
    forall k | lo <= k < lo + count
      ensures TookAt(p, s, s, k, t, lo, 0, 0)
    {
    }
  }

  lemma {:induction false} TakeFramesTook(p: Plan, s: State, lo: nat, count: nat, t: Tick, m: nat)
    requires WellFormed(p, s) && m <= |t.rx| && Receivers(p, lo, count)
    ensures Took(p, s, TakeFrames(p, s, lo, count, t.rx, t.extIde, m), lo, count, t, m, 0)
  {
    if m == 0 {
      TookNothing(p, s, t, lo, count);
    } else {
      var before := TakeFrames(p, s, lo, count, t.rx, t.extIde, m - 1);
      TakeFramesTook(p, s, lo, count, t, m - 1);
      FrameTook(p, s, before, TakeFrame(p, before, lo, count, t.rx[m - 1], t.extIde), lo, count, t, m);
    }
  }

  lemma FrameTook(p: Plan, s: State, before: State, after: State, lo: nat, count: nat, t: Tick, m: nat)
    requires WellFormed(p, s) && 0 < m <= |t.rx| && Receivers(p, lo, count)
    requires Took(p, s, before, lo, count, t, m - 1, 0)
    requires after == TakeFrame(p, before, lo, count, t.rx[m - 1], t.extIde)
    ensures Took(p, s, after, lo, count, t, m, 0)
  {
    TakeFrameTook(p, s, before, lo, count, t, m - 1, count);
    NextFrame(p, s, after, lo, count, t, m);
  }

  lemma LastFrame(p: Plan, take: Taker, s: State, lo: nat, xs: seq<Slot>, part: Part, base: nat, rx: seq<Frame>,
                  extIde: int, now: int, m: nat)
    requires WellFormed(p, s) && Receivers(p, lo, |xs|) && 0 < m <= |rx| && |xs| == |part.mems|
    ensures TakeFrames(p, s, lo, |xs|, rx, extIde, m)
      == TakeFrame(p, TakeFrames(p, s, lo, |xs|, rx, extIde, m - 1), lo, |xs|, rx[m - 1], extIde)
    ensures Drained(take, xs, part, base, rx, extIde, now, m)
      == Offered(take, xs, Drained(take, xs, part, base, rx, extIde, now, m - 1), base, rx[m - 1], extIde, now, |xs|)
  {
  }

  lemma {:induction false} DrainedTakes(p: Plan, take: Taker, time: int, a: seq<Mem>, part: Part, c: seq<Mem>,
                                        xs: seq<Slot>, base: nat, rx: seq<Frame>, extIde: int, m: nat)
    requires IsReceive(take) && GroupLaid(p.places, xs, |a|, base, 2) && Receivers(p, |a|, |xs|)
    requires m <= |rx| && |xs| == |part.mems| && WellFormed(p, With(time, a, part, c))
    ensures With(time, a, Drained(take, xs, part, base, rx, extIde, time, m), c)
      == TakeFrames(p, With(time, a, part, c), |a|, |xs|, rx, extIde, m)
  {
    if m > 0 {
      var before := Drained(take, xs, part, base, rx, extIde, time, m - 1);
      var s := With(time, a, part, c);
      DrainedTakes(p, take, time, a, part, c, xs, base, rx, extIde, m - 1);
      OfferedTakes(p, take, time, a, before, c, xs, base, rx[m - 1], extIde, |xs|);
      LastFrame(p, take, s, |a|, xs, part, base, rx, extIde, time, m);
    }
  }

  /** Draining frame by frame is reception slot by slot. */
  lemma DrainedIsDelivery(p: Plan, take: Taker, s: State, t: Tick, a: seq<Mem>, part: Part, c: seq<Mem>, xs: seq<Slot>,
                          base: nat)
    requires IsReceive(take) && GroupLaid(p.places, xs, |a|, base, 2) && Receivers(p, |a|, |xs|) && WellFormed(p, s)
    requires forall k | 0 <= k < |p.places| && p.places[k].slot.CanInSlot? :: |a| <= k < |a| + |xs|
    requires |xs| == |part.mems| && s == With(s.time, a, part, c)
    ensures With(s.time, a, Drained(take, xs, part, base, t.rx, t.extIde, s.time, |t.rx|), c) == DeliverFrom(p, s, t, 0)
  {
    DrainedTakes(p, take, s.time, a, part, c, xs, base, t.rx, t.extIde, |t.rx|);
    TakeFramesTook(p, s, |a|, |xs|, t, |t.rx|);
    TookAll(p, s, TakeFrames(p, s, |a|, |xs|, t.rx, t.extIde, |t.rx|), |a|, |xs|, t);
  }

  /** A laid-out plan receives in the CAN inputs' positions only. */
  lemma ReceiversAt(p: Plan, cfg: Config, b: Bases, o: Order)
    requires Laid(p, cfg, b, o)
    ensures Receivers(p, o.canIn, |cfg.canInputs|)
    ensures forall k | 0 <= k < |p.places| && p.places[k].slot.CanInSlot? :: o.canIn <= k < o.canIn + |cfg.canInputs|
    ensures |cfg.canInputs| > 0 ==> b.canIn + 2 * |cfg.canInputs| <= p.size
  {
    forall k | 0 <= k < |p.places|
      ensures p.places[k].slot.CanInSlot? <==> o.canIn <= k < o.canIn + |cfg.canInputs|
    {
      KindAt(p, cfg, b, o, k);
    }
    if |cfg.canInputs| > 0 {
      var i := |cfg.canInputs| - 1;
      assert p.places[o.canIn + i] == Place(cfg.canInputs[i], i + 1, b.canIn + 2 * i);
    }
  }

  lemma KindAt(p: Plan, cfg: Config, b: Bases, o: Order, k: nat)
    requires Laid(p, cfg, b, o) && k < |p.places|
    ensures p.places[k].slot.CanInSlot? <==> o.canIn <= k < o.canIn + |cfg.canInputs|
  {
    if k < o.digIn { assert p.places[0 + k].slot == cfg.outputs[k]; }
    else if k < o.canIn { assert p.places[o.digIn + (k - o.digIn)].slot == cfg.inputs[k - o.digIn]; }
    else if k < o.canOut { assert p.places[o.canIn + (k - o.canIn)].slot == cfg.canInputs[k - o.canIn]; }
    else if k < o.virt { assert p.places[o.canOut + (k - o.canOut)].slot == cfg.canOutputs[k - o.canOut]; }
    else if k < o.flasher { assert p.places[o.virt + (k - o.virt)].slot == cfg.virtualInputs[k - o.virt]; }
    else if k < o.counter { assert p.places[o.flasher + (k - o.flasher)].slot == cfg.flashers[k - o.flasher]; }
    else if k < o.condition { assert p.places[o.counter + (k - o.counter)].slot == cfg.counters[k - o.counter]; }
    else { assert p.places[o.condition + (k - o.condition)].slot == cfg.conditions[k - o.condition]; }
  }
}
