/**
 Exact timing of flashers over whole runs, in cycles.
 */
module Timing {
  import opened Blocks
  import opened Engine
  import opened Dataflow

  /** The cell of position k after the first n cycles of a run. */
  function CellAfter(p: Plan, ticks: seq<Tick>, n: nat, k: nat): Cell
    requires p.Valid() && n <= |ticks| && k < |p.places|
  {
    CellAt(p, Run(p, ticks[..n]), k)
  }

  /** The inputs position k sees in cycle n. */
  function InputsIn(p: Plan, ticks: seq<Tick>, n: nat, k: nat): (r: seq<real>)
    requires p.Valid() && n < |ticks| && k < |p.places|
    ensures |r| == |Reads(p.places[k].slot)|
  {
    SeenInputs(p, Run(p, ticks[..n]), ticks[n], Run(p, ticks[..n + 1]), k)
  }

  lemma CellNext(p: Plan, ticks: seq<Tick>, n: nat, k: nat)
    requires p.Valid() && n < |ticks| && k < |p.places| && p.rule == Act && !p.places[k].slot.CanInSlot?
    ensures Fits(p.places[k].slot, CellAfter(p, ticks, n, k))
    ensures CellAfter(p, ticks, n + 1, k)
      == Fire(p.places[k].slot, CellAfter(p, ticks, n, k), InputsIn(p, ticks, n, k), CYCLE_MS * n,
              PinLevel(ticks[n], p.places[k].number))
  {
    assert ticks[..n + 1][..n] == ticks[..n];
    assert |ticks[..n]| == n;
    StepSatisfies(p, Run(p, ticks[..n]), ticks[n]);
    assert SlotEquation(p, Run(p, ticks[..n]), ticks[n], Run(p, ticks[..n + 1]), k);
  }

  // ----- flashers, first by themselves

  /** How many cycles a phase of the given length in milliseconds takes. */
  function PhaseCycles(ms: nat): nat { ms / 2 + 1 }

  /** The cells of a flasher before and after each cycle, and the levels of its input. */
  ghost predicate FlasherTrace(s: FlasherCfg, cells: seq<Cell>, driven: seq<bool>) {
    && s.enabled && |cells| == |driven| + 1
    && (forall n | 0 <= n < |cells| :: Fits(s, cells[n]))
    && (forall n | 0 <= n < |driven| ::
          cells[n + 1] == FlasherFire(s, cells[n], [FromBool(driven[n])], CYCLE_MS * n))
  }

  /** A flasher that came on in cycle i and is still driven is on, and remembers cycle i,
      until its on time is over. */
  lemma {:induction false} StaysOn(s: FlasherCfg, cells: seq<Cell>, driven: seq<bool>, i: nat, m: nat)
    requires FlasherTrace(s, cells, driven) && s.onTime >= 0
    requires i + 1 + m < |cells| && m < PhaseCycles(s.onTime)
    requires cells[i].vals[0] == 0.0 && cells[i + 1].vals[0] == 1.0
    requires forall n | i < n < i + 1 + m :: driven[n]
    ensures cells[i + 1 + m].vals[0] == 1.0 && cells[i + 1 + m].mem.onAt == CYCLE_MS * i
  {
    if m == 0 {
      assert cells[i + 1] == FlasherFire(s, cells[i], [FromBool(driven[i])], CYCLE_MS * i);
    } else {
      StaysOn(s, cells, driven, i, m - 1);
      assert cells[i + m + 1] == FlasherFire(s, cells[i + m], [FromBool(driven[i + m])], CYCLE_MS * (i + m));
    }
  }

  lemma {:induction false} StaysOff(s: FlasherCfg, cells: seq<Cell>, driven: seq<bool>, i: nat, m: nat)
    requires FlasherTrace(s, cells, driven) && s.offTime >= 0
    requires i + 1 + m < |cells| && m < PhaseCycles(s.offTime)
    requires cells[i].vals[0] == 1.0 && cells[i + 1].vals[0] == 0.0
    requires forall n | i <= n < i + 1 + m :: driven[n]
    ensures cells[i + 1 + m].vals[0] == 0.0 && cells[i + 1 + m].mem.offAt == CYCLE_MS * i
  {
    if m == 0 {
      assert driven[i];
      assert cells[i + 1] == FlasherFire(s, cells[i], [FromBool(driven[i])], CYCLE_MS * i);
    } else {
      StaysOff(s, cells, driven, i, m - 1);
      assert driven[i + m];
      assert cells[i + m + 1] == FlasherFire(s, cells[i + m], [FromBool(driven[i + m])], CYCLE_MS * (i + m));
    }
  }

  /** On for floor(onTime / 2) + 1 cycles, then off. */
  lemma OnTrace(s: FlasherCfg, cells: seq<Cell>, driven: seq<bool>, i: nat, n: nat)
    requires FlasherTrace(s, cells, driven) && s.onTime >= 0
    requires i < n <= i + PhaseCycles(s.onTime) + 1 && n < |cells|
    requires cells[i].vals[0] == 0.0 && cells[i + 1].vals[0] == 1.0
    requires forall j | i < j < n :: driven[j]
    ensures cells[n].vals[0] == if n <= i + PhaseCycles(s.onTime) then 1.0 else 0.0
  {
    if n <= i + PhaseCycles(s.onTime) {
      StaysOn(s, cells, driven, i, n - i - 1);
    } else {
      StaysOn(s, cells, driven, i, n - i - 2);
      assert driven[n - 1];
      assert cells[n - 1 + 1] == FlasherFire(s, cells[n - 1], [FromBool(driven[n - 1])], CYCLE_MS * (n - 1));
    }
  }

  /** Off for floor(offTime / 2) + 1 cycles, then on. */
  lemma OffTrace(s: FlasherCfg, cells: seq<Cell>, driven: seq<bool>, i: nat, n: nat)
    requires FlasherTrace(s, cells, driven) && s.onTime >= 0 && s.offTime >= 0
    requires i < n <= i + PhaseCycles(s.offTime) + 1 && n < |cells|
    requires cells[i].vals[0] == 1.0 && cells[i + 1].vals[0] == 0.0
    requires forall j | i <= j < n :: driven[j]
    ensures cells[n].vals[0] == if n <= i + PhaseCycles(s.offTime) then 0.0 else 1.0
  {
    if n <= i + PhaseCycles(s.offTime) {
      StaysOff(s, cells, driven, i, n - i - 1);
    } else {
      StaysOff(s, cells, driven, i, n - i - 2);
      assert driven[n - 1];
      assert cells[n - 1 + 1] == FlasherFire(s, cells[n - 1], [FromBool(driven[n - 1])], CYCLE_MS * (n - 1));
    }
  }

  /** The time at which a flasher last timed out before cycle n; zero if it never has. */
  function OutAt(lights: seq<real>, driven: seq<bool>, n: nat): int
    requires |lights| == |driven| + 1 && n <= |driven|
  {
    if n == 0 then 0
    else if driven[n - 1] && lights[n - 1] == 1.0 && lights[n] == 0.0 then 2 * (n - 1)
    else OutAt(lights, driven, n - 1)
  }

  lemma {:induction false} RemembersOut(s: FlasherCfg, cells: seq<Cell>, lights: seq<real>, driven: seq<bool>, n: nat)
    requires FlasherTrace(s, cells, driven) && s.onTime >= 0 && n <= |driven|
    requires cells[0] == Cell(PowerOn(s), [0.0])
    requires |lights| == |cells| && forall i | 0 <= i < |cells| :: lights[i] == cells[i].vals[0]
    ensures cells[n].mem.offAt == OutAt(lights, driven, n)
    ensures lights[n] == 0.0 || lights[n] == 1.0
  {
    if n > 0 {
      RemembersOut(s, cells, lights, driven, n - 1);
      assert cells[n - 1 + 1] == FlasherFire(s, cells[n - 1], [FromBool(driven[n - 1])], CYCLE_MS * (n - 1));
    }
  }

  lemma DarkTrace(s: FlasherCfg, cells: seq<Cell>, lights: seq<real>, driven: seq<bool>, n: nat)
    requires FlasherTrace(s, cells, driven) && s.onTime >= 0 && n < |driven|
    requires cells[0] == Cell(PowerOn(s), [0.0])
    requires |lights| == |cells| && forall i | 0 <= i < |cells| :: lights[i] == cells[i].vals[0]
    ensures lights[n + 1] == 0.0 || lights[n + 1] == 1.0
    ensures !driven[n] ==> lights[n + 1] == 0.0
    ensures driven[n] && lights[n] == 0.0 ==>
      (lights[n + 1] == 1.0 <==> 2 * n - OutAt(lights, driven, n) > s.offTime)
  {
    RemembersOut(s, cells, lights, driven, n);
    assert cells[n + 1] == FlasherFire(s, cells[n], [FromBool(driven[n])], CYCLE_MS * n);
  }

  // ----- flashers in a run

  ghost predicate IsFlasher(p: Plan, k: nat) {
    k < |p.places| && p.rule == Act && p.places[k].slot.FlasherSlot? && p.places[k].slot.enabled
  }

  /** A flasher's value after n cycles. */
  function Light(p: Plan, ticks: seq<Tick>, n: nat, k: nat): real
    requires p.Valid() && n <= |ticks| && k < |p.places| && p.places[k].slot.FlasherSlot?
  {
    CellAfter(p, ticks, n, k).vals[0]
  }

  /** The flasher's input is high in cycle n. */
  predicate Driven(p: Plan, ticks: seq<Tick>, n: nat, k: nat)
    requires p.Valid() && n < |ticks| && k < |p.places|
    requires p.places[k].slot.FlasherSlot? && p.places[k].slot.enabled
  {
    Truthy(InputsIn(p, ticks, n, k)[0])
  }

  lemma FlasherNext(p: Plan, ticks: seq<Tick>, n: nat, k: nat)
    requires p.Valid() && IsFlasher(p, k) && n < |ticks|
    ensures CellAfter(p, ticks, n + 1, k)
      == FlasherFire(p.places[k].slot, CellAfter(p, ticks, n, k), [FromBool(Driven(p, ticks, n, k))], CYCLE_MS * n)
  {
    CellNext(p, ticks, n, k);
    OnlyTruth(p.places[k].slot, CellAfter(p, ticks, n, k), InputsIn(p, ticks, n, k),
      [FromBool(Driven(p, ticks, n, k))], CYCLE_MS * n);
  }

  lemma FlasherInRun(p: Plan, ticks: seq<Tick>, k: nat) returns (cells: seq<Cell>, driven: seq<bool>)
    requires p.Valid() && IsFlasher(p, k)
    ensures |cells| == |ticks| + 1 && |driven| == |ticks| && FlasherTrace(p.places[k].slot, cells, driven)
    ensures cells[0] == CellAfter(p, ticks, 0, k)
    ensures forall n | 0 <= n <= |ticks| :: cells[n].vals[0] == Light(p, ticks, n, k)
    ensures forall n | 0 <= n < |ticks| :: driven[n] == Driven(p, ticks, n, k)
  {
    cells := seq(|ticks| + 1, n requires 0 <= n <= |ticks| => CellAfter(p, ticks, n, k));
    driven := seq(|ticks|, n requires 0 <= n < |ticks| => Driven(p, ticks, n, k));
    forall n | 0 <= n < |ticks|
      ensures cells[n + 1] == FlasherFire(p.places[k].slot, cells[n], [FromBool(driven[n])], CYCLE_MS * n)
    {
      FlasherNext(p, ticks, n, k);
    }
  }

  lemma OnlyTruth(s: FlasherCfg, c: Cell, ins: seq<real>, ins': seq<real>, now: int)
    requires Fits(s, c) && s.enabled && |ins| == |ins'| == |Reads(s)| && Truthy(ins[0]) == Truthy(ins'[0])
    ensures FlasherFire(s, c, ins, now) == FlasherFire(s, c, ins', now)
  {
  }

  /** In every run, a flasher that came on in cycle i and stays driven is on for exactly
      floor(onTime / 2) + 1 cycles, and then off. */
  lemma OnPhase(p: Plan, ticks: seq<Tick>, k: nat, i: nat, n: nat)
    requires p.Valid() && IsFlasher(p, k) && p.places[k].slot.onTime >= 0
    requires i < n <= i + PhaseCycles(p.places[k].slot.onTime) + 1 && n <= |ticks|
    requires Light(p, ticks, i, k) == 0.0 && Light(p, ticks, i + 1, k) == 1.0
    requires forall j | i < j < n :: Driven(p, ticks, j, k)
    ensures Light(p, ticks, n, k) == if n <= i + PhaseCycles(p.places[k].slot.onTime) then 1.0 else 0.0
  {
    var cells, driven := FlasherInRun(p, ticks, k);
    OnTrace(p.places[k].slot, cells, driven, i, n);
  }

  /** In every run, a driven flasher that timed out in cycle i is off for exactly
      floor(offTime / 2) + 1 cycles, and then on again. */
  lemma OffPhase(p: Plan, ticks: seq<Tick>, k: nat, i: nat, n: nat)
    requires p.Valid() && IsFlasher(p, k) && p.places[k].slot.onTime >= 0 && p.places[k].slot.offTime >= 0
    requires i < n <= i + PhaseCycles(p.places[k].slot.offTime) + 1 && n <= |ticks|
    requires Light(p, ticks, i, k) == 1.0 && Light(p, ticks, i + 1, k) == 0.0
    requires forall j | i <= j < n :: Driven(p, ticks, j, k)
    ensures Light(p, ticks, n, k) == if n <= i + PhaseCycles(p.places[k].slot.offTime) then 0.0 else 1.0
  {
    var cells, driven := FlasherInRun(p, ticks, k);
    OffTrace(p.places[k].slot, cells, driven, i, n);
  }

  /** The flasher's value after each number of cycles. */
  function Lights(p: Plan, ticks: seq<Tick>, k: nat): (lights: seq<real>)
    requires p.Valid() && k < |p.places| && p.places[k].slot.FlasherSlot?
    ensures |lights| == |ticks| + 1 && forall n | 0 <= n <= |ticks| :: lights[n] == Light(p, ticks, n, k)
  {
    seq(|ticks| + 1, n requires 0 <= n <= |ticks| => Light(p, ticks, n, k))
  }

  /** The levels of its input, cycle by cycle. */
  function Drives(p: Plan, ticks: seq<Tick>, k: nat): (driven: seq<bool>)
    requires p.Valid() && k < |p.places| && p.places[k].slot.FlasherSlot? && p.places[k].slot.enabled
    ensures |driven| == |ticks| && forall n | 0 <= n < |ticks| :: driven[n] == Driven(p, ticks, n, k)
  {
    seq(|ticks|, n requires 0 <= n < |ticks| => Driven(p, ticks, n, k))
  }

  lemma FlasherPowerOn(p: Plan, ticks: seq<Tick>, k: nat)
    requires p.Valid() && IsFlasher(p, k)
    ensures CellAfter(p, ticks, 0, k) == Cell(PowerOn(p.places[k].slot), [0.0])
  {
    assert ticks[..0] == [];
    assert p.Owns(k, p.places[k].base);
  }

  /** In every run an undriven flasher is dark, and a dark one that is driven comes on
      exactly when more than offTime has passed since its last timeout, or since power-on. */
  lemma DarkUntilDue(p: Plan, ticks: seq<Tick>, k: nat, lights: seq<real>, driven: seq<bool>, n: nat)
    requires p.Valid() && IsFlasher(p, k) && p.places[k].slot.onTime >= 0 && n < |ticks|
    requires lights == Lights(p, ticks, k) && driven == Drives(p, ticks, k)
    ensures lights[n + 1] == 0.0 || lights[n + 1] == 1.0
    ensures !driven[n] ==> lights[n + 1] == 0.0
    ensures driven[n] && lights[n] == 0.0 ==>
      (lights[n + 1] == 1.0 <==> 2 * n - OutAt(lights, driven, n) > p.places[k].slot.offTime)
  {
    var cells, drives := FlasherInRun(p, ticks, k);
    assert drives == driven;
    FlasherPowerOn(p, ticks, k);
    DarkTrace(p.places[k].slot, cells, lights, driven, n);
  }
}
