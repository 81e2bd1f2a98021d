/**
 What the simulator's lists are made of: the latch objects, and how the lists of a group
 hold the memories of its slots.
 */
module SimLists {
  import opened Blocks
  import opened Configs

  class InputLatch {
    var bOut: bool
    var bLast: bool

    ghost function Value(): Latch
      reads this
    {
      Latch(bOut, bLast)
    }

    constructor ()
      ensures Value() == Latch(false, false)
    {
      bOut, bLast := false, false;
    }

    method Check(mode: int, invert: bool, val: bool) returns (out: bool)
      modifies this
      ensures Value() == Blocks.Check(old(Value()), mode, invert, val)
      ensures out == Value().out
    {
      var v := val != invert;
      if v != bLast {
        if mode == MODE_MOMENTARY {
          bOut := v;
        } else if mode == MODE_LATCHING && v {
          bOut := !bOut;
        }
      }
      bLast := v;
      out := bOut;
    }
  }

  method NewLatches(n: nat) returns (ls: seq<InputLatch>)
    ensures |ls| == n && fresh(ls)
    ensures forall i | 0 <= i < n :: ls[i].Value() == Latch(false, false)
    ensures forall i, j | 0 <= i < j < n :: ls[i] != ls[j]
  {
    ls := [];
    while |ls| < n
      invariant |ls| <= n && fresh(ls)
      invariant forall i | 0 <= i < |ls| :: ls[i].Value() == Latch(false, false)
      invariant forall i, j | 0 <= i < j < |ls| :: ls[i] != ls[j]
      decreases n - |ls|
    {
      var l := new InputLatch();
      ls := ls + [l];
    }
  }

  ghost function LatchesOf(ls: seq<InputLatch>): (r: seq<Latch>)
    reads ls
  {
    seq(|ls|, i requires 0 <= i < |ls| reads ls => ls[i].Value())
  }

  /** Latches nobody has touched hold what they held. */
  twostate lemma LatchesKept(ls: seq<InputLatch>)
    requires forall i | 0 <= i < |ls| :: unchanged(ls[i])
    ensures LatchesOf(ls) == old(LatchesOf(ls))
  {
  }

  /** No two of these latches are the same object. */
  ghost predicate Distinct(ls: seq<InputLatch>) {
    forall i, j | 0 <= i < j < |ls| :: ls[i] != ls[j]
  }

  ghost predicate Separate(a: seq<InputLatch>, b: seq<InputLatch>) {
    forall i, j | 0 <= i < |a| && 0 <= j < |b| :: a[i] != b[j]
  }

  /** All latches are different objects. */
  ghost predicate Apart(a: seq<InputLatch>, b: seq<InputLatch>, c: seq<InputLatch>) {
    Distinct(a) && Distinct(b) && Distinct(c) && Separate(a, b) && Separate(a, c) && Separate(b, c)
  }

  ghost function OutMems(outState: seq<int>): seq<Mem> {
    seq(|outState|, i requires 0 <= i < |outState| => OutputMem(outState[i] == 1))
  }

  ghost function DinMems(ls: seq<Latch>, last: seq<bool>, check: seq<bool>, trig: seq<int>, init: seq<bool>): seq<Mem>
    requires |ls| == |last| == |check| == |trig| == |init|
  {
    seq(|ls|, i requires 0 <= i < |ls| => DigInMem(ls[i], last[i], check[i], trig[i], init[i]))
  }

  ghost function CinMems(ls: seq<Latch>, lastRx: seq<int>): seq<Mem>
    requires |ls| == |lastRx|
  {
    seq(|ls|, i requires 0 <= i < |ls| => CanInMem(ls[i], lastRx[i]))
  }

  ghost function SampleMems(sample: seq<real>): seq<Mem> {
    seq(|sample|, i requires 0 <= i < |sample| => SampleMem(sample[i]))
  }

  ghost function ViMems(ls: seq<Latch>): seq<Mem> {
    seq(|ls|, i requires 0 <= i < |ls| => VirtMem(ls[i]))
  }

  ghost function FlMems(on: seq<int>, off: seq<int>): seq<Mem>
    requires |on| == |off|
  {
    seq(|on|, i requires 0 <= i < |on| => FlasherMem(on[i], off[i]))
  }

  /** A time never set is 0. */
  function TimeIn(times: map<nat, int>, i: nat): int {
    if i in times then times[i] else 0
  }

  ghost function CtMems(inc: seq<bool>, dec: seq<bool>, reset: seq<bool>, incTimes: map<nat, int>,
                        decTimes: map<nat, int>): seq<Mem>
    requires |inc| == |dec| == |reset|
  {
    seq(|inc|, i requires 0 <= i < |inc| => CounterMem(inc[i], dec[i], reset[i], TimeIn(incTimes, i),
      TimeIn(decTimes, i)))
  }

  datatype Lengths = Lengths(vars: nat, outState: nat, dinLatch: nat, dinLast: nat, dinCheck: nat, dinTrig: nat,
                             dinInit: nat, cinLatch: nat, cinLastRx: nat, canoutSample: nat, viLatch: nat,
                             flOn: nat, flOff: nat, ctLastInc: nat, ctLastDec: nat, ctLastReset: nat)

  function LengthsOf(cfg: Config, size: nat): Lengths {
    var d := |cfg.inputs|;
    var f := |cfg.flashers|;
    var c := |cfg.counters|;
    Lengths(size, |cfg.outputs|, d, d, d, d, d, |cfg.canInputs|, |cfg.canInputs|, |cfg.canOutputs|,
      |cfg.virtualInputs|, f, f, c, c, c)
  }

  predicate OnOff(outState: seq<int>) {
    forall j | 0 <= j < |outState| :: 0 <= outState[j] <= 1
  }

  /** One entry per slot. */
  ghost predicate Sized(ls: Lengths, cfg: Config, size: nat, outState: seq<int>) {
    ls == LengthsOf(cfg, size) && OnOff(outState)
  }
}
