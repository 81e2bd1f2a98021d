/**
 The simulator as it is written: one object per device whose lists are updated in place
 by one method per function block. Each block is proved against the block's rule, each
 loop over a group against the engine's positions, and step against the engine's cycle.
 */
module Sim {
  import opened PyInt
  import opened Blocks
  import opened Engine
  import opened Configs
  import opened SimLayout
  import opened Dataflow
  import opened RxLoop
  import opened SimLists
  import opened SimStages
  import CanFrames
  import Dbc
  import Validation

  class Sim {
    const cfg: Config
    const base: Bases
    var vars: seq<real>
    var timeMs: int

    const dinLatch: seq<InputLatch>
    var dinLast: seq<bool>
    var dinCheck: seq<bool>
    var dinTrig: seq<int>
    var dinInit: seq<bool>

    const cinLatch: seq<InputLatch>
    var cinLastRx: seq<int>

    const viLatch: seq<InputLatch>
    var outState: seq<int>
    var flOn: seq<int>
    var flOff: seq<int>

    var ctLastInc: seq<bool>
    var ctLastDec: seq<bool>
    var ctLastReset: seq<bool>
    var ctIncTimes: map<nat, int>
    var ctDecTimes: map<nat, int>

    var canoutSample: seq<real>
    const transmitter: CanFrames.Transmitter

    /** The plan this object runs. */
    ghost const plan: Plan
    ghost const order: Order
    ghost const rule: Rule
    ghost const take: Taker

    // ----- the memory of each slot, as the lists hold it

    ghost function OutMem(i: nat): Mem
      requires i < |outState|
      reads `outState
    {
      OutputMem(outState[i] == 1)
    }

    ghost function DinMem(i: nat): Mem
      requires i < |dinLatch| == |dinLast| == |dinCheck| == |dinTrig| == |dinInit|
      reads `dinLast, `dinCheck, `dinTrig, `dinInit, dinLatch[i]
    {
      DigInMem(dinLatch[i].Value(), dinLast[i], dinCheck[i], dinTrig[i], dinInit[i])
    }

    ghost function CinMem(i: nat): Mem
      requires i < |cinLatch| == |cinLastRx|
      reads `cinLastRx, cinLatch[i]
    {
      CanInMem(cinLatch[i].Value(), cinLastRx[i])
    }

    ghost function ViMem(i: nat): Mem
      requires i < |viLatch|
      reads viLatch[i]
    {
      VirtMem(viLatch[i].Value())
    }

    ghost function FlMem(i: nat): Mem
      requires i < |flOn| == |flOff|
      reads `flOn, `flOff
    {
      FlasherMem(flOn[i], flOff[i])
    }

    ghost function CtMem(i: nat): Mem
      requires i < |ctLastInc| == |ctLastDec| == |ctLastReset|
      reads `ctLastInc, `ctLastDec, `ctLastReset, `ctIncTimes, `ctDecTimes
    {
      CounterMem(ctLastInc[i], ctLastDec[i], ctLastReset[i], TimeIn(ctIncTimes, i), TimeIn(ctDecTimes, i))
    }

    // ----- blocks

    method Receive(i: nat, f: Frame, extIde: int)
      requires i < |cfg.canInputs| == |cinLatch| == |cinLastRx|
      requires IsReceive(take) && base.canIn + 2 * i + 2 <= |vars|
      modifies `vars, `cinLastRx, cinLatch[i]
      ensures |cinLastRx| == |old(cinLastRx)|
      ensures forall j: nat | j < |cinLatch| && cinLatch[j] != cinLatch[i] :: CinMem(j) == old(CinMem(j))
      ensures Taken(take, cfg.canInputs[i], old(CinMem(i)), old(vars), base.canIn + 2 * i, f, extIde, timeMs)
          == (CinMem(i), vars)
    {
      var s := cfg.canInputs[i];
      var b := base.canIn + 2 * i;
      if s.enabled && s.ide == extIde && s.id == f.id && s.bitLength != 0 {
        cinLastRx := cinLastRx[i := timeMs];
        var val := Dbc.DecodeFloat(f.data, s.startBit, s.bitLength, s.factor, s.offset, s.byteOrder, s.signed);
        vars := vars[b + 1 := val];
        var out := cinLatch[i].Check(s.mode, false, Compare(s.operator, val, s.operand, true));
        vars := vars[b := FromBool(out)];
      }
      assert Blocks.Receive(s, Cell(old(CinMem(i)), old(vars[b..b + 2])), f, extIde, timeMs)
        == Cell(CinMem(i), vars[b..b + 2]);
      assert Splice(old(vars), b, vars[b..b + 2]) == vars;
    }

    method Profet(i: nat)
      requires i < |cfg.outputs| == |outState| && 0 <= outState[i] <= 1
      requires IsFire(rule) && CanRun(cfg.outputs[i], |vars|, base.output + 4 * i)
      modifies `vars, `outState
      ensures |outState| == |old(outState)| && (forall j | 0 <= j < |outState| && j != i ::
          outState[j] == old(outState[j])) && 0 <= outState[i] <= 1
      ensures After(rule, cfg.outputs[i], old(OutMem(i)), old(vars), base.output + 4 * i, timeMs, false)
          == (OutMem(i), vars)
    {
      var s := cfg.outputs[i];
      var b := base.output + 4 * i;
      if !s.enabled {
        outState := outState[i := 0];
        vars := vars[b := 0.0][b + 1 := 0.0][b + 2 := 0.0][b + 3 := 0.0];
      } else {
        assert Reads(s)[0] == s.input;
        var reqOn := Truthy(vars[s.input]);
        if outState[i] == 0 && reqOn {
          outState := outState[i := 1];
        } else if outState[i] == 1 && !reqOn {
          outState := outState[i := 0];
        }
        vars := vars[b := FromBool(outState[i] == 1)][b + 1 := 0.0][b + 2 := 0.0][b + 3 := 0.0];
      }
      AfterFire(rule, s, old(OutMem(i)), old(vars), b, timeMs, false, Cell(OutMem(i), vars[b..b + 4]));
      assert Splice(old(vars), b, vars[b..b + 4]) == vars;
    }

    method Digin(i: nat, pin: bool)
      requires i < |cfg.inputs| == |dinLatch| == |dinLast| == |dinCheck| == |dinTrig| == |dinInit|
      requires IsFire(rule) && CanRun(cfg.inputs[i], |vars|, base.digIn + i)
      modifies `vars, `dinLast, `dinCheck, `dinTrig, `dinInit, dinLatch[i]
      ensures |dinLast| == |old(dinLast)| && |dinCheck| == |old(dinCheck)|
      ensures |dinTrig| == |old(dinTrig)| && |dinInit| == |old(dinInit)|
      ensures forall j: nat | j < |dinLatch| && dinLatch[j] != dinLatch[i] :: DinMem(j) == old(DinMem(j))
      ensures After(rule, cfg.inputs[i], old(DinMem(i)), old(vars), base.digIn + i, timeMs, pin) == (DinMem(i), vars)
    {
      var s := cfg.inputs[i];
      var idx := base.digIn + i;
      if !s.enabled {
        vars := vars[idx := 0.0];
      } else {
        Debounce(i, pin);
        Settle(i, pin);
      }
      AfterOne(rule, s, old(DinMem(i)), old(vars), idx, timeMs, pin, DinMem(i), vars[idx]);
      assert vars == old(vars)[idx := vars[idx]];
    }

    /** Takes over the pin once it has been steady for long enough, or in the first cycle. */
    method Settle(i: nat, pin: bool)
      requires i < |cfg.inputs| == |dinLatch| == |dinLast| == |dinCheck| == |dinTrig| == |dinInit|
      requires base.digIn + i < |vars|
      modifies `vars, `dinCheck, `dinInit, dinLatch[i]
      ensures dinInit == old(dinInit)[i := true]
      ensures
        var s := cfg.inputs[i];
        var idx := base.digIn + i;
        var fires := (old(dinCheck[i]) && timeMs - dinTrig[i] > s.debounceTime) || !old(dinInit[i]);
        var latch := old(dinLatch[i].Value());
        && dinCheck == (if fires then old(dinCheck)[i := false] else old(dinCheck))
        && dinLatch[i].Value() == (if fires then Blocks.Check(latch, s.mode, s.invert, pin) else latch)
        && vars == (if fires then old(vars)[idx := FromBool(dinLatch[i].Value().out)] else old(vars))
    {
      var s := cfg.inputs[i];
      var idx := base.digIn + i;
      if (dinCheck[i] && timeMs - dinTrig[i] > s.debounceTime) || !dinInit[i] {
        dinCheck := dinCheck[i := false];
        var out := dinLatch[i].Check(s.mode, s.invert, pin);
        vars := vars[idx := FromBool(out)];
      }
      dinInit := dinInit[i := true];
    }

    /** Notes a change of the pin. */
    method Debounce(i: nat, pin: bool)
      requires i < |dinLast| == |dinCheck| == |dinTrig|
      modifies `dinLast, `dinCheck, `dinTrig
      ensures dinLast == old(dinLast)[i := pin]
      ensures dinTrig == if pin != old(dinLast[i]) then old(dinTrig)[i := timeMs] else old(dinTrig)
      ensures dinCheck == if pin != old(dinLast[i]) then old(dinCheck)[i := true] else old(dinCheck)
    {
      if pin != dinLast[i] {
        dinTrig := dinTrig[i := timeMs];
        dinCheck := dinCheck[i := true];
      }
      dinLast := dinLast[i := pin];
    }

    method Timeout(i: nat)
      requires i < |cfg.canInputs| == |cinLatch| == |cinLastRx|
      requires IsFire(rule) && CanRun(cfg.canInputs[i], |vars|, base.canIn + 2 * i)
      modifies `vars
      ensures After(rule, cfg.canInputs[i], old(CinMem(i)), old(vars), base.canIn + 2 * i, timeMs, false)
          == (CinMem(i), vars)
    {
      var s := cfg.canInputs[i];
      var b := base.canIn + 2 * i;
      if s.enabled && s.timeoutEnabled && timeMs - cinLastRx[i] > s.timeout {
        vars := vars[b := 0.0][b + 1 := 0.0];
      }
      AfterFire(rule, s, old(CinMem(i)), old(vars), b, timeMs, false, Cell(CinMem(i), vars[b..b + 2]));
      assert Splice(old(vars), b, vars[b..b + 2]) == vars;
    }

    method Sample(i: nat)
      requires i < |cfg.canOutputs| == |canoutSample|
      requires IsFire(rule) && CanRun(cfg.canOutputs[i], |vars|, 0)
      modifies `canoutSample
      ensures |canoutSample| == |old(canoutSample)|
      ensures forall j | 0 <= j < |canoutSample| && j != i :: canoutSample[j] == old(canoutSample[j])
      ensures After(rule, cfg.canOutputs[i], SampleMem(old(canoutSample[i])), old(vars), 0, timeMs, false)
          == (SampleMem(canoutSample[i]), vars)
    {
      var s := cfg.canOutputs[i];
      if s.enabled {
        assert Reads(s)[0] == s.input;
        canoutSample := canoutSample[i := vars[s.input]];
      }
      AfterFire(rule, s, SampleMem(old(canoutSample[i])), vars, 0, timeMs, false, Cell(SampleMem(canoutSample[i]), []));
      assert Splice(vars, 0, []) == vars;
    }

    method Virtin(i: nat)
      requires i < |cfg.virtualInputs| == |viLatch|
      requires IsFire(rule) && CanRun(cfg.virtualInputs[i], |vars|, base.virtIn + i)
      modifies `vars, viLatch[i]
      ensures After(rule, cfg.virtualInputs[i], old(ViMem(i)), old(vars), base.virtIn + i, timeMs, false)
          == (ViMem(i), vars)
    {
      var s := cfg.virtualInputs[i];
      var idx := base.virtIn + i;
      if !s.enabled {
        vars := vars[idx := 0.0];
        AfterOne(rule, s, old(ViMem(i)), old(vars), idx, timeMs, false, ViMem(i), 0.0);
        return;
      }
      assert Reads(s)[0] == s.var0 && Reads(s)[1] == s.var1;
      var r0 := Truthy(vars[s.var0]);
      if s.not0 { r0 := !r0; }
      var r1 := Truthy(vars[s.var1]);
      if s.not1 { r1 := !r1; }
      var sec := if s.cond0 == BOOL_AND then r0 && r1 else if s.cond0 == BOOL_OR then r0 || r1 else !r0 || !r1;
      if s.var2 != 0 {
        assert Reads(s)[2] == s.var2;
        var r2 := Truthy(vars[s.var2]);
        if s.not2 { r2 := !r2; }
        sec := if s.cond1 == BOOL_AND then sec && r2 else if s.cond1 == BOOL_OR then sec || r2 else !sec || !r2;
      }
      assert sec == VirtTerm(s, Values(vars, Reads(s)));
      var out := viLatch[i].Check(s.mode, false, sec);
      vars := vars[idx := FromBool(out)];
      AfterOne(rule, s, old(ViMem(i)), old(vars), idx, timeMs, false, ViMem(i), FromBool(out));
    }

    method Flasher(i: nat)
      requires i < |cfg.flashers| == |flOn| == |flOff|
      requires IsFire(rule) && CanRun(cfg.flashers[i], |vars|, base.flasher + i)
      modifies `vars, `flOn, `flOff
      ensures |flOn| == |flOff| == |old(flOn)|
      ensures forall j: nat | j < |flOn| && j != i :: FlMem(j) == old(FlMem(j))
      ensures After(rule, cfg.flashers[i], old(FlMem(i)), old(vars), base.flasher + i, timeMs, false)
          == (FlMem(i), vars)
    {
      var s := cfg.flashers[i];
      var idx := base.flasher + i;
      if !s.enabled {
        vars := vars[idx := 0.0];
        AfterOne(rule, s, old(FlMem(i)), old(vars), idx, timeMs, false, FlMem(i), 0.0);
        return;
      }
      assert Reads(s)[0] == s.input;
      if !Truthy(vars[s.input]) {
        vars := vars[idx := 0.0];
        AfterOne(rule, s, old(FlMem(i)), old(vars), idx, timeMs, false, FlMem(i), 0.0);
        return;
      }
      if vars[idx] == 0.0 && timeMs - flOff[i] > s.offTime {
        vars := vars[idx := 1.0];
        flOn := flOn[i := timeMs];
      }
      if vars[idx] == 1.0 && timeMs - flOn[i] > s.onTime {
        vars := vars[idx := 0.0];
        flOff := flOff[i := timeMs];
      }
      assert vars == old(vars)[idx := vars[idx]];
      AfterOne(rule, s, old(FlMem(i)), old(vars), idx, timeMs, false, FlMem(i), vars[idx]);
    }

    method Counter(i: nat)
      requires i < |cfg.counters| == |ctLastInc| == |ctLastDec| == |ctLastReset|
      requires IsFire(rule) && CanRun(cfg.counters[i], |vars|, base.counter + i)
      modifies `vars, `ctLastInc, `ctLastDec, `ctLastReset, `ctIncTimes, `ctDecTimes
      ensures |ctLastInc| == |ctLastDec| == |ctLastReset| == |old(ctLastInc)|
      ensures forall j: nat | j < |ctLastInc| && j != i :: CtMem(j) == old(CtMem(j))
      ensures After(rule, cfg.counters[i], old(CtMem(i)), old(vars), base.counter + i, timeMs, false)
          == (CtMem(i), vars)
    {
      var s := cfg.counters[i];
      var idx := base.counter + i;
      if !s.enabled {
        vars := vars[idx := 0.0];
        AfterOne(rule, s, old(CtMem(i)), old(vars), idx, timeMs, false, CtMem(i), 0.0);
        return;
      }
      Count(i);
    }

    /** An enabled counter. */
    method Count(i: nat)
      requires i < |cfg.counters| == |ctLastInc| == |ctLastDec| == |ctLastReset| && cfg.counters[i].enabled
      requires IsFire(rule) && CanRun(cfg.counters[i], |vars|, base.counter + i)
      modifies `vars, `ctLastInc, `ctLastDec, `ctLastReset, `ctIncTimes, `ctDecTimes
      ensures |ctLastInc| == |ctLastDec| == |ctLastReset| == |old(ctLastInc)|
      ensures forall j: nat | j < |ctLastInc| && j != i :: CtMem(j) == old(CtMem(j))
      ensures After(rule, cfg.counters[i], old(CtMem(i)), old(vars), base.counter + i, timeMs, false)
          == (CtMem(i), vars)
    {
      var s := cfg.counters[i];
      var idx := base.counter + i;
      assert Reads(s)[0] == s.incInput && Reads(s)[1] == s.decInput && Reads(s)[2] == s.resetInput;
      var inc, dec, rst := Truthy(vars[s.incInput]), Truthy(vars[s.decInput]), Truthy(vars[s.resetInput]);
      CounterCases(s, CtMem(i), vars[idx], [vars[s.incInput], vars[s.decInput], vars[s.resetInput]], timeMs);
      var reset := MustReset(i, inc, dec, rst);
      if reset {
        vars := vars[idx := 0.0];
        AfterCount(rule, s, old(CtMem(i)), old(vars), idx, timeMs, CtMem(i), 0.0);
        return;
      }
      CountOn(i, inc, dec, rst);
      AfterCount(rule, s, old(CtMem(i)), old(vars), idx, timeMs, CtMem(i), vars[idx]);
    }

    /** Both ways to reset leave the counter's memory alone. */
    method MustReset(i: nat, inc: bool, dec: bool, rst: bool) returns (r: bool)
      requires i < |cfg.counters| == |ctLastInc| == |ctLastDec| == |ctLastReset|
      ensures r == Resets(cfg.counters[i], CtMem(i), inc, dec, rst, timeMs)
    {
      var s := cfg.counters[i];
      if Edge(s.resetEdge, ctLastReset[i], rst) {
        return true;
      }
      if s.holdToReset {
        if inc && timeMs - TimeIn(ctIncTimes, i) >= s.resetTime {
          return true;
        }
        if dec && timeMs - TimeIn(ctDecTimes, i) >= s.resetTime {
          return true;
        }
      }
      return false;
    }

    /** A counter whose reset input does not fire. */
    method CountOn(i: nat, inc: bool, dec: bool, rst: bool)
      requires i < |cfg.counters| == |ctLastInc| == |ctLastDec| == |ctLastReset| && base.counter + i < |vars|
      modifies `vars, `ctLastInc, `ctLastDec, `ctLastReset, `ctIncTimes, `ctDecTimes
      ensures |ctLastInc| == |ctLastDec| == |ctLastReset| == |old(ctLastInc)|
      ensures forall j: nat | j < |ctLastInc| && j != i :: CtMem(j) == old(CtMem(j))
      ensures CtMem(i) == Counted(cfg.counters[i], old(CtMem(i)), inc, dec, rst, timeMs)
      ensures var idx := base.counter + i;
        vars == old(vars)[idx := CountedTo(cfg.counters[i], old(CtMem(i)), old(vars[idx]), inc, dec)]
    {
      CountEdges(i, inc, dec, rst);
    }

    /** Takes over the three inputs, and counts on the edges. */
    method CountEdges(i: nat, inc: bool, dec: bool, rst: bool)
      requires i < |cfg.counters| == |ctLastInc| == |ctLastDec| == |ctLastReset| && base.counter + i < |vars|
      modifies `vars, `ctLastInc, `ctLastDec, `ctLastReset, `ctIncTimes, `ctDecTimes
      ensures ctLastInc == old(ctLastInc)[i := inc] && ctLastDec == old(ctLastDec)[i := dec]
      ensures ctLastReset == old(ctLastReset)[i := rst]
      ensures
        var s, idx := cfg.counters[i], base.counter + i;
        var up, down := Edge(s.incEdge, old(ctLastInc[i]), inc), Edge(s.decEdge, old(ctLastDec[i]), dec);
        var v := if up then CountUp(s, old(vars[idx])) else old(vars[idx]);
        && vars == old(vars)[idx := if down then CountDown(s, v) else v]
        && ctIncTimes == (if up then old(ctIncTimes)[i := timeMs] else old(ctIncTimes))
        && ctDecTimes == (if down then old(ctDecTimes)[i := timeMs] else old(ctDecTimes))
    {
      if Edge(cfg.counters[i].incEdge, ctLastInc[i], inc) {
        Increment(i);
      }
      if Edge(cfg.counters[i].decEdge, ctLastDec[i], dec) {
        Decrement(i);
      }
      ctLastInc := ctLastInc[i := inc];
      ctLastDec := ctLastDec[i := dec];
      ctLastReset := ctLastReset[i := rst];
    }

    method Increment(i: nat)
      requires i < |cfg.counters| && base.counter + i < |vars|
      modifies `vars, `ctIncTimes
      ensures vars == old(vars)[base.counter + i := CountUp(cfg.counters[i], old(vars[base.counter + i]))]
      ensures ctIncTimes == old(ctIncTimes)[i := timeMs]
    {
      var s := cfg.counters[i];
      var idx := base.counter + i;
      vars := vars[idx := vars[idx] + 1.0];
      if vars[idx] > s.maxCount as real {
        vars := vars[idx := if s.wrapAround then 0.0 else s.maxCount as real];
      }
      ctIncTimes := ctIncTimes[i := timeMs];
    }

    method Decrement(i: nat)
      requires i < |cfg.counters| && base.counter + i < |vars|
      modifies `vars, `ctDecTimes
      ensures vars == old(vars)[base.counter + i := CountDown(cfg.counters[i], old(vars[base.counter + i]))]
      ensures ctDecTimes == old(ctDecTimes)[i := timeMs]
    {
      var s := cfg.counters[i];
      var idx := base.counter + i;
      if vars[idx] == 0.0 {
        vars := vars[idx := if s.wrapAround then s.maxCount as real else s.minCount as real];
      } else {
        vars := vars[idx := vars[idx] - 1.0];
      }
      ctDecTimes := ctDecTimes[i := timeMs];
    }

    method Condition(i: nat)
      requires i < |cfg.conditions|
      requires IsFire(rule) && CanRun(cfg.conditions[i], |vars|, base.condition + i)
      modifies `vars
      ensures After(rule, cfg.conditions[i], ConditionMem, old(vars), base.condition + i, timeMs, false)
          == (ConditionMem, vars)
    {
      var s := cfg.conditions[i];
      var idx := base.condition + i;
      if !s.enabled {
        vars := vars[idx := 0.0];
        AfterOne(rule, s, ConditionMem, old(vars), idx, timeMs, false, ConditionMem, 0.0);
        return;
      }
      assert Reads(s)[0] == s.input;
      var lhs := vars[s.input];
      if s.operator == OP_BITAND {
        vars := vars[idx := And(And(Trunc(lhs), Trunc(s.arg)), 0xFFFF) as real];
      } else if s.operator == OP_BITNAND {
        var n := And(Not(And(And(Trunc(lhs), Trunc(s.arg)), 0xFFFF)), 0xFFFF_FFFF);
        vars := vars[idx := (if n != 0 then n else 1) as real];
      } else if s.operator > OP_BITNAND {
        vars := vars[idx := 0.0];
      } else {
        vars := vars[idx := FromBool(Compare(s.operator, lhs, s.arg, false))];
      }
      AfterOne(rule, s, ConditionMem, old(vars), idx, timeMs, false, ConditionMem, vars[idx]);
    }

    // ----- the loops over the groups

    ghost function Outs(): Part
      reads `vars, `outState
    {
      Part(OutMems(outState), vars)
    }

    method OutputTurn(i: nat, ghost parts: seq<Part>)
      requires |outState| == |cfg.outputs| && OnOff(outState)
      requires IsFire(rule) && AllRun(cfg.outputs, |vars|, base.output, 4) && i < |cfg.outputs|
      requires Rota(rule, cfg.outputs, parts, base.output, 4, timeMs, map[]) && Outs() == parts[i]
      modifies `vars, `outState
      ensures |outState| == |old(outState)| && OnOff(outState)
      ensures |vars| == |old(vars)| && Outs() == parts[i + 1]
    {
      RotaTurn(rule, cfg.outputs, parts, base.output, 4, timeMs, map[], i, |vars|, base.output + 4 * i, false);
      ghost var mems := Outs().mems;
      Profet(i);
      assert Outs().mems == mems[i := OutMem(i)];
    }

    method Outputs()
      requires IsFire(rule) && AllRun(cfg.outputs, |vars|, base.output, 4)
      requires |outState| == |cfg.outputs| && OnOff(outState)
      modifies `vars, `outState
      ensures |outState| == |old(outState)| && OnOff(outState)
      ensures Outs() == Turns(rule, cfg.outputs, old(Outs()), base.output, 4, timeMs, map[], |outState|)
    {
      ghost var parts := MakeRota(rule, cfg.outputs, Outs(), base.output, 4, timeMs, map[]);
      var i := 0;
      while i < |cfg.outputs|
        invariant |outState| == |cfg.outputs| && OnOff(outState)
        invariant 0 <= i <= |cfg.outputs| && |vars| == |old(vars)| && Outs() == parts[i]
      {
        OutputTurn(i, parts);
        i := i + 1;
      }
    }

    ghost function Dins(): Part
      requires |dinLatch| == |dinLast| == |dinCheck| == |dinTrig| == |dinInit|
      reads `vars, `dinLast, `dinCheck, `dinTrig, `dinInit, dinLatch
    {
      Part(DinMems(LatchesOf(dinLatch), dinLast, dinCheck, dinTrig, dinInit), vars)
    }

    method InputTurn(i: nat, pin: bool, ghost pins: map<int, bool>, ghost parts: seq<Part>)
      requires |dinLatch| == |dinLast| == |dinCheck| == |dinTrig| == |dinInit| == |cfg.inputs| && Distinct(dinLatch)
      requires IsFire(rule) && AllRun(cfg.inputs, |vars|, base.digIn, 1) && i < |cfg.inputs|
          && pin == Level(pins, i + 1)
      requires Rota(rule, cfg.inputs, parts, base.digIn, 1, timeMs, pins) && Dins() == parts[i]
      modifies `vars, `dinLast, `dinCheck, `dinTrig, `dinInit, dinLatch
      ensures |dinLatch| == |dinLast| == |dinCheck| == |dinTrig| == |dinInit|
      ensures |vars| == |old(vars)| && Dins() == parts[i + 1]
    {
      RotaTurn(rule, cfg.inputs, parts, base.digIn, 1, timeMs, pins, i, |vars|, base.digIn + i, pin);
      ghost var mems := Dins().mems;
      assert forall j: nat | j < |dinLatch| && j != i :: dinLatch[j] != dinLatch[i];
      Digin(i, pin);
      assert Dins().mems == mems[i := DinMem(i)];
    }

    method Inputs(pins: map<int, bool>)
      requires IsFire(rule) && AllRun(cfg.inputs, |vars|, base.digIn, 1)
      requires |dinLatch| == |dinLast| == |dinCheck| == |dinTrig| == |dinInit| == |cfg.inputs| && Distinct(dinLatch)
      modifies `vars, `dinLast, `dinCheck, `dinTrig, `dinInit, dinLatch
      ensures |dinLatch| == |dinLast| == |dinCheck| == |dinTrig| == |dinInit|
      ensures Dins() == Turns(rule, cfg.inputs, old(Dins()), base.digIn, 1, timeMs, pins, |dinLatch|)
    {
      ghost var parts := MakeRota(rule, cfg.inputs, Dins(), base.digIn, 1, timeMs, pins);
      var i := 0;
      while i < |cfg.inputs|
        invariant |dinLatch| == |dinLast| == |dinCheck| == |dinTrig| == |dinInit| == |cfg.inputs|
        invariant 0 <= i <= |cfg.inputs| && |vars| == |old(vars)| && Dins() == parts[i]
      {
        var pin := Level(pins, i + 1);
        InputTurn(i, pin, pins, parts);
        i := i + 1;
      }
    }

    ghost function Cins(): Part
      requires |cinLatch| == |cinLastRx|
      reads `vars, `cinLastRx, cinLatch
    {
      Part(CinMems(LatchesOf(cinLatch), cinLastRx), vars)
    }

    method OfferTurn(i: nat, f: Frame, extIde: int, ghost parts: seq<Part>)
      requires IsReceive(take) && base.canIn + 2 * |cfg.canInputs| <= |vars| && i < |cfg.canInputs|
      requires |cinLatch| == |cinLastRx| == |cfg.canInputs| && Distinct(cinLatch)
      requires Round(take, cfg.canInputs, parts, base.canIn, f, extIde, timeMs) && Cins() == parts[i]
      modifies `vars, `cinLastRx, cinLatch
      ensures |cinLastRx| == |cinLatch| && |vars| == |old(vars)| && Cins() == parts[i + 1]
    {
      RoundTurn(take, cfg.canInputs, parts, base.canIn, f, extIde, timeMs, i);
      ghost var mems := Cins().mems;
      assert forall j: nat | j < |cinLatch| && j != i :: cinLatch[j] != cinLatch[i];
      Receive(i, f, extIde);
      assert Cins().mems == mems[i := CinMem(i)];
    }

    /** Offers a frame to every CAN input. */
    method Offer(f: Frame, extIde: int)
      requires IsReceive(take) && (|cfg.canInputs| > 0 ==> base.canIn + 2 * |cfg.canInputs| <= |vars|)
      requires |cinLatch| == |cinLastRx| == |cfg.canInputs| && Distinct(cinLatch)
      modifies `vars, `cinLastRx, cinLatch
      ensures |cinLastRx| == |cinLatch| && |vars| == |old(vars)|
      ensures Cins() == Offered(take, cfg.canInputs, old(Cins()), base.canIn, f, extIde, timeMs, |cinLatch|)
    {
      ghost var parts := MakeRound(take, cfg.canInputs, Cins(), base.canIn, f, extIde, timeMs);
      var i := 0;
      while i < |cfg.canInputs|
        invariant 0 <= i <= |cfg.canInputs| && |cinLatch| == |cinLastRx| && |vars| == |old(vars)|
        invariant Cins() == parts[i]
      {
        OfferTurn(i, f, extIde, parts);
        i := i + 1;
      }
    }

    method DrainRx(rx: seq<Frame>, extIde: int)
      requires IsReceive(take) && (|cfg.canInputs| > 0 ==> base.canIn + 2 * |cfg.canInputs| <= |vars|)
      requires |cinLatch| == |cinLastRx| == |cfg.canInputs| && Distinct(cinLatch)
      modifies `vars, `cinLastRx, cinLatch
      ensures |cinLastRx| == |cinLatch| && |vars| == |old(vars)|
      ensures Cins() == Drained(take, cfg.canInputs, old(Cins()), base.canIn, rx, extIde, timeMs, |rx|)
    {
      var m := 0;
      while m < |rx|
        invariant 0 <= m <= |rx| && |cinLastRx| == |cinLatch| && |vars| == |old(vars)|
        invariant Cins() == Drained(take, cfg.canInputs, old(Cins()), base.canIn, rx, extIde, timeMs, m)
      {
        Offer(rx[m], extIde);
        m := m + 1;
      }
    }

    method TimeoutTurn(i: nat, ghost parts: seq<Part>)
      requires |cinLatch| == |cinLastRx| == |cfg.canInputs|
      requires IsFire(rule) && AllRun(cfg.canInputs, |vars|, base.canIn, 2) && i < |cfg.canInputs|
      requires Rota(rule, cfg.canInputs, parts, base.canIn, 2, timeMs, map[]) && Cins() == parts[i]
      modifies `vars
      ensures |vars| == |old(vars)| && Cins() == parts[i + 1]
    {
      RotaTurn(rule, cfg.canInputs, parts, base.canIn, 2, timeMs, map[], i, |vars|, base.canIn + 2 * i, false);
      ghost var mems := Cins().mems;
      Timeout(i);
      assert Cins().mems == mems[i := CinMem(i)];
    }

    method Timeouts()
      requires IsFire(rule) && AllRun(cfg.canInputs, |vars|, base.canIn, 2)
      requires |cinLatch| == |cinLastRx| == |cfg.canInputs|
      modifies `vars
      ensures Cins() == Turns(rule, cfg.canInputs, old(Cins()), base.canIn, 2, timeMs, map[], |cinLatch|)
    {
      ghost var parts := MakeRota(rule, cfg.canInputs, Cins(), base.canIn, 2, timeMs, map[]);
      var i := 0;
      while i < |cfg.canInputs|
        invariant |cinLatch| == |cinLastRx| == |cfg.canInputs|
        invariant 0 <= i <= |cfg.canInputs| && |vars| == |old(vars)| && Cins() == parts[i]
      {
        TimeoutTurn(i, parts);
        i := i + 1;
      }
    }

    ghost function Samples(): Part
      reads `vars, `canoutSample
    {
      Part(SampleMems(canoutSample), vars)
    }

    method SampleTurn(i: nat, ghost parts: seq<Part>)
      requires |canoutSample| == |cfg.canOutputs|
      requires IsFire(rule) && AllRun(cfg.canOutputs, |vars|, 0, 0) && i < |cfg.canOutputs|
      requires Rota(rule, cfg.canOutputs, parts, 0, 0, timeMs, map[]) && Samples() == parts[i]
      modifies `canoutSample
      ensures |canoutSample| == |old(canoutSample)|
      ensures |vars| == |old(vars)| && Samples() == parts[i + 1]
    {
      RotaTurn(rule, cfg.canOutputs, parts, 0, 0, timeMs, map[], i, |vars|, 0, false);
      ghost var mems := Samples().mems;
      Sample(i);
      assert Samples().mems == mems[i := SampleMem(canoutSample[i])];
    }

    method SampleAll()
      requires IsFire(rule) && AllRun(cfg.canOutputs, |vars|, 0, 0)
      requires |canoutSample| == |cfg.canOutputs|
      modifies `canoutSample
      ensures |canoutSample| == |old(canoutSample)|
      ensures Samples() == Turns(rule, cfg.canOutputs, old(Samples()), 0, 0, timeMs, map[], |canoutSample|)
    {
      ghost var parts := MakeRota(rule, cfg.canOutputs, Samples(), 0, 0, timeMs, map[]);
      var i := 0;
      while i < |cfg.canOutputs|
        invariant |canoutSample| == |cfg.canOutputs|
        invariant 0 <= i <= |cfg.canOutputs| && |vars| == |old(vars)| && Samples() == parts[i]
      {
        SampleTurn(i, parts);
        i := i + 1;
      }
    }

    ghost function Virts(): Part
      reads `vars, viLatch
    {
      Part(ViMems(LatchesOf(viLatch)), vars)
    }

    method VirtTurn(i: nat, ghost parts: seq<Part>)
      requires |viLatch| == |cfg.virtualInputs| && Distinct(viLatch)
      requires IsFire(rule) && AllRun(cfg.virtualInputs, |vars|, base.virtIn, 1) && i < |cfg.virtualInputs|
      requires Rota(rule, cfg.virtualInputs, parts, base.virtIn, 1, timeMs, map[]) && Virts() == parts[i]
      modifies `vars, viLatch
      ensures |vars| == |old(vars)| && Virts() == parts[i + 1]
    {
      RotaTurn(rule, cfg.virtualInputs, parts, base.virtIn, 1, timeMs, map[], i, |vars|, base.virtIn + i, false);
      ghost var mems := Virts().mems;
      assert forall j: nat | j < |viLatch| && j != i :: viLatch[j] != viLatch[i];
      Virtin(i);
      assert Virts().mems == mems[i := ViMem(i)];
    }

    method VirtualInputs()
      requires IsFire(rule) && AllRun(cfg.virtualInputs, |vars|, base.virtIn, 1)
      requires |viLatch| == |cfg.virtualInputs| && Distinct(viLatch)
      modifies `vars, viLatch
      ensures Virts() == Turns(rule, cfg.virtualInputs, old(Virts()), base.virtIn, 1, timeMs, map[], |viLatch|)
    {
      ghost var parts := MakeRota(rule, cfg.virtualInputs, Virts(), base.virtIn, 1, timeMs, map[]);
      var i := 0;
      while i < |cfg.virtualInputs|
        invariant |viLatch| == |cfg.virtualInputs|
        invariant 0 <= i <= |cfg.virtualInputs| && |vars| == |old(vars)| && Virts() == parts[i]
      {
        VirtTurn(i, parts);
        i := i + 1;
      }
    }

    ghost function Fls(): Part
      requires |flOn| == |flOff|
      reads `vars, `flOn, `flOff
    {
      Part(FlMems(flOn, flOff), vars)
    }

    method FlasherTurn(i: nat, ghost parts: seq<Part>)
      requires |flOn| == |flOff| == |cfg.flashers|
      requires IsFire(rule) && AllRun(cfg.flashers, |vars|, base.flasher, 1) && i < |cfg.flashers|
      requires Rota(rule, cfg.flashers, parts, base.flasher, 1, timeMs, map[]) && Fls() == parts[i]
      modifies `vars, `flOn, `flOff
      ensures |flOn| == |flOff| == |old(flOn)|
      ensures |vars| == |old(vars)| && Fls() == parts[i + 1]
    {
      RotaTurn(rule, cfg.flashers, parts, base.flasher, 1, timeMs, map[], i, |vars|, base.flasher + i, false);
      ghost var mems := Fls().mems;
      assert forall j: nat | j < |flOn| :: mems[j] == FlMem(j);
      Flasher(i);
      assert Fls().mems == mems[i := FlMem(i)];
    }

    method Flashers()
      requires IsFire(rule) && AllRun(cfg.flashers, |vars|, base.flasher, 1)
      requires |flOn| == |flOff| == |cfg.flashers|
      modifies `vars, `flOn, `flOff
      ensures |flOn| == |flOff| == |old(flOn)|
      ensures Fls() == Turns(rule, cfg.flashers, old(Fls()), base.flasher, 1, timeMs, map[], |flOn|)
    {
      ghost var parts := MakeRota(rule, cfg.flashers, Fls(), base.flasher, 1, timeMs, map[]);
      var i := 0;
      while i < |cfg.flashers|
        invariant |flOn| == |flOff| == |cfg.flashers|
        invariant 0 <= i <= |cfg.flashers| && |vars| == |old(vars)| && Fls() == parts[i]
      {
        FlasherTurn(i, parts);
        i := i + 1;
      }
    }

    ghost function Cts(): Part
      requires |ctLastInc| == |ctLastDec| == |ctLastReset|
      reads `vars, `ctLastInc, `ctLastDec, `ctLastReset, `ctIncTimes, `ctDecTimes
    {
      Part(CtMems(ctLastInc, ctLastDec, ctLastReset, ctIncTimes, ctDecTimes), vars)
    }

    method CounterTurn(i: nat, ghost parts: seq<Part>)
      requires |ctLastInc| == |ctLastDec| == |ctLastReset| == |cfg.counters|
      requires IsFire(rule) && AllRun(cfg.counters, |vars|, base.counter, 1) && i < |cfg.counters|
      requires Rota(rule, cfg.counters, parts, base.counter, 1, timeMs, map[]) && Cts() == parts[i]
      modifies `vars, `ctLastInc, `ctLastDec, `ctLastReset, `ctIncTimes, `ctDecTimes
      ensures |ctLastInc| == |ctLastDec| == |ctLastReset| == |old(ctLastInc)|
      ensures |vars| == |old(vars)| && Cts() == parts[i + 1]
    {
      RotaTurn(rule, cfg.counters, parts, base.counter, 1, timeMs, map[], i, |vars|, base.counter + i, false);
      ghost var mems := Cts().mems;
      assert forall j: nat | j < |ctLastInc| :: mems[j] == CtMem(j);
      Counter(i);
      assert Cts().mems == mems[i := CtMem(i)];
    }

    method Counters()
      requires IsFire(rule) && AllRun(cfg.counters, |vars|, base.counter, 1)
      requires |ctLastInc| == |ctLastDec| == |ctLastReset| == |cfg.counters|
      modifies `vars, `ctLastInc, `ctLastDec, `ctLastReset, `ctIncTimes, `ctDecTimes
      ensures |ctLastInc| == |ctLastDec| == |ctLastReset| == |old(ctLastInc)|
      ensures Cts() == Turns(rule, cfg.counters, old(Cts()), base.counter, 1, timeMs, map[], |ctLastInc|)
    {
      ghost var parts := MakeRota(rule, cfg.counters, Cts(), base.counter, 1, timeMs, map[]);
      var i := 0;
      while i < |cfg.counters|
        invariant |ctLastInc| == |ctLastDec| == |ctLastReset| == |cfg.counters|
        invariant 0 <= i <= |cfg.counters| && |vars| == |old(vars)| && Cts() == parts[i]
      {
        CounterTurn(i, parts);
        i := i + 1;
      }
    }

    /** Conditions have no memory. */
    ghost function Conds(): Part
      reads `vars
    {
      Part(seq(|cfg.conditions|, _ => ConditionMem), vars)
    }

    method ConditionTurn(i: nat, ghost parts: seq<Part>)
      requires IsFire(rule) && AllRun(cfg.conditions, |vars|, base.condition, 1) && i < |cfg.conditions|
      requires Rota(rule, cfg.conditions, parts, base.condition, 1, timeMs, map[]) && Conds() == parts[i]
      modifies `vars
      ensures |vars| == |old(vars)| && Conds() == parts[i + 1]
    {
      RotaTurn(rule, cfg.conditions, parts, base.condition, 1, timeMs, map[], i, |vars|, base.condition + i, false);
      ghost var mems := Conds().mems;
      Condition(i);
      assert Conds().mems == mems[i := ConditionMem];
    }

    method Conditions()
      requires IsFire(rule) && AllRun(cfg.conditions, |vars|, base.condition, 1)
      modifies `vars
      ensures Conds() == Turns(rule, cfg.conditions, old(Conds()), base.condition, 1, timeMs, map[], |cfg.conditions|)
    {
      ghost var parts := MakeRota(rule, cfg.conditions, Conds(), base.condition, 1, timeMs, map[]);
      var i := 0;
      while i < |cfg.conditions|
        invariant 0 <= i <= |cfg.conditions| && |vars| == |old(vars)| && Conds() == parts[i]
      {
        ConditionTurn(i, parts);
        i := i + 1;
      }
    }

    // ----- the stages of a cycle

    /** One entry per slot. */
    ghost predicate Shape()
      reads this
    {
      Sized(Lengths(|vars|, |outState|, |dinLatch|, |dinLast|, |dinCheck|, |dinTrig|, |dinInit|, |cinLatch|,
        |cinLastRx|,
              |canoutSample|, |viLatch|, |flOn|, |flOff|, |ctLastInc|, |ctLastDec|, |ctLastReset|),
            cfg, plan.size, outState)
    }

    ghost function Held(): Memories
      requires Shape()
      reads this, dinLatch, cinLatch, viLatch
    {
      Memories(Outs().mems, Dins().mems, Cins().mems, Samples().mems, Virts().mems, Fls().mems, Cts().mems,
        Conds().mems)
    }

    /** The engine state this object is in. */
    ghost function St(): State
      requires Shape()
      reads this, dinLatch, cinLatch, viLatch
    {
      State(timeMs, vars, Held().Flat())
    }

    method OutputStage(ghost t: Tick, ghost tr: seq<State>)
      requires Consistent(plan, cfg, base, order, rule, take) && Apart(dinLatch, cinLatch, viLatch) && Shape()
      requires Along(plan, t, tr) && St() == tr[0]
      modifies `vars, `outState
      ensures Shape() && St() == tr[order.digIn]
    {
      ghost var s, ms := St(), Held();
      GroupRuns(plan, cfg.outputs, 0, base.output, 4);
      Outputs();
      assert Held() == ms.(outs := Outs().mems);
      OutsAlong(plan, t, tr, s, ms, cfg.outputs, 0, order.digIn, base.output, Outs(), Held());
    }

    method InputStage(pins: map<int, bool>, ghost t: Tick, ghost tr: seq<State>)
      requires Consistent(plan, cfg, base, order, rule, take) && Apart(dinLatch, cinLatch, viLatch) && Shape()
      requires Along(plan, t, tr) && St() == tr[order.digIn] && pins == t.pins
      modifies `vars, `dinLast, `dinCheck, `dinTrig, `dinInit, dinLatch
      ensures Shape() && St() == tr[order.canIn]
    {
      ghost var s, ms := St(), Held();
      GroupRuns(plan, cfg.inputs, order.digIn, base.digIn, 1);
      Inputs(pins);
      LatchesKept(cinLatch);
      LatchesKept(viLatch);
      assert Held() == ms.(dins := Dins().mems);
      DinsAlong(plan, t, tr, s, ms, cfg.inputs, order.digIn, order.canIn, base.digIn, Dins(), Held());
    }

    method TimeoutStage(ghost t: Tick, ghost tr: seq<State>)
      requires Consistent(plan, cfg, base, order, rule, take) && Apart(dinLatch, cinLatch, viLatch) && Shape()
      requires Along(plan, t, tr) && St() == tr[order.canIn]
      modifies `vars
      ensures Shape() && St() == tr[order.canOut]
    {
      ghost var s, ms := St(), Held();
      GroupRuns(plan, cfg.canInputs, order.canIn, base.canIn, 2);
      Timeouts();
      assert Held() == ms.(cins := Cins().mems);
      CinsAlong(plan, t, tr, s, ms, cfg.canInputs, order.canIn, order.canOut, base.canIn, Cins(), Held());
    }

    method SampleStage(ghost t: Tick, ghost tr: seq<State>)
      requires Consistent(plan, cfg, base, order, rule, take) && Apart(dinLatch, cinLatch, viLatch) && Shape()
      requires Along(plan, t, tr) && St() == tr[order.canOut]
      modifies `canoutSample
      ensures Shape() && St() == tr[order.virt]
    {
      ghost var s, ms := St(), Held();
      GroupRuns(plan, cfg.canOutputs, order.canOut, 0, 0);
      SampleAll();
      assert Held() == ms.(samples := Samples().mems);
      SamplesAlong(plan, t, tr, s, ms, cfg.canOutputs, order.canOut, order.virt, 0, Samples(), Held());
    }

    method VirtStage(ghost t: Tick, ghost tr: seq<State>)
      requires Consistent(plan, cfg, base, order, rule, take) && Apart(dinLatch, cinLatch, viLatch) && Shape()
      requires Along(plan, t, tr) && St() == tr[order.virt]
      modifies `vars, viLatch
      ensures Shape() && St() == tr[order.flasher]
    {
      ghost var s, ms := St(), Held();
      GroupRuns(plan, cfg.virtualInputs, order.virt, base.virtIn, 1);
      VirtualInputs();
      LatchesKept(dinLatch);
      LatchesKept(cinLatch);
      assert Held() == ms.(virts := Virts().mems);
      VirtsAlong(plan, t, tr, s, ms, cfg.virtualInputs, order.virt, order.flasher, base.virtIn, Virts(), Held());
    }

    method FlasherStage(ghost t: Tick, ghost tr: seq<State>)
      requires Consistent(plan, cfg, base, order, rule, take) && Apart(dinLatch, cinLatch, viLatch) && Shape()
      requires Along(plan, t, tr) && St() == tr[order.flasher]
      modifies `vars, `flOn, `flOff
      ensures Shape() && St() == tr[order.counter]
    {
      ghost var s, ms := St(), Held();
      GroupRuns(plan, cfg.flashers, order.flasher, base.flasher, 1);
      Flashers();
      assert Held() == ms.(flashers := Fls().mems);
      FlashersAlong(plan, t, tr, s, ms, cfg.flashers, order.flasher, order.counter, base.flasher, Fls(), Held());
    }

    method CounterStage(ghost t: Tick, ghost tr: seq<State>)
      requires Consistent(plan, cfg, base, order, rule, take) && Apart(dinLatch, cinLatch, viLatch) && Shape()
      requires Along(plan, t, tr) && St() == tr[order.counter]
      modifies `vars, `ctLastInc, `ctLastDec, `ctLastReset, `ctIncTimes, `ctDecTimes
      ensures Shape() && St() == tr[order.condition]
    {
      ghost var s, ms := St(), Held();
      GroupRuns(plan, cfg.counters, order.counter, base.counter, 1);
      Counters();
      assert Held() == ms.(counters := Cts().mems);
      CountersAlong(plan, t, tr, s, ms, cfg.counters, order.counter, order.condition, base.counter, Cts(), Held());
    }

    method ConditionStage(ghost t: Tick, ghost tr: seq<State>)
      requires Consistent(plan, cfg, base, order, rule, take) && Apart(dinLatch, cinLatch, viLatch) && Shape()
      requires Along(plan, t, tr) && St() == tr[order.condition]
      modifies `vars
      ensures Shape() && St() == tr[order.end]
    {
      ghost var s, ms := St(), Held();
      GroupRuns(plan, cfg.conditions, order.condition, base.condition, 1);
      Conditions();
      assert Held() == ms.(conditions := Conds().mems);
      ConditionsAlong(plan, t, tr, s, ms, cfg.conditions, order.condition, order.end, base.condition, Conds(), Held());
    }

    method RxStage(ghost t: Tick, rx: seq<Frame>, extIde: int)
      requires Consistent(plan, cfg, base, order, rule, take) && Apart(dinLatch, cinLatch, viLatch) && Shape()
      requires WellFormed(plan, St()) && t.rx == rx && t.extIde == extIde
      modifies `vars, `cinLastRx, cinLatch
      ensures Shape() && St() == DeliverFrom(plan, old(St()), t, 0)
    {
      ghost var s, ms := St(), Held();
      ReceiversAt(plan, cfg, base, order);
      DrainRx(rx, extIde);
      LatchesKept(dinLatch);
      LatchesKept(viLatch);
      assert Held() == ms.(cins := Cins().mems);
      CinsDelivered(plan, take, t, s, ms, cfg.canInputs, order.canIn, base.canIn, Cins(), Held());
    }

    // ----- the device

    /** The object holds a state of its plan, and its transmitter serves its CAN outputs. */
    ghost predicate Valid()
      reads this, dinLatch, cinLatch, viLatch, transmitter
    {
      && Consistent(plan, cfg, base, order, rule, take) && Apart(dinLatch, cinLatch, viLatch)
      && Shape() && WellFormed(plan, St())
      && transmitter.Valid() && transmitter.slots == cfg.canOutputs
    }

    /** Samples the CAN outputs and sends the frames that are due. */
    method CanOutputStage(ghost t: Tick, ghost tr: seq<State>, ghost look: CanFrames.Status) returns (ok: bool)
      requires Consistent(plan, cfg, base, order, rule, take) && Apart(dinLatch, cinLatch, viLatch) && Shape()
      requires Along(plan, t, tr) && St() == tr[order.canOut]
      requires transmitter.Look() == look && look.Status? && look.slots == cfg.canOutputs
      modifies `canoutSample, transmitter, transmitter.buffers
      ensures Shape() && St() == tr[order.virt]
      ensures ok == CanFrames.FitsNow(look, timeMs) && transmitter.Look().Status?
      ensures ok ==> transmitter.Look() == CanFrames.Served(look, tr[order.virt].vars, timeMs)
    {
      SampleStage(t, tr);
      SourcesNow(plan, cfg, base, order, vars);
      ok := SendDue(look);
    }

    method SendDue(ghost look: CanFrames.Status) returns (ok: bool)
      requires transmitter.Look() == look && look.Status? && look.slots == cfg.canOutputs
      requires CanFrames.SourcesIn(cfg.canOutputs, vars) && Shape()
      modifies transmitter, transmitter.buffers
      ensures Shape() && St() == old(St())
      ensures ok == CanFrames.FitsNow(look, timeMs) && transmitter.Look().Status?
      ensures ok ==> transmitter.Look() == CanFrames.Served(look, vars, timeMs)
    {
      ok := transmitter.Transmit(vars, timeMs);
    }

    method FirstStages(pins: map<int, bool>, rx: seq<Frame>, extIde: int, ghost t: Tick, ghost tr: seq<State>)
      requires Consistent(plan, cfg, base, order, rule, take) && Apart(dinLatch, cinLatch, viLatch) && Shape()
      requires WellFormed(plan, St()) && t == Tick(pins, rx, extIde)
      requires Along(plan, t, tr) && tr[0] == DeliverFrom(plan, St(), t, 0)
      modifies `vars, `cinLastRx, cinLatch, `outState, `dinLast, `dinCheck, `dinTrig, `dinInit, dinLatch
      ensures Shape() && St() == tr[order.canOut]
    {
      RxStage(t, rx, extIde);
      OutputStage(t, tr);
      InputStage(pins, t, tr);
      TimeoutStage(t, tr);
    }

    method LastStages(ghost t: Tick, ghost tr: seq<State>)
      requires Consistent(plan, cfg, base, order, rule, take) && Apart(dinLatch, cinLatch, viLatch) && Shape()
      requires Along(plan, t, tr) && St() == tr[order.virt]
      modifies `vars, viLatch, `flOn, `flOff, `ctLastInc, `ctLastDec, `ctLastReset, `ctIncTimes, `ctDecTimes
      ensures Shape() && St() == tr[order.end]
    {
      VirtStage(t, tr);
      FlasherStage(t, tr);
      CounterStage(t, tr);
      ConditionStage(t, tr);
    }

    constructor (cfg: Config)
      requires cfg.Accepted()
      ensures Valid() && this.cfg == cfg && plan == cfg.Compile() && St() == Init(plan)
      ensures transmitter.Values() == CanFrames.PoweredFrames(transmitter.heads) && transmitter.tx == []
      ensures fresh(dinLatch) && fresh(cinLatch) && fresh(viLatch) && fresh(transmitter) && fresh(transmitter.buffers)
    {
      var din := NewLatches(|cfg.inputs|);
      var cin := NewLatches(|cfg.canInputs|);
      var vi := NewLatches(|cfg.virtualInputs|);
      assert Apart(din, cin, vi);
      var tr := new CanFrames.Transmitter(cfg.canOutputs);
      this.cfg := cfg;
      base := BasesOf(cfg);
      vars := FirstVars(cfg.board.Size());
      timeMs := 0;
      dinLatch, cinLatch, viLatch := din, cin, vi;
      dinLast := Nos(|cfg.inputs|);
      dinCheck := Nos(|cfg.inputs|);
      dinTrig := Zeros(|cfg.inputs|);
      dinInit := Nos(|cfg.inputs|);
      cinLastRx := Zeros(|cfg.canInputs|);
      outState := Zeros(|cfg.outputs|);
      flOn := Zeros(|cfg.flashers|);
      flOff := Zeros(|cfg.flashers|);
      ctLastInc := Nos(|cfg.counters|);
      ctLastDec := Nos(|cfg.counters|);
      ctLastReset := Nos(|cfg.counters|);
      ctIncTimes, ctDecTimes := map[], map[];
      canoutSample := seq(|cfg.canOutputs|, _ => 0.0);
      transmitter := tr;
      plan := cfg.Compile();
      order := OrderOf(cfg);
      rule := cfg.Compile().rule;
      take := Take;
      new;
      OffLatches(dinLatch);
      OffLatches(cinLatch);
      OffLatches(viLatch);
      PoweredUp(cfg);
    }

    lemma PoweredUp(cfg: Config)
      requires cfg.Accepted() && this.cfg == cfg && plan == cfg.Compile() && order == OrderOf(cfg)
          && base == BasesOf(cfg)
      requires rule == plan.rule && take == Take && vars == FirstVars(cfg.board.Size()) && timeMs == 0
      requires dinLast == dinCheck == dinInit == Nos(|cfg.inputs|) && dinTrig == Zeros(|cfg.inputs|)
      requires cinLastRx == Zeros(|cfg.canInputs|) && outState == Zeros(|cfg.outputs|)
      requires flOn == flOff == Zeros(|cfg.flashers|) && canoutSample == seq(|cfg.canOutputs|, _ => 0.0)
      requires ctLastInc == ctLastDec == ctLastReset == Nos(|cfg.counters|) && ctIncTimes == ctDecTimes == map[]
      requires LatchesOf(dinLatch) == Offs(|cfg.inputs|) && LatchesOf(cinLatch) == Offs(|cfg.canInputs|)
      requires LatchesOf(viLatch) == Offs(|cfg.virtualInputs|)
      ensures Shape() && Consistent(plan, cfg, base, order, rule, take) && St() == Init(plan)
    {
      CompiledLaid(cfg);
      ActIsFire();
      TakeIsReceive();
      ZeroIsInit(plan, cfg, base, order);
    }

    method Advance()
      requires Shape()
      modifies `timeMs
      ensures Shape() && St() == old(St()).(time := old(timeMs) + CYCLE_MS)
    {
      ghost var held := Held();
      timeMs := timeMs + CYCLE_MS;
      assert Held() == held;
    }

    /** The cycle up to and including the CAN outputs. */
    method FirstHalf(pins: map<int, bool>, rx: seq<Frame>, extIde: int, ghost t: Tick, ghost tr: seq<State>,
                     ghost look: CanFrames.Status) returns (ok: bool)
      requires Consistent(plan, cfg, base, order, rule, take) && Apart(dinLatch, cinLatch, viLatch) && Shape()
      requires WellFormed(plan, St()) && t == Tick(pins, rx, extIde)
      requires Along(plan, t, tr) && tr[0] == DeliverFrom(plan, St(), t, 0)
      requires transmitter.Look() == look && look.Status? && look.slots == cfg.canOutputs
      modifies `vars, `cinLastRx, cinLatch, `outState, `dinLast, `dinCheck, `dinTrig, `dinInit, dinLatch
      modifies `canoutSample, transmitter, transmitter.buffers
      ensures Shape() && St() == tr[order.virt]
      ensures ok == CanFrames.FitsNow(look, timeMs) && transmitter.Look().Status?
      ensures ok ==> transmitter.Look() == CanFrames.Served(look, tr[order.virt].vars, timeMs)
    {
      Inward(pins, rx, extIde, t, tr, look);
      ok := CanOutputStage(t, tr, look);
    }

    /** The stages before the CAN outputs; they leave the frames alone. */
    method Inward(pins: map<int, bool>, rx: seq<Frame>, extIde: int, ghost t: Tick, ghost tr: seq<State>,
                  ghost look: CanFrames.Status)
      requires Consistent(plan, cfg, base, order, rule, take) && Apart(dinLatch, cinLatch, viLatch) && Shape()
      requires WellFormed(plan, St()) && t == Tick(pins, rx, extIde)
      requires Along(plan, t, tr) && tr[0] == DeliverFrom(plan, St(), t, 0)
      requires transmitter.Look() == look && look.Status? && look.slots == cfg.canOutputs
      modifies `vars, `cinLastRx, cinLatch, `outState, `dinLast, `dinCheck, `dinTrig, `dinInit, dinLatch
      ensures Shape() && St() == tr[order.canOut] && transmitter.Look() == look
    {
      FirstStages(pins, rx, extIde, t, tr);
    }

    /** The rest of the cycle, and the clock; the frames are left alone. */
    method SecondHalf(ghost t: Tick, ghost tr: seq<State>, ghost look: CanFrames.Status)
      requires Consistent(plan, cfg, base, order, rule, take) && Apart(dinLatch, cinLatch, viLatch) && Shape()
      requires Along(plan, t, tr) && St() == tr[order.virt]
      requires transmitter.Look() == look
      modifies `vars, viLatch, `flOn, `flOff, `ctLastInc, `ctLastDec, `ctLastReset, `ctIncTimes, `ctDecTimes, `timeMs
      ensures Shape() && St() == tr[order.end].(time := old(timeMs) + CYCLE_MS)
      ensures transmitter.Look() == look
    {
      LastStages(t, tr);
      Advance();
    }

    /** One cycle. It fails exactly where a due frame has a field that runs off its payload;
        what it sends are the variables as they stand after the CAN outputs' turn. */
    method Step(pins: map<int, bool>, rx: seq<Frame>, extIde: int) returns (ok: bool)
      requires Valid()
      modifies this, dinLatch, cinLatch, viLatch, transmitter, transmitter.buffers
      ensures ok == CanFrames.FitsNow(old(transmitter.Look()), old(timeMs))
      ensures ok ==> Valid() && St() == Engine.Step(plan, old(St()), Tick(pins, rx, extIde))
      ensures order.virt <= |plan.places| && WellFormed(plan, old(St()))
      ensures ok ==> transmitter.Look() == CanFrames.Served(old(transmitter.Look()),
                       Midway(plan, old(St()), Tick(pins, rx, extIde), order.virt).vars, old(timeMs))
    {
      ghost var t := Tick(pins, rx, extIde);
      ghost var s := St();
      ghost var tr := Trace(plan, DeliverFrom(plan, s, t, 0), t);
      CycleAlong(plan, s, t, tr);
      ok := FirstHalf(pins, rx, extIde, t, tr, transmitter.Look());
      if ok {
        SecondHalf(t, tr, transmitter.Look());
      }
    }

    /** The externally visible state: outputs by pin, CAN outputs by their place on the bus. */
    method Observe() returns (o: map<ObsKey, real>)
      requires Valid()
      ensures o == Engine.Observe(plan, St())
      ensures Valid() && St() == old(St()) && transmitter.Look() == old(transmitter.Look())
    {
      ghost var s := St();
      ghost var seen := MakeShow(plan, s);
      NothingShown(plan, cfg, base, order, s, seen);
      LogicHidden(plan, cfg, base, order, s, seen);
      o := ObserveOutputs(s, seen);
      o := ObserveCanOutputs(o, s, seen);
    }

    method ObserveOutputs(ghost s: State, ghost seen: seq<map<ObsKey, real>>) returns (o: map<ObsKey, real>)
      requires Laid(plan, cfg, base, order) && Show(plan, s, seen) && seen[0] == map[] && s.vars == vars
      ensures order.digIn < |seen| && o == seen[order.digIn]
    {
      o := map[];
      var i := 0;
      while i < |cfg.outputs|
        invariant 0 <= i <= |cfg.outputs| && i < |seen| && o == seen[i]
      {
        OutputShown(plan, cfg, base, order, s, seen, i);
        o := o[OutKey(i + 1) := vars[base.output + 4 * i]];
        i := i + 1;
      }
    }

    method ObserveCanOutputs(outs: map<ObsKey, real>, ghost s: State, ghost seen: seq<map<ObsKey, real>>)
      returns (o: map<ObsKey, real>)
      requires Shape() && Laid(plan, cfg, base, order) && Show(plan, s, seen) && s == St()
      requires order.canOut < |seen| && outs == seen[order.canOut]
      ensures order.virt < |seen| && o == seen[order.virt]
    {
      o := outs;
      var i := 0;
      while i < |cfg.canOutputs|
        invariant 0 <= i <= |cfg.canOutputs| && order.canOut + i < |seen| && o == seen[order.canOut + i]
      {
        var c := cfg.canOutputs[i];
        SampleHeld(i);
        CanOutputShown(plan, cfg, base, order, s, seen, i, order.canOut + i, SampleMem(canoutSample[i]));
        if c.enabled {
          o := o[CanKey(c.ide, c.id, c.startBit, c.bitLength) := canoutSample[i]];
        }
        i := i + 1;
      }
    }

    lemma SampleHeld(i: nat)
      requires Shape() && order == OrderOf(cfg) && i < |cfg.canOutputs|
      ensures order.canOut + i < |St().mem| && St().mem[order.canOut + i] == SampleMem(canoutSample[i])
    {
      SamplesFlat(Held(), Held().samples);
      assert Held().samples[i] == SampleMem(canoutSample[i]);
    }
  }

  /** Construction refuses a configuration whose references are out of range or pinned. */
  method Load(cfg: Config) returns (sim: Sim?)
    ensures sim != null <==> cfg.Accepted()
    ensures sim != null ==> fresh(sim) && sim.Valid() && sim.cfg == cfg && sim.St() == Init(sim.plan)
  {
    sim := null;
    if cfg.FullLength() {
      var ok := Validation.ValidateRefs(cfg);
      if ok {
        sim := new Sim(cfg);
      }
    }
  }
}
