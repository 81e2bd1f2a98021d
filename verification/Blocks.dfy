/**
 The function blocks of the cyclic logic engine, one slot at a time: a slot's
 configuration, its private memory, and what it computes in one cycle from the
 values it reads. A block neither knows where it sits nor where its inputs are.
 */
module Blocks {
  import opened PyInt
  import Dbc

  const OP_EQ := 0
  const OP_NE := 1
  const OP_GT := 2
  const OP_LT := 3
  const OP_GE := 4
  const OP_LE := 5
  const OP_BITAND := 6
  const OP_BITNAND := 7
  const BOOL_AND := 0
  const BOOL_OR := 1
  const EDGE_RISING := 0
  const EDGE_FALLING := 1
  const EDGE_BOTH := 2
  const MODE_MOMENTARY := 0
  const MODE_LATCHING := 1

  /** The configuration of one slot. Fields naming variables are indices into the variable map. */
  datatype Slot =
    | OutputSlot(enabled: bool, input: int)
    | DigInSlot(enabled: bool, mode: int, invert: bool, debounceTime: int)
    | CanInSlot(enabled: bool, timeoutEnabled: bool, timeout: int, ide: int, id: int,
                startBit: nat, bitLength: nat, factor: real, offset: real, byteOrder: int,
                signed: bool, operator: int, operand: real, mode: int)
    | CanOutSlot(enabled: bool, input: int, ide: int, id: int, startBit: nat, bitLength: nat,
                 factor: real, offset: real, byteOrder: int, interval: nat)
    | VirtSlot(enabled: bool, not0: bool, var0: int, cond0: int, not1: bool, var1: int,
               cond1: int, not2: bool, var2: int, mode: int)
    | FlasherSlot(enabled: bool, input: int, onTime: int, offTime: int)
    | CounterSlot(enabled: bool, incInput: int, decInput: int, resetInput: int, minCount: int,
                  maxCount: int, incEdge: int, decEdge: int, resetEdge: int, wrapAround: bool,
                  holdToReset: bool, resetTime: int)
    | ConditionSlot(enabled: bool, input: int, operator: int, arg: real)

  type OutputCfg = s: Slot | s.OutputSlot? witness OutputSlot(false, 0)
  type DigInCfg = s: Slot | s.DigInSlot? witness DigInSlot(false, 0, false, 20)
  type CanInCfg = s: Slot | s.CanInSlot?
    witness CanInSlot(false, false, 1000, 0, 0, 0, 8, 1.0, 0.0, 0, false, 0, 0.0, 0)
  type CanOutCfg = s: Slot | s.CanOutSlot? witness CanOutSlot(false, 0, 0, 0, 0, 8, 1.0, 0.0, 0, 1000)
  type VirtCfg = s: Slot | s.VirtSlot? witness VirtSlot(false, false, 0, 0, false, 0, 0, false, 0, 0)
  type FlasherCfg = s: Slot | s.FlasherSlot? witness FlasherSlot(false, 0, 500, 500)
  type CounterCfg = s: Slot | s.CounterSlot?
    witness CounterSlot(false, 0, 0, 0, 0, 10, 0, 0, 0, false, false, 2000)
  type ConditionCfg = s: Slot | s.ConditionSlot? witness ConditionSlot(false, 0, 0, 0.0)

  /** The variables a slot reads, in the order it reads them. A disabled slot reads
      nothing; var2 == 0 selects the two-term form of a virtual input. */
  function Reads(s: Slot): seq<int> {
    if !s.enabled || s.DigInSlot? || s.CanInSlot? then []
    else if s.VirtSlot? then
      if s.var2 == 0 then [s.var0, s.var1] else [s.var0, s.var1, s.var2]
    else if s.CounterSlot? then [s.incInput, s.decInput, s.resetInput]
    else [s.input]
  }

  datatype Latch = Latch(out: bool, last: bool)

  /** Momentary/latching edge helper. */
  function Check(l: Latch, mode: int, invert: bool, val: bool): Latch {
    var v := val != invert;
    var o :=
      if v == l.last then l.out
      else if mode == MODE_MOMENTARY then v
      else if mode == MODE_LATCHING && v then !l.out
      else l.out;
    Latch(o, v)
  }

  /** The private memory of one slot. */
  datatype Mem =
    | OutputMem(on: bool)
    | DigInMem(latch: Latch, last: bool, check: bool, trig: int, init: bool)
    | CanInMem(latch: Latch, lastRx: int)
    | SampleMem(sample: real)
    | VirtMem(latch: Latch)
    | FlasherMem(onAt: int, offAt: int)
    | CounterMem(lastInc: bool, lastDec: bool, lastReset: bool, incAt: int, decAt: int)
    | ConditionMem

  /** What a slot owns: its memory and the values of the variables it writes. */
  datatype Cell = Cell(mem: Mem, vals: seq<real>)

  /** Is m the memory of a slot of this kind? */
  predicate Matches(s: Slot, m: Mem) {
    && s.OutputSlot? == m.OutputMem?
    && s.DigInSlot? == m.DigInMem?
    && s.CanInSlot? == m.CanInMem?
    && s.CanOutSlot? == m.SampleMem?
    && s.VirtSlot? == m.VirtMem?
    && s.FlasherSlot? == m.FlasherMem?
    && s.CounterSlot? == m.CounterMem?
  }

  /** How many variables a slot of this kind writes. */
  function Width(s: Slot): nat {
    if s.OutputSlot? then 4 else if s.CanInSlot? then 2 else if s.CanOutSlot? then 0 else 1
  }

  predicate Fits(s: Slot, c: Cell) { Matches(s, c.mem) && |c.vals| == Width(s) }

  /** The memory of a slot at power-on. */
  function PowerOn(s: Slot): (m: Mem)
    ensures Matches(s, m)
  {
    var off := Latch(false, false);
    if s.OutputSlot? then OutputMem(false)
    else if s.DigInSlot? then DigInMem(off, false, false, 0, false)
    else if s.CanInSlot? then CanInMem(off, 0)
    else if s.CanOutSlot? then SampleMem(0.0)
    else if s.VirtSlot? then VirtMem(off)
    else if s.FlasherSlot? then FlasherMem(0, 0)
    else if s.CounterSlot? then CounterMem(false, false, false, 0, 0)
    else ConditionMem
  }

  predicate Truthy(r: real) { r != 0.0 }

  function FromBool(b: bool): real { if b then 1.0 else 0.0 }

  /** Comparison operators. CAN inputs and conditions share them except for the
      bitwise pair: a condition's BitwiseNand is always true. */
  predicate Compare(op: int, lhs: real, rhs: real, canInput: bool) {
    if op == OP_EQ then lhs == rhs
    else if op == OP_NE then lhs != rhs
    else if op == OP_GT then lhs > rhs
    else if op == OP_LT then lhs < rhs
    else if op == OP_GE then lhs >= rhs
    else if op == OP_LE then lhs <= rhs
    else if op == OP_BITAND then
      if canInput then And(Trunc(lhs), Trunc(rhs)) > 0 else And(Trunc(lhs), Trunc(rhs)) != 0
    else if op == OP_BITNAND then
      if canInput then !(And(Trunc(lhs), Trunc(rhs)) > 0) else true
    else false
  }

  predicate Edge(edge: int, prev: bool, curr: bool) {
    if edge == EDGE_RISING then !prev && curr
    else if edge == EDGE_FALLING then prev && !curr
    else if edge == EDGE_BOTH then prev != curr
    else false
  }

  function OutputFire(s: OutputCfg, m: Mem, ins: seq<real>): (c: Cell)
    requires Matches(s, m) && |ins| == |Reads(s)|
    ensures Fits(s, c)
  {
    if !s.enabled then Cell(OutputMem(false), [0.0, 0.0, 0.0, 0.0])
    else
      var req := Truthy(ins[0]);
      var on := if !m.on && req then true else if m.on && !req then false else m.on;
      Cell(OutputMem(on), [FromBool(on), 0.0, 0.0, 0.0])
  }

  function DigInFire(s: DigInCfg, c: Cell, now: int, pin: bool): (r: Cell)
    requires Fits(s, c)
    ensures Fits(s, r)
  {
    if !s.enabled then c.(vals := [0.0])
    else
      var changed := pin != c.mem.last;
      var trig := if changed then now else c.mem.trig;
      var check := changed || c.mem.check;
      if (check && now - trig > s.debounceTime) || !c.mem.init then
        var l := Check(c.mem.latch, s.mode, s.invert, pin);
        Cell(DigInMem(l, pin, false, trig, true), [FromBool(l.out)])
      else
        c.(mem := DigInMem(c.mem.latch, pin, check, trig, true))
  }

  function TimeoutFire(s: CanInCfg, c: Cell, now: int): (r: Cell)
    requires Fits(s, c)
    ensures Fits(s, r)
  {
    if s.enabled && s.timeoutEnabled && now - c.mem.lastRx > s.timeout then c.(vals := [0.0, 0.0]) else c
  }

  function CanOutFire(s: CanOutCfg, m: Mem, ins: seq<real>): (c: Cell)
    requires Matches(s, m) && |ins| == |Reads(s)|
    ensures Fits(s, c)
  {
    Cell(if s.enabled then SampleMem(ins[0]) else m, [])
  }

  predicate Combine(cond: int, a: bool, b: bool) {
    if cond == BOOL_AND then a && b else if cond == BOOL_OR then a || b else !a || !b
  }

  /** The logic of a virtual input, before its latch. */
  predicate VirtTerm(s: VirtCfg, ins: seq<real>)
    requires s.enabled && |ins| == |Reads(s)|
  {
    var sec0 := Combine(s.cond0, Truthy(ins[0]) != s.not0, Truthy(ins[1]) != s.not1);
    if s.var2 == 0 then sec0 else Combine(s.cond1, sec0, Truthy(ins[2]) != s.not2)
  }

  function VirtFire(s: VirtCfg, m: Mem, ins: seq<real>): (c: Cell)
    requires Matches(s, m) && |ins| == |Reads(s)|
    ensures Fits(s, c)
  {
    if !s.enabled then Cell(m, [0.0])
    else
      var l := Check(m.latch, s.mode, false, VirtTerm(s, ins));
      Cell(VirtMem(l), [FromBool(l.out)])
  }

  function FlasherFire(s: FlasherCfg, c: Cell, ins: seq<real>, now: int): (r: Cell)
    requires Fits(s, c) && |ins| == |Reads(s)|
    ensures Fits(s, r)
  {
    if !s.enabled || !Truthy(ins[0]) then c.(vals := [0.0])
    else
      var start := c.vals[0] == 0.0 && now - c.mem.offAt > s.offTime;
      var v := if start then 1.0 else c.vals[0];
      var onAt := if start then now else c.mem.onAt;
      if v == 1.0 && now - onAt > s.onTime
      then Cell(FlasherMem(onAt, now), [0.0])
      else Cell(FlasherMem(onAt, c.mem.offAt), [v])
  }

  /** Both reset paths leave before the edge memories are updated. */
  function CounterFire(s: CounterCfg, c: Cell, ins: seq<real>, now: int): (r: Cell)
    requires Fits(s, c) && |ins| == |Reads(s)|
    ensures Fits(s, r)
  {
    if !s.enabled || Edge(s.resetEdge, c.mem.lastReset, Truthy(ins[2])) then c.(vals := [0.0])
    else CounterCount(s, c, ins, now)
  }

  /** A counter whose reset input does not fire. */
  function CounterCount(s: CounterCfg, c: Cell, ins: seq<real>, now: int): (r: Cell)
    requires s.enabled && Fits(s, c) && |ins| == |Reads(s)|
    ensures Fits(s, r)
  {
    var inc, dec, rst := Truthy(ins[0]), Truthy(ins[1]), Truthy(ins[2]);
    if s.holdToReset && inc && now - c.mem.incAt >= s.resetTime then c.(vals := [0.0])
    else if s.holdToReset && dec && now - c.mem.decAt >= s.resetTime then c.(vals := [0.0])
    else
      var up := Edge(s.incEdge, c.mem.lastInc, inc);
      var down := Edge(s.decEdge, c.mem.lastDec, dec);
      var v1 := if up then CountUp(s, c.vals[0]) else c.vals[0];
      var v2 := if down then CountDown(s, v1) else v1;
      Cell(CounterMem(inc, dec, rst, if up then now else c.mem.incAt, if down then now else c.mem.decAt), [v2])
  }

  /** Whether a counter resets instead of counting. */
  predicate Resets(s: CounterCfg, m: Mem, inc: bool, dec: bool, rst: bool, now: int)
    requires m.CounterMem?
  {
    || Edge(s.resetEdge, m.lastReset, rst)
    || (s.holdToReset && ((inc && now - m.incAt >= s.resetTime) || (dec && now - m.decAt >= s.resetTime)))
  }

  /** A counter's memory after it has counted. */
  function Counted(s: CounterCfg, m: Mem, inc: bool, dec: bool, rst: bool, now: int): Mem
    requires m.CounterMem?
  {
    CounterMem(inc, dec, rst, if Edge(s.incEdge, m.lastInc, inc) then now else m.incAt,
      if Edge(s.decEdge, m.lastDec, dec) then now else m.decAt)
  }

  /** A counter's value after it has counted. */
  function CountedTo(s: CounterCfg, m: Mem, v: real, inc: bool, dec: bool): real
    requires m.CounterMem?
  {
    var w := if Edge(s.incEdge, m.lastInc, inc) then CountUp(s, v) else v;
    if Edge(s.decEdge, m.lastDec, dec) then CountDown(s, w) else w
  }

  lemma CounterCases(s: CounterCfg, m: Mem, v: real, ins: seq<real>, now: int)
    requires s.enabled && m.CounterMem? && |ins| == 3
    ensures var inc, dec, rst := Truthy(ins[0]), Truthy(ins[1]), Truthy(ins[2]);
      CounterFire(s, Cell(m, [v]), ins, now)
        == if Resets(s, m, inc, dec, rst, now) then Cell(m, [0.0])
           else Cell(Counted(s, m, inc, dec, rst, now), [CountedTo(s, m, v, inc, dec)])
  {
  }

  function CountUp(s: CounterCfg, v: real): real {
    if v + 1.0 <= s.maxCount as real then v + 1.0
    else if s.wrapAround then 0.0
    else s.maxCount as real
  }

  /** minCount is consulted only when the count is zero. */
  function CountDown(s: CounterCfg, v: real): real {
    if v != 0.0 then v - 1.0
    else if s.wrapAround then s.maxCount as real
    else s.minCount as real
  }

  function ConditionValue(s: ConditionCfg, lhs: real): real {
    var both := And(And(Trunc(lhs), Trunc(s.arg)), 0xFFFF);
    if s.operator == OP_BITAND then both as real
    else if s.operator == OP_BITNAND then
      var n := And(Not(both), 0xFFFF_FFFF);
      (if n != 0 then n else 1) as real
    else if s.operator > OP_BITNAND then 0.0
    else FromBool(Compare(s.operator, lhs, s.arg, false))
  }

  function ConditionFire(s: ConditionCfg, m: Mem, ins: seq<real>): (c: Cell)
    requires Matches(s, m) && |ins| == |Reads(s)|
    ensures Fits(s, c)
  {
    Cell(m, [if s.enabled then ConditionValue(s, ins[0]) else 0.0])
  }

  /** One slot, one cycle. */
  function Fire(s: Slot, c: Cell, ins: seq<real>, now: int, pin: bool): (r: Cell)
    requires Fits(s, c) && |ins| == |Reads(s)|
    ensures Fits(s, r)
  {
    if s.OutputSlot? then OutputFire(s, c.mem, ins)
    else if s.DigInSlot? then DigInFire(s, c, now, pin)
    else if s.CanInSlot? then TimeoutFire(s, c, now)
    else if s.CanOutSlot? then CanOutFire(s, c.mem, ins)
    else if s.VirtSlot? then VirtFire(s, c.mem, ins)
    else if s.FlasherSlot? then FlasherFire(s, c, ins, now)
    else if s.CounterSlot? then CounterFire(s, c, ins, now)
    else ConditionFire(s, c.mem, ins)
  }

  // ----- CAN reception

  datatype Frame = Frame(id: int, data: seq<byte>)

  /** Does this CAN input take this frame? */
  predicate Accepts(s: CanInCfg, f: Frame, extIde: int) {
    s.enabled && s.ide == extIde && s.id == f.id && s.bitLength != 0
  }

  /** A CAN input writes its comparison result, then the decoded value. */
  function Receive(s: CanInCfg, c: Cell, f: Frame, extIde: int, now: int): (r: Cell)
    requires Fits(s, c)
    ensures Fits(s, r)
  {
    if !Accepts(s, f, extIde) then c
    else
      var val := Dbc.DecodedFloat(f.data, s.startBit, s.bitLength, s.factor, s.offset, s.byteOrder, s.signed);
      var l := Check(c.mem.latch, s.mode, false, Compare(s.operator, val, s.operand, true));
      Cell(CanInMem(l, now), [FromBool(l.out), val])
  }

  /** All of a cycle's frames, as one CAN input sees them. */
  function ReceiveAll(s: CanInCfg, c: Cell, rx: seq<Frame>, extIde: int, now: int): (r: Cell)
    requires Fits(s, c)
    ensures Fits(s, r)
  {
    if |rx| == 0 then c
    else Receive(s, ReceiveAll(s, c, rx[..|rx| - 1], extIde, now), rx[|rx| - 1], extIde, now)
  }

  // ----- what a slot's configuration means, whatever it is wired to

  /** A slot with everything erased that Fire never looks at: the variable references,
      the unused half of a two-term virtual input, all of a disabled slot but its identity. */
  function Erase(s: Slot): Slot {
    match s
    case OutputSlot(en, _) => OutputSlot(en, 0)
    case DigInSlot(en, mode, inv, deb) => if en then s else DigInSlot(false, 0, false, 0)
    case CanInSlot(en, _, _, _, _, _, _, _, _, _, _, _, _, _) =>
      if en then s else CanInSlot(false, false, 0, 0, 0, 0, 0, 0.0, 0.0, 0, false, 0, 0.0, 0)
    case CanOutSlot(en, _, ide, id, start, len, _, _, _, _) =>
      if en then CanOutSlot(true, 0, ide, id, start, len, 0.0, 0.0, 0, 0)
      else CanOutSlot(false, 0, 0, 0, 0, 0, 0.0, 0.0, 0, 0)
    case VirtSlot(en, not0, _, cond0, not1, _, cond1, not2, var2, mode) =>
      if !en then VirtSlot(false, false, 0, 0, false, 0, 0, false, 0, 0)
      else if var2 == 0 then VirtSlot(true, not0, 0, cond0, not1, 0, 0, false, 0, mode)
      else VirtSlot(true, not0, 0, cond0, not1, 0, cond1, not2, 1, mode)
    case FlasherSlot(en, _, on, off) => if en then FlasherSlot(true, 0, on, off) else FlasherSlot(false, 0, 0, 0)
    case CounterSlot(en, _, _, _, lo, hi, ie, de, re, wrap, hold, rt) =>
      if !en then CounterSlot(false, 0, 0, 0, 0, 0, 0, 0, 0, false, false, 0)
      else CounterSlot(true, 0, 0, 0, lo, hi, ie, de, re, wrap, hold, if hold then rt else 0)
    case ConditionSlot(en, _, op, arg) => if en then ConditionSlot(true, 0, op, arg)
      else ConditionSlot(false, 0, 0, 0.0)
  }

  /** Slots with the same erasure behave alike on the same inputs; only digital inputs
      look at a pin. */
  lemma ErasedFire(s: Slot, t: Slot, c: Cell, ins: seq<real>, now: int, pin: bool, pin': bool)
    requires Erase(s) == Erase(t) && Fits(s, c) && |ins| == |Reads(s)|
    requires s.DigInSlot? ==> pin == pin'
    ensures |Reads(t)| == |Reads(s)| && Fits(t, c)
    ensures Fire(s, c, ins, now, pin) == Fire(t, c, ins, now, pin')
  {
  }

  lemma ErasedKind(s: Slot, t: Slot)
    requires Erase(s) == Erase(t)
    ensures Width(s) == Width(t) && PowerOn(s) == PowerOn(t) && s.enabled == t.enabled
    ensures s.OutputSlot? == t.OutputSlot? && s.DigInSlot? == t.DigInSlot?
    ensures s.CanInSlot? == t.CanInSlot? && s.CanOutSlot? == t.CanOutSlot?
    ensures s.CanOutSlot? && s.enabled ==>
      s.ide == t.ide && s.id == t.id && s.startBit == t.startBit && s.bitLength == t.bitLength
  {
  }

  lemma {:induction false} ErasedReceive(s: Slot, t: Slot, c: Cell, rx: seq<Frame>, extIde: int, now: int)
    requires Erase(s) == Erase(t) && s.CanInSlot? && t.CanInSlot? && Fits(s, c)
    ensures ReceiveAll(s, c, rx, extIde, now) == ReceiveAll(t, c, rx, extIde, now)
  {
    if |rx| > 0 { ErasedReceive(s, t, c, rx[..|rx| - 1], extIde, now); }
  }
}
