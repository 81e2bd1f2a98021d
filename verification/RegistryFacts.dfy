/**
 What makes a board's parameter table usable: no two parameters share a key, and every
 default is a value the firmware takes.
 */
module RegistryFacts {
  import opened Boards
  import opened Registry
  import opened Encoding
  import opened Projection

  // ----- keys

  /** The counts fit between the blocks' first indices, and subindices fit eight bits. */
  predicate Fits(v: Variant) {
    var b := v.board;
    && b.outputs <= 0x200 && (v.hasStarter ==> b.outputs <= 254) && b.digInputs <= 0x100 && b.canInputs <= 0x100
    && b.virtInputs <= 0x100 && b.conditions <= 0x100 && b.counters <= 0x100 && b.flashers <= 0x100
    && (v.hasWipers ==> v.speedMap <= 8 && v.interDelays <= 236)
    && b.canOutputs <= 0x100 && b.digOutputs <= 0x100 && b.analogInputs <= 0xE00
    && b.keypads <= 8 && b.keypadButtons <= 32 && b.keypadDials <= 4
  }

  /** Indices between lo and hi, no two the same, and subindices in order within each. */
  ghost predicate Spread(insts: seq<Instance>, lo: nat, hi: nat) {
    && (forall i | 0 <= i < |insts| :: lo <= insts[i].index < hi && SubsInOrder(insts[i].fields))
    && (forall i, j | 0 <= i < j < |insts| :: insts[i].index != insts[j].index)
  }

  predicate SubsInOrder(fields: seq<Field>) {
    && (forall i | 0 <= i < |fields| :: fields[i].sub < 256)
    && (forall i, j | 0 <= i < j < |fields| :: fields[i].sub < fields[j].sub)
  }

  lemma SpreadJoin(a: seq<Instance>, b: seq<Instance>, lo: nat, mid: nat, hi: nat)
    requires Spread(a, lo, mid) && Spread(b, mid, hi) && lo <= mid <= hi
    ensures Spread(a + b, lo, hi)
  {
  }

  lemma BlockSpread(base: nat, count: nat, fields: seq<Field>, hi: nat)
    requires base + count <= hi <= 0x1_0000 && SubsInOrder(fields)
    ensures Spread(Block(base, count, fields), base, hi)
  {
  }

  /** Field k of the table has subindex k. */
  predicate Counted(fields: seq<Field>) {
    |fields| <= 256 && forall i | 0 <= i < |fields| :: fields[i].sub == i
  }

  lemma CountedInOrder(fields: seq<Field>)
    requires Counted(fields)
    ensures SubsInOrder(fields)
  {
  }

  lemma WiperInOrder(speedMap: nat, interDelays: nat)
    requires speedMap <= 8 && interDelays <= 236
    ensures SubsInOrder(Wiper(speedMap, interDelays))
  {
    assert Counted(WiperHead());
    WiperSubs(WiperHead(), Speeds(speedMap), Delays(interDelays));
  }

  lemma WiperSubs(head: seq<Field>, speeds: seq<Field>, delays: seq<Field>)
    requires |head| == 12 && Counted(head) && |speeds| <= 8 && |delays| <= 236
    requires forall i | 0 <= i < |speeds| :: speeds[i].sub == 12 + i
    requires forall i | 0 <= i < |delays| :: delays[i].sub == 20 + i
    ensures SubsInOrder(head + speeds + delays)
  {
  }

  lemma InputsSpread(b: Board)
    requires b.outputs <= 0x200 && b.digInputs <= 0x100 && b.canInputs <= 0x100
    ensures Spread(Inputs(b), 0, 0x1400)
  {
    var d, o, i := Single(true, 0, Device()), Block(0x1000, b.outputs, Output(b.outputs)),
      Block(0x1200, b.digInputs, DigInput());
    assert Counted(Device()) && Counted(Output(b.outputs)) && Counted(DigInput()) && Counted(CanInput());
    BlockSpread(0x1000, b.outputs, Output(b.outputs), 0x1200);
    BlockSpread(0x1200, b.digInputs, DigInput(), 0x1300);
    BlockSpread(0x1300, b.canInputs, CanInput(), 0x1400);
    SpreadJoin(d, o, 0, 0x1000, 0x1200);
    SpreadJoin(d + o, i, 0, 0x1200, 0x1300);
    SpreadJoin(d + o + i, Block(0x1300, b.canInputs, CanInput()), 0, 0x1300, 0x1400);
  }

  lemma LogicSpread(b: Board)
    requires b.virtInputs <= 0x100 && b.conditions <= 0x100 && b.counters <= 0x100 && b.flashers <= 0x100
    ensures Spread(LogicBlocks(b), 0x1400, 0x1800)
  {
    var v, c, k := Block(0x1400, b.virtInputs, VirtualInput()), Block(0x1500, b.conditions, Condition()),
      Block(0x1600, b.counters, Counter());
    assert Counted(VirtualInput()) && Counted(Condition()) && Counted(Counter()) && Counted(Flasher());
    BlockSpread(0x1400, b.virtInputs, VirtualInput(), 0x1500);
    BlockSpread(0x1500, b.conditions, Condition(), 0x1600);
    BlockSpread(0x1600, b.counters, Counter(), 0x1700);
    BlockSpread(0x1700, b.flashers, Flasher(), 0x1800);
    SpreadJoin(v, c, 0x1400, 0x1500, 0x1600);
    SpreadJoin(v + c, k, 0x1400, 0x1600, 0x1700);
    SpreadJoin(v + c + k, Block(0x1700, b.flashers, Flasher()), 0x1400, 0x1700, 0x1800);
  }

  lemma SingleSpread(present: bool, index: nat, fields: seq<Field>, hi: nat)
    requires index < hi && (present ==> SubsInOrder(fields))
    ensures Spread(Single(present, index, fields), index, hi)
  {
  }

  lemma StarterInOrder(outputs: nat)
    requires outputs <= 254
    ensures SubsInOrder(Starter(outputs))
  {
    assert Counted(Starter(outputs));
  }

  lemma SinglesSpread(v: Variant)
    requires Fits(v)
    ensures Spread(Singles(v), 0x1800, 0x2000)
  {
    var starter, wiper := Starter(v.board.outputs), Wiper(v.speedMap, v.interDelays);
    if v.hasStarter { StarterInOrder(v.board.outputs); }
    if v.hasWipers { WiperInOrder(v.speedMap, v.interDelays); }
    SingleSpread(v.hasStarter, 0x1800, starter, 0x1900);
    SingleSpread(v.hasWipers, 0x1900, wiper, 0x2000);
    SpreadJoin(Single(v.hasStarter, 0x1800, starter), Single(v.hasWipers, 0x1900, wiper), 0x1800, 0x1900, 0x2000);
  }

  lemma OthersSpread(b: Board)
    requires b.canOutputs <= 0x100 && b.digOutputs <= 0x100 && b.analogInputs <= 0xE00 && b.keypads <= 0x100
    ensures Spread(Others(b), 0x2000, 0x3100)
  {
    var c, d, a := Block(0x2000, b.canOutputs, CanOutput()), Block(0x2100, b.digOutputs, DigOutput()),
      Block(0x2200, b.analogInputs, AnalogInput());
    assert Counted(CanOutput()) && Counted(DigOutput()) && Counted(AnalogInput()) && Counted(Keypad());
    BlockSpread(0x2000, b.canOutputs, CanOutput(), 0x2100);
    BlockSpread(0x2100, b.digOutputs, DigOutput(), 0x2200);
    BlockSpread(0x2200, b.analogInputs, AnalogInput(), 0x3000);
    BlockSpread(0x3000, b.keypads, Keypad(), 0x3100);
    SpreadJoin(c, d, 0x2000, 0x2100, 0x2200);
    SpreadJoin(c + d, a, 0x2000, 0x2200, 0x3000);
    SpreadJoin(c + d + a, Block(0x3000, b.keypads, Keypad()), 0x2000, 0x3000, 0x3100);
  }

  lemma PartsCounted()
    ensures Counted(Button()) && Counted(Dial())
  {
  }

  /** The indices of the parts of n keypads. */
  ghost predicate InParts(insts: seq<Instance>, n: nat) {
    forall i | 0 <= i < |insts| ::
      0x3100 <= insts[i].index < 0x3100 + 32 * n || 0x3200 <= insts[i].index < 0x3200 + 4 * n
  }

  lemma PartsJoin(front: seq<Instance>, buttons: seq<Instance>, dials: seq<Instance>, n: nat)
    requires n < 8 && Spread(front, 0x3100, 0x3220) && InParts(front, n)
    requires Spread(buttons, 0x3100 + 32 * n, 0x3100 + 32 * (n + 1))
        && Spread(dials, 0x3200 + 4 * n, 0x3200 + 4 * (n + 1))
    ensures Spread(front + buttons + dials, 0x3100, 0x3220) && InParts(front + buttons + dials, n + 1)
  {
    var fb := front + buttons;
    assert Spread(fb, 0x3100, 0x3220);
    assert forall i | 0 <= i < |fb| :: !(0x3200 + 4 * n <= fb[i].index < 0x3200 + 4 * (n + 1));
  }

  /** Buttons and dials of different keypads interleave, but stay apart. */
  lemma {:induction false} PartsSpread(b: Board, n: nat, button: seq<Field>, dial: seq<Field>)
    requires n <= 8 && b.keypadButtons <= 32 && b.keypadDials <= 4 && SubsInOrder(button) && SubsInOrder(dial)
    ensures Spread(KeypadParts(b, n, button, dial), 0x3100, 0x3220) && InParts(KeypadParts(b, n, button, dial), n)
  {
    if n > 0 {
      PartsSpread(b, n - 1, button, dial);
      var x, y := 0x3100 + (n - 1) * 32, 0x3200 + (n - 1) * 4;
      BlockSpread(x, b.keypadButtons, button, x + 32);
      BlockSpread(y, b.keypadDials, dial, y + 4);
      PartsJoin(KeypadParts(b, n - 1, button, dial), Block(x, b.keypadButtons, button), Block(y, b.keypadDials, dial),
        n - 1);
    }
  }

  lemma InstancesSpread(v: Variant)
    requires Fits(v)
    ensures Spread(Instances(v), 0, 0x3220)
  {
    var b := v.board;
    InputsSpread(b);
    LogicSpread(b);
    SinglesSpread(v);
    OthersSpread(b);
    PartsCounted();
    CountedInOrder(Button());
    CountedInOrder(Dial());
    PartsSpread(b, b.keypads, Button(), Dial());
    SpreadJoin(Inputs(b), LogicBlocks(b), 0, 0x1400, 0x1800);
    SpreadJoin(Inputs(b) + LogicBlocks(b), Singles(v), 0, 0x1800, 0x2000);
    SpreadJoin(Inputs(b) + LogicBlocks(b) + Singles(v), Others(b), 0, 0x2000, 0x3100);
    SpreadJoin(Inputs(b) + LogicBlocks(b) + Singles(v) + Others(b), KeypadParts(b, b.keypads, Button(), Dial()), 0,
      0x3100, 0x3220);
  }

  /** Where a parameter of the flattened table comes from. */
  lemma {:induction false} DefFrom(insts: seq<Instance>, i: nat) returns (k: nat, j: nat)
    requires i < |Flatten(insts)|
    ensures k < |insts| && j < |insts[k].fields| && Flatten(insts)[i] == Def(insts[k].index, insts[k].fields[j])
  {
    var front := insts[..|insts| - 1];
    if i < |Flatten(front)| {
      k, j := DefFrom(front, i);
    } else {
      k, j := |insts| - 1, i - |Flatten(front)|;
      assert Flatten(insts)[i] == DefsOf(insts[k])[j];
    }
  }

  lemma {:induction false} SpreadUnique(insts: seq<Instance>, lo: nat, hi: nat)
    requires Spread(insts, lo, hi)
    ensures UniqueKeys(Flatten(insts))
  {
    if |insts| > 0 {
      var m := |insts| - 1;
      var front, last := insts[..m], insts[m];
      SpreadUnique(front, lo, hi);
      var a, b := Flatten(front), DefsOf(last);
      assert Flatten(insts) == a + b;
      forall i, j | 0 <= i < j < |a + b|
        ensures Key((a + b)[i]) != Key((a + b)[j])
      {
        if j < |a| {
        } else if i >= |a| {
          assert last.fields[i - |a|].sub < last.fields[j - |a|].sub;
        } else {
          var k, f := DefFrom(front, i);
          assert insts[k].index != insts[m].index;
          assert front[k].fields[f].sub < 256 && last.fields[j - |a|].sub < 256;
        }
      }
    }
  }

  /** No two parameters of a board that fits share a key. */
  lemma KeysUnique(v: Variant)
    requires Fits(v)
    ensures UniqueKeys(Defs(v))
  {
    InstancesSpread(v);
    SpreadUnique(Instances(v), 0, 0x3220);
  }

  // ----- defaults

  /** The default is in range and of the right kind. */
  predicate GoodDefault(f: Field) {
    match f.kind
    case TBool => true
    case TVarMap => f.def == 0.0
    case TFloat => InRange(f, f.def)
    case TI8 => f.def == f.def.Floor as real && -128.0 <= f.def <= 127.0 && InRange(f, f.def)
    case TEnum(_) => f.def == f.def.Floor as real && 0.0 <= f.def <= 255.0 && InRange(f, f.def)
    case _ => f.def == f.def.Floor as real && 0.0 <= f.def <= Width(f.kind) as real && InRange(f, f.def)
  }

  /** That is exactly when the default is encoded, on a board with any variables. */
  lemma GoodDefaultEncodes(e: Env, f: Field)
    requires e.varMapSize > 0 && (f.kind.TVarMap? ==> f.def == 0.0)
    ensures Encode(e, f, Number(f.def)).Some? <==> GoodDefault(f)
  {
  }

  ghost predicate GoodDefaults(fields: seq<Field>) {
    forall i | 0 <= i < |fields| :: GoodDefault(fields[i])
  }

  lemma PlainTables(outputs: nat)
    ensures GoodDefaults(Device()) && GoodDefaults(DigInput()) && GoodDefaults(Condition()) && GoodDefaults(Flasher())
    ensures GoodDefaults(DigOutput()) && GoodDefaults(Dial()) && GoodDefaults(Starter(outputs))
  {
  }

  lemma OutputTable(outputs: nat)
    ensures GoodDefaults(Output(outputs))
  {
    forall i | 0 <= i < |Output(outputs)|
      ensures GoodDefault(Output(outputs)[i])
    {
      if i < 9 { FirstOutputs(outputs, i); } else { LastOutputs(outputs, i); }
    }
  }

  lemma FirstOutputs(outputs: nat, i: nat)
    requires i < 9
    ensures GoodDefault(Output(outputs)[i])
  {
  }

  lemma LastOutputs(outputs: nat, i: nat)
    requires 9 <= i < |Output(outputs)|
    ensures GoodDefault(Output(outputs)[i])
  {
  }

  lemma CanTables()
    ensures GoodDefaults(CanInput()) && GoodDefaults(CanOutput())
  {
  }

  lemma LogicTables()
    ensures GoodDefaults(VirtualInput()) && GoodDefaults(Counter())
  {
  }

  lemma PanelTables()
    ensures GoodDefaults(AnalogInput()) && GoodDefaults(Keypad())
  {
  }

  lemma ButtonTable()
    ensures GoodDefaults(Button())
  {
  }

  lemma WiperLate(speedMap: nat, interDelays: nat)
    requires interDelays > 30
    ensures var f := Wiper(speedMap, interDelays)[12 + speedMap + 30]; !f.kind.TVarMap? && !GoodDefault(f)
  {
    assert Wiper(speedMap, interDelays)[12 + speedMap + 30].def == 31000.0;
  }

  /** The wiper's intermittent times are a thousand apart and thirty thousand at most. */
  lemma WiperTable(speedMap: nat, interDelays: nat)
    ensures GoodDefaults(Wiper(speedMap, interDelays)) <==> interDelays <= 30
  {
    var fs := Wiper(speedMap, interDelays);
    assert GoodDefaults(WiperHead());
    if interDelays > 30 {
      WiperLate(speedMap, interDelays);
      assert !GoodDefault(fs[12 + speedMap + 30]);
    }
  }

  ghost predicate AllGood(insts: seq<Instance>) {
    forall i | 0 <= i < |insts| :: GoodDefaults(insts[i].fields)
  }

  lemma InputsGood(b: Board)
    ensures AllGood(Inputs(b))
  {
    PlainTables(b.outputs);
    OutputTable(b.outputs);
    CanTables();
  }

  lemma LogicGood(b: Board)
    ensures AllGood(LogicBlocks(b))
  {
    PlainTables(b.outputs);
    LogicTables();
  }

  lemma OthersGood(b: Board)
    ensures AllGood(Others(b))
  {
    PlainTables(b.outputs);
    CanTables();
    PanelTables();
  }

  lemma {:induction false} PartsGood(b: Board, n: nat, button: seq<Field>, dial: seq<Field>)
    requires GoodDefaults(button) && GoodDefaults(dial)
    ensures AllGood(KeypadParts(b, n, button, dial))
  {
    if n > 0 { PartsGood(b, n - 1, button, dial); }
  }

  lemma {:induction false} InFlatten(insts: seq<Instance>, k: nat, j: nat)
    requires k < |insts| && j < |insts[k].fields|
    ensures Def(insts[k].index, insts[k].fields[j]) in Flatten(insts)
  {
    var m := |insts| - 1;
    if k < m {
      InFlatten(insts[..m], k, j);
    } else {
      assert DefsOf(insts[m])[j] in DefsOf(insts[m]);
    }
  }

  lemma GoodTable(insts: seq<Instance>)
    ensures AllGood(insts) <==> forall d | d in Flatten(insts) :: GoodDefault(d.field)
  {
    if AllGood(insts) {
      forall d | d in Flatten(insts)
        ensures GoodDefault(d.field)
      {
        var i :| 0 <= i < |Flatten(insts)| && Flatten(insts)[i] == d;
        var k, j := DefFrom(insts, i);
        assert GoodDefaults(insts[k].fields);
      }
    } else {
      var k :| 0 <= k < |insts| && !GoodDefaults(insts[k].fields);
      var j :| 0 <= j < |insts[k].fields| && !GoodDefault(insts[k].fields[j]);
      InFlatten(insts, k, j);
    }
  }

  lemma AllGoodJoin(a: seq<Instance>, b: seq<Instance>)
    ensures AllGood(a + b) <==> AllGood(a) && AllGood(b)
  {
    if AllGood(a + b) {
      assert forall i | 0 <= i < |a| :: a[i] == (a + b)[i];
      assert forall i | 0 <= i < |b| :: b[i] == (a + b)[|a| + i];
    }
  }

  lemma SinglesGood(v: Variant)
    ensures AllGood(Singles(v)) <==> (v.hasWipers ==> v.interDelays <= 30)
  {
    PlainTables(v.board.outputs);
    WiperTable(v.speedMap, v.interDelays);
    var st, w := Single(v.hasStarter, 0x1800, Starter(v.board.outputs)),
      Single(v.hasWipers, 0x1900, Wiper(v.speedMap, v.interDelays));
    AllGoodJoin(st, w);
    assert v.hasWipers ==> w[0].fields == Wiper(v.speedMap, v.interDelays);
  }

  /** Every default of a board is encoded without error exactly when its wiper, if it has
      one, has at most thirty intermittent times. */
  lemma DefaultsGood(v: Variant)
    ensures (forall d | d in Defs(v) :: GoodDefault(d.field)) <==> (v.hasWipers ==> v.interDelays <= 30)
  {
    var b := v.board;
    InputsGood(b);
    LogicGood(b);
    SinglesGood(v);
    OthersGood(b);
    ButtonTable();
    PlainTables(b.outputs);
    PartsGood(b, b.keypads, Button(), Dial());
    AllGoodJoin(Inputs(b), LogicBlocks(b));
    AllGoodJoin(Inputs(b) + LogicBlocks(b), Singles(v));
    AllGoodJoin(Inputs(b) + LogicBlocks(b) + Singles(v), Others(b));
    AllGoodJoin(Inputs(b) + LogicBlocks(b) + Singles(v) + Others(b), KeypadParts(b, b.keypads, Button(), Dial()));
    GoodTable(Instances(v));
  }

  lemma DefaultsEncode(e: Env, v: Variant)
    requires e.varMapSize > 0 && (v.hasWipers ==> v.interDelays <= 30)
    ensures forall d | d in Defs(v) :: Encode(e, d.field, Number(d.field.def)).Some?
  {
    DefaultsGood(v);
    forall d | d in Defs(v)
      ensures Encode(e, d.field, Number(d.field.def)).Some?
    {
      GoodDefaultEncodes(e, d.field);
    }
  }

  /** The thirty-first intermittent time is out of range. */
  lemma LateDelay(v: Variant) returns (d: Def)
    requires v.hasWipers && v.interDelays > 30
    ensures d in Defs(v) && !d.field.kind.TVarMap? && !GoodDefault(d.field)
  {
    var fields := Wiper(v.speedMap, v.interDelays);
    var k := WiperPlace(v);
    WiperLate(v.speedMap, v.interDelays);
    InFlatten(Instances(v), k, 12 + v.speedMap + 30);
    d := Def(0x1900, fields[12 + v.speedMap + 30]);
  }

  lemma WiperPlace(v: Variant) returns (k: nat)
    requires v.hasWipers
    ensures k < |Instances(v)| && Instances(v)[k] == Instance(0x1900, Wiper(v.speedMap, v.interDelays))
  {
    var b := v.board;
    var st := Single(v.hasStarter, 0x1800, Starter(b.outputs));
    k := |Inputs(b)| + |LogicBlocks(b)| + |st|;
    ThirdOfFive(Inputs(b), LogicBlocks(b), Singles(v), Others(b), KeypadParts(b, b.keypads, Button(), Dial()), |st|);
  }

  lemma ThirdOfFive(a: seq<Instance>, b: seq<Instance>, c: seq<Instance>, d: seq<Instance>, e: seq<Instance>, i: nat)
    requires i < |c|
    ensures (a + b + c + d + e)[|a| + |b| + i] == c[i]
  {
  }
}
