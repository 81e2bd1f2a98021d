/**
 Exactly which keys a board has.
 */
module BoardKeys {
  import opened Boards
  import opened Registry
  import opened RegistryFacts

  predicate HasAt(insts: seq<Instance>, k: nat, j: nat, x: nat, s: nat) {
    k < |insts| && j < |insts[k].fields| && insts[k].index == x && insts[k].fields[j].sub == s
  }

  ghost predicate Has(insts: seq<Instance>, x: nat, s: nat) { exists k, j :: HasAt(insts, k, j, x, s) }

  lemma HasJoin(a: seq<Instance>, b: seq<Instance>, x: nat, s: nat)
    ensures Has(a + b, x, s) <==> Has(a, x, s) || Has(b, x, s)
  {
    if Has(a, x, s) {
      var k: nat, j: nat :| HasAt(a, k, j, x, s);
      assert HasAt(a + b, k, j, x, s);
    }
    if Has(b, x, s) {
      var k: nat, j: nat :| HasAt(b, k, j, x, s);
      assert HasAt(a + b, |a| + k, j, x, s);
    }
    if Has(a + b, x, s) {
      var k: nat, j: nat :| HasAt(a + b, k, j, x, s);
      if k < |a| { assert HasAt(a, k, j, x, s); } else { assert HasAt(b, k - |a|, j, x, s); }
    }
  }

  predicate In(x: nat, base: nat, count: nat) { base <= x < base + count }

  lemma HasBlock(base: nat, count: nat, fields: seq<Field>, x: nat, s: nat)
    requires base + count <= 0x1_0000 && Counted(fields)
    ensures Has(Block(base, count, fields), x, s) <==> In(x, base, count) && s < |fields|
  {
    if In(x, base, count) && s < |fields| { assert HasAt(Block(base, count, fields), x - base, s, x, s); }
  }

  lemma HasSingle(present: bool, index: nat, fields: seq<Field>, x: nat, s: nat)
    requires present ==> Counted(fields)
    ensures Has(Single(present, index, fields), x, s) <==> present && x == index && s < |fields|
  {
    if present && x == index && s < |fields| { assert HasAt(Single(present, index, fields), 0, s, x, s); }
  }

  /** The subindices of the wiper. */
  predicate WiperSub(v: Variant, s: nat) { s < 12 || In(s, 12, v.speedMap) || In(s, 20, v.interDelays) }

  lemma HasWiper(v: Variant, x: nat, s: nat)
    requires v.hasWipers ==> v.speedMap <= 8 && v.interDelays <= 236
    ensures Has(Single(v.hasWipers, 0x1900, Wiper(v.speedMap, v.interDelays)), x, s)
      <==> v.hasWipers && x == 0x1900 && WiperSub(v, s)
  {
    var fs := Wiper(v.speedMap, v.interDelays);
    var one := Single(v.hasWipers, 0x1900, fs);
    if v.hasWipers {
      WiperFields(v.speedMap, v.interDelays);
      if Has(one, x, s) {
        var k: nat, j: nat :| HasAt(one, k, j, x, s);
      }
      if x == 0x1900 && WiperSub(v, s) {
        assert HasAt(one, 0, if s < 12 + v.speedMap && s < 20 then s else s - 20 + 12 + v.speedMap, x, s);
      }
    }
  }

  lemma WiperFields(speedMap: nat, interDelays: nat)
    requires speedMap <= 8 && interDelays <= 236
    ensures var fs := Wiper(speedMap, interDelays);
      |fs| == 12 + speedMap + interDelays
      && forall j | 0 <= j < |fs| :: fs[j].sub == if j < 12 + speedMap then j else j - 12 - speedMap + 20
  {
    assert Counted(WiperHead());
    ThreeParts(WiperHead(), Speeds(speedMap), Delays(interDelays), speedMap);
  }

  lemma ThreeParts(head: seq<Field>, speeds: seq<Field>, delays: seq<Field>, n: nat)
    requires |head| == 12 && Counted(head) && |speeds| == n
    requires forall i | 0 <= i < |speeds| :: speeds[i].sub == 12 + i
    requires forall i | 0 <= i < |delays| :: delays[i].sub == 20 + i
    ensures var fs := head + speeds + delays;
      forall j | 0 <= j < |fs| :: fs[j].sub == if j < 12 + n then j else j - 12 - n + 20
  {
  }

  /** The parts of the first n keypads. */
  predicate OnPads(b: Board, n: nat, x: nat, s: nat) {
    || (0x3100 <= x && (x - 0x3100) / 32 < n && (x - 0x3100) % 32 < b.keypadButtons && s < 22)
    || (0x3200 <= x && (x - 0x3200) / 4 < n && (x - 0x3200) % 4 < b.keypadDials && s < 4)
  }

  lemma {:induction false} HasParts(b: Board, n: nat, button: seq<Field>, dial: seq<Field>, x: nat, s: nat)
    requires n <= 8 && b.keypadButtons <= 32 && b.keypadDials <= 4
    requires Counted(button) && |button| == 22 && Counted(dial) && |dial| == 4
    ensures Has(KeypadParts(b, n, button, dial), x, s) <==> OnPads(b, n, x, s)
  {
    if n > 0 {
      var k := n - 1;
      var bs, ds := Block(0x3100 + k * 32, b.keypadButtons, button), Block(0x3200 + k * 4, b.keypadDials, dial);
      HasParts(b, k, button, dial, x, s);
      HasBlock(0x3100 + k * 32, b.keypadButtons, button, x, s);
      HasBlock(0x3200 + k * 4, b.keypadDials, dial, x, s);
      HasJoin(KeypadParts(b, k, button, dial), bs, x, s);
      HasJoin(KeypadParts(b, k, button, dial) + bs, ds, x, s);
    }
  }

  predicate OnInputs(b: Board, x: nat, s: nat) {
    || (x == 0 && s < 5) || (In(x, 0x1000, b.outputs) && s < 18) || (In(x, 0x1200, b.digInputs) && s < 5)
    || (In(x, 0x1300, b.canInputs) && s < 14)
  }

  lemma HasInputs(b: Board, x: nat, s: nat)
    requires b.outputs <= 0x200 && b.digInputs <= 0x100 && b.canInputs <= 0x100
    ensures Has(Inputs(b), x, s) <==> OnInputs(b, x, s)
  {
    var d, o, i := Single(true, 0, Device()), Block(0x1000, b.outputs, Output(b.outputs)),
      Block(0x1200, b.digInputs, DigInput());
    HasSingle(true, 0, Device(), x, s);
    HasBlock(0x1000, b.outputs, Output(b.outputs), x, s);
    HasBlock(0x1200, b.digInputs, DigInput(), x, s);
    HasBlock(0x1300, b.canInputs, CanInput(), x, s);
    HasJoin(d, o, x, s);
    HasJoin(d + o, i, x, s);
    HasJoin(d + o + i, Block(0x1300, b.canInputs, CanInput()), x, s);
  }

  predicate OnLogic(b: Board, x: nat, s: nat) {
    || (In(x, 0x1400, b.virtInputs) && s < 10) || (In(x, 0x1500, b.conditions) && s < 4)
    || (In(x, 0x1600, b.counters) && s < 12) || (In(x, 0x1700, b.flashers) && s < 5)
  }

  lemma HasLogic(b: Board, x: nat, s: nat)
    requires b.virtInputs <= 0x100 && b.conditions <= 0x100 && b.counters <= 0x100 && b.flashers <= 0x100
    ensures Has(LogicBlocks(b), x, s) <==> OnLogic(b, x, s)
  {
    var v, c, k := Block(0x1400, b.virtInputs, VirtualInput()), Block(0x1500, b.conditions, Condition()),
      Block(0x1600, b.counters, Counter());
    HasBlock(0x1400, b.virtInputs, VirtualInput(), x, s);
    HasBlock(0x1500, b.conditions, Condition(), x, s);
    HasBlock(0x1600, b.counters, Counter(), x, s);
    HasBlock(0x1700, b.flashers, Flasher(), x, s);
    HasJoin(v, c, x, s);
    HasJoin(v + c, k, x, s);
    HasJoin(v + c + k, Block(0x1700, b.flashers, Flasher()), x, s);
  }

  predicate OnSingles(v: Variant, x: nat, s: nat) {
    || (v.hasStarter && x == 0x1800 && s < 2 + v.board.outputs) || (v.hasWipers && x == 0x1900 && WiperSub(v, s))
  }

  lemma HasSingles(v: Variant, x: nat, s: nat)
    requires Fits(v)
    ensures Has(Singles(v), x, s) <==> OnSingles(v, x, s)
  {
    var starter := Starter(v.board.outputs);
    assert v.hasStarter ==> Counted(starter);
    HasSingle(v.hasStarter, 0x1800, starter, x, s);
    HasWiper(v, x, s);
    HasJoin(Single(v.hasStarter, 0x1800, starter), Single(v.hasWipers, 0x1900, Wiper(v.speedMap, v.interDelays)), x, s);
  }

  predicate OnOthers(b: Board, x: nat, s: nat) {
    || (In(x, 0x2000, b.canOutputs) && s < 11) || (In(x, 0x2100, b.digOutputs) && s < 2)
    || (In(x, 0x2200, b.analogInputs) && s < 10) || (In(x, 0x3000, b.keypads) && s < 11)
  }

  lemma HasOthers(b: Board, x: nat, s: nat)
    requires b.canOutputs <= 0x100 && b.digOutputs <= 0x100 && b.analogInputs <= 0xE00 && b.keypads <= 0x100
    ensures Has(Others(b), x, s) <==> OnOthers(b, x, s)
  {
    var c, d, a := Block(0x2000, b.canOutputs, CanOutput()), Block(0x2100, b.digOutputs, DigOutput()),
      Block(0x2200, b.analogInputs, AnalogInput());
    HasBlock(0x2000, b.canOutputs, CanOutput(), x, s);
    HasBlock(0x2100, b.digOutputs, DigOutput(), x, s);
    HasBlock(0x2200, b.analogInputs, AnalogInput(), x, s);
    HasBlock(0x3000, b.keypads, Keypad(), x, s);
    HasJoin(c, d, x, s);
    HasJoin(c + d, a, x, s);
    HasJoin(c + d + a, Block(0x3000, b.keypads, Keypad()), x, s);
  }

  /** The indices and subindices of a board. */
  predicate OnBoard(v: Variant, x: nat, s: nat) {
    || OnInputs(v.board, x, s) || OnLogic(v.board, x, s) || OnSingles(v, x, s) || OnOthers(v.board, x, s)
    || OnPads(v.board, v.board.keypads, x, s)
  }

  lemma HasExactly(v: Variant, x: nat, s: nat)
    requires Fits(v)
    ensures Has(Instances(v), x, s) <==> OnBoard(v, x, s)
  {
    var b := v.board;
    var i, l, w, o := Inputs(b), LogicBlocks(b), Singles(v), Others(b);
    HasInputs(b, x, s);
    HasLogic(b, x, s);
    HasSingles(v, x, s);
    HasOthers(b, x, s);
    PartsCounted();
    HasParts(b, b.keypads, Button(), Dial(), x, s);
    HasJoin(i, l, x, s);
    HasJoin(i + l, w, x, s);
    HasJoin(i + l + w, o, x, s);
    HasJoin(i + l + w + o, KeypadParts(b, b.keypads, Button(), Dial()), x, s);
  }

  lemma KeysOfFlat(insts: seq<Instance>, hi: nat, key: nat)
    requires Spread(insts, 0, hi)
    ensures (exists d :: d in Flatten(insts) && Key(d) == key) <==> Has(insts, key / 256, key % 256)
  {
    if Has(insts, key / 256, key % 256) {
      var k: nat, j: nat :| HasAt(insts, k, j, key / 256, key % 256);
      InFlatten(insts, k, j);
      assert Key(Def(insts[k].index, insts[k].fields[j])) == key;
    }
    if d :| d in Flatten(insts) && Key(d) == key {
      var i :| 0 <= i < |Flatten(insts)| && Flatten(insts)[i] == d;
      var k, j := DefFrom(insts, i);
      assert SubsInOrder(insts[k].fields);
      assert HasAt(insts, k, j, key / 256, key % 256);
    }
  }

  /** A board that fits has exactly the keys of its indices and subindices. */
  lemma KeysExactly(v: Variant, key: nat)
    requires Fits(v)
    ensures (exists d :: d in Defs(v) && Key(d) == key) <==> OnBoard(v, key / 256, key % 256)
  {
    InstancesSpread(v);
    KeysOfFlat(Instances(v), 0x3220, key);
    HasExactly(v, key / 256, key % 256);
  }
}
