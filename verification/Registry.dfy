/**
 The parameter table of a board: which parameters exist, at which index and subindex, with
 what type, range and default.
 */
module Registry {
  import opened Boards

  datatype Kind = TBool | TU8 | TU16 | TU32 | TI8 | TFloat | TEnum(enum: string) | TVarMap

  datatype Field = Field(sub: nat, name: string, kind: Kind, def: real, min: real, max: real)

  const LO := -1000000000.0
  const HI := 1000000000.0

  function B(sub: nat, name: string, def: real): Field { Field(sub, name, TBool, def, 0.0, 1.0) }
  function Vm(sub: nat, name: string): Field { Field(sub, name, TVarMap, 0.0, 0.0, 0.0) }
  function U(sub: nat, name: string, kind: Kind, def: real, min: real, max: real): Field {
    Field(sub, name, kind, def, min, max)
  }
  function Fl(sub: nat, name: string, def: real, min: real, max: real): Field {
    Field(sub, name, TFloat, def, min, max)
  }
  function En(sub: nat, name: string, enum: string, def: real, min: real, max: real): Field {
    Field(sub, name, TEnum(enum), def, min, max)
  }
  function I8(sub: nat, name: string, def: real, min: real, max: real): Field { Field(sub, name, TI8, def, min, max) }

  /** The counts of a board, and what the command line tool knows besides. */
  datatype Variant = Variant(board: Board, hasStarter: bool, hasWipers: bool, speedMap: nat, interDelays: nat)

  // ----- the field tables

  function Device(): seq<Field> {
    [U(0, "baseId", TU16, 222.0, 0.0, 2047.0), En(1, "canSpeed", "CanBitrate", 1.0, 0.0, 4.0),
      B(2, "sleepEnabled", 0.0),
     B(3, "canFilterEnabled", 0.0), B(4, "connectUsbToCan", 1.0)]
  }

  function Output(outputs: nat): seq<Field> {
    [B(0, "enabled", 0.0), Vm(1, "input"), Fl(2, "currentLimit", 20.0, 0.0, 100.0),
      Fl(3, "inrushLimit", 50.0, 0.0, 100.0),
     U(4, "inrushTime", TU16, 1000.0, 0.0, 10000.0), En(5, "resetMode", "ProfetResetMode", 0.0, 0.0, 2.0),
     U(6, "resetTime", TU16, 1000.0, 0.0, 60000.0), U(7, "resetLimit", TU8, 3.0, 0.0, 20.0), B(8, "pwm.enabled", 0.0),
     B(9, "pwm.softStart", 0.0), B(10, "pwm.variableDutyCycle", 0.0), Vm(11, "pwm.dutyCycleInput"),
     U(12, "pwm.fixedDutyCycle", TU8, 100.0, 0.0, 100.0), U(13, "pwm.freq", TU16, 100.0, 0.0, 400.0),
     U(14, "pwm.softStartRampTime", TU16, 0.0, 0.0, 10000.0),
       U(15, "pwm.dutyCycleInputDenom", TU16, 100.0, 1.0, 5000.0),
     U(16, "pwm.minDutyCycle", TU16, 0.0, 0.0, 100.0), I8(17, "primaryOutput", -1.0, -1.0, (outputs - 1) as real)]
  }

  function DigInput(): seq<Field> {
    [B(0, "enabled", 0.0), En(1, "mode", "InputMode", 0.0, 0.0, 1.0), B(2, "invert", 0.0),
     U(3, "debounceTime", TU16, 20.0, 0.0, 1000.0), En(4, "pull", "InputPull", 0.0, 0.0, 2.0)]
  }

  function CanInput(): seq<Field> {
    [B(0, "enabled", 0.0), B(1, "timeoutEnabled", 0.0), U(2, "timeout", TU16, 1000.0, 0.0, 60000.0),
     U(3, "ide", TU8, 0.0, 0.0, 1.0), U(4, "id", TU32, 0.0, 0.0, 536870911.0), U(5, "startBit", TU8, 0.0, 0.0, 63.0),
     U(6, "bitLength", TU8, 8.0, 1.0, 32.0), Fl(7, "factor", 1.0, LO, HI), Fl(8, "offset", 0.0, LO, HI),
     En(9, "byteOrder", "ByteOrder", 0.0, 0.0, 1.0), B(10, "signed", 0.0),
       En(11, "operator", "Operator", 0.0, 0.0, 7.0),
     Fl(12, "operand", 0.0, LO, HI), En(13, "mode", "InputMode", 0.0, 0.0, 1.0)]
  }

  function VirtualInput(): seq<Field> {
    [B(0, "enabled", 0.0), B(1, "not0", 0.0), Vm(2, "var0"), En(3, "cond0", "BoolOperator", 0.0, 0.0, 2.0),
     B(4, "not1", 0.0), Vm(5, "var1"), En(6, "cond1", "BoolOperator", 0.0, 0.0, 2.0), B(7, "not2", 0.0), Vm(8, "var2"),
     En(9, "mode", "InputMode", 0.0, 0.0, 1.0)]
  }

  function Condition(): seq<Field> {
    [B(0, "enabled", 0.0), Vm(1, "input"), En(2, "operator", "Operator", 0.0, 0.0, 7.0), Fl(3, "arg", 0.0, LO, HI)]
  }

  function Counter(): seq<Field> {
    [B(0, "enabled", 0.0), Vm(1, "incInput"), Vm(2, "decInput"), Vm(3, "resetInput"),
      U(4, "minCount", TU8, 0.0, 0.0, 255.0),
     U(5, "maxCount", TU8, 10.0, 0.0, 255.0), En(6, "incEdge", "InputEdge", 0.0, 0.0, 2.0),
     En(7, "decEdge", "InputEdge", 0.0, 0.0, 2.0), En(8, "resetEdge", "InputEdge", 0.0, 0.0, 2.0),
       B(9, "wrapAround", 0.0),
     B(10, "holdToReset", 0.0), U(11, "resetTime", TU16, 2000.0, 0.0, 10000.0)]
  }

  function Flasher(): seq<Field> {
    [B(0, "enabled", 0.0), Vm(1, "input"), U(2, "flashOnTime", TU16, 500.0, 0.0, 5000.0),
     U(3, "flashOffTime", TU16, 500.0, 0.0, 5000.0), B(4, "singleCycle", 0.0)]
  }

  /** Subindices are eight bits wide. */
  function Starter(outputs: nat): seq<Field> {
    [B(0, "enabled", 0.0), Vm(1, "input")] + seq(outputs, i requires 0 <= i < outputs => B((2 + i) % 256, "disableOut",
      0.0))
  }

  const SPEEDS := [3.0, 4.0, 5.0, 6.0, 7.0, 8.0, 1.0, 2.0]

  function WiperHead(): seq<Field> {
    [B(0, "enabled", 0.0), En(1, "mode", "WiperMode", 0.0, 0.0, 2.0), Vm(2, "slowInput"), Vm(3, "fastInput"),
     Vm(4, "interInput"), Vm(5, "onInput"), Vm(6, "speedInput"), Vm(7, "parkInput"), B(8, "parkStopLevel", 0.0),
     Vm(9, "swipeInput"), Vm(10, "washInput"), U(11, "washWipeCycles", TU8, 3.0, 0.0, 10.0)]
  }

  function Speeds(n: nat): seq<Field> {
    seq(n, i requires 0 <= i < n => En((12 + i) % 256, "speedMap", "WiperSpeed", SPEEDS[i % 8], 0.0, 8.0))
  }

  function Delays(n: nat): seq<Field> {
    seq(n, i requires 0 <= i < n =>
      U((20 + i) % 256, "intermitTime", TU16, ((i + 1) * 1000) as real, 0.0, 30000.0))
  }

  function Wiper(speedMap: nat, interDelays: nat): seq<Field> {
    WiperHead() + Speeds(speedMap) + Delays(interDelays)
  }

  function CanOutput(): seq<Field> {
    [B(0, "enabled", 0.0), Vm(1, "input"), U(2, "ide", TU8, 0.0, 0.0, 1.0), U(3, "id", TU32, 0.0, 0.0, 536870911.0),
     U(4, "startBit", TU8, 0.0, 0.0, 63.0), U(5, "bitLength", TU8, 8.0, 1.0, 32.0), Fl(6, "factor", 1.0, LO, HI),
     Fl(7, "offset", 0.0, LO, HI), En(8, "byteOrder", "ByteOrder", 0.0, 0.0, 1.0), B(9, "signed", 0.0),
     U(10, "interval", TU16, 1000.0, 0.0, 60000.0)]
  }

  function DigOutput(): seq<Field> {
    [B(0, "enabled", 0.0), Vm(1, "input")]
  }

  function AnalogInput(): seq<Field> {
    [B(0, "enabled", 0.0), B(1, "switch.enabled", 0.0), En(2, "switch.mode", "InputMode", 0.0, 0.0, 1.0),
     B(3, "switch.invert", 0.0), U(4, "switch.threshold", TU16, 2000.0, 0.0, 5000.0), B(5, "rotary.enabled", 0.0),
     B(6, "rotary.invert", 0.0), Fl(7, "rotary.offset", 0.0, LO, HI), Fl(8, "rotary.step", 100.0, 0.000001, HI),
     Fl(9, "rotary.maxPos", 10.0, 0.0, HI)]
  }

  function Keypad(): seq<Field> {
    [B(0, "enabled", 0.0), U(1, "nodeId", TU8, 0.0, 0.0, 127.0), B(2, "timeoutEnabled", 0.0),
     U(3, "timeout", TU16, 0.0, 0.0, 60000.0), En(4, "model", "KeypadModel", 6.0, 0.0, 13.0),
     U(5, "backlightBrightness", TU8, 63.0, 0.0, 63.0), U(6, "dimBacklightBrightness", TU8, 32.0, 0.0, 63.0),
     U(7, "backlightColor", TU8, 0.0, 0.0, 9.0), Vm(8, "dimmingVar"), U(9, "buttonBrightness", TU8, 63.0, 0.0, 63.0),
     U(10, "dimButtonBrightness", TU8, 32.0, 0.0, 63.0)]
  }

  function Colour(sub: nat, name: string): Field { U(sub, name, TU8, 0.0, 0.0, 7.0) }

  function Button(): seq<Field> {
    [B(0, "enabled", 0.0), En(1, "mode", "InputMode", 0.0, 0.0, 1.0)]
    + seq(4, i requires 0 <= i < 4 => Colour(2 + i, "colors")) + [Colour(6, "faultColor")]
    + seq(4, i requires 0 <= i < 4 => Vm(7 + i, "vars")) + [Vm(11, "faultVar")]
    + seq(4, i requires 0 <= i < 4 => B(12 + i, "blink", 0.0)) + [B(16, "faultBlink", 0.0)]
    + seq(4, i requires 0 <= i < 4 => Colour(17 + i, "blinkColors")) + [Colour(21, "faultBlinkColor")]
  }

  function Dial(): seq<Field> {
    [B(0, "enabled", 0.0), U(1, "minCount", TU8, 0.0, 0.0, 16.0), U(2, "maxCount", TU8, 16.0, 0.0, 16.0),
     U(3, "ledOffset", TU8, 0.0, 0.0, 16.0)]
  }

  // ----- the table

  /** One instance of a function block: an index and its fields. */
  datatype Instance = Instance(index: nat, fields: seq<Field>)

  datatype Def = Def(index: nat, field: Field)

  function Key(d: Def): nat { d.index * 256 + d.field.sub }

  function Block(base: nat, count: nat, fields: seq<Field>): (r: seq<Instance>)
    ensures |r| == count
  {
    seq(count, i requires 0 <= i < count => Instance((base + i) % 0x1_0000, fields))
  }

  function Single(present: bool, index: nat, fields: seq<Field>): seq<Instance> {
    if present then [Instance(index, fields)] else []
  }

  /** Buttons and dials of keypads 0 to n - 1. */
  function KeypadParts(b: Board, n: nat, button: seq<Field>, dial: seq<Field>): seq<Instance> {
    if n == 0 then []
    else
      KeypadParts(b, n - 1, button, dial) + Block(0x3100 + (n - 1) * 32, b.keypadButtons, button)
      + Block(0x3200 + (n - 1) * 4, b.keypadDials, dial)
  }

  function Inputs(b: Board): seq<Instance> {
    Single(true, 0, Device()) + Block(0x1000, b.outputs, Output(b.outputs)) + Block(0x1200, b.digInputs, DigInput())
    + Block(0x1300, b.canInputs, CanInput())
  }

  function LogicBlocks(b: Board): seq<Instance> {
    Block(0x1400, b.virtInputs, VirtualInput()) + Block(0x1500, b.conditions, Condition())
    + Block(0x1600, b.counters, Counter()) + Block(0x1700, b.flashers, Flasher())
  }

  function Singles(v: Variant): seq<Instance> {
    Single(v.hasStarter, 0x1800, Starter(v.board.outputs)) + Single(v.hasWipers, 0x1900,
      Wiper(v.speedMap, v.interDelays))
  }

  function Others(b: Board): seq<Instance> {
    Block(0x2000, b.canOutputs, CanOutput()) + Block(0x2100, b.digOutputs, DigOutput())
    + Block(0x2200, b.analogInputs, AnalogInput()) + Block(0x3000, b.keypads, Keypad())
  }

  function Instances(v: Variant): seq<Instance> {
    Inputs(v.board) + LogicBlocks(v.board) + Singles(v) + Others(v.board)
      + KeypadParts(v.board, v.board.keypads, Button(), Dial())
  }

  function DefsOf(i: Instance): (ds: seq<Def>)
    ensures |ds| == |i.fields|
  {
    seq(|i.fields|, j requires 0 <= j < |i.fields| => Def(i.index, i.fields[j]))
  }

  function Flatten(insts: seq<Instance>): seq<Def> {
    if |insts| == 0 then [] else Flatten(insts[..|insts| - 1]) + DefsOf(insts[|insts| - 1])
  }

  /** Every parameter of the board, in registration order. */
  function Defs(v: Variant): seq<Def> { Flatten(Instances(v)) }

  /** The last position of each key among the first n parameters. */
  function KeyMap(defs: seq<Def>, n: nat): map<nat, nat>
    requires n <= |defs|
  {
    if n == 0 then map[] else KeyMap(defs, n - 1)[Key(defs[n - 1]) := n - 1]
  }

  /** The table as it is built, block by block. */
  class Table {
    var defs: seq<Def>
    var byKey: map<nat, nat>
    ghost var insts: seq<Instance>

    ghost predicate Valid()
      reads this
    {
      defs == Flatten(insts)
    }

    constructor (v: Variant)
      ensures Valid() && defs == Defs(v) && byKey == KeyMap(defs, |defs|)
    {
      defs, byKey, insts := [], map[], [];
      new;
      AddInputs(v.board);
      assert insts == Inputs(v.board);
      AddLogic(v.board);
      AddSingles(v);
      AddOthers(v.board);
      AddKeypads(v.board);
      IndexKeys();
    }

    method Add(index: nat, f: Field)
      modifies `defs
      ensures defs == old(defs) + [Def(index, f)]
    {
      defs := defs + [Def(index, f)];
    }

    method AddSingle(index: nat, fields: seq<Field>)
      requires Valid()
      modifies `defs, `insts
      ensures Valid() && insts == old(insts) + [Instance(index, fields)]
    {
      ghost var inst := Instance(index, fields);
      var j := 0;
      while j < |fields|
        invariant 0 <= j <= |fields| && insts == old(insts)
        invariant defs == old(defs) + DefsOf(inst)[..j]
      {
        Add(index, fields[j]);
        j := j + 1;
      }
      insts := insts + [inst];
      assert insts[..|insts| - 1] == old(insts);
    }

    method AddBlock(base: nat, count: nat, fields: seq<Field>)
      requires Valid()
      modifies `defs, `insts
      ensures Valid() && insts == old(insts) + Block(base, count, fields)
    {
      var i := 0;
      while i < count
        invariant 0 <= i <= count && Valid()
        invariant insts == old(insts) + Block(base, count, fields)[..i]
      {
        AddSingle((base + i) % 0x1_0000, fields);
        i := i + 1;
      }
    }

    method AddBlocks(base: nat, count: nat, fields: seq<Field>, base': nat, count': nat, fields': seq<Field>)
      requires Valid()
      modifies `defs, `insts
      ensures Valid() && insts == old(insts) + Block(base, count, fields) + Block(base', count', fields')
    {
      AddBlock(base, count, fields);
      AddBlock(base', count', fields');
    }

    method AddInputs(b: Board)
      requires Valid()
      modifies `defs, `insts
      ensures Valid() && insts == old(insts) + Inputs(b)
    {
      AddSingle(0, Device());
      AddBlocks(0x1000, b.outputs, Output(b.outputs), 0x1200, b.digInputs, DigInput());
      AddBlock(0x1300, b.canInputs, CanInput());
    }

    method AddLogic(b: Board)
      requires Valid()
      modifies `defs, `insts
      ensures Valid() && insts == old(insts) + LogicBlocks(b)
    {
      AddBlocks(0x1400, b.virtInputs, VirtualInput(), 0x1500, b.conditions, Condition());
      AddBlocks(0x1600, b.counters, Counter(), 0x1700, b.flashers, Flasher());
    }

    method AddSingles(v: Variant)
      requires Valid()
      modifies `defs, `insts
      ensures Valid() && insts == old(insts) + Singles(v)
    {
      if v.hasStarter {
        AddSingle(0x1800, Starter(v.board.outputs));
      }
      if v.hasWipers {
        AddSingle(0x1900, Wiper(v.speedMap, v.interDelays));
      }
    }

    method AddOthers(b: Board)
      requires Valid()
      modifies `defs, `insts
      ensures Valid() && insts == old(insts) + Others(b)
    {
      AddBlocks(0x2000, b.canOutputs, CanOutput(), 0x2100, b.digOutputs, DigOutput());
      AddBlocks(0x2200, b.analogInputs, AnalogInput(), 0x3000, b.keypads, Keypad());
    }

    method AddKeypads(b: Board)
      requires Valid()
      modifies `defs, `insts
      ensures Valid() && insts == old(insts) + KeypadParts(b, b.keypads, Button(), Dial())
    {
      AddParts(b, Button(), Dial());
    }

    method AddParts(b: Board, button: seq<Field>, dial: seq<Field>)
      requires Valid()
      modifies `defs, `insts
      ensures Valid() && insts == old(insts) + KeypadParts(b, b.keypads, button, dial)
    {
      var k := 0;
      while k < b.keypads
        invariant 0 <= k <= b.keypads && Valid()
        invariant insts == old(insts) + KeypadParts(b, k, button, dial)
      {
        AddBlock(0x3100 + k * 32, b.keypadButtons, button);
        AddBlock(0x3200 + k * 4, b.keypadDials, dial);
        k := k + 1;
      }
    }

    method IndexKeys()
      modifies `byKey
      ensures byKey == KeyMap(defs, |defs|)
    {
      byKey := map[];
      var i := 0;
      while i < |defs|
        invariant 0 <= i <= |defs|
        invariant byKey == KeyMap(defs, i)
      {
        byKey := byKey[Key(defs[i]) := i];
        i := i + 1;
      }
    }

    /** The parameter with this key, as a position in the table. */
    method LookupKey(key: nat) returns (i: nat, found: bool)
      requires byKey == KeyMap(defs, |defs|)
      ensures found == (exists d :: d in defs && Key(d) == key)
      ensures found ==> i < |defs| && Key(defs[i]) == key
    {
      KeyMapMeans(defs, |defs|, key);
      assert defs[..|defs|] == defs;
      if key in byKey {
        return byKey[key], true;
      }
      return 0, false;
    }
  }

  lemma {:induction false} KeyMapMeans(defs: seq<Def>, n: nat, key: nat)
    requires n <= |defs|
    ensures key in KeyMap(defs, n) <==> exists d :: d in defs[..n] && Key(d) == key
    ensures key in KeyMap(defs, n) ==> KeyMap(defs, n)[key] < n && Key(defs[KeyMap(defs, n)[key]]) == key
  {
    if n > 0 {
      KeyMapMeans(defs, n - 1, key);
      assert defs[..n] == defs[..n - 1] + [defs[n - 1]];
      if Key(defs[n - 1]) == key { assert defs[n - 1] in defs[..n]; }
    }
  }
}
