/**
 The two independently written layouts of the variable map: the command line tool's, which
 appends names in loops, and the simulator's, which joins named blocks.
 */
module VarMap {
  import opened Options
  import opened LittleEndian
  import opened Boards
  import opened Labels

  // ----- blocks of names

  function Each(w: string, n: nat, ends: seq<string>): seq<Label> {
    seq(|ends|, j requires 0 <= j < |ends| => One(w, n, ends[j]))
  }

  /** Instances 1 to n, each with a variable for every ending. */
  function Numbered(w: string, n: nat, ends: seq<string>): (ls: seq<Label>)
    ensures |ls| == Total(n, |ends|)
  {
    if n == 0 then [] else Numbered(w, n - 1, ends) + Each(w, n, ends)
  }

  function Twos(k: nat, v: string, n: nat): (ls: seq<Label>)
    ensures |ls| == n
  {
    seq(n, i requires 0 <= i < n => Two("Keypad", k, v, i + 1))
  }

  function Keypad(b: Board, k: nat): (ls: seq<Label>)
    ensures |ls| == b.KeypadVars()
  {
    Twos(k, "Button", b.keypadButtons) + Twos(k, "Dial", b.keypadDials) + Twos(k, "Analog", b.keypadAnalogs)
  }

  function Keypads(b: Board, n: nat): (ls: seq<Label>)
    ensures |ls| == Total(n, b.KeypadVars())
  {
    if n == 0 then [] else Keypads(b, n - 1) + Keypad(b, n)
  }

  /** Three blocks in a row are one block. */
  lemma Join(a: seq<Label>, x: seq<Label>, y: seq<Label>, z: seq<Label>)
    ensures a + x + y + z == a + (x + y + z)
  {
  }

  const SYSTEM := [Word("AlwaysFalse"), Word("AlwaysTrue"), Word("State"), Word("BoardTemp"), Word("BattVolt")]
  const WIPER := [Word("WiperSlowOut"), Word("WiperFastOut"), Word("WiperParkOut"),
                  Word("WiperInterOut"), Word("WiperWashOut"), Word("WiperSwipeOut")]
  const PLAIN := [""]
  const ANALOG := ["Val", "mV", "Rotary", "Switch"]
  const CAN_IN := ["Out", "Val"]
  const OUT := ["Active", "Current", "Overcurrent", "Fault"]

  function Switches(b: Board): seq<Label> {
    Numbered("DigIn", b.digInputs, PLAIN) + Numbered("DigOut", b.digOutputs, PLAIN)
      + Numbered("Analog", b.analogInputs, ANALOG)
  }

  function Signals(b: Board): seq<Label> {
    Numbered("CanIn", b.canInputs, CAN_IN) + Numbered("VirtIn", b.virtInputs, PLAIN) + Numbered("Out", b.outputs, OUT)
  }

  function Logic(b: Board): seq<Label> {
    Numbered("Flasher", b.flashers, PLAIN) + Numbered("Cond", b.conditions, PLAIN)
      + Numbered("Counter", b.counters, PLAIN)
  }

  /** Everything between the system variables and the wiper. */
  function Middle(b: Board): seq<Label> { Switches(b) + Signals(b) + Logic(b) }

  // ----- the command line tool's layout

  function GoSystem(sysVars: nat): seq<Label> {
    SYSTEM[..3] + (if sysVars >= 4 then [SYSTEM[3]] else []) + (if sysVars >= 5 then [SYSTEM[4]] else [])
  }

  function GoLabels(b: Board, hasWipers: bool): seq<Label> {
    GoSystem(b.sysVars) + Middle(b) + (if hasWipers then WIPER else []) + Keypads(b, b.keypads)
  }

  function Texts(ls: seq<Label>): (ts: seq<string>)
    ensures |ts| == |ls| && forall i | 0 <= i < |ls| :: ts[i] == Text(ls[i])
  {
    seq(|ls|, i requires 0 <= i < |ls| => Text(ls[i]))
  }

  /** The index of a name, whatever its case and the space around it. */
  function Lookup(byName: map<string, uint16>, name: string): Option<uint16> {
    var key := Lower(Trim(name));
    if key in byName then Some(byName[key]) else None
  }

  /** The name at an index; empty beyond the last. */
  function NameAt(names: seq<string>, i: nat): string {
    if i < |names| then names[i] else ""
  }

  /** The table of one board: names in index order, and indices by lower-case name. */
  class VarTable {
    var names: seq<string>
    var byName: map<string, uint16>
    ghost var labels: seq<Label>

    ghost predicate Valid()
      reads this
    {
      names == Texts(labels)
    }

    constructor ()
      ensures Valid() && labels == [] && byName == map[]
    {
      names, byName, labels := [], map[], [];
    }

    method Add(name: string, ghost l: Label)
      requires Valid() && name == Text(l)
      modifies `names, `labels
      ensures Valid() && labels == old(labels) + [l]
    {
      names := names + [name];
      labels := labels + [l];
    }

    method AddNumbered(w: string, n: nat, ends: seq<string>)
      requires Valid()
      modifies `names, `labels
      ensures Valid() && labels == old(labels) + Numbered(w, n, ends)
    {
      var i := 0;
      while i < n
        invariant 0 <= i <= n && Valid()
        invariant labels == old(labels) + Numbered(w, i, ends)
      {
        AddEach(w, i + 1, ends);
        assert Numbered(w, i + 1, ends) == Numbered(w, i, ends) + Each(w, i + 1, ends);
        i := i + 1;
      }
    }

    method AddEach(w: string, n: nat, ends: seq<string>)
      requires Valid()
      modifies `names, `labels
      ensures Valid() && labels == old(labels) + Each(w, n, ends)
    {
      var j := 0;
      while j < |ends|
        invariant 0 <= j <= |ends| && Valid()
        invariant labels == old(labels) + Each(w, n, ends)[..j]
      {
        Add(w + Decimal(n) + ends[j], One(w, n, ends[j]));
        j := j + 1;
      }
    }

    method AddTwos(k: nat, v: string, n: nat)
      requires Valid()
      modifies `names, `labels
      ensures Valid() && labels == old(labels) + Twos(k, v, n)
    {
      var i := 0;
      while i < n
        invariant 0 <= i <= n && Valid()
        invariant labels == old(labels) + Twos(k, v, n)[..i]
      {
        Add("Keypad" + Decimal(k) + v + Decimal(i + 1), Two("Keypad", k, v, i + 1));
        i := i + 1;
      }
    }

    method AddKeypad(b: Board, k: nat)
      requires Valid()
      modifies `names, `labels
      ensures Valid() && labels == old(labels) + Keypad(b, k)
    {
      AddTwos(k, "Button", b.keypadButtons);
      AddTwos(k, "Dial", b.keypadDials);
      AddTwos(k, "Analog", b.keypadAnalogs);
    }

    method AddKeypads(b: Board)
      requires Valid()
      modifies `names, `labels
      ensures Valid() && labels == old(labels) + Keypads(b, b.keypads)
    {
      var k := 0;
      while k < b.keypads
        invariant 0 <= k <= b.keypads && Valid()
        invariant labels == old(labels) + Keypads(b, k)
      {
        AddKeypad(b, k + 1);
        assert Keypads(b, k + 1) == Keypads(b, k) + Keypad(b, k + 1);
        k := k + 1;
      }
    }

    method AddSystem(b: Board)
      requires Valid()
      modifies `names, `labels
      ensures Valid() && labels == old(labels) + GoSystem(b.sysVars)
    {
      Add("AlwaysFalse", SYSTEM[0]);
      Add("AlwaysTrue", SYSTEM[1]);
      Add("State", SYSTEM[2]);
      if b.sysVars >= 4 { Add("BoardTemp", SYSTEM[3]); }
      if b.sysVars >= 5 { Add("BattVolt", SYSTEM[4]); }
    }

    method AddSwitches(b: Board)
      requires Valid()
      modifies `names, `labels
      ensures Valid() && labels == old(labels) + Switches(b)
    {
      AddNumbered("DigIn", b.digInputs, PLAIN);
      AddNumbered("DigOut", b.digOutputs, PLAIN);
      AddNumbered("Analog", b.analogInputs, ANALOG);
    }

    method AddSignals(b: Board)
      requires Valid()
      modifies `names, `labels
      ensures Valid() && labels == old(labels) + Signals(b)
    {
      AddNumbered("CanIn", b.canInputs, CAN_IN);
      AddNumbered("VirtIn", b.virtInputs, PLAIN);
      AddNumbered("Out", b.outputs, OUT);
    }

    method AddLogic(b: Board)
      requires Valid()
      modifies `names, `labels
      ensures Valid() && labels == old(labels) + Logic(b)
    {
      AddNumbered("Flasher", b.flashers, PLAIN);
      AddNumbered("Cond", b.conditions, PLAIN);
      AddNumbered("Counter", b.counters, PLAIN);
    }

    method AddWiper(hasWipers: bool)
      requires Valid()
      modifies `names, `labels
      ensures Valid() && labels == old(labels) + (if hasWipers then WIPER else [])
    {
      if hasWipers {
        ghost var was := labels;
        Add("WiperSlowOut", WIPER[0]);
        Add("WiperFastOut", WIPER[1]);
        Add("WiperParkOut", WIPER[2]);
        assert labels == was + WIPER[..3];
        Add("WiperInterOut", WIPER[3]);
        Add("WiperWashOut", WIPER[4]);
        Add("WiperSwipeOut", WIPER[5]);
        assert WIPER == WIPER[..3] + [WIPER[3]] + [WIPER[4]] + [WIPER[5]];
      }
    }

    /** Fills the empty table. Indices are sixteen bits wide; of two names that differ only
        in case the later would win. */
    method BuildVarMap(b: Board, hasWipers: bool)
      requires Valid() && labels == []
      modifies this
      ensures Valid() && labels == GoLabels(b, hasWipers)
      ensures byName == IndexMap(names, |names|)
    {
      AddSystem(b);
      assert labels == GoSystem(b.sysVars);
      AddSwitches(b);
      AddSignals(b);
      AddLogic(b);
      Join(GoSystem(b.sysVars), Switches(b), Signals(b), Logic(b));
      AddWiper(hasWipers);
      AddKeypads(b);
      IndexNames();
    }

    method VarName(i: uint16) returns (name: string)
      ensures name == NameAt(names, i)
    {
      if i < |names| {
        return names[i];
      }
      return "";
    }

    method VarIndex(name: string) returns (i: uint16, ok: bool)
      ensures Lookup(byName, name) == if ok then Some(i) else None
      ensures !ok ==> i == 0
    {
      var key := Lower(Trim(name));
      if key in byName {
        return byName[key], true;
      }
      return 0, false;
    }

    method IndexNames()
      modifies `byName
      ensures byName == IndexMap(names, |names|)
    {
      byName := map[];
      var i := 0;
      while i < |names|
        invariant 0 <= i <= |names|
        invariant byName == IndexMap(names, i)
      {
        byName := byName[Lower(names[i]) := i % 0x1_0000];
        i := i + 1;
      }
    }
  }

  /** The last index, modulo 2^16, of each of the first n names. */
  function IndexMap(names: seq<string>, n: nat): map<string, uint16>
    requires n <= |names|
  {
    if n == 0 then map[] else IndexMap(names, n - 1)[Lower(names[n - 1]) := (n - 1) % 0x1_0000]
  }

  // ----- the simulator's layout

  datatype Bases = Bases(sys: nat, digIn: nat, digOut: nat, analogIn: nat, canIn: nat, virtIn: nat, output: nat,
                         flasher: nat, condition: nat, counter: nat, wiper: nat, keypad: nat)

  function Min(a: nat, b: nat): nat { if a < b then a else b }

  function PyLabels(b: Board): seq<Label> {
    SYSTEM[..Min(b.sysVars, 5)] + Middle(b) + WIPER[..Min(b.wiperVars, 6)] + Keypads(b, b.keypads)
  }

  /** Where the board's formulas put the blocks. */
  function BasesOf(b: Board): Bases {
    Bases(0, b.DigInBase(), b.DigOutBase(), b.AnalogBase(), b.CanInBase(), b.VirtBase(), b.OutputBase(),
      b.FlasherBase(), b.ConditionBase(), b.CounterBase(), b.WiperBase(), b.KeypadBase())
  }

  lemma {:induction false} TotalTimes(n: nat)
    ensures Total(n, 1) == n && Total(n, 2) == 2 * n && Total(n, 4) == 4 * n
  {
    if n > 0 { TotalTimes(n - 1); }
  }

  /** Joins the blocks one after another and notes where each begins. */
  method PostInit(b: Board) returns (names: seq<Label>, base: Bases)
    ensures names == PyLabels(b)
    ensures b.Valid() ==> base == BasesOf(b) && |names| == b.Size()
  {
    BlockLengths(b);
    names := SYSTEM[..Min(b.sysVars, 5)];
    base := Bases(0, |names|, 0, 0, 0, 0, 0, 0, 0, 0, 0, 0);
    ghost var system := names;
    names := names + Numbered("DigIn", b.digInputs, PLAIN);
    base := base.(digOut := |names|);
    names := names + Numbered("DigOut", b.digOutputs, PLAIN);
    base := base.(analogIn := |names|);
    names := names + Numbered("Analog", b.analogInputs, ANALOG);
    Join(system, Numbered("DigIn", b.digInputs, PLAIN), Numbered("DigOut", b.digOutputs, PLAIN),
      Numbered("Analog", b.analogInputs, ANALOG));
    assert names == system + Switches(b);
    base := base.(canIn := |names|);
    names := names + Numbered("CanIn", b.canInputs, CAN_IN);
    base := base.(virtIn := |names|);
    names := names + Numbered("VirtIn", b.virtInputs, PLAIN);
    base := base.(output := |names|);
    names := names + Numbered("Out", b.outputs, OUT);
    Join(system + Switches(b), Numbered("CanIn", b.canInputs, CAN_IN), Numbered("VirtIn", b.virtInputs, PLAIN),
      Numbered("Out", b.outputs, OUT));
    assert names == system + Switches(b) + Signals(b);
    base := base.(flasher := |names|);
    names := names + Numbered("Flasher", b.flashers, PLAIN);
    base := base.(condition := |names|);
    names := names + Numbered("Cond", b.conditions, PLAIN);
    base := base.(counter := |names|);
    names := names + Numbered("Counter", b.counters, PLAIN);
    Join(system + Switches(b) + Signals(b), Numbered("Flasher", b.flashers, PLAIN),
      Numbered("Cond", b.conditions, PLAIN), Numbered("Counter", b.counters, PLAIN));
    Join(system, Switches(b), Signals(b), Logic(b));
    assert names == system + Middle(b);
    base := base.(wiper := |names|);
    names := names + WIPER[..Min(b.wiperVars, 6)];
    base := base.(keypad := |names|);
    names := names + Keypads(b, b.keypads);
  }

  lemma BlockLengths(b: Board)
    ensures Total(b.digInputs, 1) == b.digInputs && Total(b.digOutputs, 1) == b.digOutputs
    ensures Total(b.analogInputs, 4) == 4 * b.analogInputs && Total(b.canInputs, 2) == 2 * b.canInputs
    ensures Total(b.virtInputs, 1) == b.virtInputs && Total(b.outputs, 4) == 4 * b.outputs
    ensures Total(b.flashers, 1) == b.flashers && Total(b.conditions, 1) == b.conditions
        && Total(b.counters, 1) == b.counters
  {
    TotalTimes(b.digInputs);
    TotalTimes(b.digOutputs);
    TotalTimes(b.analogInputs);
    TotalTimes(b.canInputs);
    TotalTimes(b.virtInputs);
    TotalTimes(b.outputs);
    TotalTimes(b.flashers);
    TotalTimes(b.conditions);
    TotalTimes(b.counters);
  }

  /** The layouts are the same exactly when the board has the three system variables every
      board has; a board has all six wiper variables or none. */
  lemma SameLayouts(b: Board)
    requires b.wiperVars == 0 || b.wiperVars == 6
    ensures GoLabels(b, b.wiperVars == 6) == PyLabels(b) <==> b.sysVars >= 3
  {
    assert SYSTEM == SYSTEM[..3] + [SYSTEM[3]] + [SYSTEM[4]];
    if b.sysVars >= 3 {
      assert GoSystem(b.sysVars) == SYSTEM[..Min(b.sysVars, 5)];
      assert WIPER[..6] == WIPER && WIPER[..0] == [];
    } else {
      assert |GoLabels(b, b.wiperVars == 6)| == |PyLabels(b)| + 3 - b.sysVars;
    }
  }
}
