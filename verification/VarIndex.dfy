/**
 Every variable of a board has its own name, whatever the case, and a closed-form index:
 looking up a name and naming an index undo each other.
 */
module VarIndex {
  import opened Options
  import opened LittleEndian
  import opened Boards
  import opened Labels
  import opened VarMap

  // ----- the index a name stands for

  function First(s: string): char { if s == "" then ' ' else LowerChar(s[0]) }

  function SystemIndex(w: string): nat {
    if |w| == 11 then 0 else if |w| == 10 then 1 else if |w| == 5 then 2 else if |w| == 9 then 3 else 4
  }

  function WiperIndex(w: string): nat
    requires |w| >= 12
  {
    var c := LowerChar(w[5]);
    if c == 'f' then 1 else if c == 'p' then 2 else if c == 'i' then 3 else if c == 'w' then 4
    else if |w| == 12 then 0 else 5
  }

  function AnalogPart(end: string): nat {
    if |end| == 3 then 0 else if |end| == 2 then 1 else if First(end) == 'r' then 2 else 3
  }

  function OutPart(end: string): nat {
    if |end| == 6 then 0 else if |end| == 7 then 1 else if |end| == 11 then 2 else 3
  }

  function OneIndex(b: Board, w: string, n: nat, end: string): int {
    var c, i := First(w), n - 1;
    if |w| == 5 && c == 'd' then b.DigInBase() + i
    else if |w| == 6 && c == 'd' then b.DigOutBase() + i
    else if |w| == 6 && c == 'a' then b.AnalogBase() + 4 * i + AnalogPart(end)
    else if |w| == 5 then b.CanInBase() + 2 * i + (if First(end) == 'v' then 1 else 0)
    else if |w| == 6 then b.VirtBase() + i
    else if |w| == 3 then b.OutputBase() + 4 * i + OutPart(end)
    else if |w| == 7 && c == 'f' then b.FlasherBase() + i
    else if |w| == 4 then b.ConditionBase() + i
    else b.CounterBase() + i
  }

  function TwoIndex(b: Board, k: nat, v: string, m: nat): int {
    var group := if k == 0 then 0 else Total(k - 1, b.KeypadVars());
    b.KeypadBase() + group
    + (if First(v) == 'b' then 0 else if First(v) == 'd' then b.keypadButtons else b.keypadButtons + b.keypadDials)
    + m - 1
  }

  /** The index of a name; case does not enter into it. */
  function IndexOf(b: Board, l: Label): int {
    match l
    case Word(w) => if |w| < 12 then SystemIndex(w) else b.WiperBase() + WiperIndex(w)
    case One(w, n, end) => OneIndex(b, w, n, end)
    case Two(_, k, v, m) => TwoIndex(b, k, v, m)
  }

  lemma CaseDoesNotMatter(b: Board, l: Label)
    ensures IndexOf(b, LowerLabel(l)) == IndexOf(b, l)
  {
  }

  // ----- block by block

  lemma {:induction false} Locate(w: string, n: nat, ends: seq<string>, i: nat) returns (k: nat, j: nat)
    requires i < Total(n, |ends|)
    ensures k < n && j < |ends| && i == Total(k, |ends|) + j && Numbered(w, n, ends)[i] == One(w, k + 1, ends[j])
  {
    if i >= Total(n - 1, |ends|) {
      k, j := n - 1, i - Total(n - 1, |ends|);
      assert Numbered(w, n, ends)[i] == Each(w, n, ends)[j];
    } else {
      k, j := Locate(w, n - 1, ends, i);
      assert Numbered(w, n, ends)[i] == Numbered(w, n - 1, ends)[i];
    }
  }

  /** A stretch of names whose indices run on from base. */
  ghost predicate RunsFrom(b: Board, ls: seq<Label>, base: nat) {
    forall i | 0 <= i < |ls| :: IndexOf(b, ls[i]) == base + i && Plain(ls[i])
  }

  lemma DigInRuns(b: Board)
    ensures var ls := Numbered("DigIn", b.digInputs, PLAIN); |ls| == b.digInputs && RunsFrom(b, ls, b.DigInBase())
  {
    TotalTimes(b.digInputs);
    forall i: nat | i < b.digInputs
      ensures var l := Numbered("DigIn", b.digInputs, PLAIN)[i]; IndexOf(b, l) == b.DigInBase() + i && Plain(l)
    {
      var k, j := Locate("DigIn", b.digInputs, PLAIN, i);
      TotalTimes(k);
    }
  }

  lemma DigOutRuns(b: Board)
    ensures var ls := Numbered("DigOut", b.digOutputs, PLAIN); |ls| == b.digOutputs && RunsFrom(b, ls, b.DigOutBase())
  {
    TotalTimes(b.digOutputs);
    forall i: nat | i < b.digOutputs
      ensures var l := Numbered("DigOut", b.digOutputs, PLAIN)[i]; IndexOf(b, l) == b.DigOutBase() + i && Plain(l)
    {
      var k, j := Locate("DigOut", b.digOutputs, PLAIN, i);
      TotalTimes(k);
    }
  }

  lemma AnalogRuns(b: Board)
    ensures var ls := Numbered("Analog", b.analogInputs, ANALOG);
      |ls| == 4 * b.analogInputs && RunsFrom(b, ls, b.AnalogBase())
  {
    TotalTimes(b.analogInputs);
    forall i: nat | i < 4 * b.analogInputs
      ensures var l := Numbered("Analog", b.analogInputs, ANALOG)[i]; IndexOf(b, l) == b.AnalogBase() + i && Plain(l)
    {
      var k, j := Locate("Analog", b.analogInputs, ANALOG, i);
      TotalTimes(k);
    }
  }

  lemma CanInRuns(b: Board)
    ensures var ls := Numbered("CanIn", b.canInputs, CAN_IN); |ls| == 2 * b.canInputs && RunsFrom(b, ls, b.CanInBase())
  {
    TotalTimes(b.canInputs);
    forall i: nat | i < 2 * b.canInputs
      ensures var l := Numbered("CanIn", b.canInputs, CAN_IN)[i]; IndexOf(b, l) == b.CanInBase() + i && Plain(l)
    {
      var k, j := Locate("CanIn", b.canInputs, CAN_IN, i);
      TotalTimes(k);
    }
  }

  lemma VirtInRuns(b: Board)
    ensures var ls := Numbered("VirtIn", b.virtInputs, PLAIN); |ls| == b.virtInputs && RunsFrom(b, ls, b.VirtBase())
  {
    TotalTimes(b.virtInputs);
    forall i: nat | i < b.virtInputs
      ensures var l := Numbered("VirtIn", b.virtInputs, PLAIN)[i]; IndexOf(b, l) == b.VirtBase() + i && Plain(l)
    {
      var k, j := Locate("VirtIn", b.virtInputs, PLAIN, i);
      TotalTimes(k);
    }
  }

  lemma OutRuns(b: Board)
    ensures var ls := Numbered("Out", b.outputs, OUT); |ls| == 4 * b.outputs && RunsFrom(b, ls, b.OutputBase())
  {
    TotalTimes(b.outputs);
    forall i: nat | i < 4 * b.outputs
      ensures var l := Numbered("Out", b.outputs, OUT)[i]; IndexOf(b, l) == b.OutputBase() + i && Plain(l)
    {
      var k, j := Locate("Out", b.outputs, OUT, i);
      TotalTimes(k);
    }
  }

  lemma FlasherRuns(b: Board)
    ensures var ls := Numbered("Flasher", b.flashers, PLAIN); |ls| == b.flashers && RunsFrom(b, ls, b.FlasherBase())
  {
    TotalTimes(b.flashers);
    forall i: nat | i < b.flashers
      ensures var l := Numbered("Flasher", b.flashers, PLAIN)[i]; IndexOf(b, l) == b.FlasherBase() + i && Plain(l)
    {
      var k, j := Locate("Flasher", b.flashers, PLAIN, i);
      TotalTimes(k);
    }
  }

  lemma CondRuns(b: Board)
    ensures var ls := Numbered("Cond", b.conditions, PLAIN); |ls| == b.conditions && RunsFrom(b, ls, b.ConditionBase())
  {
    TotalTimes(b.conditions);
    forall i: nat | i < b.conditions
      ensures var l := Numbered("Cond", b.conditions, PLAIN)[i]; IndexOf(b, l) == b.ConditionBase() + i && Plain(l)
    {
      var k, j := Locate("Cond", b.conditions, PLAIN, i);
      TotalTimes(k);
    }
  }

  lemma CounterRuns(b: Board)
    ensures var ls := Numbered("Counter", b.counters, PLAIN); |ls| == b.counters && RunsFrom(b, ls, b.CounterBase())
  {
    TotalTimes(b.counters);
    forall i: nat | i < b.counters
      ensures var l := Numbered("Counter", b.counters, PLAIN)[i]; IndexOf(b, l) == b.CounterBase() + i && Plain(l)
    {
      var k, j := Locate("Counter", b.counters, PLAIN, i);
      TotalTimes(k);
    }
  }

  lemma SystemRuns(b: Board, n: nat)
    requires n <= 5
    ensures RunsFrom(b, SYSTEM[..n], 0)
  {
  }

  lemma WiperRuns(b: Board, n: nat)
    requires n <= 6
    ensures RunsFrom(b, WIPER[..n], b.WiperBase())
  {
    forall i | 0 <= i < n
      ensures IndexOf(b, WIPER[i]) == b.WiperBase() + i && Plain(WIPER[i])
    {
      WiperAt(b, i);
    }
  }

  lemma WiperAt(b: Board, i: nat)
    requires i < 6
    ensures IndexOf(b, WIPER[i]) == b.WiperBase() + i && Plain(WIPER[i])
  {
    WiperPlain(i);
    if i < 3 {
      assert WIPER[0].w[5] == 'S' && WIPER[1].w[5] == 'F' && WIPER[2].w[5] == 'P';
    } else {
      assert WIPER[3].w[5] == 'I' && WIPER[4].w[5] == 'W' && WIPER[5].w[5] == 'S';
    }
  }

  lemma WiperPlain(i: nat)
    requires i < 6
    ensures Plain(WIPER[i])
  {
    FirstWipersPlain();
    LastWipersPlain();
    assert WIPER[i] == WIPER[0] || WIPER[i] == WIPER[1] || WIPER[i] == WIPER[2]
        || WIPER[i] == WIPER[3] || WIPER[i] == WIPER[4] || WIPER[i] == WIPER[5];
  }

  lemma FirstWipersPlain()
    ensures Plain(WIPER[0]) && Plain(WIPER[1]) && Plain(WIPER[2])
  {
  }

  lemma LastWipersPlain()
    ensures Plain(WIPER[3]) && Plain(WIPER[4]) && Plain(WIPER[5])
  {
  }

  lemma {:induction false} KeypadsAt(b: Board, n: nat, i: nat)
    requires i < Total(n, b.KeypadVars())
    ensures var l := Keypads(b, n)[i]; IndexOf(b, l) == b.KeypadBase() + i && Plain(l)
  {
    var below := Total(n - 1, b.KeypadVars());
    if i < below {
      KeypadsAt(b, n - 1, i);
      assert Keypads(b, n)[i] == Keypads(b, n - 1)[i];
    } else {
      var j := i - below;
      var l := Keypads(b, n)[i];
      assert l == Keypad(b, n)[j];
      if j < b.keypadButtons {
        assert l == Twos(n, "Button", b.keypadButtons)[j];
      } else if j < b.keypadButtons + b.keypadDials {
        assert l == Twos(n, "Dial", b.keypadDials)[j - b.keypadButtons];
      } else {
        assert l == Twos(n, "Analog", b.keypadAnalogs)[j - b.keypadButtons - b.keypadDials];
      }
    }
  }

  // ----- the whole board

  lemma RunsOn(b: Board, a: seq<Label>, c: seq<Label>, base: nat)
    requires RunsFrom(b, a, base) && RunsFrom(b, c, base + |a|)
    ensures RunsFrom(b, a + c, base)
  {
  }

  lemma SwitchesRun(b: Board)
    ensures RunsFrom(b, Switches(b), b.DigInBase()) && b.DigInBase() + |Switches(b)| == b.CanInBase()
  {
    DigInRuns(b);
    DigOutRuns(b);
    AnalogRuns(b);
    var d, o := Numbered("DigIn", b.digInputs, PLAIN), Numbered("DigOut", b.digOutputs, PLAIN);
    RunsOn(b, d, o, b.DigInBase());
    RunsOn(b, d + o, Numbered("Analog", b.analogInputs, ANALOG), b.DigInBase());
  }

  lemma SignalsRun(b: Board)
    ensures RunsFrom(b, Signals(b), b.CanInBase()) && b.CanInBase() + |Signals(b)| == b.FlasherBase()
  {
    CanInRuns(b);
    VirtInRuns(b);
    OutRuns(b);
    var c, v := Numbered("CanIn", b.canInputs, CAN_IN), Numbered("VirtIn", b.virtInputs, PLAIN);
    RunsOn(b, c, v, b.CanInBase());
    RunsOn(b, c + v, Numbered("Out", b.outputs, OUT), b.CanInBase());
  }

  lemma LogicRun(b: Board)
    ensures RunsFrom(b, Logic(b), b.FlasherBase()) && b.FlasherBase() + |Logic(b)| == b.WiperBase()
  {
    FlasherRuns(b);
    CondRuns(b);
    CounterRuns(b);
    var f, c := Numbered("Flasher", b.flashers, PLAIN), Numbered("Cond", b.conditions, PLAIN);
    RunsOn(b, f, c, b.FlasherBase());
    RunsOn(b, f + c, Numbered("Counter", b.counters, PLAIN), b.FlasherBase());
  }

  /** The name at index y has index y. */
  lemma LabelsRun(b: Board)
    requires b.Valid()
    ensures |PyLabels(b)| == b.Size() && RunsFrom(b, PyLabels(b), 0)
  {
    SystemRuns(b, b.sysVars);
    SwitchesRun(b);
    SignalsRun(b);
    LogicRun(b);
    WiperRuns(b, b.wiperVars);
    forall i: nat | i < Total(b.keypads, b.KeypadVars())
      ensures var l := Keypads(b, b.keypads)[i]; IndexOf(b, l) == b.KeypadBase() + i && Plain(l)
    {
      KeypadsAt(b, b.keypads, i);
    }
    var system, wiper := SYSTEM[..b.sysVars], WIPER[..b.wiperVars];
    RunsOn(b, Switches(b), Signals(b), b.DigInBase());
    RunsOn(b, Switches(b) + Signals(b), Logic(b), b.DigInBase());
    RunsOn(b, system, Middle(b), 0);
    RunsOn(b, system + Middle(b), wiper, 0);
    RunsOn(b, system + Middle(b) + wiper, Keypads(b, b.keypads), 0);
  }

  /** Names at different indices differ, even without regard to case. */
  lemma NamesDiffer(b: Board, i: nat, j: nat)
    requires b.Valid() && i < b.Size() && j < b.Size()
    ensures |PyLabels(b)| == b.Size()
    ensures Lower(Text(PyLabels(b)[i])) == Lower(Text(PyLabels(b)[j])) ==> i == j
  {
    LabelsRun(b);
    var k, l := PyLabels(b)[i], PyLabels(b)[j];
    if Lower(Text(k)) == Lower(Text(l)) {
      LowerText(k);
      LowerText(l);
      LowerPlain(k);
      LowerPlain(l);
      TextInjective(LowerLabel(k), LowerLabel(l));
      CaseDoesNotMatter(b, k);
      CaseDoesNotMatter(b, l);
    }
  }

  lemma LowerPlain(l: Label)
    requires Plain(l)
    ensures Plain(LowerLabel(l))
  {
    match l
    case Word(w) => LowerLetters(w);
    case One(w, _, end) => LowerLetters(w); LowerLetters(end);
    case Two(w, _, v, _) => LowerLetters(w); LowerLetters(v);
  }

  // ----- looking up

  predicate Differ(names: seq<string>, i: nat, j: nat)
    requires i < |names| && j < |names|
  {
    Lower(names[i]) == Lower(names[j]) ==> i == j
  }

  lemma {:induction false} IndexMapAt(names: seq<string>, n: nat, i: nat)
    requires i < n <= |names|
    requires forall j | i < j < n :: Differ(names, j, i)
    ensures Lower(names[i]) in IndexMap(names, n) && IndexMap(names, n)[Lower(names[i])] == i % 0x1_0000
    ensures i < 0x1_0000 ==> FoundAt(names, IndexMap(names, n), i)
  {
    if i < n - 1 {
      IndexMapAt(names, n - 1, i);
      assert Differ(names, n - 1, i);
    }
  }

  lemma {:induction false} IndexMapOnly(names: seq<string>, n: nat, s: string)
    requires n <= |names| && s in IndexMap(names, n)
    ensures exists i :: 0 <= i < n && Lower(names[i]) == s
  {
    if s in IndexMap(names, n - 1) {
      IndexMapOnly(names, n - 1, s);
      var i :| 0 <= i < n - 1 && Lower(names[i]) == s;
      assert Lower(names[i]) == s;
    } else {
      assert Lower(names[n - 1]) == s;
    }
  }

  /** Name i is found, and found at i. */
  predicate FoundAt(names: seq<string>, byName: map<string, uint16>, i: nat)
    requires i < |names|
  {
    Lower(names[i]) in byName && byName[Lower(names[i])] == i
  }

  /** What is found under s is called s. */
  predicate NamesBack(names: seq<string>, byName: map<string, uint16>, s: string) {
    s in byName ==> byName[s] < |names| && Lower(names[byName[s]]) == s
  }

  /** Do lookups in the table and names by index undo each other? */
  ghost predicate Inverse(names: seq<string>, byName: map<string, uint16>) {
    && (forall i | 0 <= i < |names| :: FoundAt(names, byName, i))
    && (forall s :: NamesBack(names, byName, s))
  }

  ghost predicate AllDiffer(names: seq<string>) {
    forall i, j | 0 <= i < |names| && 0 <= j < |names| :: Differ(names, i, j)
  }

  lemma EachFound(names: seq<string>, i: nat)
    requires AllDiffer(names) && i < |names| <= 0x1_0000
    ensures FoundAt(names, IndexMap(names, |names|), i)
  {
    IndexMapAt(names, |names|, i);
  }

  lemma DifferentNamesInvert(names: seq<string>)
    requires AllDiffer(names) && |names| <= 0x1_0000
    ensures Inverse(names, IndexMap(names, |names|))
  {
    var byName := IndexMap(names, |names|);
    forall i | 0 <= i < |names|
      ensures FoundAt(names, byName, i)
    {
      EachFound(names, i);
    }
    forall s
      ensures NamesBack(names, byName, s)
    {
      if s in byName {
        IndexMapOnly(names, |names|, s);
        var i :| 0 <= i < |names| && Lower(names[i]) == s;
        EachFound(names, i);
      }
    }
  }

  lemma BoardNamesDiffer(b: Board, names: seq<string>)
    requires b.Valid() && names == Texts(PyLabels(b))
    ensures |names| == b.Size() && AllDiffer(names)
  {
    LabelsRun(b);
    forall i, j | 0 <= i < |names| && 0 <= j < |names|
      ensures Differ(names, i, j)
    {
      NamesDiffer(b, i, j);
    }
  }

  /** No name is empty or has space around it. */
  lemma NamesBare(b: Board, names: seq<string>, i: nat)
    requires b.Valid() && i < b.Size() && names == Texts(PyLabels(b))
    ensures |names| == b.Size() && Bare(names[i])
  {
    LabelsRun(b);
    TextBare(PyLabels(b)[i]);
  }

  lemma EmptyMissing(names: seq<string>)
    requires forall i | 0 <= i < |names| :: names[i] != ""
    ensures Lookup(IndexMap(names, |names|), "") == None
  {
    if Lower("") in IndexMap(names, |names|) {
      IndexMapOnly(names, |names|, Lower(""));
      assert false;
    }
  }

  /** Whatever the case of a name and the space around it, it is found as the one variable
      that has it. */
  ghost predicate LooksUp(names: seq<string>, byName: map<string, uint16>, name: string, i: nat) {
    Lookup(byName, name) == Some(i) <==> i < |names| && Lower(Trim(name)) == Lower(names[i])
  }

  lemma InverseLooksUp(names: seq<string>, byName: map<string, uint16>, name: string, i: nat)
    requires AllDiffer(names) && Inverse(names, byName)
    ensures LooksUp(names, byName, name, i)
  {
    assert NamesBack(names, byName, Lower(Trim(name)));
    if i < |names| { assert FoundAt(names, byName, i); }
  }

  /** The table of a valid board whose indices fit sixteen bits: a text is found, in any case
      and with any space around it, exactly if it is some variable's name, and then as that
      variable; looking up the name of an index gives the index. */
  lemma LookupsAreInverse(b: Board, names: seq<string>, byName: map<string, uint16>, name: string, i: nat)
    requires b.Valid() && b.Size() <= 0x1_0000 && names == Texts(PyLabels(b)) && byName == IndexMap(names, |names|)
    ensures |names| == b.Size()
    ensures Lookup(byName, name) == Some(i) <==> i < |names| && Lower(Trim(name)) == Lower(names[i])
    ensures Lookup(byName, NameAt(names, i)) == if i < |names| then Some(i) else None
  {
    BoardNamesDiffer(b, names);
    DifferentNamesInvert(names);
    InverseLooksUp(names, byName, name, i);
    if i < |names| {
      NamesBare(b, names, i);
      NameTrimmed(names[i]);
      InverseLooksUp(names, byName, names[i], i);
    } else {
      forall j: nat | j < |names|
        ensures names[j] != ""
      {
        NamesBare(b, names, j);
      }
      EmptyMissing(names);
    }
  }

  lemma NameTrimmed(name: string)
    requires Bare(name)
    ensures Trim(name) == name
  {
    assert "" + name + "" == name;
    TrimPadded("", name, "");
  }
}
