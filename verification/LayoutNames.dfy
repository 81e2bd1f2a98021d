/**
 The simulator's layout against the names of the variable map: the variables a slot writes
 are the ones named after it, and the variables pinned at zero are known by their names.
 */
module LayoutNames {
  import opened Boards
  import opened Labels
  import opened VarMap
  import opened VarIndex
  import opened Configs

  // ----- the parts of the layout

  /** The names ls stand in all from position base on. */
  predicate Stand(all: seq<Label>, ls: seq<Label>, base: nat) {
    base + |ls| <= |all| && all[base..base + |ls|] == ls
  }

  lemma TwoStand(all: seq<Label>, a: seq<Label>, b: seq<Label>, base: nat, next: nat)
    requires Stand(all, a + b, base) && next == base + |a|
    ensures Stand(all, a, base) && Stand(all, b, next)
  {
    var ab := all[base..base + |a + b|];
    assert ab[..|a|] == a && ab[|a|..] == b;
    assert all[base..next] == ab[..|a|] && all[next..next + |b|] == ab[|a|..];
  }

  lemma ThreeStand(all: seq<Label>, a: seq<Label>, b: seq<Label>, c: seq<Label>, base: nat, second: nat, third: nat)
    requires Stand(all, a + b + c, base) && second == base + |a| && third == second + |b|
    ensures Stand(all, a, base) && Stand(all, b, second) && Stand(all, c, third)
  {
    TwoStand(all, a + b, c, base, third);
    TwoStand(all, a, b, base, second);
  }

  /** Every block of the layout stands where the board's formulas put it. */
  predicate BlocksStand(b: Board, all: seq<Label>)
    requires b.Valid()
  {
    && Stand(all, SYSTEM[..b.sysVars], 0) && Stand(all, Middle(b), b.DigInBase())
    && Stand(all, WIPER[..b.wiperVars], b.WiperBase()) && Stand(all, Keypads(b, b.keypads), b.KeypadBase())
  }

  lemma MiddleLength(b: Board)
    ensures |Middle(b)| == b.WiperBase() - b.DigInBase()
    ensures |Switches(b)| == b.CanInBase() - b.DigInBase() && |Signals(b)| == b.FlasherBase() - b.CanInBase()
  {
    SwitchesRun(b);
    SignalsRun(b);
    LogicRun(b);
  }

  lemma LayoutBlocks(b: Board, all: seq<Label>)
    requires b.Valid() && all == PyLabels(b)
    ensures |all| == b.Size() && BlocksStand(b, all)
  {
    LabelsRun(b);
    MiddleLength(b);
    var system, wiper := SYSTEM[..b.sysVars], WIPER[..b.wiperVars];
    assert all == system + Middle(b) + wiper + Keypads(b, b.keypads);
    TwoStand(all, system + Middle(b) + wiper, Keypads(b, b.keypads), 0, b.KeypadBase());
    ThreeStand(all, system, Middle(b), wiper, 0, b.DigInBase(), b.WiperBase());
  }

  lemma MiddleBlocks(b: Board, all: seq<Label>)
    requires Stand(all, Middle(b), b.DigInBase())
    ensures Stand(all, Switches(b), b.DigInBase()) && Stand(all, Signals(b), b.CanInBase())
    ensures Stand(all, Logic(b), b.FlasherBase())
  {
    MiddleLength(b);
    ThreeStand(all, Switches(b), Signals(b), Logic(b), b.DigInBase(), b.CanInBase(), b.FlasherBase());
  }

  lemma SwitchesStand(b: Board, all: seq<Label>)
    requires Stand(all, Switches(b), b.DigInBase())
    ensures Stand(all, Numbered("DigIn", b.digInputs, PLAIN), b.DigInBase())
    ensures Stand(all, Numbered("DigOut", b.digOutputs, PLAIN), b.DigOutBase())
    ensures Stand(all, Numbered("Analog", b.analogInputs, ANALOG), b.AnalogBase())
  {
    TotalTimes(b.digInputs);
    TotalTimes(b.digOutputs);
    ThreeStand(all, Numbered("DigIn", b.digInputs, PLAIN), Numbered("DigOut", b.digOutputs, PLAIN),
      Numbered("Analog", b.analogInputs, ANALOG), b.DigInBase(), b.DigOutBase(), b.AnalogBase());
  }

  lemma SignalsStand(b: Board, all: seq<Label>)
    requires Stand(all, Signals(b), b.CanInBase())
    ensures Stand(all, Numbered("CanIn", b.canInputs, CAN_IN), b.CanInBase())
    ensures Stand(all, Numbered("VirtIn", b.virtInputs, PLAIN), b.VirtBase())
    ensures Stand(all, Numbered("Out", b.outputs, OUT), b.OutputBase())
  {
    TotalTimes(b.canInputs);
    TotalTimes(b.virtInputs);
    ThreeStand(all, Numbered("CanIn", b.canInputs, CAN_IN), Numbered("VirtIn", b.virtInputs, PLAIN),
      Numbered("Out", b.outputs, OUT), b.CanInBase(), b.VirtBase(), b.OutputBase());
  }

  lemma LogicStands(b: Board, all: seq<Label>)
    requires Stand(all, Logic(b), b.FlasherBase())
    ensures Stand(all, Numbered("Flasher", b.flashers, PLAIN), b.FlasherBase())
    ensures Stand(all, Numbered("Cond", b.conditions, PLAIN), b.ConditionBase())
    ensures Stand(all, Numbered("Counter", b.counters, PLAIN), b.CounterBase())
  {
    TotalTimes(b.flashers);
    TotalTimes(b.conditions);
    ThreeStand(all, Numbered("Flasher", b.flashers, PLAIN), Numbered("Cond", b.conditions, PLAIN),
      Numbered("Counter", b.counters, PLAIN), b.FlasherBase(), b.ConditionBase(), b.CounterBase());
  }

  /** Variable y has this name. */
  predicate Named(all: seq<Label>, y: int, l: Label) { 0 <= y < |all| && all[y] == l }

  lemma NamedAt(all: seq<Label>, ls: seq<Label>, base: nat, i: nat)
    requires Stand(all, ls, base) && i < |ls|
    ensures Named(all, base + i, ls[i])
  {
    assert all[base..base + |ls|][i] == all[base + i];
  }

  /** Variable j of instance k + 1. */
  lemma {:induction false} InNumbered(w: string, n: nat, ends: seq<string>, k: nat, j: nat, i: nat)
    requires k < n && j < |ends| && i == Total(k, |ends|) + j
    ensures i < Total(n, |ends|) && Numbered(w, n, ends)[i] == One(w, k + 1, ends[j])
  {
    if k == n - 1 {
      assert Numbered(w, n, ends)[i] == Each(w, n, ends)[j];
    } else {
      InNumbered(w, n - 1, ends, k, j, i);
      assert Numbered(w, n, ends)[i] == Numbered(w, n - 1, ends)[i];
    }
  }

  lemma NamedIn(all: seq<Label>, w: string, n: nat, ends: seq<string>, base: nat, k: nat, j: nat, y: nat)
    requires Stand(all, Numbered(w, n, ends), base) && k < n && j < |ends| && y == base + Total(k, |ends|) + j
    ensures Named(all, y, One(w, k + 1, ends[j]))
  {
    InNumbered(w, n, ends, k, j, y - base);
    NamedAt(all, Numbered(w, n, ends), base, y - base);
  }

  lemma OneName(all: seq<Label>, w: string, n: nat, base: nat, k: nat, y: nat)
    requires Stand(all, Numbered(w, n, PLAIN), base) && k < n && y == base + k
    ensures Named(all, y, One(w, k + 1, ""))
  {
    TotalTimes(k);
    NamedIn(all, w, n, PLAIN, base, k, 0, y);
  }

  /** The whole layout, block by block. */
  lemma AllStand(b: Board, all: seq<Label>)
    requires b.Valid() && all == PyLabels(b)
    ensures |all| == b.Size()
    ensures Stand(all, Switches(b), b.DigInBase()) && Stand(all, Signals(b), b.CanInBase())
    ensures Stand(all, Logic(b), b.FlasherBase())
  {
    LayoutBlocks(b, all);
    MiddleBlocks(b, all);
  }

  // ----- slots

  /** Output i's four variables are named after it. */
  lemma OutputNames(cfg: Config, i: nat, j: nat, y: nat)
    requires cfg.FullLength() && i < |cfg.outputs| && j < 4 && y == cfg.Base(cfg.OutputPos(i)) + j
    ensures Named(PyLabels(cfg.board), y, One("Out", i + 1, ["Active", "Current", "Overcurrent", "Fault"][j]))
  {
    AtOutput(cfg, i);
    OutName(cfg.board, i, j, y);
  }

  lemma OutName(b: Board, i: nat, j: nat, y: nat)
    requires b.Valid() && i < b.outputs && j < 4 && y == b.OutputBase() + 4 * i + j
    ensures Named(PyLabels(b), y, One("Out", i + 1, OUT[j]))
  {
    AllStand(b, PyLabels(b));
    SignalsStand(b, PyLabels(b));
    TotalTimes(i);
    NamedIn(PyLabels(b), "Out", b.outputs, OUT, b.OutputBase(), i, j, y);
  }

  lemma InputNames(cfg: Config, i: nat)
    requires cfg.FullLength() && i < |cfg.inputs|
    ensures Named(PyLabels(cfg.board), cfg.Base(cfg.DigInPos(i)), One("DigIn", i + 1, ""))
  {
    AtDigIn(cfg, i);
    DigInName(cfg.board, i, cfg.board.DigInBase() + i);
  }

  lemma DigInName(b: Board, i: nat, y: nat)
    requires b.Valid() && i < b.digInputs && y == b.DigInBase() + i
    ensures Named(PyLabels(b), y, One("DigIn", i + 1, ""))
  {
    AllStand(b, PyLabels(b));
    SwitchesStand(b, PyLabels(b));
    OneName(PyLabels(b), "DigIn", b.digInputs, b.DigInBase(), i, y);
  }

  /** CAN input i's comparison and value are named after it. */
  lemma CanInputNames(cfg: Config, i: nat, j: nat, y: nat)
    requires cfg.FullLength() && i < |cfg.canInputs| && j < 2 && y == cfg.Base(cfg.CanInPos(i)) + j
    ensures Named(PyLabels(cfg.board), y, One("CanIn", i + 1, ["Out", "Val"][j]))
  {
    AtCanIn(cfg, i);
    CanInName(cfg.board, i, j, y);
  }

  lemma CanInName(b: Board, i: nat, j: nat, y: nat)
    requires b.Valid() && i < b.canInputs && j < 2 && y == b.CanInBase() + 2 * i + j
    ensures Named(PyLabels(b), y, One("CanIn", i + 1, CAN_IN[j]))
  {
    AllStand(b, PyLabels(b));
    SignalsStand(b, PyLabels(b));
    TotalTimes(i);
    NamedIn(PyLabels(b), "CanIn", b.canInputs, CAN_IN, b.CanInBase(), i, j, y);
  }

  lemma VirtualInputNames(cfg: Config, i: nat)
    requires cfg.FullLength() && i < |cfg.virtualInputs|
    ensures Named(PyLabels(cfg.board), cfg.Base(cfg.VirtPos(i)), One("VirtIn", i + 1, ""))
  {
    AtVirt(cfg, i);
    VirtName(cfg.board, i, cfg.board.VirtBase() + i);
  }

  lemma VirtName(b: Board, i: nat, y: nat)
    requires b.Valid() && i < b.virtInputs && y == b.VirtBase() + i
    ensures Named(PyLabels(b), y, One("VirtIn", i + 1, ""))
  {
    AllStand(b, PyLabels(b));
    SignalsStand(b, PyLabels(b));
    OneName(PyLabels(b), "VirtIn", b.virtInputs, b.VirtBase(), i, y);
  }

  lemma LogicName(b: Board, w: string, n: nat, base: nat, i: nat, y: nat)
    requires b.Valid() && i < n && y == base + i
    requires (w, n, base) == ("Flasher", b.flashers, b.FlasherBase())
          || (w, n, base) == ("Cond", b.conditions, b.ConditionBase())
          || (w, n, base) == ("Counter", b.counters, b.CounterBase())
    ensures Named(PyLabels(b), y, One(w, i + 1, ""))
  {
    AllStand(b, PyLabels(b));
    LogicStands(b, PyLabels(b));
    OneName(PyLabels(b), w, n, base, i, y);
  }

  lemma FlasherNames(cfg: Config, i: nat)
    requires cfg.FullLength() && i < |cfg.flashers|
    ensures Named(PyLabels(cfg.board), cfg.Base(cfg.FlasherPos(i)), One("Flasher", i + 1, ""))
  {
    AtFlasher(cfg, i);
    LogicName(cfg.board, "Flasher", cfg.board.flashers, cfg.board.FlasherBase(), i, cfg.board.FlasherBase() + i);
  }

  lemma CounterNames(cfg: Config, i: nat)
    requires cfg.FullLength() && i < |cfg.counters|
    ensures Named(PyLabels(cfg.board), cfg.Base(cfg.CounterPos(i)), One("Counter", i + 1, ""))
  {
    AtCounter(cfg, i);
    LogicName(cfg.board, "Counter", cfg.board.counters, cfg.board.CounterBase(), i, cfg.board.CounterBase() + i);
  }

  lemma ConditionNames(cfg: Config, i: nat)
    requires cfg.FullLength() && i < |cfg.conditions|
    ensures Named(PyLabels(cfg.board), cfg.Base(cfg.ConditionPos(i)), One("Cond", i + 1, ""))
  {
    AtCondition(cfg, i);
    LogicName(cfg.board, "Cond", cfg.board.conditions, cfg.board.ConditionBase(), i, cfg.board.ConditionBase() + i);
  }

  // ----- pinned variables

  /** The names of the variables nothing models: what outputs measure, and analogue inputs. */
  predicate Measured(l: Label) {
    || (l.One? && l.w == "Out" && (l.end == "Current" || l.end == "Overcurrent" || l.end == "Fault"))
    || (l.One? && l.w == "Analog")
  }

  predicate OfTheBoard(l: Label) { l == Word("BoardTemp") || l == Word("BattVolt") }

  /** The pinned variables of a board with this many system variables, by name. */
  predicate PinnedName(sysVars: nat, l: Label) { Measured(l) || (sysVars >= 5 && OfTheBoard(l)) }

  lemma SystemPinned(cfg: Config, all: seq<Label>, y: nat)
    requires cfg.board.Valid() && y < cfg.board.sysVars && Stand(all, SYSTEM[..cfg.board.sysVars], 0)
    ensures y < |all| && (cfg.Pinned(y) <==> PinnedName(cfg.board.sysVars, all[y]))
  {
    NamedAt(all, SYSTEM[..cfg.board.sysVars], 0, y);
  }

  /** Variables of a category without endings are not pinned. */
  lemma PlainFree(all: seq<Label>, w: string, n: nat, base: nat, y: nat, sysVars: nat)
    requires Stand(all, Numbered(w, n, PLAIN), base) && base <= y < base + n && w != "Analog"
    ensures y < |all| && !PinnedName(sysVars, all[y])
  {
    OneName(all, w, n, base, y - base, y);
  }

  lemma SwitchPinned(cfg: Config, all: seq<Label>, y: nat)
    requires Stand(all, Switches(cfg.board), cfg.board.DigInBase())
    requires 3 <= cfg.board.sysVars <= 5 && cfg.board.DigInBase() <= y < cfg.board.CanInBase()
    ensures y < |all| && (cfg.Pinned(y) <==> PinnedName(cfg.board.sysVars, all[y]))
  {
    var b := cfg.board;
    SwitchesStand(b, all);
    if y < b.DigOutBase() {
      PlainFree(all, "DigIn", b.digInputs, b.DigInBase(), y, b.sysVars);
    } else if y < b.AnalogBase() {
      PlainFree(all, "DigOut", b.digOutputs, b.DigOutBase(), y, b.sysVars);
    } else {
      var i := y - b.AnalogBase();
      TotalTimes(i / 4);
      NamedIn(all, "Analog", b.analogInputs, ANALOG, b.AnalogBase(), i / 4, i % 4, y);
    }
  }

  lemma OutEnds(j: nat)
    requires j < 4
    ensures j != 0 <==> OUT[j] == "Current" || OUT[j] == "Overcurrent" || OUT[j] == "Fault"
  {
    assert |OUT[0]| == 6 && |OUT[1]| == 7 && |OUT[2]| == 11 && |OUT[3]| == 5;
  }

  lemma SignalPinned(cfg: Config, all: seq<Label>, y: nat)
    requires Stand(all, Signals(cfg.board), cfg.board.CanInBase())
    requires 3 <= cfg.board.sysVars <= 5 && cfg.board.CanInBase() <= y < cfg.board.FlasherBase()
    ensures y < |all| && (cfg.Pinned(y) <==> PinnedName(cfg.board.sysVars, all[y]))
  {
    var b := cfg.board;
    SignalsStand(b, all);
    if y < b.VirtBase() {
      var i := y - b.CanInBase();
      TotalTimes(i / 2);
      NamedIn(all, "CanIn", b.canInputs, CAN_IN, b.CanInBase(), i / 2, i % 2, y);
    } else if y < b.OutputBase() {
      PlainFree(all, "VirtIn", b.virtInputs, b.VirtBase(), y, b.sysVars);
    } else {
      var i := y - b.OutputBase();
      TotalTimes(i / 4);
      NamedIn(all, "Out", b.outputs, OUT, b.OutputBase(), i / 4, i % 4, y);
      OutEnds(i % 4);
    }
  }

  lemma LogicPinned(cfg: Config, all: seq<Label>, y: nat)
    requires Stand(all, Logic(cfg.board), cfg.board.FlasherBase())
    requires 3 <= cfg.board.sysVars <= 5 && cfg.board.FlasherBase() <= y < cfg.board.WiperBase()
    ensures y < |all| && (cfg.Pinned(y) <==> PinnedName(cfg.board.sysVars, all[y]))
  {
    var b := cfg.board;
    LogicStands(b, all);
    if y < b.ConditionBase() {
      PlainFree(all, "Flasher", b.flashers, b.FlasherBase(), y, b.sysVars);
    } else if y < b.CounterBase() {
      PlainFree(all, "Cond", b.conditions, b.ConditionBase(), y, b.sysVars);
    } else {
      PlainFree(all, "Counter", b.counters, b.CounterBase(), y, b.sysVars);
    }
  }

  lemma {:induction false} KeypadNames(b: Board, n: nat, i: nat)
    requires i < Total(n, b.KeypadVars())
    ensures Keypads(b, n)[i].Two?
  {
    var below := Total(n - 1, b.KeypadVars());
    if i < below {
      KeypadNames(b, n - 1, i);
      assert Keypads(b, n)[i] == Keypads(b, n - 1)[i];
    } else {
      KeypadName(b, n, i - below);
      assert Keypads(b, n)[i] == Keypad(b, n)[i - below];
    }
  }

  lemma KeypadName(b: Board, n: nat, i: nat)
    requires i < b.KeypadVars()
    ensures Keypad(b, n)[i].Two?
  {
  }

  lemma WipersFree(i: nat)
    requires i < 6
    ensures !PinnedName(5, WIPER[i])
  {
    assert |WIPER[i].w| >= 12 && |"BoardTemp"| == 9 && |"BattVolt"| == 8;
  }

  lemma TailFree(b: Board, all: seq<Label>, y: nat)
    requires b.Valid() && BlocksStand(b, all) && b.WiperBase() <= y < b.Size()
    ensures y < |all| && !PinnedName(b.sysVars, all[y])
  {
    if y < b.KeypadBase() {
      NamedAt(all, WIPER[..b.wiperVars], b.WiperBase(), y - b.WiperBase());
      WipersFree(y - b.WiperBase());
    } else {
      KeypadNames(b, b.keypads, y - b.KeypadBase());
      NamedAt(all, Keypads(b, b.keypads), b.KeypadBase(), y - b.KeypadBase());
    }
  }

  /** A variable is pinned exactly if it is one of the measurements, by its name; on a board
      with five system variables also the temperature and the voltage. With four, the
      temperature is not. */
  lemma PinnedByName(cfg: Config, all: seq<Label>, y: nat)
    requires cfg.board.Valid() && y < cfg.board.Size() && all == PyLabels(cfg.board)
    ensures |all| == cfg.board.Size()
    ensures cfg.Pinned(y) <==> Measured(all[y]) || (cfg.board.sysVars >= 5 && OfTheBoard(all[y]))
  {
    LayoutBlocks(cfg.board, all);
    MiddleBlocks(cfg.board, all);
    if y < cfg.board.sysVars {
      SystemPinned(cfg, all, y);
    } else if y < cfg.board.CanInBase() {
      SwitchPinned(cfg, all, y);
    } else if y < cfg.board.FlasherBase() {
      SignalPinned(cfg, all, y);
    } else if y < cfg.board.WiperBase() {
      LogicPinned(cfg, all, y);
    } else {
      TailFree(cfg.board, all, y);
    }
  }
}
