/**
 The deployed engine configuration and its hand-built rewrite, in which every virtual
 input is renumbered and the heater counter's reset is expressed the other way round.
 */
module EngineDocs {
  import opened Boards
  import opened Blocks
  import opened Configs

  function Pad<T>(s: seq<T>, n: nat, d: T): (r: seq<T>)
    requires |s| <= n
    ensures |r| == n && (forall i | 0 <= i < n :: r[i] == if i < |s| then s[i] else d)
  {
    s + seq(n - |s|, _ => d)
  }

  // ----- slots the documents use

  function Out(input: int): OutputCfg { OutputSlot(true, input) }

  function PulledUp(): DigInCfg { DigInSlot(true, MODE_MOMENTARY, true, 20) }

  /** One bit of a frame, equal to one, forgotten after half a second of silence. */
  function BusBit(id: int, bit: nat): CanInCfg {
    CanInSlot(true, true, 500, 0, id, bit, 1, 1.0, 0.0, 0, false, OP_EQ, 1.0, MODE_MOMENTARY)
  }

  function BusOut(input: int, id: int, bit: nat): CanOutCfg {
    CanOutSlot(true, input, 0, id, bit, 1, 1.0, 0.0, 0, 100)
  }

  /** Two terms; the reserved third is written as the document writes it. */
  function Two(var0: int, cond0: int, not1: bool, var1: int, cond1: int): VirtCfg {
    VirtSlot(true, false, var0, cond0, not1, var1, cond1, false, 0, MODE_MOMENTARY)
  }

  function AtLeastOne(input: int): ConditionCfg { ConditionSlot(true, input, OP_GE, 1.0) }

  function Counter(inc: int, incEdge: int, dec: int, decEdge: int, rst: int, resetEdge: int, wrap: bool,
                   resetTime: int): CounterCfg
  {
    CounterSlot(true, inc, dec, rst, 0, 1, incEdge, decEdge, resetEdge, wrap, false, resetTime)
  }

  // ----- the deployed document; unmentioned slots take the firmware defaults

  const DEFAULT_IN: CanInCfg :=
    CanInSlot(false, false, 1000, 0, 0, 0, 8, 1.0, 0.0, 0, false, OP_EQ, 0.0, MODE_MOMENTARY)
  const DEFAULT_OUT: CanOutCfg := CanOutSlot(false, 0, 0, 0, 0, 8, 1.0, 0.0, 0, 1000)
  const DEFAULT_VIRT: VirtCfg := VirtSlot(false, false, 0, 0, false, 0, 0, false, 0, MODE_MOMENTARY)
  const DEFAULT_FLASHER: FlasherCfg := FlasherSlot(false, 0, 500, 500)
  const DEFAULT_COUNTER: CounterCfg := CounterSlot(false, 0, 0, 0, 0, 10, 0, 0, 0, false, false, 2000)
  const DEFAULT_CONDITION: ConditionCfg := ConditionSlot(false, 0, 0, 0.0)

  const BUS_BITS: seq<CanInCfg> := [BusBit(1602, 32), BusBit(1602, 39), BusBit(768, 0)]

  function Deployed(): Config {
    Config(DINGOPDM_V7,
      [Out(72), Out(74), Out(75), Out(74), Out(123), Out(72), Out(76), Out(1)],
      [PulledUp(), PulledUp()],
      Pad(BUS_BITS, 32, DEFAULT_IN),
      Pad([BusOut(123, 769, 0), BusOut(78, 769, 1), BusOut(79, 1603, 8), BusOut(0, 1603, 24)], 32, DEFAULT_OUT),
      Pad([
        Two(11, BOOL_AND, false, 7, BOOL_OR),
        Two(71, BOOL_AND, false, 9, BOOL_OR),
        Two(71, BOOL_AND, false, 124, BOOL_OR),
        Two(123, BOOL_OR, false, 72, BOOL_OR),
        VirtSlot(true, false, 7, BOOL_AND, true, 11, BOOL_AND, false, 123, MODE_MOMENTARY),
        Two(9, BOOL_AND, true, 71, BOOL_OR),
        Two(5, BOOL_AND, false, 123, BOOL_OR),
        Two(125, BOOL_AND, false, 123, BOOL_OR),
        Two(6, BOOL_AND, false, 123, BOOL_OR)], 16, DEFAULT_VIRT),
      Pad([], 4, DEFAULT_FLASHER),
      Pad([
        Counter(73, EDGE_FALLING, 71, EDGE_RISING, 0, EDGE_RISING, false, 0),
        Counter(72, EDGE_RISING, 71, EDGE_FALLING, 0, EDGE_RISING, false, 0),
        Counter(77, EDGE_RISING, 0, EDGE_RISING, 123, EDGE_FALLING, true, 0)], 4, DEFAULT_COUNTER),
      Pad([AtLeastOne(155), AtLeastOne(156), AtLeastOne(157)], 32, DEFAULT_CONDITION))
  }

  // ----- the rewrite; its unused slots are written out with other values

  const SPARE_IN: CanInCfg :=
    CanInSlot(false, false, 500, 0, 0, 0, 1, 1.0, 0.0, 0, false, OP_EQ, 1.0, MODE_MOMENTARY)
  const SPARE_OUT: CanOutCfg := CanOutSlot(false, 0, 0, 0, 0, 1, 1.0, 0.0, 0, 100)

  /** The rewrite, with the heater counter's reset left open. */
  function Rewrite(heaterReset: int, heaterEdge: int): Config {
    Config(DINGOPDM_V7,
      [Out(73), Out(75), Out(76), Out(75), Out(123), Out(73), Out(77), Out(1)],
      [PulledUp(), PulledUp()],
      Pad(BUS_BITS, 32, SPARE_IN),
      Pad([BusOut(123, 769, 0), BusOut(79, 769, 1), BusOut(80, 1603, 8), BusOut(0, 1603, 24)], 32, SPARE_OUT),
      Pad([
        VirtSlot(true, true, 123, BOOL_AND, false, 1, BOOL_AND, false, 0, MODE_MOMENTARY),
        Two(11, BOOL_AND, false, 7, BOOL_AND),
        Two(72, BOOL_AND, false, 9, BOOL_AND),
        Two(72, BOOL_AND, false, 124, BOOL_AND),
        Two(123, BOOL_OR, false, 73, BOOL_AND),
        VirtSlot(true, false, 7, BOOL_AND, true, 11, BOOL_AND, false, 123, MODE_MOMENTARY),
        Two(9, BOOL_AND, true, 72, BOOL_AND),
        Two(5, BOOL_AND, false, 123, BOOL_AND),
        Two(125, BOOL_AND, false, 123, BOOL_AND),
        Two(6, BOOL_AND, false, 123, BOOL_AND)], 16, DEFAULT_VIRT),
      Pad([], 4, DEFAULT_FLASHER),
      Pad([
        Counter(74, EDGE_FALLING, 72, EDGE_RISING, 0, EDGE_RISING, false, 2000),
        Counter(73, EDGE_RISING, 72, EDGE_FALLING, 0, EDGE_RISING, false, 2000),
        Counter(78, EDGE_RISING, 0, EDGE_RISING, heaterReset, heaterEdge, true, 2000)], 4, DEFAULT_COUNTER),
      Pad([AtLeastOne(155), AtLeastOne(156), AtLeastOne(157)], 32, DEFAULT_CONDITION))
  }

  /** The reference document resets the heater on NOT_ENGINE_RUN rising. */
  function Reference(): Config { Rewrite(71, EDGE_RISING) }

  /** Half way: renumbered, but still reset on ENGINE_RUN falling. */
  function Renumbered(): Config { Rewrite(123, EDGE_FALLING) }

  // ----- both are accepted, and where things are

  lemma BoardFacts()
    ensures var b := DINGOPDM_V7;
      && b.DigInBase() == 5 && b.DigOutBase() == 7 && b.AnalogBase() == 7 && b.CanInBase() == 7
      && b.VirtBase() == 71 && b.OutputBase() == 87 && b.FlasherBase() == 119 && b.ConditionBase() == 123
      && b.CounterBase() == 155 && b.WiperBase() == 159 && b.KeypadBase() == 165 && b.Size() == 217
  {
    var b := DINGOPDM_V7;
    assert b.KeypadVars() == 26;
    assert Total(2, 26) == 52;
  }

  lemma PositionFacts(cfg: Config)
    requires cfg.board == DINGOPDM_V7
    ensures cfg.OutputPos(0) == 0 && cfg.DigInPos(0) == 8 && cfg.CanInPos(0) == 10 && cfg.CanOutPos(0) == 42
    ensures cfg.VirtPos(0) == 74 && cfg.FlasherPos(0) == 90 && cfg.CounterPos(0) == 94 && cfg.ConditionPos(0) == 98
    ensures cfg.Length() == 130
  {
  }

  /** What acceptance asks of one slot of these documents. */
  predicate Good(s: Slot) {
    && (forall r | r in Reads(s) :: r == 0 || r == 1 || 5 <= r < 87 || 123 <= r < 159)
    && (s.VirtSlot? && s.enabled ==> 0 <= s.var2 < 217)
  }

  lemma GoodAccepted(cfg: Config)
    requires cfg.FullLength() && cfg.board == DINGOPDM_V7
    requires forall k | 0 <= k < cfg.Length() :: Good(cfg.SlotAt(k))
    ensures cfg.Accepted()
  {
    BoardFacts();
    forall k | 0 <= k < cfg.Length()
      ensures cfg.RefsIn(cfg.SlotAt(k))
      ensures forall r | r in Reads(cfg.SlotAt(k)) :: !cfg.Pinned(r)
    {
      assert Good(cfg.SlotAt(k));
    }
  }

  lemma DeployedAccepted()
    ensures Deployed().Accepted()
  {
    var cfg := Deployed();
    PositionFacts(cfg);
    forall k | 0 <= k < cfg.Length()
      ensures Good(cfg.SlotAt(k))
    {
      DeployedGood(k);
    }
    GoodAccepted(cfg);
  }

  lemma DeployedGood(k: nat)
    requires k < Deployed().Length()
    ensures Good(Deployed().SlotAt(k))
  {
    PositionFacts(Deployed());
  }

  lemma RewriteAccepted(heaterReset: int, heaterEdge: int)
    requires heaterReset == 71 || heaterReset == 123
    ensures Rewrite(heaterReset, heaterEdge).Accepted()
  {
    var cfg := Rewrite(heaterReset, heaterEdge);
    PositionFacts(cfg);
    forall k | 0 <= k < cfg.Length()
      ensures Good(cfg.SlotAt(k))
    {
      RewriteGood(heaterReset, heaterEdge, k);
    }
    GoodAccepted(cfg);
  }

  lemma RewriteGood(heaterReset: int, heaterEdge: int, k: nat)
    requires heaterReset == 71 || heaterReset == 123
    requires k < Rewrite(heaterReset, heaterEdge).Length()
    ensures Good(Rewrite(heaterReset, heaterEdge).SlotAt(k))
  {
    PositionFacts(Rewrite(heaterReset, heaterEdge));
  }
}
