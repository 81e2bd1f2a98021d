/**
 A device's configuration as the simulator loads it, and the plan it becomes: the
 fixed order of categories, slots in slot order within each, and the variables each
 slot writes according to the board's layout.
 */
module Configs {
  import opened Boards
  import opened Blocks
  import opened Engine

  datatype Config = Config(
    board: Board,
    outputs: seq<OutputCfg>,
    inputs: seq<DigInCfg>,
    canInputs: seq<CanInCfg>,
    canOutputs: seq<CanOutCfg>,
    virtualInputs: seq<VirtCfg>,
    flashers: seq<FlasherCfg>,
    counters: seq<CounterCfg>,
    conditions: seq<ConditionCfg>)
  {
    /** Every group has exactly the board's number of slots. */
    predicate FullLength() {
      && board.Valid()
      && |outputs| == board.outputs && |inputs| == board.digInputs
      && |canInputs| == board.canInputs && |canOutputs| == board.canOutputs
      && |virtualInputs| == board.virtInputs && |flashers| == board.flashers
      && |counters| == board.counters && |conditions| == board.conditions
    }

    // ----- the order of evaluation

    function OutputPos(i: nat): nat { i }
    function DigInPos(i: nat): nat { board.outputs + i }
    function CanInPos(i: nat): nat { DigInPos(board.digInputs) + i }
    function CanOutPos(i: nat): nat { CanInPos(board.canInputs) + i }
    function VirtPos(i: nat): nat { CanOutPos(board.canOutputs) + i }
    function FlasherPos(i: nat): nat { VirtPos(board.virtInputs) + i }
    function CounterPos(i: nat): nat { FlasherPos(board.flashers) + i }
    function ConditionPos(i: nat): nat { CounterPos(board.counters) + i }
    function Length(): nat { ConditionPos(board.conditions) }

    function SlotAt(k: nat): Slot
      requires FullLength() && k < Length()
    {
      if k < DigInPos(0) then outputs[k]
      else if k < CanInPos(0) then inputs[k - DigInPos(0)]
      else if k < CanOutPos(0) then canInputs[k - CanInPos(0)]
      else if k < VirtPos(0) then canOutputs[k - CanOutPos(0)]
      else if k < FlasherPos(0) then virtualInputs[k - VirtPos(0)]
      else if k < CounterPos(0) then flashers[k - FlasherPos(0)]
      else if k < ConditionPos(0) then counters[k - CounterPos(0)]
      else conditions[k - ConditionPos(0)]
    }

    /** The first variable position k writes; it writes Width(SlotAt(k)) of them. */
    function Base(k: nat): nat
      requires k < Length()
    {
      if k < DigInPos(0) then board.OutputBase() + 4 * k
      else if k < CanInPos(0) then board.DigInBase() + (k - DigInPos(0))
      else if k < CanOutPos(0) then board.CanInBase() + 2 * (k - CanInPos(0))
      else if k < VirtPos(0) then 0
      else if k < FlasherPos(0) then board.VirtBase() + (k - VirtPos(0))
      else if k < CounterPos(0) then board.FlasherBase() + (k - FlasherPos(0))
      else if k < ConditionPos(0) then board.CounterBase() + (k - CounterPos(0))
      else board.ConditionBase() + (k - ConditionPos(0))
    }

    predicate OwnsVar(k: nat, y: int)
      requires FullLength() && k < Length()
    {
      Base(k) <= y < Base(k) + Width(SlotAt(k))
    }

    /** The position that writes variable y; Length() for the variables nobody writes. */
    function Owner(y: int): nat
      requires FullLength()
    {
      var b := board;
      if b.DigInBase() <= y < b.DigOutBase() then DigInPos(y - b.DigInBase())
      else if b.CanInBase() <= y < b.VirtBase() then CanInPos((y - b.CanInBase()) / 2)
      else if b.VirtBase() <= y < b.OutputBase() then VirtPos(y - b.VirtBase())
      else if b.OutputBase() <= y < b.FlasherBase() then OutputPos((y - b.OutputBase()) / 4)
      else if b.FlasherBase() <= y < b.ConditionBase() then FlasherPos(y - b.FlasherBase())
      else if b.ConditionBase() <= y < b.CounterBase() then ConditionPos(y - b.ConditionBase())
      else if b.CounterBase() <= y < b.WiperBase() then CounterPos(y - b.CounterBase())
      else Length()
    }

    /** The 1-based number of position k within its category. */
    function NumberAt(k: nat): nat
      requires k < Length()
    {
      1 +
      if k < DigInPos(0) then k
      else if k < CanInPos(0) then k - DigInPos(0)
      else if k < CanOutPos(0) then k - CanInPos(0)
      else if k < VirtPos(0) then k - CanOutPos(0)
      else if k < FlasherPos(0) then k - VirtPos(0)
      else if k < CounterPos(0) then k - FlasherPos(0)
      else if k < ConditionPos(0) then k - CounterPos(0)
      else k - ConditionPos(0)
    }

    /** References are validated for enabled slots only; var2 counts even when it is 0. */
    predicate RefsIn(s: Slot) {
      && (forall r | r in Reads(s) :: 0 <= r < board.Size())
      && (s.enabled && s.VirtSlot? ==> 0 <= s.var2 < board.Size())
    }

    /** The variables pinned at zero because their analogue side is not modelled. */
    predicate Pinned(y: int) {
      || (board.OutputBase() <= y < board.FlasherBase() && (y - board.OutputBase()) % 4 != 0)
      || board.AnalogBase() <= y < board.CanInBase()
      || (board.sysVars >= 5 && 3 <= y <= 4)
    }

    /** What construction of the simulator accepts. */
    predicate Accepted() {
      && FullLength()
      && forall k | 0 <= k < Length() ::
        RefsIn(SlotAt(k)) && forall r | r in Reads(SlotAt(k)) :: !Pinned(r)
    }

    /** The slots in evaluation order. */
    function Compile(): Plan
      requires FullLength()
    {
      Plan(board.Size(),
        seq(Length(), k requires 0 <= k < Length() => Place(SlotAt(k), NumberAt(k), Base(k))),
        seq(board.Size(), y => Owner(y)),
        Act)
    }
  }

  lemma Layout(cfg: Config, k: nat)
    requires cfg.FullLength() && k < cfg.Length()
    ensures cfg.Base(k) + Width(cfg.SlotAt(k)) <= cfg.board.Size()
    ensures forall y :: cfg.OwnsVar(k, y) ==> cfg.Owner(y) == k
  {
    forall y | cfg.OwnsVar(k, y)
      ensures cfg.Owner(y) == k
    {
      LayoutOwner(cfg, k, y);
    }
  }

  lemma LayoutOwner(cfg: Config, k: nat, y: int)
    requires cfg.FullLength() && k < cfg.Length() && cfg.OwnsVar(k, y)
    ensures cfg.Owner(y) == k
  {
    if k < cfg.CanInPos(0) { PinOwner(cfg, k, y); }
    else if k < cfg.VirtPos(0) { BusOwner(cfg, k, y); }
    else if k < cfg.CounterPos(0) { LogicOwner(cfg, k, y); }
    else { TailOwner(cfg, k, y); }
  }

  lemma PinOwner(cfg: Config, k: nat, y: int)
    requires cfg.FullLength() && k < cfg.CanInPos(0) && k < cfg.Length() && cfg.OwnsVar(k, y)
    ensures cfg.Owner(y) == k
  {
  }

  lemma BusOwner(cfg: Config, k: nat, y: int)
    requires cfg.FullLength() && cfg.CanInPos(0) <= k < cfg.VirtPos(0) && k < cfg.Length() && cfg.OwnsVar(k, y)
    ensures cfg.Owner(y) == k
  {
  }

  lemma LogicOwner(cfg: Config, k: nat, y: int)
    requires cfg.FullLength() && cfg.VirtPos(0) <= k < cfg.CounterPos(0) && k < cfg.Length() && cfg.OwnsVar(k, y)
    ensures cfg.Owner(y) == k
  {
  }

  lemma TailOwner(cfg: Config, k: nat, y: int)
    requires cfg.FullLength() && cfg.CounterPos(0) <= k < cfg.Length() && cfg.OwnsVar(k, y)
    ensures cfg.Owner(y) == k
  {
  }

  lemma OwnerOwns(cfg: Config, y: int)
    requires cfg.FullLength() && cfg.Owner(y) < cfg.Length()
    ensures cfg.OwnsVar(cfg.Owner(y), y)
  {
    var b := cfg.board;
    if b.DigInBase() <= y < b.DigOutBase() {
      AtDigIn(cfg, y - b.DigInBase());
    } else if b.CanInBase() <= y < b.VirtBase() {
      AtCanIn(cfg, (y - b.CanInBase()) / 2);
    } else if b.VirtBase() <= y < b.OutputBase() {
      AtVirt(cfg, y - b.VirtBase());
    } else if b.OutputBase() <= y < b.FlasherBase() {
      AtOutput(cfg, (y - b.OutputBase()) / 4);
    } else if b.FlasherBase() <= y < b.ConditionBase() {
      AtFlasher(cfg, y - b.FlasherBase());
    } else if b.ConditionBase() <= y < b.CounterBase() {
      AtCondition(cfg, y - b.ConditionBase());
    } else if b.CounterBase() <= y < b.WiperBase() {
      AtCounter(cfg, y - b.CounterBase());
    }
  }

  // Slot i of each category, by position.

  lemma AtOutput(cfg: Config, i: nat)
    requires cfg.FullLength() && i < cfg.board.outputs
    ensures cfg.OutputPos(i) < cfg.Length() && cfg.SlotAt(cfg.OutputPos(i)) == cfg.outputs[i]
    ensures cfg.Base(cfg.OutputPos(i)) == cfg.board.OutputBase() + 4 * i
  {
  }

  lemma AtDigIn(cfg: Config, i: nat)
    requires cfg.FullLength() && i < cfg.board.digInputs
    ensures cfg.DigInPos(i) < cfg.Length() && cfg.SlotAt(cfg.DigInPos(i)) == cfg.inputs[i]
    ensures cfg.Base(cfg.DigInPos(i)) == cfg.board.DigInBase() + i
  {
  }

  lemma AtCanIn(cfg: Config, i: nat)
    requires cfg.FullLength() && i < cfg.board.canInputs
    ensures cfg.CanInPos(i) < cfg.Length() && cfg.SlotAt(cfg.CanInPos(i)) == cfg.canInputs[i]
    ensures cfg.Base(cfg.CanInPos(i)) == cfg.board.CanInBase() + 2 * i
  {
  }

  lemma AtCanOut(cfg: Config, i: nat)
    requires cfg.FullLength() && i < cfg.board.canOutputs
    ensures cfg.CanOutPos(i) < cfg.Length() && cfg.SlotAt(cfg.CanOutPos(i)) == cfg.canOutputs[i]
  {
  }

  lemma AtVirt(cfg: Config, i: nat)
    requires cfg.FullLength() && i < cfg.board.virtInputs
    ensures cfg.VirtPos(i) < cfg.Length() && cfg.SlotAt(cfg.VirtPos(i)) == cfg.virtualInputs[i]
    ensures cfg.Base(cfg.VirtPos(i)) == cfg.board.VirtBase() + i
  {
  }

  lemma AtFlasher(cfg: Config, i: nat)
    requires cfg.FullLength() && i < cfg.board.flashers
    ensures cfg.FlasherPos(i) < cfg.Length() && cfg.SlotAt(cfg.FlasherPos(i)) == cfg.flashers[i]
    ensures cfg.Base(cfg.FlasherPos(i)) == cfg.board.FlasherBase() + i
  {
  }

  lemma AtCounter(cfg: Config, i: nat)
    requires cfg.FullLength() && i < cfg.board.counters
    ensures cfg.CounterPos(i) < cfg.Length() && cfg.SlotAt(cfg.CounterPos(i)) == cfg.counters[i]
    ensures cfg.Base(cfg.CounterPos(i)) == cfg.board.CounterBase() + i
  {
  }

  lemma AtCondition(cfg: Config, i: nat)
    requires cfg.FullLength() && i < cfg.board.conditions
    ensures cfg.ConditionPos(i) < cfg.Length() && cfg.SlotAt(cfg.ConditionPos(i)) == cfg.conditions[i]
    ensures cfg.Base(cfg.ConditionPos(i)) == cfg.board.ConditionBase() + i
  {
  }

  /** What construction accepts is a valid plan. */
  lemma CompileValid(cfg: Config)
    requires cfg.Accepted()
    ensures cfg.Compile().Valid()
  {
    var p := cfg.Compile();
    ActLawful();
    forall k | 0 <= k < |p.places|
      ensures p.places[k].base + Width(p.places[k].slot) <= p.size
      ensures ReadsWithin(Reads(p.places[k].slot), p.size)
    {
      Layout(cfg, k);
      var rs := Reads(p.places[k].slot);
      assert forall j :: 0 <= j < |rs| ==> rs[j] in rs;
    }
    forall k, y | 0 <= k < |p.places| && 0 <= y < p.size
      ensures p.Owns(k, y) <==> p.owners[y] == k
    {
      Layout(cfg, k);
      if p.owners[y] == k { OwnerOwns(cfg, y); }
      assert p.Owns(k, y) == cfg.OwnsVar(k, y);
    }
    forall y | 0 <= y < p.size
      ensures p.owners[y] <= |p.places|
    {
      OwnerRange(cfg, y);
    }
  }

  lemma OwnerRange(cfg: Config, y: int)
    requires cfg.FullLength()
    ensures cfg.Owner(y) <= cfg.Length()
  {
  }
}
