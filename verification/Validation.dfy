/**
 Reference validation as the simulator's construction does it: loops over the groups that
 look up variables, once for references off the variable map and once for references to
 variables that are pinned because nothing models what drives them.
 */
module Validation {
  import opened Boards
  import opened Blocks
  import opened Configs

  /** The reference fields of an enabled slot, a two-term virtual input's third one included. */
  function Fields(s: Slot): seq<int> {
    if !s.enabled then []
    else if s.VirtSlot? then [s.var0, s.var1, s.var2]
    else Reads(s)
  }

  predicate InRange(s: Slot, size: nat) { AllBelow(Fields(s), size) }

  predicate AllBelow(rs: seq<int>, size: nat) {
    forall r | r in rs :: 0 <= r < size
  }

  lemma BelowNext(rs: seq<int>, j: nat, size: nat)
    requires j < |rs|
    ensures AllBelow(rs[..j + 1], size) <==> AllBelow(rs[..j], size) && 0 <= rs[j] < size
  {
    assert rs[..j + 1] == rs[..j] + [rs[j]];
    assert rs[j] in rs[..j + 1];
    assert forall r :: r in rs[..j] ==> r in rs[..j + 1];
  }

  predicate Avoids(s: Slot, pinned: set<int>) {
    forall r | r in Fields(s) :: r !in pinned
  }

  /** No enabled slot of the group refers off the variable map. */
  method GroupInRange(xs: seq<Slot>, size: nat) returns (ok: bool)
    ensures ok <==> forall x | x in xs :: InRange(x, size)
  {
    ok := true;
    for i := 0 to |xs|
      invariant ok <==> forall x | x in xs[..i] :: InRange(x, size)
    {
      var fields, bad := Fields(xs[i]), false;
      for j := 0 to |fields|
        invariant bad <==> !AllBelow(fields[..j], size)
      {
        BelowNext(fields, j, size);
        if !(0 <= fields[j] < size) { bad := true; }
      }
      assert fields[..|fields|] == fields;
      assert bad <==> !InRange(xs[i], size);
      if bad { ok := false; }
      assert xs[..i + 1] == xs[..i] + [xs[i]];
    }
    assert xs[..|xs|] == xs;
  }

  /** No enabled slot of the group refers to one of these variables. */
  method GroupAvoids(xs: seq<Slot>, pinned: set<int>) returns (ok: bool)
    ensures ok <==> forall x | x in xs :: Avoids(x, pinned)
  {
    ok := true;
    for i := 0 to |xs|
      invariant ok <==> forall x | x in xs[..i] :: Avoids(x, pinned)
    {
      var fields, used := Fields(xs[i]), false;
      for j := 0 to |fields|
        invariant used <==> exists r :: r in fields[..j] && r in pinned
      {
        assert fields[..j + 1] == fields[..j] + [fields[j]];
        if fields[j] in pinned { used := true; }
      }
      assert fields[..|fields|] == fields;
      assert used <==> !Avoids(xs[i], pinned);
      if used { ok := false; }
      assert xs[..i + 1] == xs[..i] + [xs[i]];
    }
    assert xs[..|xs|] == xs;
  }

  /** The variables that stay zero: what the outputs measure, the analogue inputs, and the
      board's temperature and voltage where it has them. */
  method PinnedVars(cfg: Config) returns (pinned: set<int>)
    ensures forall y :: y in pinned <==> cfg.Pinned(y)
  {
    var b := cfg.board;
    pinned := {};
    for i := 0 to b.outputs
      invariant forall y :: y in pinned <==>
        b.OutputBase() <= y < b.OutputBase() + 4 * i && (y - b.OutputBase()) % 4 != 0
    {
      var base := b.OutputBase() + 4 * i;
      pinned := pinned + {base + 1, base + 2, base + 3};
    }
    ghost var measured := pinned;
    for i := 0 to b.analogInputs
      invariant forall y :: y in pinned <==> y in measured || b.AnalogBase() <= y < b.AnalogBase() + 4 * i
    {
      var base := b.AnalogBase() + 4 * i;
      pinned := pinned + {base, base + 1, base + 2, base + 3};
    }
    if b.sysVars >= 5 {
      pinned := pinned + {3, 4};
    }
  }

  /** Every reading group, checked. */
  ghost predicate AllInRange(cfg: Config) {
    var size := cfg.board.Size();
    && (forall x | x in cfg.outputs :: InRange(x, size)) && (forall x | x in cfg.canOutputs :: InRange(x, size))
    && (forall x | x in cfg.virtualInputs :: InRange(x, size)) && (forall x | x in cfg.conditions :: InRange(x, size))
    && (forall x | x in cfg.counters :: InRange(x, size)) && (forall x | x in cfg.flashers :: InRange(x, size))
  }

  ghost predicate AllAvoid(cfg: Config, pinned: set<int>) {
    && (forall x | x in cfg.outputs :: Avoids(x, pinned)) && (forall x | x in cfg.canOutputs :: Avoids(x, pinned))
    && (forall x | x in cfg.virtualInputs :: Avoids(x, pinned)) && (forall x | x in cfg.conditions :: Avoids(x, pinned))
    && (forall x | x in cfg.counters :: Avoids(x, pinned)) && (forall x | x in cfg.flashers :: Avoids(x, pinned))
  }

  /** Each reading slot is at some position. */
  lemma HasPosition(cfg: Config, x: Slot) returns (k: nat)
    requires cfg.FullLength()
    requires x in cfg.outputs || x in cfg.canOutputs || x in cfg.virtualInputs || x in cfg.conditions
        || x in cfg.counters || x in cfg.flashers
    ensures k < cfg.Length() && cfg.SlotAt(k) == x
  {
    if x in cfg.outputs {
      var i :| 0 <= i < |cfg.outputs| && cfg.outputs[i] == x;
      AtOutput(cfg, i);
      k := cfg.OutputPos(i);
    } else if x in cfg.canOutputs {
      var i :| 0 <= i < |cfg.canOutputs| && cfg.canOutputs[i] == x;
      AtCanOut(cfg, i);
      k := cfg.CanOutPos(i);
    } else if x in cfg.virtualInputs {
      var i :| 0 <= i < |cfg.virtualInputs| && cfg.virtualInputs[i] == x;
      AtVirt(cfg, i);
      k := cfg.VirtPos(i);
    } else if x in cfg.conditions {
      var i :| 0 <= i < |cfg.conditions| && cfg.conditions[i] == x;
      AtCondition(cfg, i);
      k := cfg.ConditionPos(i);
    } else if x in cfg.counters {
      var i :| 0 <= i < |cfg.counters| && cfg.counters[i] == x;
      AtCounter(cfg, i);
      k := cfg.CounterPos(i);
    } else {
      var i :| 0 <= i < |cfg.flashers| && cfg.flashers[i] == x;
      AtFlasher(cfg, i);
      k := cfg.FlasherPos(i);
    }
  }

  /** The slot at a position is in a reading group, or reads nothing. */
  lemma InSomeGroup(cfg: Config, k: nat)
    requires cfg.FullLength() && k < cfg.Length()
    ensures var x := cfg.SlotAt(k);
      || x in cfg.outputs || x in cfg.canOutputs || x in cfg.virtualInputs || x in cfg.conditions || x in cfg.counters
      || x in cfg.flashers || x.DigInSlot? || x.CanInSlot?
  {
  }

  lemma SlotInRange(cfg: Config, s: Slot)
    ensures cfg.RefsIn(s) <==> InRange(s, cfg.board.Size())
  {
    var fs, rs := Fields(s), Reads(s);
    if s.enabled && s.VirtSlot? {
      assert fs == [s.var0, s.var1, s.var2];
      assert s.var2 in fs;
      assert forall r :: r in fs <==> r in rs || r == s.var2;
    }
  }

  lemma SlotAvoids(cfg: Config, s: Slot, pinned: set<int>)
    requires cfg.board.Valid() && forall y :: y in pinned <==> cfg.Pinned(y)
    ensures (forall r | r in Reads(s) :: !cfg.Pinned(r)) <==> Avoids(s, pinned)
  {
    assert !cfg.Pinned(0);
    forall r | r in Reads(s)
      ensures r in Fields(s)
    {
    }
    forall r | r in Fields(s)
      ensures r == 0 || r in Reads(s)
    {
    }
  }

  lemma RangeMeans(cfg: Config)
    requires cfg.FullLength()
    ensures AllInRange(cfg) <==> forall k | 0 <= k < cfg.Length() :: cfg.RefsIn(cfg.SlotAt(k))
  {
    if AllInRange(cfg) {
      forall k | 0 <= k < cfg.Length()
        ensures cfg.RefsIn(cfg.SlotAt(k))
      {
        InSomeGroup(cfg, k);
        SlotInRange(cfg, cfg.SlotAt(k));
      }
    }
    if forall k | 0 <= k < cfg.Length() :: cfg.RefsIn(cfg.SlotAt(k)) {
      forall x: Slot | Grouped(cfg, x)
        ensures InRange(x, cfg.board.Size())
      {
        var k := HasPosition(cfg, x);
        SlotInRange(cfg, x);
      }
      AllGrouped(cfg);
    }
  }

  lemma AvoidMeans(cfg: Config, pinned: set<int>)
    requires cfg.FullLength() && forall y :: y in pinned <==> cfg.Pinned(y)
    ensures AllAvoid(cfg, pinned) <==>
            forall k | 0 <= k < cfg.Length() :: forall r | r in Reads(cfg.SlotAt(k)) :: !cfg.Pinned(r)
  {
    if AllAvoid(cfg, pinned) {
      forall k | 0 <= k < cfg.Length()
        ensures forall r | r in Reads(cfg.SlotAt(k)) :: !cfg.Pinned(r)
      {
        InSomeGroup(cfg, k);
        SlotAvoids(cfg, cfg.SlotAt(k), pinned);
      }
    }
    if forall k | 0 <= k < cfg.Length() :: forall r | r in Reads(cfg.SlotAt(k)) :: !cfg.Pinned(r) {
      forall x: Slot | Grouped(cfg, x)
        ensures Avoids(x, pinned)
      {
        var k := HasPosition(cfg, x);
        SlotAvoids(cfg, x, pinned);
      }
      AllGrouped(cfg);
    }
  }

  /** A slot of a group that reads. */
  predicate Grouped(cfg: Config, x: Slot) {
    x in cfg.outputs || x in cfg.canOutputs || x in cfg.virtualInputs || x in cfg.conditions || x in cfg.counters
      || x in cfg.flashers
  }

  lemma AllGrouped(cfg: Config)
    ensures forall x | x in cfg.outputs :: Grouped(cfg, x)
    ensures forall x | x in cfg.canOutputs :: Grouped(cfg, x)
    ensures forall x | x in cfg.virtualInputs :: Grouped(cfg, x)
    ensures forall x | x in cfg.conditions :: Grouped(cfg, x)
    ensures forall x | x in cfg.counters :: Grouped(cfg, x)
    ensures forall x | x in cfg.flashers :: Grouped(cfg, x)
  {
  }

  method AllGroupsInRange(cfg: Config) returns (ok: bool)
    ensures ok <==> AllInRange(cfg)
  {
    var size := cfg.board.Size();
    var a := GroupInRange(cfg.outputs, size);
    var b := GroupInRange(cfg.canOutputs, size);
    var c := GroupInRange(cfg.virtualInputs, size);
    var d := GroupInRange(cfg.conditions, size);
    var e := GroupInRange(cfg.counters, size);
    var f := GroupInRange(cfg.flashers, size);
    ok := a && b && c && d && e && f;
  }

  method AllGroupsAvoid(cfg: Config, pinned: set<int>) returns (ok: bool)
    ensures ok <==> AllAvoid(cfg, pinned)
  {
    var a := GroupAvoids(cfg.outputs, pinned);
    var b := GroupAvoids(cfg.canOutputs, pinned);
    var c := GroupAvoids(cfg.virtualInputs, pinned);
    var d := GroupAvoids(cfg.conditions, pinned);
    var e := GroupAvoids(cfg.counters, pinned);
    var f := GroupAvoids(cfg.flashers, pinned);
    ok := a && b && c && d && e && f;
  }

  /** Every group, checked for both. */
  method ValidateRefs(cfg: Config) returns (ok: bool)
    requires cfg.FullLength()
    ensures ok <==> cfg.Accepted()
  {
    RangeMeans(cfg);
    ok := AllGroupsInRange(cfg);
    if ok {
      var pinned := PinnedVars(cfg);
      AvoidMeans(cfg, pinned);
      ok := AllGroupsAvoid(cfg, pinned);
    }
  }
}
