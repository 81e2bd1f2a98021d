/**
 The two equivalences for configurations: what the simulator accepts before the change it
 accepts after it, and the two devices show the same in every run.
 */
module ConfigEquivalence {
  import opened Blocks
  import opened Engine
  import opened Configs
  import opened Equivalence

  /** What a device with this configuration shows after a stimulus of any length. */
  function Shows(cfg: Config, ticks: seq<Tick>): map<ObsKey, real>
    requires cfg.Accepted()
  {
    CompileValid(cfg);
    View(cfg.Compile(), ticks)
  }

  /** Accepted configurations of one board that agree on a closed set of slots containing
      everything observable show the same in every run, whatever their other slots do. */
  lemma ConfigNonInterference(a: Config, b: Config, live: set<nat>, ticks: seq<Tick>)
    requires a.Accepted() && b.Accepted() && a.board == b.board
    requires Closed(a.Compile(), live)
    requires forall k | k in live :: SameSlot(a.SlotAt(k), b.SlotAt(k))
    requires forall k: nat | k < a.Length() && (Observed(a.Compile(), k) || Observed(b.Compile(), k)) :: k in live
    ensures Shows(a, ticks) == Shows(b, ticks)
  {
    CompileValid(a);
    CompileValid(b);
    OneBoard(a, b);
    NonInterference(a.Compile(), b.Compile(), live, ticks);
  }

  // ----- renumbering

  /** b is a with its slots permuted within their categories and every reference rewritten. */
  ghost predicate RenumbersConfig(a: Config, b: Config, pi: seq<nat>, inverse: seq<nat>) {
    && a.FullLength() && b.FullLength() && a.board == b.board
    && Renumbers(a.Compile(), b.Compile(), pi, inverse)
  }

  /** pi permutes the slots of a and stays within their categories. */
  ghost predicate WithinCategories(a: Config, pi: seq<nat>) {
    && a.FullLength() && |pi| == a.Length()
    && forall k: nat | k < a.Length() :: StaysInCategory(a, pi, k)
  }

  predicate StaysInCategory(a: Config, pi: seq<nat>, k: nat)
    requires a.FullLength() && k < |pi| == a.Length()
  {
    && pi[k] < a.Length() && SameCategory(a.SlotAt(k), a.SlotAt(pi[k]))
    && (a.SlotAt(k).OutputSlot? || a.SlotAt(k).DigInSlot? ==> pi[k] == k)
  }

  lemma PermutationStays(a: Config, b: Config, pi: seq<nat>, inverse: seq<nat>)
    requires RenumbersConfig(a, b, pi, inverse)
    ensures WithinCategories(a, pi)
  {
    var p := a.Compile();
    forall k: nat | k < a.Length()
      ensures StaysInCategory(a, pi, k)
    {
      assert p.places[k].slot == a.SlotAt(k);
      assert p.places[pi[k]].slot == a.SlotAt(pi[k]);
    }
  }

  /** Only outputs write pinned variables. */
  lemma PinnedOwner(cfg: Config, y: int)
    requires cfg.FullLength() && cfg.Pinned(y)
    ensures cfg.Owner(y) == cfg.Length() || cfg.Owner(y) < cfg.board.outputs
  {
  }

  /** AlwaysFalse is nobody's. */
  lemma BasePositive(cfg: Config, k: nat)
    requires cfg.FullLength() && k < cfg.Length() && Width(cfg.SlotAt(k)) > 0
    ensures cfg.Base(k) > 0
  {
  }

  lemma ZeroUnowned(cfg: Config)
    requires cfg.FullLength()
    ensures cfg.Owner(0) == cfg.Length()
  {
  }

  lemma MovedInConfig(a: Config, pi: seq<nat>, x: int)
    requires WithinCategories(a, pi) && 0 <= x < a.board.Size()
    ensures (forall k | 0 <= k < |pi| :: pi[k] < |pi|) && |pi| == |a.Compile().places|
    ensures Moved(a.Compile(), pi, x)
      == if a.Owner(x) < a.Length() then a.Base(pi[a.Owner(x)]) + (x - a.Base(a.Owner(x))) else x
  {
    forall k: nat | k < |pi|
      ensures pi[k] < |pi|
    {
      assert StaysInCategory(a, pi, k);
    }
  }

  /** A rewritten reference is in range, and the pinned variables stay out of reach. */
  lemma MovedRef(a: Config, pi: seq<nat>, x: int)
    requires WithinCategories(a, pi) && 0 <= x < a.board.Size()
    ensures (forall k | 0 <= k < |pi| :: pi[k] < |pi|) && |pi| == |a.Compile().places|
    ensures var y := Moved(a.Compile(), pi, x);
      0 <= y < a.board.Size() && (y == 0 <==> x == 0) && (a.Pinned(y) ==> a.Pinned(x))
  {
    MovedInConfig(a, pi, x);
    var y := Moved(a.Compile(), pi, x);
    var o := a.Owner(x);
    ZeroUnowned(a);
    if o < a.Length() {
      OwnerOwns(a, x);
      assert StaysInCategory(a, pi, o);
      assert a.OwnsVar(pi[o], y);
      Layout(a, pi[o]);
      BasePositive(a, pi[o]);
      if a.Pinned(y) { StayingPinned(a, pi, o, x, y); }
    }
  }

  lemma StayingPinned(a: Config, pi: seq<nat>, o: nat, x: int, y: int)
    requires a.FullLength() && o < |pi| == a.Length() && StaysInCategory(a, pi, o)
    requires y == a.Base(pi[o]) + (x - a.Base(o)) && a.Owner(y) == pi[o] && a.Pinned(y)
    ensures x == y
  {
    PinnedOwner(a, y);
    assert a.SlotAt(pi[o]).OutputSlot?;
  }

  lemma RewiredAccepted(a: Config, pi: seq<nat>, s: Slot)
    requires WithinCategories(a, pi)
    requires a.RefsIn(s) && forall r | r in Reads(s) :: !a.Pinned(r)
    ensures (forall k | 0 <= k < |pi| :: pi[k] < |pi|) && |pi| == |a.Compile().places|
    ensures var t := Rewired(a.Compile(), pi, s);
      a.RefsIn(t) && forall r | r in Reads(t) :: !a.Pinned(r)
  {
    MovedInConfig(a, pi, 0);
    var p := a.Compile();
    var rs := Reads(s);
    if s.enabled && s.VirtSlot? { MovedRef(a, pi, s.var2); }
    var t := Rewired(p, pi, s);
    assert |Reads(t)| == |rs|;
    forall j | 0 <= j < |rs|
      ensures 0 <= Reads(t)[j] < a.board.Size() && !a.Pinned(Reads(t)[j])
    {
      assert rs[j] in rs;
      MovedRef(a, pi, rs[j]);
    }
  }

  lemma RenumberedSlot(a: Config, b: Config, pi: seq<nat>, inverse: seq<nat>, k: nat)
    requires RenumbersConfig(a, b, pi, inverse) && k < b.Length()
    ensures |pi| == |a.Compile().places| == a.Length() == b.Length()
    ensures forall i | 0 <= i < |pi| :: pi[i] < |pi|
    ensures k < |inverse| && inverse[k] < a.Length()
    ensures b.SlotAt(k) == Rewired(a.Compile(), pi, a.SlotAt(inverse[k]))
  {
    var p, q := a.Compile(), b.Compile();
    var i := inverse[k];
    assert pi[i] == k;
    assert q.places[pi[i]].slot == Rewired(p, pi, p.places[i].slot);
  }

  /** Position k of b takes only references the simulator accepts. */
  ghost predicate SlotAccepted(b: Config, k: nat)
    requires b.FullLength() && k < b.Length()
  {
    b.RefsIn(b.SlotAt(k)) && forall r | r in Reads(b.SlotAt(k)) :: !b.Pinned(r)
  }

  lemma RenumberedSlotAccepted(a: Config, b: Config, pi: seq<nat>, inverse: seq<nat>, k: nat)
    requires a.Accepted() && RenumbersConfig(a, b, pi, inverse) && WithinCategories(a, pi) && k < b.Length()
    ensures SlotAccepted(b, k)
  {
    RenumberedSlot(a, b, pi, inverse, k);
    RewiredAccepted(a, pi, a.SlotAt(inverse[k]));
    OneLayout(a, b, b.SlotAt(k));
  }

  /** What is accepted of a slot depends on the board alone. */
  lemma OneLayout(a: Config, b: Config, s: Slot)
    requires a.board == b.board
    ensures a.RefsIn(s) == b.RefsIn(s) && forall r | r in Reads(s) :: a.Pinned(r) == b.Pinned(r)
  {
  }

  /** A renumbered configuration is accepted whenever the original is. */
  lemma RenumberedAccepted(a: Config, b: Config, pi: seq<nat>, inverse: seq<nat>)
    requires a.Accepted() && RenumbersConfig(a, b, pi, inverse)
    ensures b.Accepted()
  {
    PermutationStays(a, b, pi, inverse);
    forall k | 0 <= k < b.Length()
      ensures b.RefsIn(b.SlotAt(k)) && forall r | r in Reads(b.SlotAt(k)) :: !b.Pinned(r)
    {
      RenumberedSlotAccepted(a, b, pi, inverse, k);
    }
  }

  /** Renumbering an accepted configuration gives an accepted configuration that shows the
      same in every run, as long as no slot moves past one it reads and CAN outputs in the
      same place on the bus keep their order. */
  lemma RenumberedShowsTheSame(a: Config, b: Config, pi: seq<nat>, inverse: seq<nat>, ticks: seq<Tick>)
    requires a.Accepted() && RenumbersConfig(a, b, pi, inverse)
    requires ReadOrderKept(a.Compile(), pi) && BusOrderKept(a.Compile(), pi)
    ensures b.Accepted() && Shows(a, ticks) == Shows(b, ticks)
  {
    RenumberedAccepted(a, b, pi, inverse);
    CompileValid(a);
    CompileValid(b);
    OneBoard(a, b);
    RenumberingIsInvisible(a.Compile(), b.Compile(), pi, inverse, ticks);
  }
}
