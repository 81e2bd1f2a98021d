/**
 What may change in a configuration without changing the device: slots nothing
 observable depends on, and slot numbers, as long as no slot moves past one it reads.
 */
module Equivalence {
  import opened Blocks
  import opened Engine
  import opened Configs
  import opened Transplant

  /** What a device shows after a stimulus of any length. */
  function View(p: Plan, ticks: seq<Tick>): map<ObsKey, real>
    requires p.Valid()
  {
    Observe(p, Run(p, ticks))
  }

  /** Plans of the same board: only the slots' configuration may differ. */
  ghost predicate SameLayout(p: Plan, q: Plan) {
    && p.size == q.size && p.owners == q.owners && p.rule == q.rule && |p.places| == |q.places|
    && forall k | 0 <= k < |p.places| ::
      p.places[k].base == q.places[k].base && p.places[k].number == q.places[k].number
  }

  lemma OneBoard(a: Config, b: Config)
    requires a.FullLength() && b.FullLength() && a.board == b.board
    ensures SameLayout(a.Compile(), b.Compile())
  {
    var p, q := a.Compile(), b.Compile();
    forall y | 0 <= y < p.size
      ensures p.owners[y] == q.owners[y]
    {
      SameOwner(a, b, y);
    }
    assert p.owners == q.owners;
    forall k: nat | k < |p.places|
      ensures p.places[k].base == q.places[k].base && p.places[k].number == q.places[k].number
    {
      SameRow(a, b, k);
    }
  }

  lemma SameOwner(a: Config, b: Config, y: int)
    requires a.FullLength() && b.FullLength() && a.board == b.board
    ensures a.Owner(y) == b.Owner(y)
  {
  }

  lemma SameRow(a: Config, b: Config, k: nat)
    requires a.FullLength() && b.FullLength() && a.board == b.board && k < a.Length()
    ensures a.Base(k) == b.Base(k) && a.NumberAt(k) == b.NumberAt(k)
  {
  }

  // ----- non-interference

  /** Every variable a live slot reads has a live writer, or none. */
  predicate Closed(p: Plan, live: set<nat>)
    requires p.size == |p.owners|
  {
    forall k | k in live :: k < |p.places| && ReadsLive(p, live, Reads(p.places[k].slot))
  }

  predicate ReadsLive(p: Plan, live: set<nat>, rs: seq<int>) {
    forall j | 0 <= j < |rs| && 0 <= rs[j] < |p.owners| :: p.owners[rs[j]] in live || p.owners[rs[j]] == |p.places|
  }

  predicate SameSlot(s: Slot, t: Slot) { Erase(s) == Erase(t) && Reads(s) == Reads(t) }

  /** Two devices of one board that agree on a closed set of slots containing everything
      observable show the same in every run, whatever their other slots do. */
  lemma NonInterference(p: Plan, q: Plan, live: set<nat>, ticks: seq<Tick>)
    requires p.Valid() && q.Valid() && SameLayout(p, q)
    requires Closed(p, live)
    requires forall k | k in live :: SameSlot(p.places[k].slot, q.places[k].slot)
    requires forall k: nat | k < |p.places| && (Observed(p, k) || Observed(q, k)) :: k in live
    ensures View(p, ticks) == View(q, ticks)
  {
    var rho := map k | k in live :: k;
    forall i | i in rho
      ensures i < |p.places| && rho[i] < |q.places| && SamePlace(p, q, rho, i)
    {
      assert SameSlot(p.places[i].slot, q.places[i].slot);
    }
    assert Corresponds(p, q, rho);
    LiveCovers(p, q, live, rho);
    ObservationallyEqual(p, q, rho, ticks);
  }

  lemma LiveCovers(p: Plan, q: Plan, live: set<nat>, rho: map<nat, nat>)
    requires SameLayout(p, q) && rho == map k | k in live :: k
    requires forall k | k in live :: k < |p.places| && SameSlot(p.places[k].slot, q.places[k].slot)
    requires forall k: nat | k < |p.places| && (Observed(p, k) || Observed(q, k)) :: k in live
    ensures Covers(p, q, rho)
  {
    forall j: nat | j < |q.places| && Observed(q, j)
      ensures exists i :: 0 <= i < |p.places| && Observed(p, i) && i in rho && rho[i] == j
    {
      assert j in live && SameSlot(p.places[j].slot, q.places[j].slot);
      ErasedKind(p.places[j].slot, q.places[j].slot);
      assert Observed(p, j) && rho[j] == j;
    }
  }

  // ----- renumbering

  predicate Permutes(pi: seq<nat>, inverse: seq<nat>) {
    && |pi| == |inverse|
    && (forall k | 0 <= k < |pi| :: pi[k] < |pi| && inverse[pi[k]] == k)
    && (forall k | 0 <= k < |pi| :: inverse[k] < |pi| && pi[inverse[k]] == k)
  }

  /** Where variable x goes when position k becomes position pi[k]. */
  function Moved(p: Plan, pi: seq<nat>, x: int): int
    requires |pi| == |p.places| && forall k | 0 <= k < |pi| :: pi[k] < |pi|
  {
    if 0 <= x < |p.owners| && p.owners[x] < |p.places|
    then p.places[pi[p.owners[x]]].base + (x - p.places[p.owners[x]].base)
    else x
  }

  /** s with every variable reference rewritten. */
  function Rewired(p: Plan, pi: seq<nat>, s: Slot): Slot
    requires |pi| == |p.places| && forall k | 0 <= k < |pi| :: pi[k] < |pi|
  {
    match s
    case OutputSlot(en, x) => OutputSlot(en, Moved(p, pi, x))
    case DigInSlot(_, _, _, _) => s
    case CanInSlot(_, _, _, _, _, _, _, _, _, _, _, _, _, _) => s
    case CanOutSlot(en, x, ide, id, st, len, f, o, bo, iv) =>
      CanOutSlot(en, Moved(p, pi, x), ide, id, st, len, f, o, bo, iv)
    case VirtSlot(en, n0, v0, c0, n1, v1, c1, n2, v2, m) =>
      VirtSlot(en, n0, Moved(p, pi, v0), c0, n1, Moved(p, pi, v1), c1, n2, Moved(p, pi, v2), m)
    case FlasherSlot(en, x, on, off) => FlasherSlot(en, Moved(p, pi, x), on, off)
    case CounterSlot(en, i, d, r, lo, hi, ie, de, re, w, h, rt) =>
      CounterSlot(en, Moved(p, pi, i), Moved(p, pi, d), Moved(p, pi, r), lo, hi, ie, de, re, w, h, rt)
    case ConditionSlot(en, x, op, arg) => ConditionSlot(en, Moved(p, pi, x), op, arg)
  }

  lemma RewiredKind(p: Plan, pi: seq<nat>, s: Slot)
    requires |pi| == |p.places| && forall k | 0 <= k < |pi| :: pi[k] < |pi|
    ensures SameCategory(s, Rewired(p, pi, s)) && Rewired(p, pi, s).enabled == s.enabled
  {
  }

  /** Slots of the same category. */
  predicate SameCategory(s: Slot, t: Slot) {
    && s.OutputSlot? == t.OutputSlot? && s.DigInSlot? == t.DigInSlot? && s.CanInSlot? == t.CanInSlot?
    && s.CanOutSlot? == t.CanOutSlot? && s.VirtSlot? == t.VirtSlot? && s.FlasherSlot? == t.FlasherSlot?
    && s.CounterSlot? == t.CounterSlot?
  }

  /** q is p with its slots permuted within their categories and every reference
      rewritten. Outputs and digital inputs are pins and stay where they are. */
  predicate Renumbers(p: Plan, q: Plan, pi: seq<nat>, inverse: seq<nat>) {
    && |pi| == |p.places| == |q.places| && Permutes(pi, inverse)
    && (forall k | 0 <= k < |pi| :: SameCategory(p.places[k].slot, p.places[pi[k]].slot))
    && (forall k | 0 <= k < |pi| && (p.places[k].slot.OutputSlot? || p.places[k].slot.DigInSlot?) :: pi[k] == k)
    && (forall k | 0 <= k < |pi| :: q.places[pi[k]].slot == Rewired(p, pi, p.places[k].slot))
  }

  /** Every slot stays on the same side of every slot it reads. */
  predicate ReadOrderKept(p: Plan, pi: seq<nat>)
    requires |pi| == |p.places|
  {
    forall k | 0 <= k < |pi| :: KeepsSide(p, pi, k, Reads(p.places[k].slot))
  }

  predicate KeepsSide(p: Plan, pi: seq<nat>, k: nat, rs: seq<int>)
    requires k < |pi| == |p.places|
  {
    forall j | 0 <= j < |rs| && 0 <= rs[j] < |p.owners| && p.owners[rs[j]] < |pi| ::
      p.owners[rs[j]] < k <==> pi[p.owners[rs[j]]] < pi[k]
  }

  /** CAN outputs with the same place on the bus keep their order. */
  predicate BusOrderKept(p: Plan, pi: seq<nat>)
    requires |pi| == |p.places|
  {
    forall i, j | 0 <= i < j < |pi| && Observed(p, i) && Observed(p, j) && KeyOf(p, i) == KeyOf(p, j) ::
      pi[i] < pi[j]
  }

  lemma RewiredWidth(p: Plan, q: Plan, pi: seq<nat>, inverse: seq<nat>, k: nat)
    requires Renumbers(p, q, pi, inverse) && k < |pi|
    ensures Width(q.places[pi[k]].slot) == Width(p.places[k].slot)
  {
    assert q.places[pi[k]].slot == Rewired(p, pi, p.places[k].slot);
  }

  lemma OwnedBy(p: Plan, k: nat, y: int)
    requires p.Valid() && k < |p.places|
    requires p.places[k].base <= y < p.places[k].base + Width(p.places[k].slot)
    ensures 2 <= y < p.size && p.owners[y] == k
  {
    assert p.Owns(k, y);
  }

  lemma MovedVar(p: Plan, q: Plan, pi: seq<nat>, inverse: seq<nat>, x: int)
    requires p.Valid() && q.Valid() && SameLayout(p, q) && Renumbers(p, q, pi, inverse) && 0 <= x < p.size
    ensures p.owners[x] == |p.places| ==> Moved(p, pi, x) == x
    ensures p.owners[x] < |p.places| ==>
      2 <= Moved(p, pi, x) < q.size && q.owners[Moved(p, pi, x)] == pi[p.owners[x]]
      && Moved(p, pi, x) - q.places[pi[p.owners[x]]].base == x - p.places[p.owners[x]].base
  {
    var o := p.owners[x];
    if o < |p.places| {
      assert p.Owns(o, x);
      RewiredWidth(p, q, pi, inverse, o);
      OwnedBy(q, pi[o], Moved(p, pi, x));
    }
  }

  lemma RewiredSlot(p: Plan, q: Plan, pi: seq<nat>, inverse: seq<nat>, s: Slot)
    requires p.Valid() && q.Valid() && SameLayout(p, q) && Renumbers(p, q, pi, inverse)
    requires ReadsWithin(Reads(s), p.size)
    ensures Erase(s) == Erase(Rewired(p, pi, s))
    ensures |Reads(s)| == |Reads(Rewired(p, pi, s))|
    ensures forall j | 0 <= j < |Reads(s)| :: Reads(Rewired(p, pi, s))[j] == Moved(p, pi, Reads(s)[j])
  {
    if s.VirtSlot? && s.enabled {
      if s.var2 != 0 { assert Reads(s)[2] == s.var2; MovedVar(p, q, pi, inverse, s.var2); }
      RewiredVirt(p, pi, s, Rewired(p, pi, s));
    } else {
      RewiredOther(p, pi, s, Rewired(p, pi, s));
    }
  }

  lemma RewiredVirt(p: Plan, pi: seq<nat>, s: Slot, t: Slot)
    requires |pi| == |p.places| && (forall k | 0 <= k < |pi| :: pi[k] < |pi|) && t == Rewired(p, pi, s)
    requires s.VirtSlot? && s.enabled && (s.var2 == 0 <==> Moved(p, pi, s.var2) == 0)
    ensures Erase(s) == Erase(t) && |Reads(s)| == |Reads(t)|
    ensures forall j | 0 <= j < |Reads(s)| :: Reads(t)[j] == Moved(p, pi, Reads(s)[j])
  {
  }

  lemma RewiredOther(p: Plan, pi: seq<nat>, s: Slot, t: Slot)
    requires |pi| == |p.places| && (forall k | 0 <= k < |pi| :: pi[k] < |pi|) && t == Rewired(p, pi, s)
    requires !s.VirtSlot? || !s.enabled
    ensures Erase(s) == Erase(t) && |Reads(s)| == |Reads(t)|
    ensures forall j | 0 <= j < |Reads(s)| :: Reads(t)[j] == Moved(p, pi, Reads(s)[j])
  {
  }

  /** Renumbering slots leaves every run unchanged whenever the relative order is kept
      for each pair of slots where one reads the other. */
  lemma RenumberingIsInvisible(p: Plan, q: Plan, pi: seq<nat>, inverse: seq<nat>, ticks: seq<Tick>)
    requires p.Valid() && q.Valid() && SameLayout(p, q) && Renumbers(p, q, pi, inverse)
    requires ReadOrderKept(p, pi) && BusOrderKept(p, pi)
    ensures View(p, ticks) == View(q, ticks)
  {
    var rho := map k: nat | k < |pi| :: pi[k];
    RenumberedCorresponds(p, q, pi, inverse, rho);
    RenumberedCovers(p, q, pi, inverse, rho);
    ObservationallyEqual(p, q, rho, ticks);
  }

  lemma RenumberedPlace(p: Plan, q: Plan, pi: seq<nat>, inverse: seq<nat>, rho: map<nat, nat>, i: nat)
    requires p.Valid() && q.Valid() && SameLayout(p, q) && Renumbers(p, q, pi, inverse) && ReadOrderKept(p, pi)
    requires rho == map k: nat | k < |pi| :: pi[k]
    requires i < |pi|
    ensures SamePlace(p, q, rho, i)
  {
    var s := p.places[i].slot;
    RewiredSlot(p, q, pi, inverse, s);
    assert q.places[rho[i]].slot == Rewired(p, pi, s);
    assert s.DigInSlot? || s.OutputSlot? ==> pi[i] == i;
    forall j | 0 <= j < |Reads(s)|
      ensures SameRead(p, q, rho, i, Reads(s)[j], Reads(q.places[pi[i]].slot)[j])
    {
      assert KeepsSide(p, pi, i, Reads(s));
      RenumberedRead(p, q, pi, inverse, rho, i, Reads(s)[j]);
    }
  }

  lemma RenumberedRead(p: Plan, q: Plan, pi: seq<nat>, inverse: seq<nat>, rho: map<nat, nat>, i: nat, x: int)
    requires p.Valid() && q.Valid() && SameLayout(p, q) && Renumbers(p, q, pi, inverse)
    requires rho == map k: nat | k < |pi| :: pi[k]
    requires i < |pi| && 0 <= x < p.size
    requires p.owners[x] < |pi| ==> (p.owners[x] < i <==> pi[p.owners[x]] < pi[i])
    ensures 0 <= Moved(p, pi, x) < q.size && SameRead(p, q, rho, i, x, Moved(p, pi, x))
  {
    MovedVar(p, q, pi, inverse, x);
  }

  lemma RenumberedCorresponds(p: Plan, q: Plan, pi: seq<nat>, inverse: seq<nat>, rho: map<nat, nat>)
    requires p.Valid() && q.Valid() && SameLayout(p, q) && Renumbers(p, q, pi, inverse) && ReadOrderKept(p, pi)
    requires rho == map k: nat | k < |pi| :: pi[k]
    ensures Corresponds(p, q, rho)
  {
    forall i | i in rho
      ensures i < |p.places| && rho[i] < |q.places| && SamePlace(p, q, rho, i)
    {
      RenumberedPlace(p, q, pi, inverse, rho, i);
    }
  }

  lemma RenumberedCovers(p: Plan, q: Plan, pi: seq<nat>, inverse: seq<nat>, rho: map<nat, nat>)
    requires Renumbers(p, q, pi, inverse) && BusOrderKept(p, pi) && rho == map k: nat | k < |pi| :: pi[k]
    ensures Covers(p, q, rho)
  {
    forall j: nat | j < |q.places| && Observed(q, j)
      ensures exists i :: 0 <= i < |p.places| && Observed(p, i) && i in rho && rho[i] == j
    {
      CoveredFrom(p, q, pi, inverse, rho, j, inverse[j]);
    }
  }

  lemma CoveredFrom(p: Plan, q: Plan, pi: seq<nat>, inverse: seq<nat>, rho: map<nat, nat>, j: nat, i: nat)
    requires |p.places| == |q.places| && Renumbers(p, q, pi, inverse) && rho == map k: nat | k < |pi| :: pi[k]
    requires j < |q.places| && Observed(q, j) && i == inverse[j]
    ensures i < |p.places| && Observed(p, i) && i in rho && rho[i] == j
  {
    assert pi[i] == j;
    RenumberedObserved(p, q, pi, inverse, i);
  }

  lemma RenumberedObserved(p: Plan, q: Plan, pi: seq<nat>, inverse: seq<nat>, i: nat)
    requires Renumbers(p, q, pi, inverse) && i < |pi|
    ensures Observed(q, pi[i]) == Observed(p, i)
  {
    var s := p.places[i].slot;
    RewiredKind(p, pi, s);
    assert q.places[pi[i]].slot == Rewired(p, pi, s);
  }
}
