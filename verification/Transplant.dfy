/**
 When two configurations are the same program. A correspondence maps some positions
 of one plan to positions of another such that corresponding slots mean the same and
 read corresponding variables, on the same side of the cycle. Then the two devices
 show the same at every cycle of every run, whatever their other slots do.
 */
module Transplant {
  import opened Blocks
  import opened Engine
  import opened Dataflow

  /** Position i of p reads x where position rho[i] of q reads y. */
  predicate SameRead(p: Plan, q: Plan, rho: map<nat, nat>, i: nat, x: int, y: int)
    requires i in rho
    requires 0 <= x < p.size == |p.owners| && 0 <= y < q.size == |q.owners|
  {
    var o := p.owners[x];
    if o == |p.places| then q.owners[y] == |q.places| && (x == 1) == (y == 1)
    else
      && o < |p.places|
      && o in rho && q.owners[y] == rho[o] < |q.places|
      && x - p.places[o].base == y - q.places[rho[o]].base
      && (o < i <==> rho[o] < rho[i])
  }

  ghost predicate SamePlace(p: Plan, q: Plan, rho: map<nat, nat>, i: nat)
    requires p.Valid() && q.Valid() && i in rho && i < |p.places| && rho[i] < |q.places|
  {
    var s, t := p.places[i], q.places[rho[i]];
    && Erase(s.slot) == Erase(t.slot)
    && (s.slot.DigInSlot? || s.slot.OutputSlot? ==> s.number == t.number)
    && |Reads(s.slot)| == |Reads(t.slot)|
    && forall j | 0 <= j < |Reads(s.slot)| :: SameRead(p, q, rho, i, Reads(s.slot)[j], Reads(t.slot)[j])
  }

  ghost predicate Corresponds(p: Plan, q: Plan, rho: map<nat, nat>)
    requires p.Valid() && q.Valid()
  {
    p.rule == q.rule &&
    forall i | i in rho :: i < |p.places| && rho[i] < |q.places| && SamePlace(p, q, rho, i)
  }

  /** Everything observable corresponds, and later slots still win over earlier ones
      with the same key. */
  ghost predicate Covers(p: Plan, q: Plan, rho: map<nat, nat>) {
    && (forall i | i in rho :: rho[i] < |q.places|)
    && (forall i | 0 <= i < |p.places| && Observed(p, i) :: i in rho)
    && (forall j | 0 <= j < |q.places| && Observed(q, j) ::
        exists i :: 0 <= i < |p.places| && Observed(p, i) && i in rho && rho[i] == j)
    && (forall i, j | 0 <= i < j < |p.places| && Observed(p, i) && Observed(p, j) && KeyOf(p, i) == KeyOf(p, j) ::
        rho[i] < rho[j])
  }

  /** Variables nobody writes keep their power-on value. */
  ghost predicate ConstantsHold(p: Plan, s: State)
    requires WellFormed(p, s)
  {
    forall y | 0 <= y < p.size && p.owners[y] == |p.places| :: s.vars[y] == if y == 1 then 1.0 else 0.0
  }

  ghost predicate Related(p: Plan, q: Plan, rho: map<nat, nat>, s: State, n: State)
    requires WellFormed(p, s) && WellFormed(q, n) && Corresponds(p, q, rho)
  {
    && s.time == n.time && ConstantsHold(p, s) && ConstantsHold(q, n)
    && forall i | i in rho :: CellAt(p, s, i) == CellAt(q, n, rho[i])
  }

  /** rho stays inside both plans. */
  predicate InPlans(p: Plan, q: Plan, rho: map<nat, nat>) {
    forall i | i in rho :: i < |p.places| && rho[i] < |q.places|
  }

  ghost predicate StartsAgree(p: Plan, q: Plan, rho: map<nat, nat>, s: State, n: State, t: Tick)
    requires WellFormed(p, s) && WellFormed(q, n) && InPlans(p, q, rho)
  {
    && ConstantsHold(p, s) && ConstantsHold(q, n)
    && forall i | i in rho :: StartCell(p, s, t, i) == StartCell(q, n, t, rho[i])
  }

  ghost predicate CellsAgree(p: Plan, q: Plan, rho: map<nat, nat>, s: State, n: State, k: nat)
    requires WellFormed(p, s) && WellFormed(q, n) && InPlans(p, q, rho)
  {
    forall i | i in rho && i < k :: CellAt(p, s, i) == CellAt(q, n, rho[i])
  }

  lemma RelatedStart(p: Plan, q: Plan, rho: map<nat, nat>, s: State, n: State, t: Tick)
    requires WellFormed(p, s) && WellFormed(q, n) && Corresponds(p, q, rho) && Related(p, q, rho, s, n)
    ensures InPlans(p, q, rho) && StartsAgree(p, q, rho, s, n, t)
  {
    forall i | i in rho
      ensures i < |p.places| && rho[i] < |q.places|
      ensures StartCell(p, s, t, i) == StartCell(q, n, t, rho[i])
    {
      assert SamePlace(p, q, rho, i);
      ErasedKind(p.places[i].slot, q.places[rho[i]].slot);
      if p.places[i].slot.CanInSlot? {
        ErasedReceive(p.places[i].slot, q.places[rho[i]].slot, CellAt(p, s, i), t.rx, t.extIde, s.time);
      }
    }
  }

  /** What two positions see of a variable, given that its owners' cells agree. */
  lemma CellsSeenAlike(p: Plan, q: Plan, s: State, n: State, t: Tick, s': State, n': State, i: nat, j: nat, x: int,
                       y: int)
    requires WellFormed(p, s) && WellFormed(q, n) && WellFormed(p, s') && WellFormed(q, n')
    requires i <= |p.places| && j <= |q.places| && 0 <= x < p.size && 0 <= y < q.size
    requires p.owners[x] < |p.places| && q.owners[y] < |q.places|
    requires x - p.places[p.owners[x]].base == y - q.places[q.owners[y]].base
    requires p.owners[x] < i <==> q.owners[y] < j
    requires if p.owners[x] < i then CellAt(p, s', p.owners[x]) == CellAt(q, n', q.owners[y])
             else StartCell(p, s, t, p.owners[x]) == StartCell(q, n, t, q.owners[y])
    ensures Seen(p, s, t, s', i, x) == Seen(q, n, t, n', j, y)
  {
    SeenInCell(p, s, t, s', i, x);
    SeenInCell(q, n, t, n', j, y);
  }

  /** Corresponding reads see the same, if everything that has run already agrees. */
  lemma ReadsAgree(p: Plan, q: Plan, rho: map<nat, nat>, s: State, n: State, t: Tick,
                   s': State, n': State, i: nat, x: int, y: int)
    requires WellFormed(p, s) && WellFormed(q, n) && WellFormed(p, s') && WellFormed(q, n')
    requires InPlans(p, q, rho) && StartsAgree(p, q, rho, s, n, t) && CellsAgree(p, q, rho, s', n', i)
    requires i in rho && 0 <= x < p.size && 0 <= y < q.size && SameRead(p, q, rho, i, x, y)
    ensures Seen(p, s, t, s', i, x) == Seen(q, n, t, n', rho[i], y)
  {
    var o := p.owners[x];
    if o == |p.places| {
      SeenInCell(p, s, t, s', i, x);
      SeenInCell(q, n, t, n', rho[i], y);
    } else {
      assert StartCell(p, s, t, o) == StartCell(q, n, t, rho[o]);
      CellsSeenAlike(p, q, s, n, t, s', n', i, rho[i], x, y);
    }
  }

  /** One slot: corresponding cells agree if all earlier ones do. */
  lemma CellAgrees(p: Plan, q: Plan, rho: map<nat, nat>, s: State, n: State, t: Tick,
                   s': State, n': State, i: nat)
    requires WellFormed(p, s) && WellFormed(q, n) && WellFormed(p, s') && WellFormed(q, n')
    requires InPlans(p, q, rho) && StartsAgree(p, q, rho, s, n, t) && CellsAgree(p, q, rho, s', n', i)
    requires i in rho && SamePlace(p, q, rho, i) && s.time == n.time && p.rule == q.rule
    requires SlotEquation(p, s, t, s', i) && SlotEquation(q, n, t, n', rho[i])
    ensures CellAt(p, s', i) == CellAt(q, n', rho[i])
  {
    var a, b := p.places[i], q.places[rho[i]];
    var ins, ins' := SeenInputs(p, s, t, s', i), SeenInputs(q, n, t, n', rho[i]);
    forall j | 0 <= j < |ins|
      ensures ins[j] == ins'[j]
    {
      ReadsAgree(p, q, rho, s, n, t, s', n', i, Reads(a.slot)[j], Reads(b.slot)[j]);
    }
    assert ins == ins';
  }

  lemma OneEquation(p: Plan, s: State, t: Tick, n: State, k: nat)
    requires WellFormed(p, s) && Equations(p, s, t, n) && k < |p.places|
    ensures SlotEquation(p, s, t, n, k)
  {
  }

  /** Agreement below each position carries over to the position, so all agree. */
  lemma {:induction false} UpToAll(p: Plan, q: Plan, rho: map<nat, nat>, s: State, n: State, k: nat)
    requires WellFormed(p, s) && WellFormed(q, n) && InPlans(p, q, rho) && k <= |p.places|
    requires forall i | i in rho && CellsAgree(p, q, rho, s, n, i) :: CellAt(p, s, i) == CellAt(q, n, rho[i])
    ensures CellsAgree(p, q, rho, s, n, k)
  {
    if k > 0 { UpToAll(p, q, rho, s, n, k - 1); }
  }

  lemma AllCellsAgree(p: Plan, q: Plan, rho: map<nat, nat>, s: State, n: State, t: Tick, s': State, n': State)
    requires WellFormed(p, s) && WellFormed(q, n) && s.time == n.time
    requires Equations(p, s, t, s') && Equations(q, n, t, n')
    requires InPlans(p, q, rho) && StartsAgree(p, q, rho, s, n, t) && Corresponds(p, q, rho)
    ensures CellsAgree(p, q, rho, s', n', |p.places|)
  {
    forall i | i in rho && CellsAgree(p, q, rho, s', n', i)
      ensures CellAt(p, s', i) == CellAt(q, n', rho[i])
    {
      OneEquation(p, s, t, s', i);
      OneEquation(q, n, t, n', rho[i]);
      CellAgrees(p, q, rho, s, n, t, s', n', i);
    }
    UpToAll(p, q, rho, s', n', |p.places|);
  }

  lemma StepRelated(p: Plan, q: Plan, rho: map<nat, nat>, s: State, n: State, t: Tick)
    requires WellFormed(p, s) && WellFormed(q, n) && Corresponds(p, q, rho) && Related(p, q, rho, s, n)
    ensures Related(p, q, rho, Step(p, s, t), Step(q, n, t))
  {
    StepSatisfies(p, s, t);
    StepSatisfies(q, n, t);
    RelatedStart(p, q, rho, s, n, t);
    AllCellsAgree(p, q, rho, s, n, t, Step(p, s, t), Step(q, n, t));
  }

  lemma InitRelated(p: Plan, q: Plan, rho: map<nat, nat>)
    requires p.Valid() && q.Valid() && Corresponds(p, q, rho)
    ensures Related(p, q, rho, Init(p), Init(q))
  {
    forall i | i in rho
      ensures CellAt(p, Init(p), i) == CellAt(q, Init(q), rho[i])
    {
      assert SamePlace(p, q, rho, i);
      ErasedKind(p.places[i].slot, q.places[rho[i]].slot);
      InitCell(p, i);
      InitCell(q, rho[i]);
    }
  }

  lemma InitCell(p: Plan, k: nat)
    requires p.Valid() && k < |p.places|
    ensures CellAt(p, Init(p), k) == Cell(PowerOn(p.places[k].slot), seq(Width(p.places[k].slot), _ => 0.0))
  {
    assert !p.Owns(k, 1);
  }

  lemma {:induction false} RunRelated(p: Plan, q: Plan, rho: map<nat, nat>, ticks: seq<Tick>)
    requires p.Valid() && q.Valid() && Corresponds(p, q, rho)
    ensures Related(p, q, rho, Run(p, ticks), Run(q, ticks))
  {
    if |ticks| == 0 {
      InitRelated(p, q, rho);
    } else {
      var before := ticks[..|ticks| - 1];
      RunRelated(p, q, rho, before);
      StepRelated(p, q, rho, Run(p, before), Run(q, before), ticks[|ticks| - 1]);
    }
  }

  // ----- observations

  lemma {:induction false} KeyShown(p: Plan, s: State, n: nat, k: nat)
    requires WellFormed(p, s) && k < n <= |p.places| && Observed(p, k)
    ensures KeyOf(p, k) in ObserveUpTo(p, s, n)
  {
    if k < n - 1 { KeyShown(p, s, n - 1, k); }
  }

  /** The last of the first n positions that is observed under this key; -1 if there is none. */
  function LastOf(p: Plan, n: nat, key: ObsKey): (k: int)
    requires n <= |p.places|
    ensures -1 <= k < n && (k >= 0 ==> Observed(p, k) && KeyOf(p, k) == key)
    ensures forall j | k < j < n && Observed(p, j) :: KeyOf(p, j) != key
  {
    if n == 0 then -1
    else if Observed(p, n - 1) && KeyOf(p, n - 1) == key then n - 1
    else LastOf(p, n - 1, key)
  }

  /** A key is shown when some position is observed under it. */
  lemma {:induction false} ShownByLast(p: Plan, s: State, n: nat, key: ObsKey)
    requires WellFormed(p, s) && n <= |p.places|
    ensures key in ObserveUpTo(p, s, n) <==> LastOf(p, n, key) >= 0
  {
    if n > 0 { ShownByLast(p, s, n - 1, key); }
  }

  /** The last observed position with a key decides. */
  lemma {:induction false} ObservedValue(p: Plan, s: State, n: nat, k: nat)
    requires WellFormed(p, s) && k < n <= |p.places| && Observed(p, k)
    requires forall j | k < j < n && Observed(p, j) :: KeyOf(p, j) != KeyOf(p, k)
    ensures KeyOf(p, k) in ObserveUpTo(p, s, n) && ObserveUpTo(p, s, n)[KeyOf(p, k)] == Shown(p, s, k)
  {
    if k < n - 1 { ObservedValue(p, s, n - 1, k); }
  }

  /** What corresponding positions are called, and what they show. */
  predicate SameKeys(p: Plan, q: Plan, rho: map<nat, nat>) {
    && InPlans(p, q, rho)
    && forall i | i in rho ::
      (Observed(p, i) <==> Observed(q, rho[i])) && (Observed(p, i) ==> KeyOf(p, i) == KeyOf(q, rho[i]))
  }

  ghost predicate SameShown(p: Plan, q: Plan, rho: map<nat, nat>, s: State, n: State)
    requires WellFormed(p, s) && WellFormed(q, n) && SameKeys(p, q, rho)
  {
    forall i | i in rho && Observed(p, i) :: Shown(p, s, i) == Shown(q, n, rho[i])
  }

  lemma RelatedView(p: Plan, q: Plan, rho: map<nat, nat>, s: State, n: State)
    requires WellFormed(p, s) && WellFormed(q, n) && Corresponds(p, q, rho) && Related(p, q, rho, s, n)
    ensures SameKeys(p, q, rho) && SameShown(p, q, rho, s, n)
  {
    forall i | i in rho
      ensures i < |p.places| && rho[i] < |q.places|
      ensures Observed(p, i) <==> Observed(q, rho[i])
      ensures Observed(p, i) ==> KeyOf(p, i) == KeyOf(q, rho[i]) && Shown(p, s, i) == Shown(q, n, rho[i])
    {
      assert SamePlace(p, q, rho, i);
      ErasedKind(p.places[i].slot, q.places[rho[i]].slot);
      assert CellAt(p, s, i) == CellAt(q, n, rho[i]);
      if p.places[i].slot.OutputSlot? {
        assert CellAt(p, s, i).vals[0] == CellAt(q, n, rho[i]).vals[0];
      }
    }
  }

  lemma SameDomain(p: Plan, q: Plan, rho: map<nat, nat>, s: State, n: State, key: ObsKey)
    requires WellFormed(p, s) && WellFormed(q, n) && SameKeys(p, q, rho) && Covers(p, q, rho)
    ensures key in Observe(p, s) <==> key in Observe(q, n)
  {
    if key in Observe(q, n) {
      ShownByLast(q, n, |q.places|, key);
      var j := LastOf(q, |q.places|, key);
      var i :| 0 <= i < |p.places| && Observed(p, i) && i in rho && rho[i] == j;
      KeyShown(p, s, |p.places|, i);
    }
    if key in Observe(p, s) {
      ShownByLast(p, s, |p.places|, key);
      var i := LastOf(p, |p.places|, key);
      KeyShown(q, n, |q.places|, rho[i]);
    }
  }

  /** If i is the last with its key, no position after rho[i] has it. */
  lemma NotLater(p: Plan, q: Plan, rho: map<nat, nat>, i: nat, j: nat)
    requires SameKeys(p, q, rho) && Covers(p, q, rho)
    requires i < |p.places| && Observed(p, i) && rho[i] < j < |q.places| && Observed(q, j)
    requires forall l | i < l < |p.places| && Observed(p, l) :: KeyOf(p, l) != KeyOf(p, i)
    ensures KeyOf(q, j) != KeyOf(p, i)
  {
    var l :| 0 <= l < |p.places| && Observed(p, l) && l in rho && rho[l] == j;
  }

  lemma SameValue(p: Plan, q: Plan, rho: map<nat, nat>, s: State, n: State, key: ObsKey)
    requires WellFormed(p, s) && WellFormed(q, n) && SameKeys(p, q, rho) && Covers(p, q, rho)
    requires SameShown(p, q, rho, s, n) && key in Observe(p, s)
    ensures key in Observe(q, n) && Observe(p, s)[key] == Observe(q, n)[key]
  {
    ShownByLast(p, s, |p.places|, key);
    var i := LastOf(p, |p.places|, key);
    forall j | rho[i] < j < |q.places| && Observed(q, j)
      ensures KeyOf(q, j) != key
    {
      NotLater(p, q, rho, i, j);
    }
    ObservedValue(p, s, |p.places|, i);
    ObservedValue(q, n, |q.places|, rho[i]);
  }

  lemma SameView(p: Plan, q: Plan, rho: map<nat, nat>, s: State, n: State)
    requires WellFormed(p, s) && WellFormed(q, n) && SameKeys(p, q, rho) && Covers(p, q, rho)
    requires SameShown(p, q, rho, s, n)
    ensures Observe(p, s) == Observe(q, n)
  {
    var a, b := Observe(p, s), Observe(q, n);
    forall key
      ensures key in a <==> key in b
    {
      SameDomain(p, q, rho, s, n, key);
    }
    forall key | key in a
      ensures a[key] == b[key]
    {
      SameValue(p, q, rho, s, n, key);
    }
    assert a.Keys == b.Keys;
  }

  /** Corresponding plans show the same at the end of every run, of any length. */
  lemma ObservationallyEqual(p: Plan, q: Plan, rho: map<nat, nat>, ticks: seq<Tick>)
    requires p.Valid() && q.Valid() && Corresponds(p, q, rho) && Covers(p, q, rho)
    ensures Observe(p, Run(p, ticks)) == Observe(q, Run(q, ticks))
  {
    RunRelated(p, q, rho, ticks);
    RelatedView(p, q, rho, Run(p, ticks), Run(q, ticks));
    SameView(p, q, rho, Run(p, ticks), Run(q, ticks));
  }
}
