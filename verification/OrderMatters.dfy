/**
 Which renumberings are invisible on every configuration of a board: exactly those that
 move CAN inputs only. Any other permutation of the slots puts two slots of one category
 in the opposite order, and a chain through the two shows it.
 */
module OrderMatters {
  import opened Boards
  import opened Blocks
  import opened Engine
  import opened Configs
  import opened Equivalence
  import opened ConfigEquivalence
  import opened Chains

  // ----- a renumbered chain is a chain

  lemma MovedBase(c: Config, pi: seq<nat>, k: nat)
    requires WithinCategories(c, pi) && k < c.Length() && (Logic(c.SlotAt(k)) || c.SlotAt(k).CanOutSlot?)
    ensures |pi| == |c.Compile().places| && (forall l | 0 <= l < |pi| :: pi[l] < |pi|)
    ensures pi[k] < c.Length() && Moved(c.Compile(), pi, c.Base(k)) == c.Base(pi[k])
  {
    assert StaysInCategory(c, pi, k);
    Followable(c, k);
    MovedInConfig(c, pi, c.Base(k));
    if c.SlotAt(k).CanOutSlot? {
      CanOutVar(c, k);
      CanOutVar(c, pi[k]);
      ConstantsFree(c);
    } else {
      LogicVar(c, k);
    }
  }

  lemma MovedConstants(c: Config, pi: seq<nat>)
    requires WithinCategories(c, pi)
    ensures |pi| == |c.Compile().places| && (forall l | 0 <= l < |pi| :: pi[l] < |pi|)
    ensures Moved(c.Compile(), pi, 0) == 0 && Moved(c.Compile(), pi, 1) == 1
  {
    ConstantsFree(c);
    MovedInConfig(c, pi, 0);
    MovedInConfig(c, pi, 1);
  }

  /** What is put at a position, rewritten, is what is put at the position it moves to. */
  lemma PutRewired(p: Plan, pi: seq<nat>, inverse: seq<nat>, u: nat, v: nat, y: int, z: int, y': int, z': int,
                   k: nat, s: Slot)
    requires |pi| == |p.places| && Permutes(pi, inverse) && k < |pi| && u < |pi| && v < |pi| && IsIdle(s)
    requires Moved(p, pi, 0) == 0 && Moved(p, pi, 1) == 1 && Moved(p, pi, y) == y' && Moved(p, pi, z) == z'
    requires s.OutputSlot? ==> pi[k] == k
    ensures Rewired(p, pi, Put(u, v, y, z, k, s)) == Put(pi[u], pi[v], y', z', pi[k], s)
  {
    assert inverse[pi[u]] == u && inverse[pi[v]] == v && inverse[pi[k]] == k;
  }

  /** Permuting within categories is a matter of the board alone. */
  lemma OneBoardStays(a: Config, b: Config, pi: seq<nat>)
    requires a.FullLength() && b.FullLength() && a.board == b.board && WithinCategories(a, pi)
    ensures WithinCategories(b, pi)
  {
    forall k: nat | k < b.Length()
      ensures StaysInCategory(b, pi, k)
    {
      assert StaysInCategory(a, pi, k);
      SameKindAt(a, b, k);
      SameKindAt(a, b, pi[k]);
    }
  }

  lemma SameKindAt(a: Config, b: Config, k: nat)
    requires a.FullLength() && b.FullLength() && a.board == b.board && k < a.Length()
    ensures k < b.Length() && SameCategory(a.SlotAt(k), b.SlotAt(k))
  {
  }

  lemma LinkedMoves(b: Board, pi: seq<nat>, inverse: seq<nat>, u: nat, v: nat)
    requires Linked(b, u, v) && WithinCategories(Blank(b), pi) && Permutes(pi, inverse)
    ensures u < |pi| && v < |pi| && Linked(b, pi[u], pi[v])
  {
    assert StaysInCategory(Blank(b), pi, u) && StaysInCategory(Blank(b), pi, v);
    assert inverse[pi[u]] == u && inverse[pi[v]] == v;
  }

  /** Slot k of one configuration, rewritten, is the slot it becomes in the other. */
  ghost predicate SlotMoves(a: Config, c: Config, pi: seq<nat>, k: nat) {
    && a.FullLength() && c.FullLength() && k < |pi| == a.Length() == |a.Compile().places|
    && (forall l | 0 <= l < |pi| :: pi[l] < |pi|) && pi[k] < c.Length()
    && c.SlotAt(pi[k]) == Rewired(a.Compile(), pi, a.SlotAt(k))
  }

  lemma ChainSlotMoves(b: Board, pi: seq<nat>, inverse: seq<nat>, u: nat, v: nat, a: Config, c: Config, k: nat)
    requires Linked(b, u, v) && Permutes(pi, inverse) && WithinCategories(Blank(b), pi) && k < |pi|
    requires u < |pi| && v < |pi| && Linked(b, pi[u], pi[v]) && a == Chain(b, u, v) && c == Chain(b, pi[u], pi[v])
    ensures SlotMoves(a, c, pi, k)
  {
    var e := Blank(b);
    assert StaysInCategory(e, pi, k);
    ChainSlot(b, u, v, k);
    ChainSlot(b, pi[u], pi[v], pi[k]);
    IdleIsIdle(b, k);
    IdleIsIdle(b, pi[k]);
    IdleAlike(IdleAt(b, k), IdleAt(b, pi[k]));
    ChainRefsMove(b, pi, u, v, a);
    PutRewired(a.Compile(), pi, inverse, u, v, e.Base(u), e.Base(v), e.Base(pi[u]), e.Base(pi[v]), k, IdleAt(b, k));
  }

  lemma ChainRefsMove(b: Board, pi: seq<nat>, u: nat, v: nat, a: Config)
    requires Linked(b, u, v) && WithinCategories(Blank(b), pi) && a == Chain(b, u, v)
    requires u < |pi| && v < |pi| && pi[u] < Blank(b).Length() && pi[v] < Blank(b).Length()
    ensures |pi| == |a.Compile().places| && (forall l | 0 <= l < |pi| :: pi[l] < |pi|)
    ensures var e, p := Blank(b), a.Compile();
      && Moved(p, pi, 0) == 0 && Moved(p, pi, 1) == 1
      && Moved(p, pi, e.Base(u)) == e.Base(pi[u]) && Moved(p, pi, e.Base(v)) == e.Base(pi[v])
  {
    var e := Blank(b);
    OneBoardStays(e, a, pi);
    MovedConstants(a, pi);
    SameKindAt(e, a, u);
    SameKindAt(e, a, v);
    MovedBase(a, pi, u);
    MovedBase(a, pi, v);
    SameRow(e, a, u);
    SameRow(e, a, v);
    SameRow(e, a, pi[u]);
    SameRow(e, a, pi[v]);
  }

  lemma SlotwiseRenumbers(a: Config, c: Config, pi: seq<nat>, inverse: seq<nat>)
    requires a.FullLength() && c.FullLength() && a.board == c.board && Permutes(pi, inverse)
    requires WithinCategories(a, pi)
    requires forall k: nat | k < |pi| :: SlotMoves(a, c, pi, k)
    ensures RenumbersConfig(a, c, pi, inverse)
  {
    var p, q := a.Compile(), c.Compile();
    forall k: nat | k < |pi|
      ensures SameCategory(p.places[k].slot, p.places[pi[k]].slot)
      ensures p.places[k].slot.OutputSlot? || p.places[k].slot.DigInSlot? ==> pi[k] == k
      ensures q.places[pi[k]].slot == Rewired(p, pi, p.places[k].slot)
    {
      assert StaysInCategory(a, pi, k) && SlotMoves(a, c, pi, k);
    }
  }

  lemma ChainRenumbers(b: Board, pi: seq<nat>, inverse: seq<nat>, u: nat, v: nat, a: Config, c: Config)
    requires Linked(b, u, v) && Permutes(pi, inverse) && WithinCategories(Blank(b), pi)
    requires u < |pi| && v < |pi| && Linked(b, pi[u], pi[v]) && a == Chain(b, u, v) && c == Chain(b, pi[u], pi[v])
    ensures RenumbersConfig(a, c, pi, inverse)
  {
    OneBoardStays(Blank(b), a, pi);
    forall k: nat | k < |pi|
      ensures SlotMoves(a, c, pi, k)
    {
      ChainSlotMoves(b, pi, inverse, u, v, a, c, k);
    }
    SlotwiseRenumbers(a, c, pi, inverse);
  }

  /** On a board with an output, a permutation of the slots that puts two logic slots or two
      CAN outputs of one category in the opposite order shows on an accepted configuration,
      whatever else it does. */
  lemma ReversalShows(b: Board, pi: seq<nat>, inverse: seq<nat>, u: nat, v: nat)
      returns (a: Config, c: Config, ticks: seq<Tick>)
    requires Linked(b, u, v) && WithinCategories(Blank(b), pi) && Permutes(pi, inverse)
    requires u < v < |pi| && pi[u] > pi[v]
    ensures a.board == b && a.Accepted() && c.Accepted() && RenumbersConfig(a, c, pi, inverse)
    ensures Shows(a, ticks) != Shows(c, ticks)
  {
    LinkedMoves(b, pi, inverse, u, v);
    a, c := Chain(b, u, v), Chain(b, pi[u], pi[v]);
    ChainRenumbers(b, pi, inverse, u, v, a, c);
    ticks := Silence(Watch(IdleAt(b, u)));
    assert StaysInCategory(Blank(b), pi, u);
    OppositeShows(b, u, v, pi[u], pi[v], a, c);
  }

  lemma OppositeShows(b: Board, u: nat, v: nat, u': nat, v': nat, a: Config, c: Config)
    requires Linked(b, u, v) && Linked(b, u', v') && SameCategory(IdleAt(b, u), IdleAt(b, u')) && u < v && u' > v'
    requires a == Chain(b, u, v) && c == Chain(b, u', v')
    ensures a.Accepted() && c.Accepted()
    ensures Shows(a, Silence(Watch(IdleAt(b, u)))) != Shows(c, Silence(Watch(IdleAt(b, u))))
  {
    var s := IdleAt(b, u);
    IdleIsIdle(b, u);
    IdleIsIdle(b, u');
    IdleAlike(s, IdleAt(b, u'));
    ChainShows(b, u, v, s, a);
    ChainShows(b, u', v', s, c);
  }

  // ----- a permutation that is not the identity reverses something

  /** The positions of a category. */
  function Lo(c: Config, s: Slot): nat {
    if s.CanOutSlot? then c.CanOutPos(0)
    else if s.VirtSlot? then c.VirtPos(0)
    else if s.FlasherSlot? then c.FlasherPos(0)
    else if s.CounterSlot? then c.CounterPos(0)
    else c.ConditionPos(0)
  }

  function Hi(c: Config, s: Slot): nat {
    if s.CanOutSlot? then c.VirtPos(0)
    else if s.VirtSlot? then c.FlasherPos(0)
    else if s.FlasherSlot? then c.CounterPos(0)
    else if s.CounterSlot? then c.ConditionPos(0)
    else c.Length()
  }

  lemma InCategory(c: Config, s: Slot, k: nat)
    requires c.FullLength() && k < c.Length() && (Logic(s) || s.CanOutSlot?)
    ensures Hi(c, s) <= c.Length() && (Lo(c, s) <= k < Hi(c, s) <==> SameCategory(s, c.SlotAt(k)))
  {
  }

  lemma {:induction false} Climbs(pi: seq<nat>, lo: nat, hi: nat, k: nat)
    requires lo <= k < hi <= |pi| && lo <= pi[lo]
    requires forall i, j | lo <= i < j < hi :: pi[i] < pi[j]
    ensures k <= pi[k]
  {
    if lo < k {
      Climbs(pi, lo, hi, k - 1);
      assert pi[k - 1] < pi[k];
    }
  }

  lemma {:induction false} Falls(pi: seq<nat>, lo: nat, hi: nat, k: nat)
    requires lo <= k < hi <= |pi| && pi[hi - 1] < hi
    requires forall i, j | lo <= i < j < hi :: pi[i] < pi[j]
    ensures pi[k] <= k
    decreases hi - k
  {
    if k < hi - 1 {
      Falls(pi, lo, hi, k + 1);
      assert pi[k] < pi[k + 1];
    }
  }

  /** A permutation of a stretch that moves anything reverses two. */
  lemma Reverses(pi: seq<nat>, inverse: seq<nat>, lo: nat, hi: nat, k: nat) returns (u: nat, v: nat)
    requires Permutes(pi, inverse) && lo <= k < hi <= |pi| && pi[k] != k
    requires forall i | lo <= i < hi :: lo <= pi[i] < hi
    ensures lo <= u < v < hi && pi[u] > pi[v]
  {
    if i, j :| lo <= i < j < hi && pi[i] > pi[j] {
      u, v := i, j;
    } else {
      forall i, j | lo <= i < j < hi
        ensures pi[i] < pi[j]
      {
        assert inverse[pi[i]] == i && inverse[pi[j]] == j;
      }
      Climbs(pi, lo, hi, k);
      Falls(pi, lo, hi, k);
      assert false;
    }
  }

  lemma MovedReverses(b: Board, pi: seq<nat>, inverse: seq<nat>, k: nat) returns (u: nat, v: nat)
    requires b.Valid() && b.outputs > 0 && WithinCategories(Blank(b), pi) && Permutes(pi, inverse)
    requires k < |pi| && pi[k] != k && !IdleAt(b, k).CanInSlot?
    ensures u < v < |pi| && Linked(b, u, v) && pi[u] > pi[v]
  {
    var c, s := Blank(b), IdleAt(b, k);
    assert StaysInCategory(c, pi, k);
    InCategory(c, s, k);
    forall i | Lo(c, s) <= i < Hi(c, s)
      ensures Lo(c, s) <= pi[i] < Hi(c, s)
    {
      assert StaysInCategory(c, pi, i);
      InCategory(c, s, i);
      InCategory(c, s, pi[i]);
    }
    u, v := Reverses(pi, inverse, Lo(c, s), Hi(c, s), k);
    InCategory(c, s, u);
    InCategory(c, s, v);
  }

  // ----- exactly

  /** Whatever the accepted configuration, renumbering it so shows in no run. */
  ghost predicate Invisible(b: Board, pi: seq<nat>, inverse: seq<nat>) {
    forall a: Config, c: Config | a.board == b && a.Accepted() && RenumbersConfig(a, c, pi, inverse) :: Alike(a, c)
  }

  /** Both are accepted and show the same in every run. */
  ghost predicate Alike(a: Config, c: Config)
    requires a.Accepted()
  {
    c.Accepted() && forall ticks: seq<Tick> :: Shows(a, ticks) == Shows(c, ticks)
  }

  predicate MovesCanInputsOnly(b: Board, pi: seq<nat>)
    requires b.Valid() && |pi| == Blank(b).Length()
  {
    forall k | 0 <= k < |pi| :: pi[k] == k || IdleAt(b, k).CanInSlot?
  }

  /** CAN inputs read nothing, and run as a group before everything that could read them
      and was not already ahead of them. */
  lemma CanInputsKeepSide(c: Config, pi: seq<nat>, k: nat, o: nat)
    requires WithinCategories(c, pi) && k < c.Length() && o < c.Length() && pi[k] == k
    requires pi[o] == o || (c.SlotAt(o).CanInSlot? && !c.SlotAt(k).CanInSlot?)
    ensures o < k <==> pi[o] < pi[k]
  {
    if pi[o] != o {
      assert StaysInCategory(c, pi, o);
      CanInAt(c, o);
      CanInAt(c, pi[o]);
      CanInAt(c, k);
    }
  }

  lemma CanInAt(c: Config, k: nat)
    requires c.FullLength() && k < c.Length()
    ensures c.SlotAt(k).CanInSlot? <==> c.CanInPos(0) <= k < c.CanOutPos(0)
  {
  }

  lemma OrdersKept(c: Config, pi: seq<nat>)
    requires WithinCategories(c, pi)
    requires forall k: nat | k < c.Length() :: pi[k] == k || c.SlotAt(k).CanInSlot?
    ensures |pi| == |c.Compile().places| && ReadOrderKept(c.Compile(), pi) && BusOrderKept(c.Compile(), pi)
  {
    var p := c.Compile();
    forall k | 0 <= k < |pi|
      ensures KeepsSide(p, pi, k, Reads(p.places[k].slot))
    {
      SideKept(c, pi, k);
    }
    forall i, j | 0 <= i < j < |pi| && Observed(p, i) && Observed(p, j)
      ensures pi[i] < pi[j]
    {
      assert !c.SlotAt(i).CanInSlot? && !c.SlotAt(j).CanInSlot?;
    }
  }

  lemma SideKept(c: Config, pi: seq<nat>, k: nat)
    requires WithinCategories(c, pi) && k < c.Length()
    requires forall l: nat | l < c.Length() :: pi[l] == l || c.SlotAt(l).CanInSlot?
    ensures |pi| == |c.Compile().places| && KeepsSide(c.Compile(), pi, k, Reads(c.SlotAt(k)))
  {
    var p, rs := c.Compile(), Reads(c.SlotAt(k));
    if !c.SlotAt(k).CanInSlot? {
      forall j | 0 <= j < |rs| && 0 <= rs[j] < |p.owners| && p.owners[rs[j]] < |pi|
        ensures p.owners[rs[j]] < k <==> pi[p.owners[rs[j]]] < pi[k]
      {
        CanInputsKeepSide(c, pi, k, p.owners[rs[j]]);
      }
    }
  }

  lemma MovingCanInputsIsInvisible(b: Board, pi: seq<nat>, inverse: seq<nat>)
    requires b.Valid() && WithinCategories(Blank(b), pi) && MovesCanInputsOnly(b, pi)
    ensures Invisible(b, pi, inverse)
  {
    forall a: Config, c: Config | a.board == b && a.Accepted() && RenumbersConfig(a, c, pi, inverse)
      ensures Alike(a, c)
    {
      CanInputsMoved(b, pi, inverse, a, c);
    }
  }

  lemma CanInputsMoved(b: Board, pi: seq<nat>, inverse: seq<nat>, a: Config, c: Config)
    requires b.Valid() && WithinCategories(Blank(b), pi) && MovesCanInputsOnly(b, pi)
    requires a.board == b && a.Accepted() && RenumbersConfig(a, c, pi, inverse)
    ensures Alike(a, c)
  {
    OneBoardStays(Blank(b), a, pi);
    forall k: nat | k < a.Length()
      ensures pi[k] == k || a.SlotAt(k).CanInSlot?
    {
      SameKindAt(Blank(b), a, k);
    }
    OrdersKept(a, pi);
    RenumberedAccepted(a, c, pi, inverse);
    forall ticks: seq<Tick>
      ensures Shows(a, ticks) == Shows(c, ticks)
    {
      RenumberedShowsTheSame(a, c, pi, inverse, ticks);
    }
  }

  /** On a board with an output, a permutation of the slots within their categories shows on
      no accepted configuration if and only if it moves nothing but CAN inputs. */
  lemma InvisibleExactly(b: Board, pi: seq<nat>, inverse: seq<nat>)
    requires b.Valid() && b.outputs > 0 && WithinCategories(Blank(b), pi) && Permutes(pi, inverse)
    ensures Invisible(b, pi, inverse) <==> MovesCanInputsOnly(b, pi)
  {
    if MovesCanInputsOnly(b, pi) {
      MovingCanInputsIsInvisible(b, pi, inverse);
    } else {
      var k: nat :| k < |pi| && pi[k] != k && !IdleAt(b, k).CanInSlot?;
      var u, v := MovedReverses(b, pi, inverse, k);
      var a, c, ticks := ReversalShows(b, pi, inverse, u, v);
      assert !Alike(a, c);
    }
  }
}
