/**
 Frames delivered in one cycle commute as long as no two of them have the same id, so
 the order in which a runner hands them over cannot matter.
 */
module RxOrder {
  import opened Blocks
  import opened Engine
  import opened Dataflow

  predicate DistinctIds(rx: seq<Frame>) {
    forall i, j | 0 <= i < j < |rx| :: rx[i].id != rx[j].id
  }

  lemma {:induction false} NoneTaken(s: CanInCfg, c: Cell, rx: seq<Frame>, extIde: int, now: int)
    requires Fits(s, c) && forall i | 0 <= i < |rx| :: !Accepts(s, rx[i], extIde)
    ensures ReceiveAll(s, c, rx, extIde, now) == c
  {
    if |rx| > 0 { NoneTaken(s, c, rx[..|rx| - 1], extIde, now); }
  }

  /** With distinct ids a CAN input takes at most one frame of a cycle, and takes it as if
      it were alone. */
  lemma {:induction false} OneTaken(s: CanInCfg, c: Cell, rx: seq<Frame>, extIde: int, now: int, i: nat)
    requires Fits(s, c) && DistinctIds(rx) && i < |rx| && Accepts(s, rx[i], extIde)
    ensures ReceiveAll(s, c, rx, extIde, now) == Receive(s, c, rx[i], extIde, now)
  {
    var front := rx[..|rx| - 1];
    if i == |rx| - 1 {
      NoneTaken(s, c, front, extIde, now);
    } else {
      OneTaken(s, c, front, extIde, now, i);
      assert !Accepts(s, rx[|rx| - 1], extIde);
    }
  }

  lemma SameFrames(rx: seq<Frame>, rx': seq<Frame>, i: nat) returns (j: nat)
    requires multiset(rx) == multiset(rx') && i < |rx|
    ensures j < |rx'| && rx'[j] == rx[i]
  {
    assert rx[i] in multiset(rx');
    j :| 0 <= j < |rx'| && rx'[j] == rx[i];
  }

  lemma PermutedReceive(s: CanInCfg, c: Cell, rx: seq<Frame>, rx': seq<Frame>, extIde: int, now: int)
    requires Fits(s, c) && multiset(rx) == multiset(rx') && DistinctIds(rx) && DistinctIds(rx')
    ensures ReceiveAll(s, c, rx, extIde, now) == ReceiveAll(s, c, rx', extIde, now)
  {
    if i: nat :| i < |rx| && Accepts(s, rx[i], extIde) {
      var j := SameFrames(rx, rx', i);
      OneTaken(s, c, rx, extIde, now, i);
      OneTaken(s, c, rx', extIde, now, j);
    } else {
      forall j: nat | j < |rx'|
        ensures !Accepts(s, rx'[j], extIde)
      {
        var i := SameFrames(rx', rx, j);
      }
      NoneTaken(s, c, rx, extIde, now);
      NoneTaken(s, c, rx', extIde, now);
    }
  }

  /** A permutation of frames with distinct ids has distinct ids. */
  lemma PermutedDistinct(rx: seq<Frame>, rx': seq<Frame>)
    requires multiset(rx) == multiset(rx') && DistinctIds(rx)
    ensures DistinctIds(rx')
  {
    forall i, j | 0 <= i < j < |rx'|
      ensures rx'[i].id != rx'[j].id
    {
      if rx'[i].id == rx'[j].id {
        var a := SameFrames(rx', rx, i);
        var b := SameFrames(rx', rx, j);
        assert a == b;
        TwiceIn(rx', i, j);
        OnceIn(rx, a);
      }
    }
  }

  lemma TwiceIn(rx: seq<Frame>, i: nat, j: nat)
    requires i < j < |rx| && rx[i] == rx[j]
    ensures multiset(rx)[rx[i]] >= 2
  {
    assert rx == rx[..i] + [rx[i]] + rx[i + 1..j] + [rx[j]] + rx[j + 1..];
  }

  lemma OnceIn(rx: seq<Frame>, i: nat)
    requires DistinctIds(rx) && i < |rx|
    ensures multiset(rx)[rx[i]] == 1
  {
    assert rx == rx[..i] + [rx[i]] + rx[i + 1..];
    assert rx[i] !in rx[..i] && rx[i] !in rx[i + 1..];
  }

  /** Any permutation of a cycle's frames gives the same state after the cycle. */
  lemma FramesCommute(p: Plan, s: State, t: Tick, rx': seq<Frame>)
    requires WellFormed(p, s) && DistinctIds(t.rx) && multiset(t.rx) == multiset(rx')
    ensures Step(p, s, t) == Step(p, s, t.(rx := rx'))
  {
    var u := t.(rx := rx');
    var n := Step(p, s, t);
    PermutedDistinct(t.rx, rx');
    StepSatisfies(p, s, t);
    forall k | 0 <= k < |p.places|
      ensures StartCell(p, s, u, k) == StartCell(p, s, t, k)
    {
      if p.places[k].slot.CanInSlot? {
        PermutedReceive(p.places[k].slot, CellAt(p, s, k), t.rx, rx', t.extIde, s.time);
      }
    }
    forall k | 0 <= k < |p.places|
      ensures SlotEquation(p, s, u, n, k)
    {
      assert SlotEquation(p, s, t, n, k);
      assert SeenInputs(p, s, u, n, k) == SeenInputs(p, s, t, n, k);
    }
    StepIsTheSolution(p, s, u, n);
  }

  /** The same pins, and the same frames with distinct ids in any order. */
  predicate Reordered(t: Tick, u: Tick) {
    DistinctIds(t.rx) && multiset(t.rx) == multiset(u.rx) && u == t.(rx := u.rx)
  }

  /** Over whole runs: permuting the frames of every cycle changes nothing. */
  lemma {:induction false} RunsCommute(p: Plan, ticks: seq<Tick>, ticks': seq<Tick>)
    requires p.Valid() && |ticks| == |ticks'|
    requires forall i | 0 <= i < |ticks| :: Reordered(ticks[i], ticks'[i])
    ensures Run(p, ticks) == Run(p, ticks')
  {
    if |ticks| > 0 {
      var last := |ticks| - 1;
      RunsCommute(p, ticks[..last], ticks'[..last]);
      assert Reordered(ticks[last], ticks'[last]);
      FramesCommute(p, Run(p, ticks[..last]), ticks[last], ticks'[last].rx);
    }
  }
}
