/**
 What holds on the line during a bulk write, whatever is lost: first until the device has
 started a new staging list, then until it has committed it.
 */
module WriteRuns {
  import opened LittleEndian
  import opened Messages
  import opened Subsequences
  import opened Device
  import opened Link
  import opened WriteStates

  // ----- starting

  lemma StartingPushed(l: Line)
    requires Starting(l)
    ensures Starting(Pushed(l, START))
  {
  }

  lemma StartingDelivered(t: Traits, l: Line)
    requires Starting(l) && l.up != []
    ensures Starting(Delivered(t, l))
  {
    var m, n := l.up[0], Delivered(t, l);
    assert m in l.up;
    var a := Answer(t, l.device, m);
    assert n.device.replies == l.device.replies + a;
    OtherKinds(t, l.device, m);
    assert forall i | 0 <= i < |n.up| :: n.up[i] == l.up[i + 1];
  }

  /** Only a start is answered as a start, and only a commit as a commit. */
  lemma OtherKinds(t: Traits, d: DeviceState, m: Msg)
    ensures m.cmd != CMD_WRITE_ALL ==> NoneOf(Answer(t, d, m), CMD_WRITE_ALL)
    ensures m.cmd != CMD_WRITE_ALL_COMPLETE ==> NoneOf(Answer(t, d, m), CMD_WRITE_ALL_COMPLETE)
  {
  }

  lemma StartingLess(l: Line)
    requires Starting(l)
    ensures l.up != [] ==> Starting(LostCommand(l))
    ensures l.device.replies != [] ==> Starting(LostReply(l)) && Starting(Taken(l))
  {
  }

  lemma StartingKept(t: Traits, l: Line, n: Line)
    requires Starting(l) && StepOf(t, START, l, n)
    ensures Starting(n)
  {
    StartingPushed(l);
    StartingLess(l);
    if l.up != [] { StartingDelivered(t, l); }
  }

  lemma {:induction false} StartingAlong(t: Traits, l: Line, trail: seq<Line>)
    requires Starting(l) && Trail(t, START, l, trail)
    ensures Starting(Last(trail))
    decreases |trail|
  {
    if |trail| > 1 {
      TrailFront(t, START, l, trail);
      StartingAlong(t, l, trail[..|trail| - 1]);
      StartingKept(t, trail[|trail| - 2], Last(trail));
    }
  }

  lemma StartingFirst(l: Line)
    requires Clear(l)
    ensures Starting(l)
  {
  }

  // ----- the order of the commands

  lemma InOrderPush(ms: seq<Msg>, m: Msg)
    requires InOrder(ms) && CMD_WRITE_ALL <= m.cmd <= CMD_WRITE_ALL_COMPLETE
    requires forall x | x in ms :: x.cmd <= m.cmd
    ensures InOrder(ms + [m])
  {
    var ns := ms + [m];
    forall i, j | 0 <= i < j < |ns|
      ensures ns[i].cmd <= ns[j].cmd
    {
      if j == |ms| { assert ms[i] in ms; }
    }
  }

  /** Dropping the first command keeps the order. */
  lemma HeadOrder(ms: seq<Msg>)
    requires InOrder(ms) && ms != []
    ensures InOrder(ms[1..])
    ensures ms[0].cmd == CMD_WRITE_ALL || ms[0].cmd == CMD_WRITE_ALL_VAL || ms[0].cmd == CMD_WRITE_ALL_COMPLETE
    ensures ms[0].cmd != CMD_WRITE_ALL ==> NoneOf(ms, CMD_WRITE_ALL)
    ensures ms[0].cmd == CMD_WRITE_ALL_COMPLETE ==> All(ms, CMD_WRITE_ALL_COMPLETE)
  {
    assert ms[0] in ms;
    forall m | m in ms
      ensures ms[0].cmd <= m.cmd
    {
      var i :| 0 <= i < |ms| && ms[i] == m;
    }
  }

  /** If the second command is a start, so was the first. */
  lemma HeadFresh(ms: seq<Msg>, staged: seq<Param>)
    requires InOrder(ms) && ms != [] && FreshStart(ms, staged)
    ensures FreshStart(ms[1..], staged)
    ensures ms[0].cmd != CMD_WRITE_ALL ==> forall other :: FreshStart(ms[1..], other)
  {
    HeadOrder(ms);
    assert |ms| > 1 ==> ms[1] in ms;
  }

  lemma ValsPush(ms: seq<Msg>, m: Msg)
    ensures Vals(ms + [m]) == if m.cmd == CMD_WRITE_ALL_VAL then Vals(ms) + [ParamOf(m)] else Vals(ms)
  {
    assert (ms + [m])[..|ms|] == ms;
  }

  // ----- staging and committing

  /** Once a start has been answered, staging begins from nothing. */
  lemma StartedStaging(crc: Checksum, l: Line)
    requires Starting(l) && l.device.replies != [] && l.device.replies[0].cmd == CMD_WRITE_ALL
    ensures Staging(crc, Taken(l), [])
  {
    assert l.device.replies[0] in l.device.replies;
    NonePicked(l.up, CMD_WRITE_ALL_VAL);
    assert InOrder(l.up);
  }

  lemma StagingPushVal(crc: Checksum, l: Line, sent: seq<Param>, p: Param)
    requires Staging(crc, l, sent)
    ensures Staging(crc, Pushed(l, ValOf(p)), sent + [p])
  {
    var up := l.up + [ValOf(p)];
    InOrderPush(l.up, ValOf(p));
    ValsPush(l.up, ValOf(p));
    SubseqPush(l.device.staged + Vals(l.up), sent, p);
    assert l.device.staged + Vals(up) == l.device.staged + Vals(l.up) + [p];
    assert FreshStart(up, l.device.staged);
    assert NoneOf(up, CMD_WRITE_ALL_COMPLETE);
  }

  lemma WritingPushComplete(crc: Checksum, l: Line, sent: seq<Param>, count: uint16)
    requires Writing(crc, l, sent)
    ensures Writing(crc, Pushed(l, Complete(count)), sent)
  {
    InOrderPush(l.up, Complete(count));
    ValsPush(l.up, Complete(count));
    assert FreshStart(l.up + [Complete(count)], l.device.staged);
  }

  lemma LoseVals(staged: seq<Param>, up: seq<Msg>, sent: seq<Param>)
    requires up != [] && Subseq(staged + Vals(up), sent)
    ensures Subseq(staged + Vals(up[1..]), sent)
  {
    PickedHead(up, CMD_WRITE_ALL_VAL);
    var all, rest := staged + Vals(up), Vals(up[1..]);
    if up[0].cmd == CMD_WRITE_ALL_VAL {
      var k := |staged|;
      SubseqDrop(all, sent, k);
      assert all[..k] + all[k + 1..] == staged + rest;
    } else {
      assert Vals(up) == rest;
    }
  }

  lemma WritingLoseCommand(crc: Checksum, l: Line, sent: seq<Param>)
    requires Writing(crc, l, sent) && l.up != []
    ensures Writing(crc, LostCommand(l), sent)
  {
    LoseVals(l.device.staged, l.up, sent);
    HeadOrder(l.up);
    HeadFresh(l.up, l.device.staged);
  }

  lemma DeliverStart(t: Traits, l: Line, sent: seq<Param>)
    requires Writing(t.crc, l, sent) && l.up != [] && l.up[0].cmd == CMD_WRITE_ALL
    ensures Writing(t.crc, Delivered(t, l), sent)
  {
    assert l.up[0] in l.up;
    HeadOrder(l.up);
    HeadFresh(l.up, l.device.staged);
    LoseVals(l.device.staged, l.up, sent);
    var replies := l.device.replies + [START];
    assert Delivered(t, l).device == l.device.(replies := replies);
    assert NoneOf(replies, CMD_WRITE_ALL_COMPLETE);
  }

  /** A value moves from its way into the staging list, or is refused. */
  lemma StagedNext(t: Traits, d: DeviceState, up: seq<Msg>, sent: seq<Param>)
    requires up != [] && up[0].cmd == CMD_WRITE_ALL_VAL && Subseq(d.staged + Vals(up), sent)
    ensures Subseq(React(t, d, up[0]).staged + Vals(up[1..]), sent)
    ensures React(t, d, up[0]).replies == d.replies
  {
    var p := ParamOf(up[0]);
    if t.rejects(p) {
      LoseVals(d.staged, up, sent);
    } else {
      PickedHead(up, CMD_WRITE_ALL_VAL);
      assert d.staged + ([p] + Vals(up[1..])) == d.staged + [p] + Vals(up[1..]);
    }
  }

  lemma DeliverVal(t: Traits, l: Line, sent: seq<Param>)
    requires Writing(t.crc, l, sent) && l.up != [] && l.up[0].cmd == CMD_WRITE_ALL_VAL
    ensures Writing(t.crc, Delivered(t, l), sent)
  {
    assert l.up[0] in l.up;
    HeadOrder(l.up);
    HeadFresh(l.up, l.device.staged);
    StagedNext(t, l.device, l.up, sent);
  }

  lemma DeliverComplete(t: Traits, l: Line, sent: seq<Param>)
    requires Writing(t.crc, l, sent) && l.up != [] && l.up[0].cmd == CMD_WRITE_ALL_COMPLETE
    ensures Writing(t.crc, Delivered(t, l), sent)
  {
    var n := Delivered(t, l);
    HeadOrder(l.up);
    HeadFresh(l.up, l.device.staged);
    LoseVals(l.device.staged, l.up, sent);
    CommitTwice(l.device.store, l.device.staged);
    assert All(n.up, CMD_WRITE_ALL_COMPLETE);
    var report := CommitReply(t.crc, l.device.staged);
    assert n.device.replies == l.device.replies + [report];
    assert OnlyReport(l.device.replies, report);
    assert OnlyReport(n.device.replies, report);
  }

  lemma WritingDeliver(t: Traits, l: Line, sent: seq<Param>)
    requires Writing(t.crc, l, sent) && l.up != []
    ensures Writing(t.crc, Delivered(t, l), sent)
  {
    HeadOrder(l.up);
    if l.up[0].cmd == CMD_WRITE_ALL {
      DeliverStart(t, l, sent);
    } else if l.up[0].cmd == CMD_WRITE_ALL_VAL {
      DeliverVal(t, l, sent);
    } else {
      DeliverComplete(t, l, sent);
    }
  }

  lemma WritingTake(crc: Checksum, l: Line, sent: seq<Param>)
    requires Writing(crc, l, sent) && l.device.replies != []
    ensures Writing(crc, Taken(l), sent) && Writing(crc, LostReply(l), sent)
  {
    var rest := l.device.replies[1..];
    assert NoneOf(l.device.replies, CMD_WRITE_ALL_COMPLETE) ==> NoneOf(rest, CMD_WRITE_ALL_COMPLETE);
    var report := CommitReply(crc, l.device.staged);
    assert OnlyReport(l.device.replies, report) ==> OnlyReport(rest, report);
  }

  lemma WritingKept(t: Traits, l: Line, n: Line, sent: seq<Param>, count: uint16)
    requires Writing(t.crc, l, sent) && StepOf(t, Complete(count), l, n)
    ensures Writing(t.crc, n, sent)
  {
    if n == Pushed(l, Complete(count)) {
      WritingPushComplete(t.crc, l, sent, count);
    } else if l.up != [] && n == Delivered(t, l) {
      WritingDeliver(t, l, sent);
    } else if l.up != [] && n == LostCommand(l) {
      WritingLoseCommand(t.crc, l, sent);
    } else {
      WritingTake(t.crc, l, sent);
    }
  }

  lemma {:induction false} WritingAlong(t: Traits, l: Line, trail: seq<Line>, sent: seq<Param>, count: uint16)
    requires Writing(t.crc, l, sent) && Trail(t, Complete(count), l, trail)
    ensures Writing(t.crc, Last(trail), sent)
    decreases |trail|
  {
    if |trail| > 1 {
      TrailFront(t, Complete(count), l, trail);
      WritingAlong(t, l, trail[..|trail| - 1], sent, count);
      WritingKept(t, trail[|trail| - 2], Last(trail), sent, count);
    }
  }

  // ----- no value is missing but the lost ones

  lemma {:induction false} SubseqMember<T>(a: seq<T>, b: seq<T>, x: T)
    requires Subseq(a, b) && x in a
    ensures x in b
    decreases |b|
  {
    if a[..|a| - 1] != [] || Subseq(a, b[..|b| - 1]) {
      if Subseq(a, b[..|b| - 1]) { SubseqMember(a, b[..|b| - 1], x); }
      else if x in a[..|a| - 1] { SubseqMember(a[..|a| - 1], b[..|b| - 1], x); }
    }
  }

  lemma WholeKept(t: Traits, l: Line, n: Line, sent: seq<Param>, count: uint16, losses: nat)
    requires Writing(t.crc, l, sent) && StepOf(t, Complete(count), l, n)
    requires Willing(t, sent) && Whole(l, sent, losses)
    ensures Whole(n, sent, losses)
  {
    if n == Pushed(l, Complete(count)) {
      ValsPush(l.up, Complete(count));
    } else if l.up != [] && (n == Delivered(t, l) || n == LostCommand(l)) {
      PickedHead(l.up, CMD_WRITE_ALL_VAL);
      if l.up[0].cmd == CMD_WRITE_ALL_VAL {
        var p := ParamOf(l.up[0]);
        assert (l.device.staged + Vals(l.up))[|l.device.staged|] == p;
        SubseqMember(l.device.staged + Vals(l.up), sent, p);
      }
    }
  }

  lemma {:induction false} WholeAlong(t: Traits, l: Line, trail: seq<Line>, sent: seq<Param>, count: uint16,
                                      losses: nat)
    requires Writing(t.crc, l, sent) && Trail(t, Complete(count), l, trail)
    requires Willing(t, sent) && Whole(l, sent, losses)
    ensures Whole(Last(trail), sent, losses)
    decreases |trail|
  {
    if |trail| > 1 {
      var front := trail[..|trail| - 1];
      TrailFront(t, Complete(count), l, trail);
      WholeAlong(t, l, front, sent, count, losses);
      WritingAlong(t, l, front, sent, count);
      WholeKept(t, trail[|trail| - 2], Last(trail), sent, count, losses);
    }
  }

  // ----- the answered commit

  /** As many staged as were sent, and no value still under way: what is staged is what was sent. */
  lemma AllStaged(up: seq<Msg>, staged: seq<Param>, sent: seq<Param>)
    requires All(up, CMD_WRITE_ALL_COMPLETE) && Subseq(staged + Vals(up), sent)
    requires |staged| % 0x1_0000 == |sent| || |staged| >= |sent|
    ensures staged == sent
  {
    NonePicked(up, CMD_WRITE_ALL_VAL);
    assert staged + Vals(up) == staged;
    SubseqShorter(staged, sent);
    SubseqFull(staged, sent);
  }

  /** An answer to a commit reports what has been committed. */
  lemma CommittedFirst(crc: Checksum, l: Line)
    requires !NoneOf(l.device.replies, CMD_WRITE_ALL_COMPLETE) ==> Committed(crc, l)
    requires l.device.replies != [] && l.device.replies[0].cmd == CMD_WRITE_ALL_COMPLETE
    ensures Committed(crc, l) && l.device.replies[0] == CommitReply(crc, l.device.staged)
  {
    assert l.device.replies[0] in l.device.replies;
  }

  /** A commit that reports the right number has committed exactly what was sent. */
  lemma CommittedAll(crc: Checksum, l: Line, sent: seq<Param>)
    requires Writing(crc, l, sent) && l.device.replies != [] && l.device.replies[0].cmd == CMD_WRITE_ALL_COMPLETE
    requires l.device.replies[0].index == |sent|
    ensures Holds(Taken(l), sent)
  {
    CommittedFirst(crc, l);
    assert CommitReply(crc, l.device.staged).index == |l.device.staged| % 0x1_0000;
    AllStaged(l.up, l.device.staged, sent);
  }

  /** If no value has been lost, the answer to a commit is one the client accepts. */
  lemma WholeAccepted(crc: Checksum, l: Line, sent: seq<Param>)
    requires Writing(crc, l, sent) && l.device.replies != [] && l.device.replies[0].cmd == CMD_WRITE_ALL_COMPLETE
    requires Whole(l, sent, l.lostVals) && |sent| < 0x1_0000
    ensures Accepts(crc, sent, l.device.replies[0])
  {
    CommittedFirst(crc, l);
    NonePicked(l.up, CMD_WRITE_ALL_VAL);
    AllStaged(l.up, l.device.staged, sent);
  }

  /** The first answered start: from then on, only what is sent now is staged. */
  lemma Started(t: Traits, l: Line, trail: seq<Line>)
    requires Clear(l) && Trail(t, START, l, trail)
    requires Last(trail).device.replies != [] && Last(trail).device.replies[0].cmd == CMD_WRITE_ALL
    ensures Staging(t.crc, Taken(Last(trail)), [])
  {
    StartingFirst(l);
    StartingAlong(t, l, trail);
    StartedStaging(t.crc, Last(trail));
  }

  /** The line after the first i values have been sent and nothing else has happened. */
  function PushedVals(l: Line, params: seq<Param>, i: nat): Line
    requires i <= |params|
  {
    if i == 0 then l else Pushed(PushedVals(l, params, i - 1), ValOf(params[i - 1]))
  }

  lemma OneMore(params: seq<Param>, i: nat)
    requires 0 < i <= |params|
    ensures params[..i] == params[..i - 1] + [params[i - 1]]
  {
  }

  lemma ValStaged(crc: Checksum, before: Line, after: Line, sent: seq<Param>, sent': seq<Param>, p: Param, losses: nat)
    requires Staging(crc, before, sent) && Whole(before, sent, losses)
    requires after == Pushed(before, ValOf(p)) && sent' == sent + [p]
    ensures Staging(crc, after, sent') && Whole(after, sent', losses) && after.lostVals == before.lostVals
  {
    StagingPushVal(crc, before, sent, p);
    ValsPush(before.up, ValOf(p));
  }

  lemma {:induction false} ValsStaged(crc: Checksum, l: Line, params: seq<Param>, i: nat)
    requires i <= |params| && Staging(crc, l, [])
    ensures Staging(crc, PushedVals(l, params, i), params[..i])
    ensures Whole(PushedVals(l, params, i), params[..i], l.lostVals) && PushedVals(l, params, i).lostVals == l.lostVals
  {
    if i > 0 {
      ValsStaged(crc, l, params, i - 1);
      OneMore(params, i);
      ValStaged(crc, PushedVals(l, params, i - 1), PushedVals(l, params, i), params[..i - 1], params[..i],
        params[i - 1], l.lostVals);
    }
  }

  /** The first answered commit, if it reports the right number. */
  lemma CommittedOnly(t: Traits, l: Line, trail: seq<Line>, params: seq<Param>, count: uint16)
    requires Staging(t.crc, l, params) && Trail(t, Complete(count), l, trail)
    requires Last(trail).device.replies != [] && Last(trail).device.replies[0].cmd == CMD_WRITE_ALL_COMPLETE
    requires Last(trail).device.replies[0].index == |params|
    ensures Holds(Taken(Last(trail)), params)
  {
    WritingAlong(t, l, trail, params, count);
    CommittedAll(t.crc, Last(trail), params);
  }

  /** The first answered commit, if no value has been lost or refused. */
  lemma CommittedWhole(t: Traits, l: Line, trail: seq<Line>, params: seq<Param>, count: uint16)
    requires Staging(t.crc, l, params) && Trail(t, Complete(count), l, trail)
    requires Last(trail).device.replies != [] && Last(trail).device.replies[0].cmd == CMD_WRITE_ALL_COMPLETE
    requires Willing(t, params) && Whole(l, params, Last(trail).lostVals) && |params| < 0x1_0000
    ensures Accepts(t.crc, params, Last(trail).device.replies[0])
  {
    WritingAlong(t, l, trail, params, count);
    WholeAlong(t, l, trail, params, count, Last(trail).lostVals);
    WholeAccepted(t.crc, Last(trail), params);
  }

  /** It stays that way while the rest of the traffic drains. */
  lemma HoldsKept(t: Traits, l: Line, n: Line, params: seq<Param>)
    requires Holds(l, params) && Hidden(t, l, n)
    ensures Holds(n, params)
  {
    if l.up != [] {
      assert l.up[0] in l.up;
      CommitTwice(l.device.store, params);
    }
  }

  /** A commit with exactly one wrong value is refused, at whatever place and length. */
  lemma OneWrongValueRefused(crc: Checksum, params: seq<Param>, i: nat, v: uint32)
    requires IsCrc(crc) && i < |params| && v != params[i].value
    ensures !Accepts(crc, params, CommitReply(crc, WithValue(params, i, v)))
  {
    OneWrongParam(crc, params, i, v);
  }
}
