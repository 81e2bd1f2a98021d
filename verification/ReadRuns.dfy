/**
 What holds on the line while the whole configuration is read back.
 */
module ReadRuns {
  import opened Messages
  import opened Subsequences
  import opened Device
  import opened Link

  const READ := Msg(CMD_READ_ALL, 0, 0, 0)
  const CHECK := Msg(CMD_CHECK_CRC, 0, 0, 0)

  /** No commit is on its way, and no reply to a read is left over. */
  predicate Quiet(l: Line) {
    && NoneOf(l.up, CMD_WRITE_ALL_COMPLETE) && NoneOf(l.device.replies, CMD_READ_ALL_RSP)
    && NoneOf(l.device.replies, CMD_READ_ALL_COMPLETE) && NoneOf(l.device.replies, CMD_CHECK_CRC_RSP)
  }

  function Entries(ms: seq<Msg>): seq<Param> { Picked(ms, CMD_READ_ALL_RSP) }

  /** The client has collected out. What is collected and what is under way is what is left
      of the device's list, in order, once for each dump. */
  ghost predicate Reading(crc: Checksum, l: Line, order: seq<Param>, dumps: nat, out: seq<Param>) {
    && l.device.order == order && NoneOf(l.up, CMD_WRITE_ALL_COMPLETE) && dumps <= l.dumps
    && (forall m | m in l.device.replies && m.cmd == CMD_READ_ALL_COMPLETE :: m == DumpEnd(crc, order))
    && (forall m | m in l.device.replies && m.cmd == CMD_CHECK_CRC_RSP :: m.value == crc(Values(order)))
    && Rounds(out + Entries(l.device.replies), order, l.dumps - dumps)
  }

  lemma ReadingFirst(crc: Checksum, l: Line)
    requires Quiet(l)
    ensures Reading(crc, l, l.device.order, l.dumps, [])
  {
    NonePicked(l.device.replies, CMD_READ_ALL_RSP);
  }

  lemma {:induction false} DumpEntriesPicked(order: seq<Param>)
    ensures Entries(DumpEntries(order)) == order
  {
    if |order| > 0 {
      var front := order[..|order| - 1];
      DumpEntriesPicked(front);
      assert DumpEntries(order)[..|order| - 1] == DumpEntries(front);
    }
  }

  /** A dump carries the list. */
  lemma DumpPicked(crc: Checksum, order: seq<Param>)
    ensures Entries(Dump(crc, order)) == order
  {
    var head := [READ] + DumpEntries(order);
    PickedAppend(head, [DumpEnd(crc, order)], CMD_READ_ALL_RSP);
    PickedAppend([READ], DumpEntries(order), CMD_READ_ALL_RSP);
    DumpEntriesPicked(order);
    NonePicked([READ], CMD_READ_ALL_RSP);
    NonePicked([DumpEnd(crc, order)], CMD_READ_ALL_RSP);
  }

  lemma Regroup(a: seq<Param>, b: seq<Param>, c: seq<Param>)
    ensures a + (b + c) == a + b + c
  {
  }

  /** One more dump is one more round. */
  lemma RoundsDump(crc: Checksum, rs: seq<Msg>, more: seq<Msg>, order: seq<Param>, out: seq<Param>, n: nat, m: nat)
    requires Rounds(out + Entries(rs), order, n) && more == rs + Dump(crc, order) && m == n + 1
    ensures Rounds(out + Entries(more), order, m)
  {
    PickedAppend(rs, Dump(crc, order), CMD_READ_ALL_RSP);
    DumpPicked(crc, order);
    SubseqSame(order);
    RoundsAdd(out + Entries(rs), order, order, n);
    Regroup(out, Entries(rs), order);
  }

  lemma DeliverRead(t: Traits, l: Line, order: seq<Param>, dumps: nat, out: seq<Param>)
    requires Reading(t.crc, l, order, dumps, out) && l.up != [] && l.up[0].cmd == CMD_READ_ALL
    ensures Reading(t.crc, Delivered(t, l), order, dumps, out)
  {
    var rs, n := l.device.replies, Delivered(t, l);
    assert n.device == l.device.(replies := rs + Dump(t.crc, order));
    DumpMarkers(t.crc, order);
    RoundsDump(t.crc, rs, n.device.replies, order, out, l.dumps - dumps, n.dumps - dumps);
  }

  lemma DeliverOther(t: Traits, l: Line, order: seq<Param>, dumps: nat, out: seq<Param>)
    requires Reading(t.crc, l, order, dumps, out) && l.up != [] && l.up[0].cmd != CMD_READ_ALL
    ensures Reading(t.crc, Delivered(t, l), order, dumps, out)
  {
    var m := l.up[0];
    assert m in l.up;
    var a := Answer(t, l.device, m);
    var n := Delivered(t, l);
    OtherAnswers(t, l.device, m);
    assert n.device.replies == l.device.replies + a && n.device.order == order;
    PickedAppend(l.device.replies, a, CMD_READ_ALL_RSP);
    NonePicked(a, CMD_READ_ALL_RSP);
    assert Entries(n.device.replies) == Entries(l.device.replies);
  }

  /** Only a read is answered with entries or with the end of a dump. */
  lemma OtherAnswers(t: Traits, d: DeviceState, m: Msg)
    requires m.cmd != CMD_READ_ALL
    ensures var a := Answer(t, d, m);
      && NoneOf(a, CMD_READ_ALL_RSP) && NoneOf(a, CMD_READ_ALL_COMPLETE)
      && (forall x | x in a && x.cmd == CMD_CHECK_CRC_RSP :: x.value == t.crc(Values(d.order)))
  {
  }

  lemma ReadingDeliver(t: Traits, l: Line, order: seq<Param>, dumps: nat, out: seq<Param>)
    requires Reading(t.crc, l, order, dumps, out) && l.up != []
    ensures Reading(t.crc, Delivered(t, l), order, dumps, out)
  {
    if l.up[0].cmd == CMD_READ_ALL {
      DeliverRead(t, l, order, dumps, out);
    } else {
      DeliverOther(t, l, order, dumps, out);
    }
  }

  lemma DumpMarkers(crc: Checksum, order: seq<Param>)
    ensures forall m | m in Dump(crc, order) && m.cmd == CMD_READ_ALL_COMPLETE :: m == DumpEnd(crc, order)
    ensures NoneOf(Dump(crc, order), CMD_CHECK_CRC_RSP)
  {
    assert All(DumpEntries(order), CMD_READ_ALL_RSP);
  }

  lemma ReadingLose(crc: Checksum, l: Line, order: seq<Param>, dumps: nat, out: seq<Param>)
    requires Reading(crc, l, order, dumps, out) && l.device.replies != []
    ensures Reading(crc, Taken(l), order, dumps, out) && Reading(crc, LostReply(l), order, dumps, out)
  {
    var rs := l.device.replies;
    PickedHead(rs, CMD_READ_ALL_RSP);
    var rest := Entries(rs[1..]);
    var all := out + Entries(rs);
    if rs[0].cmd == CMD_READ_ALL_RSP {
      RoundsDrop(all, order, l.dumps - dumps, |out|);
      assert all[..|out|] + all[|out| + 1..] == out + rest;
    } else {
      assert Entries(rs) == rest;
    }
  }

  lemma ReadingKept(t: Traits, m: Msg, l: Line, n: Line, order: seq<Param>, dumps: nat, out: seq<Param>)
    requires Reading(t.crc, l, order, dumps, out) && StepOf(t, m, l, n) && m.cmd != CMD_WRITE_ALL_COMPLETE
    ensures Reading(t.crc, n, order, dumps, out)
  {
    if n == Pushed(l, m) {
    } else if l.up != [] && n == Delivered(t, l) {
      ReadingDeliver(t, l, order, dumps, out);
    } else if l.up != [] && n == LostCommand(l) {
    } else {
      ReadingLose(t.crc, l, order, dumps, out);
    }
  }

  lemma {:induction false} ReadingAlong(t: Traits, m: Msg, l: Line, trail: seq<Line>, order: seq<Param>, dumps: nat,
                                        out: seq<Param>)
    requires Reading(t.crc, l, order, dumps, out) && Trail(t, m, l, trail) && m.cmd != CMD_WRITE_ALL_COMPLETE
    ensures Reading(t.crc, Last(trail), order, dumps, out)
    decreases |trail|
  {
    if |trail| > 1 {
      TrailFront(t, m, l, trail);
      ReadingAlong(t, m, l, trail[..|trail| - 1], order, dumps, out);
      ReadingKept(t, m, trail[|trail| - 2], Last(trail), order, dumps, out);
    }
  }

  /** Along a trail without requests the dumps become no fewer, and no more than are owed. */
  lemma {:induction false} DumpsAlong(t: Traits, m: Msg, l: Line, trail: seq<Line>)
    requires Trail(t, m, l, trail) && m.cmd != CMD_READ_ALL
    ensures l.dumps <= Last(trail).dumps <= Owed(Last(trail)) <= Owed(l)
    decreases |trail|
  {
    if |trail| > 1 {
      var k, n := trail[|trail| - 2], Last(trail);
      TrailFront(t, m, l, trail);
      DumpsAlong(t, m, l, trail[..|trail| - 1]);
      if n == Pushed(k, m) {
        assert n.up[..|k.up|] == k.up;
      } else if Hidden(t, k, n) {
        HiddenAccounted(t, k, n);
      }
    }
  }

  /** What is collected after a response. */
  function After(out: seq<Param>, m: Msg): seq<Param> {
    if m.cmd == CMD_READ_ALL_RSP then out + [ParamOf(m)] else out
  }

  /** The client takes a reply: an entry moves from the queue to what is collected. */
  lemma ReadingTake(crc: Checksum, l: Line, order: seq<Param>, dumps: nat, out: seq<Param>)
    requires Reading(crc, l, order, dumps, out) && l.device.replies != []
    ensures Reading(crc, Taken(l), order, dumps, After(out, l.device.replies[0]))
  {
    var rs := l.device.replies;
    if rs[0].cmd == CMD_READ_ALL_RSP {
      PickedHead(rs, CMD_READ_ALL_RSP);
      Regroup(out, [ParamOf(rs[0])], Entries(rs[1..]));
    } else {
      ReadingLose(crc, l, order, dumps, out);
    }
  }

  /** What has been collected while the device has produced at most n dumps. */
  lemma CollectedRounds(crc: Checksum, l: Line, order: seq<Param>, dumps: nat, out: seq<Param>, n: nat)
    requires Reading(crc, l, order, dumps, out) && l.dumps <= dumps + n
    ensures Rounds(out, order, n)
  {
    RoundsFront(out, Entries(l.device.replies), order, l.dumps - dumps);
    RoundsMore(out, order, l.dumps - dumps, n);
  }

  // ----- which lists can be mistaken for the device's

  /** Losses can leave another list with the same checksum of at most n dumps of this one. */
  ghost predicate Mistakable(crc: Checksum, order: seq<Param>, n: nat) {
    exists a :: Rounds(a, order, n) && crc(Values(a)) == crc(Values(order)) && a != order
  }

  /** The same, with the announced count as well. */
  ghost predicate CountMistakable(crc: Checksum, order: seq<Param>, n: nat) {
    exists a :: Rounds(a, order, n) && Accepts(crc, a, DumpEnd(crc, order)) && a != order
  }

  /** One dump of a list that can be counted is never mistaken if it is counted. */
  lemma OneDumpIsSafe(crc: Checksum, order: seq<Param>)
    requires |order| < 0x1_0000
    ensures !CountMistakable(crc, order, 1)
  {
    forall a | Rounds(a, order, 1) && Accepts(crc, a, DumpEnd(crc, order))
      ensures a == order
    {
      OneRound(a, order);
      SubseqFull(a, order);
    }
  }

  /** What a list is worth that was read from n dumps without an error: it is what losses
      have left of them, and the device's list if that cannot be mistaken, or if there was one
      dump and its end has been seen. */
  ghost predicate ReadBack(crc: Checksum, order: seq<Param>, out: seq<Param>, n: nat, marked: bool) {
    && Rounds(out, order, n) && (n <= 1 ==> Subseq(out, order)) && crc(Values(out)) == crc(Values(order))
    && (!Mistakable(crc, order, n) ==> out == order)
    && (marked && !CountMistakable(crc, order, n) ==> out == order)
    && (marked && n <= 1 && |order| < 0x1_0000 ==> out == order)
  }

  lemma WhatWasRead(crc: Checksum, order: seq<Param>, out: seq<Param>, m: nat, n: nat, marked: bool)
    requires Rounds(out, order, m) && m <= n && crc(Values(out)) == crc(Values(order))
    requires marked ==> Accepts(crc, out, DumpEnd(crc, order))
    ensures ReadBack(crc, order, out, n, marked)
  {
    RoundsMore(out, order, m, n);
    if n <= 1 {
      RoundsMore(out, order, n, 1);
      OneRound(out, order);
      if |order| < 0x1_0000 { OneDumpIsSafe(crc, order); }
    }
  }

  // ----- nothing is missing unless something was lost

  /** The end of the device's list is on its way, the only one, with no entry behind it. */
  ghost predicate EndComes(crc: Checksum, replies: seq<Msg>, order: seq<Param>) {
    exists k :: 0 <= k < |replies| && EndAt(crc, replies, order, k)
  }

  ghost predicate EndAt(crc: Checksum, replies: seq<Msg>, order: seq<Param>, k: nat)
    requires k < |replies|
  {
    replies[k] == DumpEnd(crc, order) && NoneOf(replies[..k], CMD_READ_ALL_COMPLETE) && Entries(replies[k + 1..]) == []
  }

  /** The one request is on its way, or all of its dump is collected or on its way. */
  ghost predicate Exact(crc: Checksum, l: Line, order: seq<Param>, dumps: nat, out: seq<Param>) {
    || (l.dumps == dumps && Picked(l.up, CMD_READ_ALL) != [] && NoneOf(l.device.replies, CMD_READ_ALL_COMPLETE))
    || (l.dumps == dumps + 1 && out + Entries(l.device.replies) == order && EndComes(crc, l.device.replies, order))
  }

  lemma EndAppended(crc: Checksum, replies: seq<Msg>, order: seq<Param>, a: seq<Msg>)
    requires EndComes(crc, replies, order) && NoneOf(a, CMD_READ_ALL_RSP)
    ensures EndComes(crc, replies + a, order)
  {
    var k :| 0 <= k < |replies| && EndAt(crc, replies, order, k);
    assert (replies + a)[k + 1..] == replies[k + 1..] + a && (replies + a)[..k] == replies[..k];
    PickedAppend(replies[k + 1..], a, CMD_READ_ALL_RSP);
    NonePicked(a, CMD_READ_ALL_RSP);
    assert EndAt(crc, replies + a, order, k);
  }

  lemma EndOfDump(crc: Checksum, replies: seq<Msg>, order: seq<Param>)
    requires NoneOf(replies, CMD_READ_ALL_COMPLETE)
    ensures EndComes(crc, replies + Dump(crc, order), order)
  {
    var all := replies + Dump(crc, order);
    var k := |all| - 1;
    assert all[k] == DumpEnd(crc, order) && all[k + 1..] == [];
    assert all[..k] == replies + ([READ] + DumpEntries(order));
    assert All(DumpEntries(order), CMD_READ_ALL_RSP);
    assert EndAt(crc, all, order, k);
  }

  lemma ExactRead(t: Traits, l: Line, order: seq<Param>, dumps: nat, out: seq<Param>)
    requires Reading(t.crc, l, order, dumps, out) && Exact(t.crc, l, order, dumps, out)
    requires l.up != [] && l.up[0].cmd == CMD_READ_ALL && Owed(l) <= dumps + 1
    ensures Exact(t.crc, Delivered(t, l), order, dumps, out)
  {
    var rs, d := l.device.replies, Dump(t.crc, order);
    PickedHead(l.up, CMD_READ_ALL);
    assert l.dumps == dumps;
    assert Delivered(t, l).device.replies == rs + d;
    PickedAppend(rs, d, CMD_READ_ALL_RSP);
    DumpPicked(t.crc, order);
    EndOfDump(t.crc, rs, order);
    assert [] + ([] + order) == order;
  }

  lemma ExactOther(t: Traits, l: Line, order: seq<Param>, dumps: nat, out: seq<Param>)
    requires Exact(t.crc, l, order, dumps, out)
    requires l.up != [] && l.up[0].cmd != CMD_READ_ALL
    ensures Exact(t.crc, Delivered(t, l), order, dumps, out)
  {
    var rs, a := l.device.replies, Answer(t, l.device, l.up[0]);
    PickedHead(l.up, CMD_READ_ALL);
    OtherAnswers(t, l.device, l.up[0]);
    assert Delivered(t, l).device.replies == rs + a;
    PickedAppend(rs, a, CMD_READ_ALL_RSP);
    NonePicked(a, CMD_READ_ALL_RSP);
    assert Entries(rs + a) == Entries(rs);
    if l.dumps == dumps + 1 { EndAppended(t.crc, rs, order, a); }
  }

  lemma {:induction false} ExactAlong(t: Traits, l: Line, trail: seq<Line>, order: seq<Param>, dumps: nat,
                                      out: seq<Param>)
    requires Course(t, l, trail) && Reading(t.crc, l, order, dumps, out) && Exact(t.crc, l, order, dumps, out)
    requires Owed(l) <= dumps + 1
    ensures Last(trail).lost >= l.lost && Owed(Last(trail)) <= dumps + 1
    ensures Reading(t.crc, Last(trail), order, dumps, out)
    ensures Last(trail).lost == l.lost ==> Exact(t.crc, Last(trail), order, dumps, out)
    decreases |trail|
  {
    if |trail| > 1 {
      var before := trail[|trail| - 2];
      CourseFront(t, l, trail);
      ExactAlong(t, l, trail[..|trail| - 1], order, dumps, out);
      HiddenAccounted(t, before, Last(trail));
      ReadingKept(t, READ, before, Last(trail), order, dumps, out);
      if Last(trail).lost == l.lost {
        ExactStep(t, before, Last(trail), order, dumps, out);
      }
    }
  }

  lemma ExactStep(t: Traits, l: Line, n: Line, order: seq<Param>, dumps: nat, out: seq<Param>)
    requires Hidden(t, l, n) && Reading(t.crc, l, order, dumps, out) && Exact(t.crc, l, order, dumps, out)
    requires Owed(l) <= dumps + 1 && n.lost == l.lost
    ensures Exact(t.crc, n, order, dumps, out)
  {
    if l.up != [] && n == Delivered(t, l) {
      if l.up[0].cmd == CMD_READ_ALL { ExactRead(t, l, order, dumps, out); }
        else { ExactOther(t, l, order, dumps, out); }
    } else {
      PickedHead(l.up, CMD_READ_ALL);
    }
  }

  lemma EndTail(crc: Checksum, rs: seq<Msg>, order: seq<Param>)
    requires EndComes(crc, rs, order) && rs[0].cmd != CMD_READ_ALL_COMPLETE
    ensures EndComes(crc, rs[1..], order)
  {
    var k :| 0 <= k < |rs| && EndAt(crc, rs, order, k);
    assert rs[1..][k..] == rs[k + 1..] && rs[1..][..k - 1] == rs[..k][1..];
    assert EndAt(crc, rs[1..], order, k - 1);
  }

  lemma EndHere(crc: Checksum, rs: seq<Msg>, order: seq<Param>)
    requires EndComes(crc, rs, order) && rs[0].cmd == CMD_READ_ALL_COMPLETE
    ensures rs[0] == DumpEnd(crc, order) && Entries(rs) == []
  {
    var k :| 0 <= k < |rs| && EndAt(crc, rs, order, k);
    HeadIn(rs, k);
    PickedHead(rs, CMD_READ_ALL_RSP);
  }

  lemma HeadIn(ms: seq<Msg>, k: nat)
    requires k <= |ms|
    ensures k > 0 ==> ms[0] in ms[..k]
  {
    if k > 0 { assert ms[..k][0] == ms[0]; }
  }

  /** While nothing is lost, what the client takes is the end of a list that has been
      collected completely, or leaves nothing missing. */
  lemma ExactTake(crc: Checksum, l: Line, order: seq<Param>, dumps: nat, out: seq<Param>)
    requires Exact(crc, l, order, dumps, out) && l.device.replies != []
    ensures var m := l.device.replies[0];
      if m.cmd == CMD_READ_ALL_COMPLETE then m == DumpEnd(crc, order) && out == order
      else Exact(crc, Taken(l), order, dumps, After(out, m))
  {
    var rs := l.device.replies;
    assert rs[0] in rs;
    if l.dumps == dumps + 1 {
      if rs[0].cmd == CMD_READ_ALL_COMPLETE {
        EndHere(crc, rs, order);
        assert out + [] == out;
      } else {
        EndTail(crc, rs, order);
        PickedHead(rs, CMD_READ_ALL_RSP);
        Regroup(out, [ParamOf(rs[0])], Entries(rs[1..]));
      }
    } else {
      PickedHead(rs, CMD_READ_ALL_RSP);
    }
  }

  // ----- an undisturbed read

  /** No request was under way at first, nothing has been lost since, and the
      transport has made no fault. */
  predicate Undisturbed(first: Line, faults0: nat, l: Line, faults: nat) {
    Owed(first) == first.dumps && l.lost == first.lost && faults == faults0
  }

  /** As long as the read is undisturbed nothing is missing. */
  ghost predicate OnTrack(crc: Checksum, first: Line, faults0: nat, l: Line, faults: nat, asked: bool,
                          out: seq<Param>)
  {
    Undisturbed(first, faults0, l, faults) ==>
      if asked then Exact(crc, l, first.device.order, first.dumps, out) && Owed(l) <= first.dumps + 1
      else l == first && out == []
  }

  lemma TrackAsked(crc: Checksum, first: Line, faults: nat, l: Line, faults0: nat)
    requires Quiet(first) && OnTrack(crc, first, faults0, l, faults, false, [])
    ensures OnTrack(crc, first, faults0, Pushed(l, READ), faults, true, [])
  {
    assert Pushed(l, READ).up[..|l.up|] == l.up;
  }

  /** The line has run its course, and the client has taken a reply. */
  lemma TrackTaken(t: Traits, first: Line, faults0: nat, l: Line, faults: nat, trail: seq<Line>, faults': nat,
                   out: seq<Param>)
    requires Course(t, l, trail) && Reading(t.crc, l, first.device.order, first.dumps, out)
    requires OnTrack(t.crc, first, faults0, l, faults, true, out)
    requires first.lost <= l.lost && faults0 <= faults <= faults'
    requires Accounted(l, Last(trail)) && Last(trail).device.replies != []
    ensures var m := Last(trail).device.replies[0];
      if m.cmd == CMD_READ_ALL_COMPLETE
      then Undisturbed(first, faults0, Last(trail), faults') ==>
        m == DumpEnd(t.crc, first.device.order) && out == first.device.order
      else OnTrack(t.crc, first, faults0, Taken(Last(trail)), faults', true, After(out, m))
  {
    if Undisturbed(first, faults0, Last(trail), faults') {
      ExactAlong(t, l, trail, first.device.order, first.dumps, out);
      ExactTake(t.crc, Last(trail), first.device.order, first.dumps, out);
    }
  }

  /** While the read is undisturbed there is always something under way. */
  lemma TrackBusy(t: Traits, first: Line, faults0: nat, l: Line, faults: nat, trail: seq<Line>, faults': nat,
                  out: seq<Param>)
    requires Course(t, l, trail) && Reading(t.crc, l, first.device.order, first.dumps, out)
    requires OnTrack(t.crc, first, faults0, l, faults, true, out)
    requires first.lost <= l.lost && faults0 <= faults <= faults'
    requires Accounted(l, Last(trail)) && Empty(Last(trail))
    ensures !Undisturbed(first, faults0, Last(trail), faults')
  {
    if Undisturbed(first, faults0, Last(trail), faults') {
      ExactAlong(t, l, trail, first.device.order, first.dumps, out);
    }
  }
}
