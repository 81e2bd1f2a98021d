/**
 Which lists the client's read can return, exactly: what losses can leave of the dumps that
 it has asked for, if that has the announced count and checksum, or, without the end of a
 dump, if it has the checksum. All of them can be reached within the client's own schedule.
 So a read can be trusted exactly if the device's list cannot be mistaken for another one.
 */
module ReadLimits {
  import opened Options
  import opened Messages
  import opened Subsequences
  import opened Device
  import opened Link
  import opened Policy
  import opened ReadRuns
  import opened Traces
  import opened ReadTurns
  import opened ReadTrack
  import opened SilentLoss

  // ----- nothing else can be returned

  lemma WindowSane(t: Traits, first: Line, start: int, n: nat, r: Reader, l: Line)
    requires Quiet(first) && Window(t, first, start, n, r, l)
    ensures Sane(t, first, start, Waited(AskIfDue(r), l, r.now))
  {
    SaneReached(t, first, start, r);
    SaneAsk(t, first, start, r);
    var trail :| Course(t, AskIfDue(r).line, trail) && Last(trail) == l;
    SaneLater(t, first, start, AskIfDue(r), trail, r.now);
  }

  lemma SaneRounds(t: Traits, first: Line, start: int, n: nat, r: Reader)
    requires Quiet(first) && Unasked(first) && Sane(t, first, start, r) && r.asks <= n
    ensures Rounds(r.out, first.device.order, n)
  {
    UnaskedOwes(first);
    CollectedRounds(t.crc, r.line, first.device.order, first.dumps, r.out, n);
  }

  lemma MarkedOnly(t: Traits, first: Line, start: int, n: nat, out: seq<Param>)
    requires Quiet(first) && Unasked(first) && EndsMarked(t, first, start, n, out)
    ensures Rounds(out, first.device.order, n) && Accepts(t.crc, out, DumpEnd(t.crc, first.device.order))
  {
    var m :| Sees(t, first, start, n, out, m) && m.cmd == CMD_READ_ALL_COMPLETE && Accepts(t.crc, out, m);
    var r, l :| Window(t, first, start, n, r, l) && r.out == out && Comes(l, m);
    WindowSane(t, first, start, n, r, l);
    SaneRounds(t, first, start, n, Waited(AskIfDue(r), l, r.now));
    assert m in l.device.replies;
  }

  lemma StopsSane(t: Traits, first: Line, start: int, n: nat, out: seq<Param>, l: Line)
    requires Quiet(first) && Unasked(first) && Stops(t, first, start, n, out, l)
    ensures Rounds(out, first.device.order, n) && Reading(t.crc, l, first.device.order, first.dumps, out)
  {
    var r: Reader :|
      r.primed && r.out == out && (Window(t, first, start, n, r, l) || AtDeadline(t, first, start, n, r, l));
    if Window(t, first, start, n, r, l) {
      WindowSane(t, first, start, n, r, l);
      SaneRounds(t, first, start, n, Waited(AskIfDue(r), l, r.now));
    } else {
      SaneReached(t, first, start, r);
      SaneRounds(t, first, start, n, r);
    }
  }

  lemma CheckedOnly(t: Traits, first: Line, start: int, n: nat, out: seq<Param>)
    requires Quiet(first) && Unasked(first) && EndsChecked(t, first, start, n, out)
    ensures Rounds(out, first.device.order, n) && t.crc(Values(out)) == t.crc(Values(first.device.order))
  {
    var l, tail :| Stops(t, first, start, n, out, l) && Trail(t, CHECK, l, tail) && CheckedAt(t, Last(tail), out);
    StopsSane(t, first, start, n, out, l);
    ReadingAlong(t, CHECK, l, tail, first.device.order, first.dumps, out);
    assert Last(tail).device.replies[0] in Last(tail).device.replies;
  }

  // ----- everything else can be returned: asking

  /** The line with these replies waiting and nothing on its way to the device. */
  predicate Waiting(first: Line, l: Line, replies: seq<Msg>) {
    l.up == [] && l.device.order == first.device.order && l.device.replies == replies
  }

  /** Everything that was on its way before the request can be lost. */
  lemma {:induction false} CommandsGo(t: Traits, l: Line, trail: seq<Line>, up: seq<Msg>) returns (longer: seq<Line>)
    requires Course(t, l, trail) && Last(trail).up == up + [READ]
    ensures Course(t, l, longer) && Last(longer).up == [READ] && Last(longer).device == Last(trail).device
    decreases |up|
  {
    longer := trail;
    if up != [] {
      var n := LostCommand(Last(trail));
      assert (up + [READ])[1..] == up[1..] + [READ];
      CourseExtend(t, l, trail, n);
      longer := CommandsGo(t, l, trail + [n], up[1..]);
    }
  }

  lemma {:induction false} RepliesGo(t: Traits, l: Line, trail: seq<Line>) returns (longer: seq<Line>)
    requires Course(t, l, trail)
    ensures Course(t, l, longer) && Last(longer).up == Last(trail).up
    ensures Last(longer).device.order == Last(trail).device.order && Last(longer).device.replies == []
    decreases |Last(trail).device.replies|
  {
    longer := trail;
    if Last(trail).device.replies != [] {
      var n := LostReply(Last(trail));
      CourseExtend(t, l, trail, n);
      longer := RepliesGo(t, l, trail + [n]);
    }
  }

  /** n dumps, one after another. */
  function Dumps(crc: Checksum, order: seq<Param>, n: nat): seq<Msg> {
    if n == 0 then [] else Dumps(crc, order, n - 1) + Dump(crc, order)
  }

  /** The request that is on its way is answered. */
  lemma Answered(t: Traits, first: Line, l: Line, trail: seq<Line>, n: nat) returns (longer: seq<Line>)
    requires Course(t, l, trail) && Last(trail).up == [READ] && Last(trail).device.order == first.device.order
    requires Last(trail).device.replies == Dumps(t.crc, first.device.order, n)
    ensures Course(t, l, longer) && Waiting(first, Last(longer), Dumps(t.crc, first.device.order, n + 1))
  {
    var d := Delivered(t, Last(trail));
    CourseExtend(t, l, trail, d);
    longer := trail + [d];
  }

  /** A receive window: the reader before its turn, and what the line has done since it asked. */
  datatype View = View(r: Reader, trail: seq<Line>)

  ghost predicate Open(t: Traits, first: Line, start: int, n: nat, w: View) {
    && Reaches(t, first, start, w.r) && InTime(start, w.r)
    && AskIfDue(w.r).asks == n && AskIfDue(w.r).lastSend == Some(w.r.now)
    && Course(t, AskIfDue(w.r).line, w.trail)
  }

  /** The client asks n times, one millisecond later than it must wait, and the device answers
      each time. */
  lemma {:induction false} AskAll(t: Traits, first: Line, start: int, n: nat) returns (w: View)
    requires 0 < n <= 25
    ensures Open(t, first, start, n, w) && Waiting(first, Last(w.trail), Dumps(t.crc, first.device.order, n))
    ensures !w.r.primed && w.r.out == [] && w.r.now == start + (READ_ALL_RESEND + 1) * (n - 1)
  {
    if n == 1 {
      ReachesFirst(t, first, start);
      var r := Begin(first, start);
      var l := AskIfDue(r).line;
      var trail := CommandsGo(t, l, [l], first.up);
      trail := RepliesGo(t, l, trail);
      trail := Answered(t, first, l, trail, 0);
      w := View(r, trail);
    } else {
      w := AskAll(t, first, start, n - 1);
      w := AskAgain(t, first, start, n, w);
    }
  }

  lemma AskAgain(t: Traits, first: Line, start: int, n: nat, w: View) returns (v: View)
    requires 1 < n <= 25 && Open(t, first, start, n - 1, w)
    requires Waiting(first, Last(w.trail), Dumps(t.crc, first.device.order, n - 1))
    requires !w.r.primed && w.r.out == [] && w.r.now == start + (READ_ALL_RESEND + 1) * (n - 2)
    ensures Open(t, first, start, n, v) && Waiting(first, Last(v.trail), Dumps(t.crc, first.device.order, n))
    ensures !v.r.primed && v.r.out == [] && v.r.now == start + (READ_ALL_RESEND + 1) * (n - 1)
  {
    var r := Waited(AskIfDue(w.r), Last(w.trail), w.r.now + READ_ALL_RESEND + 1);
    ReachesNext(t, first, start, w.r, w.trail, r);
    var l := Pushed(r.line, READ);
    assert AskIfDue(r) == r.(line := l, lastSend := Some(r.now), asks := n);
    var trail := Answered(t, first, l, [l], n - 1);
    v := View(r, trail);
  }

  // ----- collecting

  /** These replies are waiting in an open window, and this has been collected. */
  ghost predicate Drains(t: Traits, first: Line, start: int, n: nat, w: View, rest: seq<Msg>, out: seq<Param>) {
    Open(t, first, start, n, w) && Waiting(first, Last(w.trail), rest) && w.r.out == out
  }

  /** The client takes a reply and opens the next window at once. */
  lemma TakeOne(t: Traits, first: Line, start: int, n: nat, w: View, m: Msg, rest: seq<Msg>, out: seq<Param>)
      returns (v: View)
    requires Drains(t, first, start, n, w, [m] + rest, out) && OfDump(Got(m))
    ensures Drains(t, first, start, n, v, rest, After(out, m)) && v.r.primed
  {
    var l := Last(w.trail);
    var r := Received(AskIfDue(w.r), l, w.r.now);
    assert l.device.replies[0] == m && r.primed;
    ReachesNext(t, first, start, w.r, w.trail, r);
    assert AskIfDue(r) == r;
    v := View(r, [r.line]);
  }

  lemma LoseOne(t: Traits, first: Line, start: int, n: nat, w: View, m: Msg, rest: seq<Msg>, out: seq<Param>)
      returns (v: View)
    requires Drains(t, first, start, n, w, [m] + rest, out)
    ensures Drains(t, first, start, n, v, rest, out) && v.r.primed == w.r.primed
  {
    var l := LostReply(Last(w.trail));
    CourseExtend(t, AskIfDue(w.r).line, w.trail, l);
    v := View(w.r, w.trail + [l]);
  }

  /** Of the entries of a dump the client can be left with any part. */
  lemma {:induction false} DrainEntries(t: Traits, first: Line, start: int, n: nat, w: View, es: seq<Param>,
                                        part: seq<Param>, rest: seq<Msg>, out: seq<Param>)
      returns (v: View)
    requires Drains(t, first, start, n, w, DumpEntries(es) + rest, out) && Subseq(part, es) && w.r.primed
    ensures Drains(t, first, start, n, v, rest, out + part) && v.r.primed
    decreases |es|
  {
    if |es| == 0 {
      v := w;
      assert DumpEntries(es) + rest == rest && out + part == out;
    } else {
      var front, e := es[..|es| - 1], DumpEntries(es)[|es| - 1];
      EntriesLast(es, rest);
      if Subseq(part, front) {
        v := DrainEntries(t, first, start, n, w, front, part, [e] + rest, out);
        v := LoseOne(t, first, start, n, v, e, rest, out + part);
      } else {
        var shorter := part[..|part| - 1];
        v := DrainEntries(t, first, start, n, w, front, shorter, [e] + rest, out);
        v := TakeOne(t, first, start, n, v, e, rest, out + shorter);
        assert out + shorter + [ParamOf(e)] == out + part;
      }
    }
  }

  lemma EntriesLast(es: seq<Param>, rest: seq<Msg>)
    requires |es| > 0
    ensures DumpEntries(es) + rest == DumpEntries(es[..|es| - 1]) + ([DumpEntries(es)[|es| - 1]] + rest)
    ensures DumpEntries(es)[|es| - 1].cmd == CMD_READ_ALL_RSP
    ensures ParamOf(DumpEntries(es)[|es| - 1]) == es[|es| - 1]
  {
  }

  /** Of a dump the client can be left with its start and any part of its entries. */
  lemma DrainToEnd(t: Traits, first: Line, start: int, n: nat, w: View, part: seq<Param>, rest: seq<Msg>,
                   out: seq<Param>)
      returns (v: View)
    requires Drains(t, first, start, n, w, Dump(t.crc, first.device.order) + rest, out)
    requires Subseq(part, first.device.order)
    ensures Drains(t, first, start, n, v, [DumpEnd(t.crc, first.device.order)] + rest, out + part) && v.r.primed
  {
    var order := first.device.order;
    var es, end := DumpEntries(order), [DumpEnd(t.crc, order)] + rest;
    assert Dump(t.crc, order) + rest == [READ] + (es + end);
    v := TakeOne(t, first, start, n, w, READ, es + end, out);
    v := DrainEntries(t, first, start, n, v, order, part, end, out);
  }

  lemma LastDump(crc: Checksum, order: seq<Param>, n: nat, rest: seq<Msg>)
    requires n > 0
    ensures Dumps(crc, order, n) + rest == Dumps(crc, order, n - 1) + (Dump(crc, order) + rest)
  {
  }

  /** Of k dumps the client can be left with any k parts, their ends lost. */
  lemma {:induction false} DrainDumps(t: Traits, first: Line, start: int, n: nat, w: View, k: nat, out: seq<Param>,
                                      rest: seq<Msg>)
      returns (v: View)
    requires Drains(t, first, start, n, w, Dumps(t.crc, first.device.order, k) + rest, [])
    requires Rounds(out, first.device.order, k)
    ensures Drains(t, first, start, n, v, rest, out) && (k > 0 ==> v.r.primed)
    decreases k, 1
  {
    if k == 0 {
      v := w;
      assert Dumps(t.crc, first.device.order, k) + rest == rest;
    } else {
      v := DrainButEnd(t, first, start, n, w, k, out, rest);
      v := LoseOne(t, first, start, n, v, DumpEnd(t.crc, first.device.order), rest, out);
    }
  }

  /** The same with the last end still there. */
  lemma {:induction false} DrainButEnd(t: Traits, first: Line, start: int, n: nat, w: View, k: nat, out: seq<Param>,
                                       rest: seq<Msg>)
      returns (v: View)
    requires k > 0 && Drains(t, first, start, n, w, Dumps(t.crc, first.device.order, k) + rest, [])
    requires Rounds(out, first.device.order, k)
    ensures Drains(t, first, start, n, v, [DumpEnd(t.crc, first.device.order)] + rest, out) && v.r.primed
    decreases k, 0
  {
    var a, c := RoundsSplit(out, first.device.order, k);
    LastDump(t.crc, first.device.order, k, rest);
    v := DrainLast(t, first, start, n, w, k - 1, a, c, rest);
  }

  lemma {:induction false} DrainLast(t: Traits, first: Line, start: int, n: nat, w: View, k: nat, a: seq<Param>,
                                     c: seq<Param>, rest: seq<Msg>)
      returns (v: View)
    requires Rounds(a, first.device.order, k) && Subseq(c, first.device.order)
    requires Drains(t, first, start, n, w,
               Dumps(t.crc, first.device.order, k) + (Dump(t.crc, first.device.order) + rest), [])
    ensures Drains(t, first, start, n, v, [DumpEnd(t.crc, first.device.order)] + rest, a + c) && v.r.primed
    decreases k, 2
  {
    v := DrainDumps(t, first, start, n, w, k, a, Dump(t.crc, first.device.order) + rest);
    v := DrainToEnd(t, first, start, n, v, c, rest, a);
  }

  lemma Begins(t: Traits, first: Line, start: int, n: nat) returns (w: View)
    requires 0 < n <= 25
    ensures Drains(t, first, start, n, w, Dumps(t.crc, first.device.order, n) + [], [])
  {
    w := AskAll(t, first, start, n);
    assert Dumps(t.crc, first.device.order, n) + [] == Dumps(t.crc, first.device.order, n);
  }

  lemma MarkedReached(t: Traits, first: Line, start: int, n: nat, out: seq<Param>)
    requires 0 < n <= 25 && Rounds(out, first.device.order, n)
    requires Accepts(t.crc, out, DumpEnd(t.crc, first.device.order))
    ensures EndsMarked(t, first, start, n, out)
  {
    var w := Begins(t, first, start, n);
    w := DrainButEnd(t, first, start, n, w, n, out, []);
    assert Window(t, first, start, n, w.r, Last(w.trail));
    assert Sees(t, first, start, n, out, DumpEnd(t.crc, first.device.order));
  }

  lemma CheckedReached(t: Traits, first: Line, start: int, n: nat, out: seq<Param>)
    requires 0 < n <= 25 && Rounds(out, first.device.order, n)
    requires t.crc(Values(out)) == t.crc(Values(first.device.order))
    ensures EndsChecked(t, first, start, n, out)
  {
    var w := Begins(t, first, start, n);
    w := DrainDumps(t, first, start, n, w, n, out, []);
    var l := Last(w.trail);
    assert Window(t, first, start, n, w.r, l);
    assert Stops(t, first, start, n, out, l);
    var tail := CheckAnswered(t, first, l, out);
  }

  /** One question is enough. */
  lemma CheckAnswered(t: Traits, first: Line, l: Line, out: seq<Param>) returns (tail: seq<Line>)
    requires Waiting(first, l, []) && t.crc(Values(out)) == t.crc(Values(first.device.order))
    ensures Trail(t, CHECK, l, tail) && CheckedAt(t, Last(tail), out)
  {
    var a := Pushed(l, CHECK);
    var b := Delivered(t, a);
    TrailExtend(t, CHECK, l, [l], a);
    TrailExtend(t, CHECK, l, [l] + [a], b);
    tail := [l] + [a] + [b];
  }

  // ----- exactly

  /** From a quiet line, with at most n requests: the lists that the end of a dump can
      confirm are what losses can leave of n dumps with the announced count and checksum. */
  lemma MarkedExactly(t: Traits, first: Line, start: int, n: nat, out: seq<Param>)
    requires Quiet(first) && Unasked(first) && 0 < n <= 25
    ensures EndsMarked(t, first, start, n, out) <==>
      Rounds(out, first.device.order, n) && Accepts(t.crc, out, DumpEnd(t.crc, first.device.order))
  {
    if EndsMarked(t, first, start, n, out) { MarkedOnly(t, first, start, n, out); }
    if Rounds(out, first.device.order, n) && Accepts(t.crc, out, DumpEnd(t.crc, first.device.order)) {
      MarkedReached(t, first, start, n, out);
    }
  }

  /** The lists that the reported checksum can confirm are those with that checksum. */
  lemma CheckedExactly(t: Traits, first: Line, start: int, n: nat, out: seq<Param>)
    requires Quiet(first) && Unasked(first) && 0 < n <= 25
    ensures EndsChecked(t, first, start, n, out) <==>
      Rounds(out, first.device.order, n) && t.crc(Values(out)) == t.crc(Values(first.device.order))
  {
    if EndsChecked(t, first, start, n, out) { CheckedOnly(t, first, start, n, out); }
    if Rounds(out, first.device.order, n) && t.crc(Values(out)) == t.crc(Values(first.device.order)) {
      CheckedReached(t, first, start, n, out);
    }
  }

  /** No more than 25 requests fit into a read. */
  lemma AtMost25(t: Traits, first: Line, start: int, n: nat, out: seq<Param>)
    requires Quiet(first)
    ensures EndsMarked(t, first, start, n, out) ==> EndsMarked(t, first, start, 25, out)
    ensures Returns(t, first, start, n, out) ==> Returns(t, first, start, 25, out)
  {
    forall r, l | Window(t, first, start, n, r, l)
      ensures Window(t, first, start, 25, r, l)
    {
      WindowSane(t, first, start, n, r, l);
      AsksBound(t, first, start, Waited(AskIfDue(r), l, r.now));
    }
    forall r, l | AtDeadline(t, first, start, n, r, l)
      ensures AtDeadline(t, first, start, 25, r, l)
    {
      SaneReached(t, first, start, r);
      AsksBound(t, first, start, r);
    }
  }

  /** Every list a read can return after at most n requests is the device's if and only if
      the device's list cannot be mistaken; and if the end of a dump is insisted on, if and
      only if it cannot be mistaken together with its count. */
  lemma ReadIsRightExactly(t: Traits, first: Line, start: int, n: nat)
    requires Quiet(first) && Unasked(first) && 0 < n <= 25
    ensures (forall out | Returns(t, first, start, n, out) :: out == first.device.order)
      <==> !Mistakable(t.crc, first.device.order, n)
    ensures (forall out | EndsMarked(t, first, start, n, out) :: out == first.device.order)
      <==> !CountMistakable(t.crc, first.device.order, n)
  {
    forall out
      ensures Returns(t, first, start, n, out) <==>
        Rounds(out, first.device.order, n) && t.crc(Values(out)) == t.crc(Values(first.device.order))
      ensures EndsMarked(t, first, start, n, out) <==>
        Rounds(out, first.device.order, n) && Accepts(t.crc, out, DumpEnd(t.crc, first.device.order))
    {
      MarkedExactly(t, first, start, n, out);
      CheckedExactly(t, first, start, n, out);
    }
  }

  /** The read, however often it asks, can return this list without an error. */
  ghost predicate CanReturn(t: Traits, first: Line, start: int, out: seq<Param>) {
    exists n: nat :: Returns(t, first, start, n, out)
  }

  /** It always returns the device's list if and only if that cannot be mistaken for what is
      left of 25 dumps. */
  lemma WholeReadExactly(t: Traits, first: Line, start: int)
    requires Quiet(first) && Unasked(first)
    ensures (forall out | CanReturn(t, first, start, out) :: out == first.device.order)
      <==> !Mistakable(t.crc, first.device.order, 25)
  {
    ReadIsRightExactly(t, first, start, 25);
    forall out
      ensures CanReturn(t, first, start, out) <==> Returns(t, first, start, 25, out)
    {
      if CanReturn(t, first, start, out) {
        var n: nat :| Returns(t, first, start, n, out);
        AtMost25(t, first, start, n, out);
      }
    }
  }

  // ----- lists that can be mistaken

  /** Two requests are too many for every list in which two different parameters have the
      same value, wherever they stand: one can come twice and the other not at all. */
  lemma TwoOfAValue(crc: Checksum, x: seq<Param>, p: Param, y: seq<Param>, q: Param, z: seq<Param>)
    requires p != q && p.value == q.value && |x + [p] + y + [q] + z| < 0x1_0000
    ensures CountMistakable(crc, x + [p] + y + [q] + z, 2)
  {
    var a := x + [p] + y;
    OnceAndAgain(x, p, y, q, z);
    OneInstead(a, p, q, z);
    assert a + [q] + z == a + ([q] + z);
    TwoParts(crc, a + [q] + z, a, [p] + z);
  }

  lemma TwoParts(crc: Checksum, order: seq<Param>, a: seq<Param>, b: seq<Param>)
    requires Subseq(a, order) && Subseq(b, order) && |order| < 0x1_0000
    requires Values(a + b) == Values(order) && a + b != order
    ensures CountMistakable(crc, order, 2)
  {
    OneRound(a, order);
    RoundsAdd(a, b, order, 1);
    assert |Values(a + b)| == |Values(order)|;
  }

  lemma OneInstead(a: seq<Param>, p: Param, q: Param, z: seq<Param>)
    requires p != q && p.value == q.value
    ensures Values(a + ([p] + z)) == Values(a + ([q] + z)) && a + ([p] + z) != a + ([q] + z)
  {
    assert (a + ([p] + z))[|a|] == p && (a + ([q] + z))[|a|] == q;
  }

  lemma OnceAndAgain(x: seq<Param>, p: Param, y: seq<Param>, q: Param, z: seq<Param>)
    ensures Subseq(x + [p] + y, x + [p] + y + [q] + z) && Subseq([p] + z, x + [p] + y + [q] + z)
  {
    SubseqPart(x + [p] + y, [q] + z);
    assert x + [p] + y + ([q] + z) == x + [p] + y + [q] + z;
    SubseqPart(y + [q], z);
    SubseqSame([p]);
    SubseqJoin([p], [p], z, y + [q] + z);
    SubseqJoin([], x, [p] + z, [p] + (y + [q] + z));
    assert [] + ([p] + z) == [p] + z && x + ([p] + (y + [q] + z)) == x + [p] + y + [q] + z;
  }

  /** A front and a tail are parts. */
  lemma SubseqPart(a: seq<Param>, b: seq<Param>)
    ensures Subseq(a, a + b) && Subseq(b, a + b)
  {
    SubseqSame(a);
    SubseqSame(b);
    SubseqJoin(a, a, [], b);
    SubseqJoin([], a, b, b);
    assert a + [] == a && [] + b == b;
  }

  /** So from every quiet line whose device holds such a list a read can return another. */
  lemma TwoRequestsCanFool(t: Traits, first: Line, start: int, x: seq<Param>, p: Param, y: seq<Param>, q: Param,
                           z: seq<Param>)
      returns (out: seq<Param>)
    requires Quiet(first) && Unasked(first) && Countable(first) && first.device.order == x + [p] + y + [q] + z
    requires p != q && p.value == q.value
    ensures EndsMarked(t, first, start, 2, out) && out != first.device.order
  {
    TwoOfAValue(t.crc, x, p, y, q, z);
    ReadIsRightExactly(t, first, start, 2);
    out :| EndsMarked(t, first, start, 2, out) && out != first.device.order;
  }

  // ----- one lost entry

  lemma LeftOut(x: seq<Param>, p: Param, z: seq<Param>)
    ensures Rounds(x + z, x + [p] + z, 1)
  {
    SubseqPart(x, [p]);
    SubseqSame(z);
    SubseqJoin(x, x + [p], z, z);
    OneRound(x + z, x + [p] + z);
  }

  lemma ValuesJoin(a: seq<Param>, b: seq<Param>)
    ensures Values(a + b) == Values(a) + Values(b)
  {
  }

  /** With one request, if the end of the dump is lost, one more lost entry goes unnoticed if
      and only if its value is the silent value of what stands before it. */
  lemma OneLostEntry(t: Traits, first: Line, start: int, x: seq<Param>, p: Param, z: seq<Param>)
    requires Quiet(first) && Unasked(first) && IsCrc(t.crc) && first.device.order == x + [p] + z
    ensures EndsChecked(t, first, start, 1, x + z) <==> p.value == SilentValue(Values(x))
  {
    LeftOut(x, p, z);
    ValuesJoin(x + [p], z);
    ValuesJoin(x, [p]);
    ValuesJoin(x, z);
    assert Values([p]) == [p.value];
    CheckedExactly(t, first, start, 1, x + z);
    SilentLossExactly(Values(x), p.value, Values(z));
  }

  /** A zero behind thirty-two ones can be lost. */
  lemma LostZero(t: Traits, first: Line, start: int, x: Param, p: Param, z: seq<Param>)
    requires Quiet(first) && Unasked(first) && IsCrc(t.crc) && first.device.order == [x] + [p] + z
    requires x.value == 0xFFFF_FFFF && p.value == 0
    ensures EndsChecked(t, first, start, 1, [x] + z) && [x] + z != first.device.order
  {
    assert Values([x]) == [0xFFFF_FFFF];
    ZeroIsSilent();
    OneLostEntry(t, first, start, [x], p, z);
    assert |[x] + z| < |first.device.order|;
  }
}
