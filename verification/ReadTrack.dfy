/**
 What the collecting loop of a read keeps from turn to turn: what has been collected and
 is under way, how often the device has been asked, and that nothing is missing as long as
 nothing was lost and the transport made no fault.
 */
module ReadTrack {
  import opened Messages
  import opened Subsequences
  import opened Device
  import opened Link
  import opened Policy
  import opened ReadRuns
  import opened ReadTurns
  import opened Traces

  /** How things stood when the read began. */
  datatype Begun = Begun(t: Traits, first: Line, faults: nat, start: int)

  /** The device's list is short enough for its count to be said. */
  predicate Countable(l: Line) { |l.device.order| < 0x1_0000 }

  /** No request for a dump is on its way. */
  predicate Unasked(l: Line) { NoneOf(l.up, CMD_READ_ALL) }

  predicate Fresh(l: Line) { Unasked(l) && Countable(l) }

  lemma UnaskedOwes(l: Line)
    ensures Unasked(l) ==> Owed(l) == l.dumps
  {
    if Unasked(l) { NonePicked(l.up, CMD_READ_ALL); }
  }

  ghost predicate Collecting(b: Begun, r: Reader, faults: nat, events: seq<Event>) {
    && Sane(b.t, b.first, b.start, r)
    && OnTrack(b.t.crc, b.first, b.faults, r.line, faults, r.lastSend.Some?, r.out)
    && b.first.lost <= r.line.lost && b.faults <= faults
    && r.primed == Seen(events) && QuietOnceSeen(events) && r.asks == Requests(events)
    && (Undisturbed(b.first, b.faults, r.line, faults) ==> r.now == b.start)
  }

  lemma CollectFirst(b: Begun)
    requires Quiet(b.first)
    ensures Collecting(b, Begin(b.first, b.start), b.faults, [])
  {
    SaneFirst(b.t, b.first, b.start);
  }

  /** The transport refused a request. */
  lemma CollectRefused(b: Begun, r: Reader, faults: nat, events: seq<Event>)
    requires Collecting(b, r, faults, events)
    ensures Collecting(b, r, faults + 1, events)
  {
  }

  /** Asking, if it is time to. */
  lemma CollectAsked(b: Begun, r: Reader, faults: nat, events: seq<Event>)
    requires Collecting(b, r, faults, events) && Quiet(b.first) && InTime(b.start, r)
    ensures AskIfDue(r).lastSend.Some?
    ensures Collecting(b, AskIfDue(r), faults, if AskIfDue(r).asks > r.asks then events + [Sent(READ)] else events)
  {
    SaneAsk(b.t, b.first, b.start, r);
    if !r.primed && Due(r.lastSend, r.now) {
      SentNext(events);
      if r.lastSend.None? {
        TrackAsked(b.t.crc, b.first, faults, r.line, b.faults);
      } else {
        assert !Undisturbed(b.first, b.faults, r.line, faults);
      }
    }
  }

  /** Waiting in vain. */
  lemma CollectIdle(b: Begun, r: Reader, faults: nat, trail: seq<Line>, faults': nat, now: int, events: seq<Event>)
    requires Collecting(b, r, faults, events) && r.lastSend.Some? && Course(b.t, r.line, trail)
    requires faults <= faults' && r.now <= now && (faults' == faults ==> Empty(Last(trail)))
    ensures Collecting(b, Waited(r, Last(trail), now), faults', events)
    ensures !Undisturbed(b.first, b.faults, Last(trail), faults')
  {
    CourseAccounted(b.t, r.line, trail);
    SaneLater(b.t, b.first, b.start, r, trail, now);
    if faults' == faults {
      TrackBusy(b.t, b.first, b.faults, r.line, faults, trail, faults', r.out);
    }
  }

  /** A response that does not end the dump. */
  lemma CollectGot(b: Begun, r: Reader, faults: nat, trail: seq<Line>, faults': nat, now: int, events: seq<Event>,
                   m: Msg)
    requires Collecting(b, r, faults, events) && r.lastSend.Some? && Course(b.t, r.line, trail)
    requires faults <= faults' && r.now <= now && (faults' == faults ==> now == r.now)
    requires Comes(Last(trail), m) && m.cmd != CMD_READ_ALL_COMPLETE
    ensures Collecting(b, Received(r, Last(trail), now), faults', events + [Got(m)])
  {
    CourseAccounted(b.t, r.line, trail);
    SaneReceived(b.t, b.first, b.start, r, trail, now);
    TrackTaken(b.t, b.first, b.faults, r.line, faults, trail, faults', r.out);
    GotNext(events, m);
  }

  /** The end of a dump. */
  lemma CollectEnd(b: Begun, r: Reader, faults: nat, trail: seq<Line>, faults': nat, events: seq<Event>, m: Msg)
    requires Collecting(b, r, faults, events) && r.lastSend.Some? && Course(b.t, r.line, trail) && faults <= faults'
    requires Comes(Last(trail), m) && m.cmd == CMD_READ_ALL_COMPLETE
    ensures m == DumpEnd(b.t.crc, b.first.device.order)
    ensures Undisturbed(b.first, b.faults, Last(trail), faults') ==> r.out == b.first.device.order
    ensures Produced(b, Last(trail), r.out, events)
    ensures QuietOnceSeen(events + [Got(m)]) && Requests(events + [Got(m)]) == Requests(events)
  {
    CourseAccounted(b.t, r.line, trail);
    SaneLater(b.t, b.first, b.start, r, trail, r.now);
    TrackTaken(b.t, b.first, b.faults, r.line, faults, trail, faults', r.out);
    GotNext(events, m);
    assert m in Last(trail).device.replies;
    CollectProduced(b, Waited(r, Last(trail), r.now), events);
  }

  /** What is collected is what is left of the dumps that the device has produced, and that
      were asked for. */
  ghost predicate Produced(b: Begun, l: Line, out: seq<Param>, events: seq<Event>) {
    && b.first.dumps <= l.dumps && Rounds(out, b.first.device.order, l.dumps - b.first.dumps)
    && Owed(l) <= Owed(b.first) + Requests(events)
  }

  lemma CollectProduced(b: Begun, r: Reader, events: seq<Event>)
    requires Sane(b.t, b.first, b.start, r) && r.asks == Requests(events)
    ensures Produced(b, r.line, r.out, events)
  {
    CollectedRounds(b.t.crc, r.line, b.first.device.order, b.first.dumps, r.out, r.line.dumps - b.first.dumps);
  }

  // ----- the loop is a run of turns

  lemma TurnWaited(b: Begun, r: Reader, trail: seq<Line>, now: int) returns (n: Reader)
    requires Reaches(b.t, b.first, b.start, r) && InTime(b.start, r) && Course(b.t, AskIfDue(r).line, trail)
    requires r.now + READ_ALL_POLL <= now && !QuietLong(AskIfDue(r), now)
    ensures n == Waited(AskIfDue(r), Last(trail), now) && Reaches(b.t, b.first, b.start, n)
  {
    n := Waited(AskIfDue(r), Last(trail), now);
    ReachesNext(b.t, b.first, b.start, r, trail, n);
  }

  lemma TurnReceived(b: Begun, r: Reader, trail: seq<Line>, now: int) returns (n: Reader)
    requires Reaches(b.t, b.first, b.start, r) && InTime(b.start, r) && Course(b.t, AskIfDue(r).line, trail)
    requires Last(trail).device.replies != [] && Last(trail).device.replies[0].cmd != CMD_READ_ALL_COMPLETE
    requires r.now <= now < r.now + READ_ALL_POLL
    ensures n == Received(AskIfDue(r), Last(trail), now) && Reaches(b.t, b.first, b.start, n)
  {
    n := Received(AskIfDue(r), Last(trail), now);
    ReachesNext(b.t, b.first, b.start, r, trail, n);
  }

  lemma OpenWindow(b: Begun, r: Reader, trail: seq<Line>, events: seq<Event>)
    requires Reaches(b.t, b.first, b.start, r) && InTime(b.start, r) && Course(b.t, AskIfDue(r).line, trail)
    requires AskIfDue(r).asks == Requests(events)
    ensures Window(b.t, b.first, b.start, Requests(events), r, Last(trail))
  {
  }

  lemma SeesMarker(b: Begun, r: Reader, trail: seq<Line>, events: seq<Event>, m: Msg)
    requires Reaches(b.t, b.first, b.start, r) && InTime(b.start, r) && Course(b.t, AskIfDue(r).line, trail)
    requires AskIfDue(r).asks == Requests(events) && Comes(Last(trail), m)
    ensures Sees(b.t, b.first, b.start, Requests(events), r.out, m)
  {
    OpenWindow(b, r, trail, events);
  }

  lemma StopsQuiet(b: Begun, r: Reader, trail: seq<Line>, events: seq<Event>)
    requires Reaches(b.t, b.first, b.start, r) && InTime(b.start, r) && Course(b.t, AskIfDue(r).line, trail)
    requires AskIfDue(r).asks == Requests(events) && r.primed
    ensures Stops(b.t, b.first, b.start, Requests(events), r.out, Last(trail))
  {
    OpenWindow(b, r, trail, events);
  }

  lemma StopsLate(b: Begun, r: Reader, events: seq<Event>)
    requires Reaches(b.t, b.first, b.start, r) && !InTime(b.start, r) && r.asks == Requests(events)
    ensures r.primed ==> Stops(b.t, b.first, b.start, Requests(events), r.out, r.line)
  {
    assert AtDeadline(b.t, b.first, b.start, Requests(events), r, r.line);
  }

  // ----- what the checks are worth

  /** The end of a dump agrees with the whole list, if its count can be said. */
  lemma EndAccepted(crc: Checksum, order: seq<Param>)
    ensures Accepts(crc, order, DumpEnd(crc, order)) <==> |order| < 0x1_0000
  {
  }

  /** What can be said of a read that has succeeded. */
  ghost predicate Trusted(b: Begun, l: Line, out: seq<Param>, events: seq<Event>, marked: bool) {
    && b.first.dumps <= l.dumps
    && ReadBack(b.t.crc, b.first.device.order, out, l.dumps - b.first.dumps, marked)
    && (Unasked(b.first) ==>
          && l.dumps <= b.first.dumps + Requests(events)
          && ReadBack(b.t.crc, b.first.device.order, out, Requests(events), marked)
          && ReadBack(b.t.crc, b.first.device.order, out, 25, marked))
    && Returns(b.t, b.first, b.start, Requests(events), out)
  }

  lemma Trust(b: Begun, stopped: Line, l: Line, out: seq<Param>, events: seq<Event>, marked: bool)
    requires Produced(b, stopped, out, events) && Requests(events) <= 25
    requires stopped.dumps <= l.dumps <= Owed(stopped)
    requires b.t.crc(Values(out)) == b.t.crc(Values(b.first.device.order))
    requires marked ==> Accepts(b.t.crc, out, DumpEnd(b.t.crc, b.first.device.order))
    requires Returns(b.t, b.first, b.start, Requests(events), out)
    ensures Trusted(b, l, out, events, marked)
  {
    var crc, order, had := b.t.crc, b.first.device.order, stopped.dumps - b.first.dumps;
    WhatWasRead(crc, order, out, had, l.dumps - b.first.dumps, marked);
    UnaskedOwes(b.first);
    if Unasked(b.first) {
      WhatWasRead(crc, order, out, had, Requests(events), marked);
      WhatWasRead(crc, order, out, had, 25, marked);
    }
  }

  lemma MarkerTrusted(b: Begun, l: Line, out: seq<Param>, events: seq<Event>, m: Msg)
    requires Produced(b, l, out, events) && Requests(events) <= 25
    requires m == DumpEnd(b.t.crc, b.first.device.order) && Accepts(b.t.crc, out, m)
    requires Sees(b.t, b.first, b.start, Requests(events), out, m)
    ensures Trusted(b, l, out, events, true)
  {
    assert EndsMarked(b.t, b.first, b.start, Requests(events), out);
    Trust(b, l, l, out, events, true);
  }

  lemma CheckTrusted(b: Begun, stopped: Line, tail: seq<Line>, l: Line, out: seq<Param>, events: seq<Event>)
    requires Produced(b, stopped, out, events) && Requests(events) <= 25
    requires stopped.dumps <= l.dumps <= Owed(stopped)
    requires Stops(b.t, b.first, b.start, Requests(events), out, stopped) && Trail(b.t, CHECK, stopped, tail)
    requires CheckedAt(b.t, Last(tail), out) && b.t.crc(Values(out)) == b.t.crc(Values(b.first.device.order))
    ensures Trusted(b, l, out, events, false)
  {
    assert EndsChecked(b.t, b.first, b.start, Requests(events), out);
    Trust(b, stopped, l, out, events, false);
  }
}
