/**
 The client's side of the parameter protocol: waiting for an answer, asking until one
 comes, writing the whole configuration and reading it back.
 */
module Client {
  import opened Options
  import opened PyInt
  import opened LittleEndian
  import opened Messages
  import opened Device
  import opened Link
  import opened WriteStates
  import opened WriteRuns
  import opened Traces
  import opened Policy
  import opened ReadRuns
  import opened ReadTurns
  import opened ReadTrack

  /** The line has moved on: time has passed, or there is less to come. */
  twostate predicate Progress(port: Port)
    reads port, port.device
  {
    || port.now > old(port.now)
    || |port.up| < |old(port.up)|
    || (|port.up| == |old(port.up)| && |port.device.rx| < |old(port.device.rx)|)
  }

  predicate OtherValue(params: seq<Param>, i: nat, v: uint32)
    requires i < |params|
  {
    v != params[i].value
  }

  /** A question sent counts until it is answered or lost. */
  lemma Asked(l: Line, m: Msg, want: byte)
    ensures Credit(Pushed(l, m), m.cmd, want) == Credit(l, m.cmd, want) + 1
  {
    assert (l.up + [m])[..|l.up|] == l.up;
  }

  lemma OtherTaken(l: Line, cmd: byte, want: byte)
    requires l.device.replies != [] && l.device.replies[0].cmd != want
    ensures Credit(Taken(l), cmd, want) == Credit(l, cmd, want)
  {
    PickedHead(l.device.replies, want);
  }

  class Client {
    const port: Port
    const base: uint16

    constructor (port: Port)
      ensures this.port == port && base == port.base
    {
      this.port, base := port, port.base;
    }

    method SendMsg(m: Msg) returns (ok: bool)
      modifies port
      ensures ok ==> port.State() == Pushed(old(port.State()), m) && port.log == old(port.log) + [Sent(m)]
      ensures !ok ==> port.State() == old(port.State()) && port.log == old(port.log)
      ensures port.now == old(port.now) && port.faults == old(port.faults) + if ok then 0 else 1
    {
      DecodeFrame(m);
      ok := port.Send(Frame((base + CONFIG_RX_OFFSET) % 0x1_0000, FrameBytes(m)));
    }

    /** The next response, or nothing until the deadline. Other traffic is skipped. */
    method RecvResp(deadline: int) returns (r: Option<Msg>, ghost trail: seq<Line>)
      requires base == port.base && IsCrc(port.device.t.crc)
      modifies port, port.device
      ensures Course(port.device.t, old(port.State()), trail) && Accounted(old(port.State()), Last(trail))
      ensures port.now >= old(port.now) && port.faults >= old(port.faults)
      ensures r.Some? ==>
        && Last(trail).device.replies != [] && r.value == Last(trail).device.replies[0]
        && port.State() == Taken(Last(trail)) && port.log == old(port.log) + [Got(r.value)]
        && Progress(port) && port.now < deadline
        && (port.faults == old(port.faults) ==> port.now == old(port.now))
      ensures r.None? ==> port.State() == Last(trail) && port.log == old(port.log) && port.now >= deadline
      ensures r.None? && port.faults == old(port.faults) && old(port.now) < deadline ==> Empty(port.State())
    {
      trail := [port.State()];
      while port.now < deadline
        invariant Course(port.device.t, old(port.State()), trail) && port.State() == Last(trail)
        invariant Accounted(old(port.State()), port.State())
        invariant port.log == old(port.log) && port.now >= old(port.now) && port.faults >= old(port.faults)
        invariant |port.up| < |old(port.up)| || (|port.up| == |old(port.up)|
            && |port.device.rx| <= |old(port.device.rx)|)
        invariant port.now == old(port.now) || port.faults > old(port.faults) || Empty(port.State())
        invariant port.now > old(port.now) || |port.up| < |old(port.up)|
          || (|port.up| == |old(port.up)| && |port.device.rx| <= |old(port.device.rx)|)
        decreases deadline - port.now, |port.up|, |port.device.rx|
      {
        ghost var before := port.State();
        var f, ok, more := port.Recv(deadline - port.now);
        AccountedJoin(old(port.State()), before, Last(more));
        CourseJoin(port.device.t, old(port.State()), trail, more);
        trail := trail + more[1..];
        if !ok {
          return None, trail;
        }
        if f.id == (base + CONFIG_TX_OFFSET) % 0x1_0000 && |f.data| >= 8 {
          DecodeFrame(Last(trail).device.replies[0]);
          return Some(Decode(f.data)), trail;
        }
      }
      r := None;
    }

    /** Asks until the wanted answer comes, six times at most. If none comes, six frames have
        been lost, or the transport refused a command or was late. */
    method RequestBytes(m: Msg, want: byte) returns (r: Option<Msg>, e: Error, ghost trail: seq<Line>,
                        ghost events: seq<Event>)
      requires base == port.base && IsCrc(port.device.t.crc) && Asks(m.cmd, want)
      modifies port, port.device
      ensures Trail(port.device.t, m, old(port.State()), trail) && port.now >= old(port.now)
      ensures port.faults >= old(port.faults) && port.lost >= old(port.lost) && port.lostVals >= old(port.lostVals)
      ensures r.Some? ==>
        && Last(trail).device.replies != [] && r.value == Last(trail).device.replies[0] && r.value.cmd == want
        && port.State() == Taken(Last(trail))
      ensures r.None? ==> port.State() == Last(trail)
      ensures r.None? ==> Unlucky(Some(e), old(port.faults), port.faults, old(port.lost), port.lost)
      ensures port.log == old(port.log) + events && Only(events, m) && Commands(events) <= REQUEST_TRIES
    {
      e, trail, events := NoResponse, [port.State()], [];
      var i := 0;
      while i < REQUEST_TRIES
        invariant 0 <= i <= REQUEST_TRIES
        invariant Trail(port.device.t, m, old(port.State()), trail) && port.State() == Last(trail)
        invariant port.now >= old(port.now) && port.faults >= old(port.faults) && port.lostVals >= old(port.lostVals)
        invariant port.lost >= old(port.lost)
        invariant port.faults > old(port.faults) || port.lost >= old(port.lost) + i
        invariant port.log == old(port.log) + events && Only(events, m) && Commands(events) <= i
      {
        ghost var before := port.State();
        var sent := SendMsg(m);
        if !sent {
          return None, NotSent, trail, events;
        }
        Asked(before, m, want);
        TrailExtend(port.device.t, m, old(port.State()), trail, port.State());
        trail := trail + [port.State()];
        assert (events + [Sent(m)])[..|events|] == events;
        events := events + [Sent(m)];
        r, trail, events := Await(m, want, port.now + REQUEST_TIMEOUT, old(port.State()), trail, events);
        if r.Some? {
          return;
        }
        i := i + 1;
      }
      r := None;
    }

    /** Responses until the wanted one or the deadline. */
    method Await(m: Msg, want: byte, deadline: int, ghost was: Line, ghost before: seq<Line>, ghost seen: seq<Event>)
      returns (r: Option<Msg>, ghost trail: seq<Line>, ghost events: seq<Event>)
      requires base == port.base && IsCrc(port.device.t.crc) && Asks(m.cmd, want) && port.now < deadline
      requires Trail(port.device.t, m, was, before) && port.State() == Last(before)
      modifies port, port.device
      ensures Trail(port.device.t, m, was, trail) && port.now >= old(port.now)
      ensures port.faults >= old(port.faults) && port.lost >= old(port.lost) && port.lostVals >= old(port.lostVals)
      ensures r.Some? ==>
        && Last(trail).device.replies != [] && r.value == Last(trail).device.replies[0] && r.value.cmd == want
        && port.State() == Taken(Last(trail))
      ensures r.None? ==> port.State() == Last(trail)
      ensures r.None? && port.faults == old(port.faults) ==> port.lost >= old(Credit(port.State(), m.cmd, want))
      ensures seen <= events && port.log == old(port.log) + events[|seen|..]
      ensures Only(seen, m) ==> Only(events, m)
      ensures Commands(events) == Commands(seen)
    {
      trail, events := before, seen;
      while true
        invariant Trail(port.device.t, m, was, trail) && port.State() == Last(trail)
        invariant old(port.now) <= port.now < deadline && port.faults >= old(port.faults)
        invariant port.lost >= old(port.lost) && port.lostVals >= old(port.lostVals)
        invariant Credit(port.State(), m.cmd, want) >= old(Credit(port.State(), m.cmd, want))
        invariant seen <= events && port.log == old(port.log) + events[|seen|..]
        invariant Only(seen, m) ==> Only(events, m)
        invariant Commands(events) == Commands(seen)
        decreases Left(deadline, port.now), |port.up|, |port.device.rx|
      {
        ghost var start := port.State();
        ghost var more;
        r, more := RecvResp(deadline);
        CourseIsTrail(port.device.t, m, start, more);
        TrailJoin(port.device.t, m, was, trail, more);
        trail := trail + more[1..];
        if r.None? {
          return;
        }
        assert (events + [Got(r.value)])[..|events|] == events;
        events := events + [Got(r.value)];
        if r.value.cmd == want {
          return;
        }
        OtherTaken(Last(trail), m.cmd, want);
        TrailExtend(port.device.t, m, was, trail, port.State());
        trail := trail + [port.State()];
      }
    }

    /** Makes the device start a new list. */
    method StartWrite() returns (e: Option<Error>)
      requires base == port.base && IsCrc(port.device.t.crc) && Clear(port.State())
      modifies port, port.device
      ensures Unlucky(e, old(port.faults), port.faults, old(port.lost), port.lost)
      ensures port.faults >= old(port.faults) && port.lost >= old(port.lost) && port.lostVals >= old(port.lostVals)
      ensures e.None? ==> Staging(port.device.t.crc, port.State(), [])
    {
      var r, error;
      ghost var trail, events;
      r, error, trail, events := RequestBytes(START, CMD_WRITE_ALL);
      if r.None? {
        return Some(error);
      }
      Started(port.device.t, old(port.State()), trail);
      e := None;
    }

    /** Sends every parameter once, in batches. */
    method SendVals(params: seq<Param>) returns (ok: bool)
      modifies port
      ensures ok ==> port.State() == PushedVals(old(port.State()), params, |params|)
      ensures port.lost == old(port.lost) && port.lostVals == old(port.lostVals)
      ensures port.faults == old(port.faults) + if ok then 0 else 1
    {
      ghost var line := port.State();
      var i := 0;
      while i < |params|
        invariant 0 <= i <= |params| && port.State() == PushedVals(line, params, i)
        invariant port.lost == old(port.lost) && port.lostVals == old(port.lostVals) && port.faults == old(port.faults)
      {
        ok := SendMsg(ValOf(params[i]));
        if !ok {
          return;
        }
        if (i + 1) % WRITE_BATCH_SIZE == 0 {
          port.Sleep(WRITE_BATCH_PAUSE);
        }
        i := i + 1;
      }
      ok := true;
    }

    /** Makes the device commit what it has staged, and checks what it reports. */
    method CommitWrite(params: seq<Param>) returns (e: Option<Error>, ghost report: Option<Msg>)
      requires base == port.base && IsCrc(port.device.t.crc) && Staging(port.device.t.crc, port.State(), params)
      modifies port, port.device
      ensures port.faults >= old(port.faults) && port.lost >= old(port.lost) && port.lostVals >= old(port.lostVals)
      ensures e.None? <==> report.Some? && Accepts(port.device.t.crc, params, report.value)
      ensures e.None? ==> Holds(port.State(), params) && |params| < 0x1_0000
      ensures report.None? ==> Unlucky(e, old(port.faults), port.faults, old(port.lost), port.lost)
      ensures Whole(old(port.State()), params, port.lostVals) && Willing(port.device.t, params) && report.Some? ==>
        (e.None? <==> |params| < 0x1_0000)
    {
      var count: uint16 := |params| % 0x1_0000;
      var r, error;
      ghost var trail, events;
      r, error, trail, events := RequestBytes(Complete(count), CMD_WRITE_ALL_COMPLETE);
      report := r;
      if r.None? {
        return Some(error), None;
      }
      CommitAnswered(old(port.State()), trail, params, count, port.lostVals);
      if r.value.index != |params| {
        return Some(CountMismatch), report;
      }
      var crc := ComputeCrc(port.device.t.crc, params);
      if r.value.value != crc {
        return Some(CrcMismatch), report;
      }
      e := None;
    }

    lemma CommitAnswered(was: Line, trail: seq<Line>, params: seq<Param>, count: uint16, losses: nat)
      requires Staging(port.device.t.crc, was, params) && Trail(port.device.t, Complete(count), was, trail)
      requires Last(trail).device.replies != [] && Last(trail).device.replies[0].cmd == CMD_WRITE_ALL_COMPLETE
      requires losses == Last(trail).lostVals
      ensures var m := Last(trail).device.replies[0];
        && (m.index == |params| ==> Holds(Taken(Last(trail)), params))
        && (Willing(port.device.t, params) && |params| < 0x1_0000 && Whole(was, params, losses) ==>
              Accepts(port.device.t.crc, params, m))
    {
      if Last(trail).device.replies[0].index == |params| {
        CommittedOnly(port.device.t, was, trail, params, count);
      }
      if Willing(port.device.t, params) && |params| < 0x1_0000 && Whole(was, params, losses) {
        CommittedWhole(port.device.t, was, trail, params, count);
      }
    }

    /** Stages all parameters, commits them and checks what the device reports. Success means
        the device holds exactly the list. The write fails only if the transport made
        a fault, six frames were lost, a value was lost or refused, or the list is longer than
        the count can say; and it always fails on a report the check does
        not accept, so on a commit with exactly one wrong value. */
    method WriteAll(params: seq<Param>) returns (e: Option<Error>, ghost report: Option<Msg>)
      requires base == port.base && IsCrc(port.device.t.crc) && Clear(port.State())
      modifies port, port.device
      ensures e.None? ==> Holds(port.State(), params) && |params| < 0x1_0000
      ensures e.None? <==> report.Some? && Accepts(port.device.t.crc, params, report.value)
      ensures forall i, v | 0 <= i < |params| && OtherValue(params, i, v) ::
        report == Some(CommitReply(port.device.t.crc, WithValue(params, i, v))) ==> e.Some?
      ensures Willing(port.device.t, params) && |params| < 0x1_0000 && port.lostVals == old(port.lostVals) ==>
        Unlucky(e, old(port.faults), port.faults, old(port.lost), port.lost)
    {
      report := None;
      e := StartWrite();
      if e.None? {
        ghost var line := port.State();
        var ok := SendVals(params);
        if !ok {
          return Some(NotSent), None;
        }
        ValsStaged(port.device.t.crc, line, params, |params|);
        assert params[..|params|] == params;
        e, report := CommitWrite(params);
        NoWrongValue(port.device.t.crc, params);
      }
    }

    lemma NoWrongValue(crc: Checksum, params: seq<Param>)
      requires IsCrc(crc)
      ensures forall i, v | 0 <= i < |params| && OtherValue(params, i, v) ::
        !Accepts(crc, params, CommitReply(crc, WithValue(params, i, v)))
    {
      forall i, v | 0 <= i < |params| && OtherValue(params, i, v)
        ensures !Accepts(crc, params, CommitReply(crc, WithValue(params, i, v)))
      {
        OneWrongValueRefused(crc, params, i, v);
      }
    }

    /** The checksum over the device's live configuration. */
    method CheckCrc(ghost order: seq<Param>, ghost dumps: nat, ghost out: seq<Param>)
      returns (crc: Option<uint32>, e: Error, ghost tail: seq<Line>, ghost events: seq<Event>)
      requires base == port.base && IsCrc(port.device.t.crc)
          && Reading(port.device.t.crc, port.State(), order, dumps, out)
      modifies port, port.device
      ensures Trail(port.device.t, CHECK, old(port.State()), tail)
      ensures crc.Some? ==> crc.value == port.device.t.crc(Values(order))
      ensures crc.Some? && crc.value == port.device.t.crc(Values(out)) ==> CheckedAt(port.device.t, Last(tail), out)
      ensures crc.None? ==> Unlucky(Some(e), old(port.faults), port.faults, old(port.lost), port.lost)
      ensures port.device.order == order && port.faults >= old(port.faults) && port.lost >= old(port.lost)
      ensures old(port.dumps) <= port.dumps <= old(Owed(port.State()))
      ensures port.log == old(port.log) + events && Only(events, CHECK)
    {
      var r;
      r, e, tail, events := RequestBytes(CHECK, CMD_CHECK_CRC_RSP);
      ReadingAlong(port.device.t, CHECK, old(port.State()), tail, order, dumps, out);
      DumpsAlong(port.device.t, CHECK, old(port.State()), tail);
      crc := None;
      if r.Some? {
        assert r.value in Last(tail).device.replies;
        crc := Some(r.value.value);
      }
    }

    /** Asks for a dump if none has been seen and it is time to ask again. */
    method RequestDump(primed: bool, lastSend: Option<int>, ghost b: Begun, ghost r: Reader, ghost events: seq<Event>)
      returns (ok: bool, last: Option<int>, ghost after: seq<Event>)
      requires Quiet(b.first) && Collecting(b, r, port.faults, events) && InTime(b.start, r)
      requires r.line == port.State() && r.now == port.now && r.primed == primed && r.lastSend == lastSend
      modifies port
      ensures port.now == old(port.now) && port.lost == old(port.lost)
      ensures ok ==> port.State() == AskIfDue(r).line && last == AskIfDue(r).lastSend && last.Some?
      ensures ok ==> port.faults == old(port.faults) && Collecting(b, AskIfDue(r), port.faults, after)
      ensures !ok ==> port.State() == old(port.State()) && port.faults == old(port.faults) + 1 && after == events
      ensures events <= after && port.log == old(port.log) + after[|events|..]
    {
      ok, last, after := true, lastSend, events;
      CollectAsked(b, r, port.faults, events);
      if !primed && Due(lastSend, port.now) {
        ok := SendMsg(READ);
        if ok {
          after, last := events + [Sent(READ)], Some(port.now);
          assert after[|events|..] == [Sent(READ)];
        }
      }
    }

    /** The next response while reading. While nothing is lost and the transport makes no
        fault there is one. */
    method Poll(ghost b: Begun, ghost r: Reader, ghost events: seq<Event>)
      returns (m: Option<Msg>, ghost trail: seq<Line>, ghost after: seq<Event>)
      requires base == port.base && IsCrc(port.device.t.crc) && port.device.t == b.t
      requires Collecting(b, r, port.faults, events) && r.line == port.State() && r.now == port.now && r.lastSend.Some?
      modifies port, port.device
      ensures port.now > old(port.now) || (Progress(port) && port.now == old(port.now))
      ensures port.faults >= old(port.faults) && port.lost >= old(port.lost)
      ensures events <= after && port.log == old(port.log) + after[|events|..]
      ensures Requests(after) == Requests(events) && QuietOnceSeen(after) && Course(b.t, r.line, trail)
      ensures m.None? ==>
        && after == events && port.State() == Last(trail) && r.now + READ_ALL_POLL <= port.now
        && Collecting(b, Waited(r, Last(trail), port.now), port.faults, after)
        && !Undisturbed(b.first, b.faults, port.State(), port.faults)
      ensures m.Some? ==>
        && Comes(Last(trail), m.value) && port.State() == Taken(Last(trail)) && port.now < r.now + READ_ALL_POLL
      ensures m.Some? && m.value.cmd != CMD_READ_ALL_COMPLETE ==>
        Collecting(b, Received(r, Last(trail), port.now), port.faults, after)
      ensures m.Some? && m.value.cmd == CMD_READ_ALL_COMPLETE ==>
        && m.value == DumpEnd(b.t.crc, b.first.device.order) && Produced(b, port.State(), r.out, after)
        && (Undisturbed(b.first, b.faults, port.State(), port.faults) ==> r.out == b.first.device.order)
    {
      ghost var faults := port.faults;
      m, trail := RecvResp(port.now + READ_ALL_POLL);
      after := events;
      if m.None? {
        CollectIdle(b, r, faults, trail, port.faults, port.now, events);
      } else {
        after := events + [Got(m.value)];
        assert after[|events|..] == [Got(m.value)];
        if m.value.cmd == CMD_READ_ALL_COMPLETE {
          CollectEnd(b, r, faults, trail, port.faults, events, m.value);
        } else {
          CollectGot(b, r, faults, trail, port.faults, port.now, events, m.value);
        }
      }
    }

    /** One turn: a request if it is time for one, then one receive window. */
    method TakeTurn(primed: bool, lastSend: Option<int>, ghost b: Begun, ghost r: Reader, ghost events: seq<Event>)
      returns (ok: bool, last: Option<int>, m: Option<Msg>, ghost n: Reader, ghost l: Line, ghost after: seq<Event>)
      requires base == port.base && IsCrc(port.device.t.crc) && port.device.t == b.t && Quiet(b.first)
      requires Collecting(b, r, port.faults, events) && Reaches(b.t, b.first, b.start, r) && InTime(b.start, r)
      requires r.line == port.State() && r.now == port.now && r.primed == primed && r.lastSend == lastSend
      modifies port, port.device
      ensures port.now >= old(port.now) && port.faults >= old(port.faults) && port.lost >= old(port.lost)
      ensures ok ==> last == AskIfDue(r).lastSend && Requests(after) == AskIfDue(r).asks
      ensures ok && port.now == old(port.now) && (primed || !Due(lastSend, port.now)) ==> Progress(port)
      ensures events <= after && port.log == old(port.log) + after[|events|..]
      ensures Requests(after) <= 25 && QuietOnceSeen(after)
      ensures !ok ==> n == r && Collecting(b, n, port.faults, after) && r.line == port.State() && port.faults > b.faults
      ensures ok && m.None? ==>
        && n == Waited(AskIfDue(r), port.State(), port.now) && Collecting(b, n, port.faults, after)
        && !Undisturbed(b.first, b.faults, port.State(), port.faults)
        && if QuietLong(n, port.now) then Stops(b.t, b.first, b.start, Requests(after), r.out, port.State())
           else Reaches(b.t, b.first, b.start, n)
      ensures ok && m.Some? ==> Comes(l, m.value) && port.State() == Taken(l)
      ensures ok && m.Some? && m.value.cmd != CMD_READ_ALL_COMPLETE ==>
        && n == Received(AskIfDue(r), l, port.now) && Collecting(b, n, port.faults, after)
        && Reaches(b.t, b.first, b.start, n)
      ensures ok && m.Some? && m.value.cmd == CMD_READ_ALL_COMPLETE ==>
        && m.value == DumpEnd(b.t.crc, b.first.device.order) && Produced(b, port.State(), r.out, after)
        && Sees(b.t, b.first, b.start, Requests(after), r.out, m.value)
        && (Undisturbed(b.first, b.faults, port.State(), port.faults) ==> r.out == b.first.device.order)
    {
      AsksBound(b.t, b.first, b.start, r);
      m, n, l := None, r, r.line;
      ok, last, after := RequestDump(primed, lastSend, b, r, events);
      if !ok {
        CollectRefused(b, r, port.faults - 1, events);
        return;
      }
      ghost var asked := AskIfDue(r);
      AsksBound(b.t, b.first, b.start, asked);
      ghost var trail;
      ghost var sent := after;
      m, trail, after := Poll(b, asked, sent);
      Further(old(port.log), events, sent, after);
      l := Last(trail);
      if m.None? {
        n := Waited(asked, l, port.now);
        if QuietLong(n, port.now) { StopsQuiet(b, r, trail, after); } else { n := TurnWaited(b, r, trail, port.now); }
      } else if m.value.cmd == CMD_READ_ALL_COMPLETE {
        SeesMarker(b, r, trail, after, m.value);
      } else {
        n := TurnReceived(b, r, trail, port.now);
      }
    }

    /** Asks until the first frame of a dump comes, then collects until the end of the dump
        or until the line has been quiet. */
    method Gather(ghost b: Begun) returns (out: seq<Param>, primed: bool, end: Option<Msg>, ok: bool,
                  ghost events: seq<Event>)
      requires base == port.base && IsCrc(port.device.t.crc) && Quiet(port.State())
      requires b == Begun(port.device.t, port.State(), port.faults, port.now)
      modifies port, port.device
      ensures port.faults >= b.faults && port.lost >= b.first.lost
      ensures port.log == old(port.log) + events && Requests(events) <= 25 && QuietOnceSeen(events)
      ensures end.None? ==> Reading(b.t.crc, port.State(), b.first.device.order, b.first.dumps, out)
      ensures ok && Undisturbed(b.first, b.faults, port.State(), port.faults) ==>
        end.Some? && out == b.first.device.order
      ensures end.Some? ==>
        && end.value == DumpEnd(b.t.crc, b.first.device.order)
        && Sees(b.t, b.first, b.start, Requests(events), out, end.value)
      ensures ok && end.None? && primed ==> Stops(b.t, b.first, b.start, Requests(events), out, port.State())
      ensures Produced(b, port.State(), out, events)
      ensures !ok ==> end.None? && port.faults > b.faults
    {
      out, primed, end, ok, events := [], false, None, true, [];
      var lastSend: Option<int> := None;
      var lastRsp := 0;
      var deadline := port.now + READ_ALL_OVERALL;
      ghost var r := Begin(b.first, b.start);
      CollectFirst(b);
      ReachesFirst(b.t, b.first, b.start);
      while port.now < deadline
        invariant r == Reader(port.State(), port.now, primed, lastSend, lastRsp, out, Requests(events))
        invariant Collecting(b, r, port.faults, events) && Reaches(b.t, b.first, b.start, r)
        invariant port.log == old(port.log) + events
        decreases Left(deadline, port.now), if !primed && Due(lastSend, port.now) then 1 else 0, |port.up|,
          |port.device.rx|
      {
        ghost var before := events;
        var m;
        ghost var l;
        ok, lastSend, m, r, l, events := TakeTurn(primed, lastSend, b, r, events);
        Continued(old(port.log), before, events);
        if !ok {
          CollectProduced(b, r, events);
          return;
        }
        if m.None? {
          if primed && port.now - lastRsp > READ_ALL_QUIET {
            CollectProduced(b, r, events);
            return;
          }
        } else if m.value.cmd == CMD_READ_ALL || m.value.cmd == CMD_READ_ALL_RSP {
          primed := true;
          lastRsp := port.now;
          if m.value.cmd == CMD_READ_ALL_RSP {
            out := out + [ParamOf(m.value)];
          }
        } else if m.value.cmd == CMD_READ_ALL_COMPLETE {
          end := m;
          return;
        }
      }
      AsksBound(b.t, b.first, b.start, r);
      CollectProduced(b, r, events);
      StopsLate(b, r, events);
    }

    /** Reads every parameter and checks what has arrived: against the end of the dump, or,
        if that was lost, against the checksum the device reports when asked. What it returns
        is what is left of the dumps the device has produced meanwhile, so the device's list
        unless the losses can leave another list that passes the check. If it has produced one
        dump and its end has come, it is always the device's list, however often the client has
        asked; and if nothing is lost and the transport makes no fault the read succeeds. */
    method ReadAll() returns (out: seq<Param>, e: Option<Error>, ghost end: Option<Msg>, ghost events: seq<Event>)
      requires base == port.base && IsCrc(port.device.t.crc) && Quiet(port.State())
      modifies port, port.device
      ensures e.None? ==>
        Trusted(Begun(port.device.t, old(port.State()), old(port.faults), old(port.now)), port.State(), out, events,
          end.Some?)
      ensures end.Some? ==>
        && end.value == DumpEnd(port.device.t.crc, old(port.device.order))
        && (e.None? <==> Accepts(port.device.t.crc, out, end.value))
      ensures e.None? && end.Some? && old(Countable(port.State())) && port.dumps <= old(port.dumps) + 1 ==>
        out == old(port.device.order)
      ensures port.lost == old(port.lost) && port.faults == old(port.faults) && old(Fresh(port.State())) ==>
        e.None? && out == old(port.device.order)
      ensures port.log == old(port.log) + events && Requests(events) <= 25 && QuietOnceSeen(events)
    {
      ghost var b := Begun(port.device.t, port.State(), port.faults, port.now);
      UnaskedOwes(b.first);
      var primed, marker, ok;
      out, primed, marker, ok, events := Gather(b);
      end := marker;
      if !ok {
        return [], Some(NotSent), end, events;
      }
      if marker.Some? {
        EndAccepted(b.t.crc, b.first.device.order);
        e := CheckEnd(out, marker.value);
        if e.None? { MarkerTrusted(b, port.State(), out, events, marker.value); }
        return;
      }
      if !primed {
        return [], Some(NotResponding), end, events;
      }
      ghost var more, tail;
      ghost var stopped := port.State();
      e, tail, more := CheckOut(out, b.first.device.order, b.first.dumps);
      OtherNext(events, more, CHECK);
      Joined(old(port.log), events, more);
      if e.None? { CheckTrusted(b, stopped, tail, port.State(), out, events); }
      events := events + more;
    }

    /** Checks what was collected against the end of the dump. */
    method CheckEnd(out: seq<Param>, m: Msg) returns (e: Option<Error>)
      requires IsCrc(port.device.t.crc) && m.cmd == CMD_READ_ALL_COMPLETE
      ensures e.None? <==> Accepts(port.device.t.crc, out, m)
    {
      if m.index != |out| {
        return Some(CountMismatch);
      }
      var crc := ComputeCrc(port.device.t.crc, out);
      e := if crc == m.value then None else Some(CrcMismatch);
    }

    /** Checks what was collected against the checksum the device reports. */
    method CheckOut(out: seq<Param>, ghost order: seq<Param>, ghost dumps: nat)
      returns (e: Option<Error>, ghost tail: seq<Line>, ghost events: seq<Event>)
      requires base == port.base && IsCrc(port.device.t.crc)
      requires Reading(port.device.t.crc, port.State(), order, dumps, out)
      modifies port, port.device
      ensures port.faults >= old(port.faults) && port.lost >= old(port.lost)
      ensures old(port.dumps) <= port.dumps <= old(Owed(port.State()))
      ensures Trail(port.device.t, CHECK, old(port.State()), tail)
      ensures e.None? ==>
        CheckedAt(port.device.t, Last(tail), out) && port.device.t.crc(Values(out)) == port.device.t.crc(Values(order))
      ensures port.log == old(port.log) + events && Only(events, CHECK)
    {
      var devCrc, error;
      devCrc, error, tail, events := CheckCrc(order, dumps, out);
      if devCrc.None? {
        return Some(error), tail, events;
      }
      var crc := ComputeCrc(port.device.t.crc, out);
      e := if crc == devCrc.value then None else Some(CrcMismatch);
    }
  }
}
