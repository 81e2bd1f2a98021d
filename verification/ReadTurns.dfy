/**
 The client's read by its clock: it asks until it sees a frame of a dump, waits for one
 reply at a time, and stops at the end of a dump, when the line stays quiet, or at its
 deadline. Which lists it can return is defined here over all that the line can do meanwhile.
 */
module ReadTurns {
  import opened Options
  import opened Messages
  import opened Device
  import opened Link
  import opened Traces
  import opened Policy
  import opened ReadRuns

  /** What the reading client knows, and the line: the time, whether a frame of a dump has
      been seen, when it last asked and last saw one, what it has collected, how often it has asked. */
  datatype Reader = Reader(
    line: Line,
    now: int,
    primed: bool,
    lastSend: Option<int>,
    lastRsp: int,
    out: seq<Param>,
    asks: nat)

  function Begin(first: Line, start: int): Reader { Reader(first, start, false, None, 0, [], 0) }

  predicate InTime(start: int, r: Reader) { r.now < start + READ_ALL_OVERALL }

  /** A turn begins with a request, if it is time for one. */
  function AskIfDue(r: Reader): Reader {
    if !r.primed && Due(r.lastSend, r.now)
    then r.(line := Pushed(r.line, READ), lastSend := Some(r.now), asks := r.asks + 1)
    else r
  }

  /** It ends with the next reply, */
  function Received(r: Reader, l: Line, now: int): Reader
    requires l.device.replies != []
  {
    var m := l.device.replies[0];
    if OfDump(Got(m)) then r.(line := Taken(l), now := now, primed := true, lastRsp := now, out := After(r.out, m))
    else r.(line := Taken(l), now := now)
  }

  /** or with nothing. */
  function Waited(r: Reader, l: Line, now: int): Reader { r.(line := l, now := now) }

  predicate QuietLong(r: Reader, now: int) { r.primed && now - r.lastRsp > READ_ALL_QUIET }

  /** The reader has asked, the line has come to l, and the read goes on as n. */
  predicate GoesOn(r: Reader, l: Line, n: Reader) {
    || (n == Waited(r, l, n.now) && r.now + READ_ALL_POLL <= n.now && !QuietLong(r, n.now))
    || (l.device.replies != [] && l.device.replies[0].cmd != CMD_READ_ALL_COMPLETE
        && n == Received(r, l, n.now) && r.now <= n.now < r.now + READ_ALL_POLL)
  }

  ghost predicate Turn(t: Traits, start: int, r: Reader, n: Reader) {
    InTime(start, r) && exists trail :: Course(t, AskIfDue(r).line, trail) && GoesOn(AskIfDue(r), Last(trail), n)
  }

  ghost predicate Run(t: Traits, first: Line, start: int, run: seq<Reader>) {
    && |run| > 0 && run[0] == Begin(first, start)
    && forall i: nat | i < |run| - 1 :: TurnAt(t, start, run, i)
  }

  ghost predicate TurnAt(t: Traits, start: int, run: seq<Reader>, i: nat) {
    i + 1 < |run| && Turn(t, start, run[i], run[i + 1])
  }

  /** Some run leads here. */
  ghost predicate Reaches(t: Traits, first: Line, start: int, r: Reader) {
    exists run :: Run(t, first, start, run) && run[|run| - 1] == r
  }

  lemma ReachesFirst(t: Traits, first: Line, start: int)
    ensures Reaches(t, first, start, Begin(first, start))
  {
    var run := [Begin(first, start)];
    assert Run(t, first, start, run) && run[|run| - 1] == Begin(first, start);
  }

  lemma ReachesNext(t: Traits, first: Line, start: int, r: Reader, trail: seq<Line>, n: Reader)
    requires Reaches(t, first, start, r) && InTime(start, r)
    requires Course(t, AskIfDue(r).line, trail) && GoesOn(AskIfDue(r), Last(trail), n)
    ensures Reaches(t, first, start, n)
  {
    var run :| Run(t, first, start, run) && run[|run| - 1] == r;
    var longer := run + [n];
    forall i: nat | i < |longer| - 1
      ensures TurnAt(t, start, longer, i)
    {
      if i < |run| - 1 { assert TurnAt(t, start, run, i); }
      else { assert longer[i] == r && longer[i + 1] == n && Turn(t, start, r, n); }
    }
    assert Run(t, first, start, longer) && longer[|longer| - 1] == n;
  }

  // ----- how a read ends

  /** In the next window, opened after at most n requests, the line comes to l. */
  ghost predicate Window(t: Traits, first: Line, start: int, n: nat, r: Reader, l: Line) {
    && Reaches(t, first, start, r) && InTime(start, r) && AskIfDue(r).asks <= n
    && exists trail :: Course(t, AskIfDue(r).line, trail) && Last(trail) == l
  }

  /** The next reply is m. */
  predicate Comes(l: Line, m: Msg) { l.device.replies != [] && l.device.replies[0] == m }

  /** The next reply is m when this has been collected. */
  ghost predicate Sees(t: Traits, first: Line, start: int, n: nat, out: seq<Param>, m: Msg) {
    exists r, l :: Window(t, first, start, n, r, l) && r.out == out && Comes(l, m)
  }

  /** The read can end with an end of a dump that agrees with what was collected. */
  ghost predicate EndsMarked(t: Traits, first: Line, start: int, n: nat, out: seq<Param>) {
    exists m :: Sees(t, first, start, n, out, m) && m.cmd == CMD_READ_ALL_COMPLETE && Accepts(t.crc, out, m)
  }

  ghost predicate AtDeadline(t: Traits, first: Line, start: int, n: nat, r: Reader, l: Line) {
    Reaches(t, first, start, r) && !InTime(start, r) && r.asks <= n && l == r.line
  }

  /** Collecting ends without one, at the deadline or because the line has been quiet. */
  ghost predicate Stops(t: Traits, first: Line, start: int, n: nat, out: seq<Param>, l: Line) {
    exists r: Reader ::
      r.primed && r.out == out && (Window(t, first, start, n, r, l) || AtDeadline(t, first, start, n, r, l))
  }

  /** The read can end so, by the checksum the device reports when asked. */
  ghost predicate EndsChecked(t: Traits, first: Line, start: int, n: nat, out: seq<Param>) {
    exists l, tail :: Stops(t, first, start, n, out, l) && Trail(t, CHECK, l, tail) && CheckedAt(t, Last(tail), out)
  }

  predicate CheckedAt(t: Traits, l: Line, out: seq<Param>) {
    && l.device.replies != [] && l.device.replies[0].cmd == CMD_CHECK_CRC_RSP
    && l.device.replies[0].value == t.crc(Values(out))
  }

  /** The read can return this list without an error, after at most n requests. */
  ghost predicate Returns(t: Traits, first: Line, start: int, n: nat, out: seq<Param>) {
    EndsMarked(t, first, start, n, out) || EndsChecked(t, first, start, n, out)
  }

  // ----- what every run keeps

  /** What has been collected and is under way is what is left of the dumps; no more dumps
      are owed than were asked for; the requests keep their distance. */
  ghost predicate Sane(t: Traits, first: Line, start: int, r: Reader) {
    && Reading(t.crc, r.line, first.device.order, first.dumps, r.out)
    && Owed(r.line) <= Owed(first) + r.asks
    && Paced(start, r.lastSend, r.now, r.asks)
    && (r.lastSend.None? ==> !r.primed && r.out == [])
  }

  lemma SaneFirst(t: Traits, first: Line, start: int)
    requires Quiet(first)
    ensures Sane(t, first, start, Begin(first, start))
  {
    ReadingFirst(t.crc, first);
  }

  lemma OwedNext(l: Line)
    ensures Owed(Pushed(l, READ)) == Owed(l) + 1
  {
    assert Pushed(l, READ).up[..|l.up|] == l.up;
  }

  lemma SaneAsk(t: Traits, first: Line, start: int, r: Reader)
    requires Sane(t, first, start, r) && InTime(start, r)
    ensures Sane(t, first, start, AskIfDue(r)) && AskIfDue(r).lastSend.Some?
  {
    if !r.primed && Due(r.lastSend, r.now) {
      ReadingKept(t, READ, r.line, Pushed(r.line, READ), first.device.order, first.dumps, r.out);
      OwedNext(r.line);
    }
  }

  lemma {:induction false} CourseAccounted(t: Traits, l: Line, trail: seq<Line>)
    requires Course(t, l, trail)
    ensures Accounted(l, Last(trail))
    decreases |trail|
  {
    if |trail| > 1 {
      CourseFront(t, l, trail);
      CourseAccounted(t, l, trail[..|trail| - 1]);
      HiddenAccounted(t, trail[|trail| - 2], Last(trail));
      AccountedJoin(l, trail[|trail| - 2], Last(trail));
    }
  }

  lemma SaneLater(t: Traits, first: Line, start: int, r: Reader, trail: seq<Line>, now: int)
    requires Sane(t, first, start, r) && r.lastSend.Some? && Course(t, r.line, trail) && r.now <= now
    ensures Sane(t, first, start, Waited(r, Last(trail), now))
  {
    CourseAccounted(t, r.line, trail);
    CourseIsTrail(t, READ, r.line, trail);
    ReadingAlong(t, READ, r.line, trail, first.device.order, first.dumps, r.out);
  }

  lemma SaneReceived(t: Traits, first: Line, start: int, r: Reader, trail: seq<Line>, now: int)
    requires Sane(t, first, start, r) && r.lastSend.Some? && Course(t, r.line, trail) && r.now <= now
    requires Last(trail).device.replies != []
    ensures Sane(t, first, start, Received(r, Last(trail), now))
  {
    SaneLater(t, first, start, r, trail, now);
    ReadingTake(t.crc, Last(trail), first.device.order, first.dumps, r.out);
  }

  lemma {:induction false} SaneRun(t: Traits, first: Line, start: int, run: seq<Reader>)
    requires Run(t, first, start, run) && Quiet(first)
    ensures Sane(t, first, start, run[|run| - 1])
    decreases |run|
  {
    if |run| == 1 {
      SaneFirst(t, first, start);
    } else {
      var front, r, n := run[..|run| - 1], run[|run| - 2], run[|run| - 1];
      RunFront(t, first, start, run);
      SaneRun(t, first, start, front);
      SaneAsk(t, first, start, r);
      var trail :| Course(t, AskIfDue(r).line, trail) && GoesOn(AskIfDue(r), Last(trail), n);
      if n == Waited(AskIfDue(r), Last(trail), n.now) && AskIfDue(r).now <= n.now {
        SaneLater(t, first, start, AskIfDue(r), trail, n.now);
      } else {
        SaneReceived(t, first, start, AskIfDue(r), trail, n.now);
      }
    }
  }

  lemma RunFront(t: Traits, first: Line, start: int, run: seq<Reader>)
    requires Run(t, first, start, run) && |run| > 1
    ensures Run(t, first, start, run[..|run| - 1]) && Turn(t, start, run[|run| - 2], run[|run| - 1])
  {
    assert TurnAt(t, start, run, |run| - 2);
    var front := run[..|run| - 1];
    forall i: nat | i < |front| - 1
      ensures TurnAt(t, start, front, i)
    {
      assert TurnAt(t, start, run, i);
    }
  }

  lemma SaneReached(t: Traits, first: Line, start: int, r: Reader)
    requires Quiet(first) && Reaches(t, first, start, r)
    ensures Sane(t, first, start, r)
  {
    var run :| Run(t, first, start, run) && run[|run| - 1] == r;
    SaneRun(t, first, start, run);
  }

  /** The requests fit between the start and the deadline. */
  lemma AsksBound(t: Traits, first: Line, start: int, r: Reader)
    requires Sane(t, first, start, r)
    ensures r.asks <= 25
  {
  }
}
