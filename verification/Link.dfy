/**
 The transport between client and device: a queue of commands on their way, the device's
 queue of replies, and a clock. Frames may be lost in either direction, never changed,
 duplicated or overtaken; the device's cyclic traffic may appear at any time.
 */
module Link {
  import opened PyInt
  import opened LittleEndian
  import opened Messages
  import opened Device

  /** Everything but the clock: what is on its way to the device, the device, how many dumps
      it has been asked for, and how many staging values and other frames have been lost. */
  datatype Line = Line(up: seq<Msg>, device: DeviceState, dumps: nat, lost: nat, lostVals: nat)

  /** The next command is lost, or the device takes it, or the next reply is lost. */
  ghost predicate Hidden(t: Traits, l: Line, n: Line) {
    || (l.up != [] && n == LostCommand(l))
    || (l.up != [] && n == Delivered(t, l))
    || (l.device.replies != [] && n == LostReply(l))
  }

  function LostCommand(l: Line): Line
    requires l.up != []
  {
    var n := l.(up := l.up[1..]);
    if l.up[0].cmd == CMD_WRITE_ALL_VAL then n.(lostVals := l.lostVals + 1) else n.(lost := l.lost + 1)
  }

  function Delivered(t: Traits, l: Line): Line
    requires l.up != []
  {
    var m := l.up[0];
    l.(up := l.up[1..], device := React(t, l.device, m),
       dumps := if m.cmd == CMD_READ_ALL then l.dumps + 1 else l.dumps)
  }

  /** The next reply leaves the queue. */
  function Taken(l: Line): Line
    requires l.device.replies != []
  {
    l.(device := l.device.(replies := l.device.replies[1..]))
  }

  function LostReply(l: Line): Line
    requires l.device.replies != []
  {
    Taken(l).(lost := l.lost + 1)
  }

  function Pushed(l: Line, m: Msg): Line { l.(up := l.up + [m]) }

  predicate Empty(l: Line) { l.up == [] && l.device.replies == [] }

  /** What goes on while the client sends no command but m. */
  ghost predicate StepOf(t: Traits, m: Msg, l: Line, n: Line) {
    Hidden(t, l, n) || n == Pushed(l, m) || (l.device.replies != [] && n == Taken(l))
  }

  ghost predicate Trail(t: Traits, m: Msg, l: Line, trail: seq<Line>) {
    && |trail| > 0 && trail[0] == l
    && forall i: nat | i < |trail| - 1 :: Linked(t, m, trail, i)
  }

  ghost predicate Linked(t: Traits, m: Msg, trail: seq<Line>, i: nat) {
    i + 1 < |trail| && StepOf(t, m, trail[i], trail[i + 1])
  }

  /** What goes on without the client's doing. */
  ghost predicate Course(t: Traits, l: Line, trail: seq<Line>) {
    && |trail| > 0 && trail[0] == l
    && forall i: nat | i < |trail| - 1 :: HiddenAt(t, trail, i)
  }

  ghost predicate HiddenAt(t: Traits, trail: seq<Line>, i: nat) {
    i + 1 < |trail| && Hidden(t, trail[i], trail[i + 1])
  }

  function Last(trail: seq<Line>): Line
    requires |trail| > 0
  {
    trail[|trail| - 1]
  }

  lemma TrailFront(t: Traits, m: Msg, l: Line, trail: seq<Line>)
    requires Trail(t, m, l, trail) && |trail| > 1
    ensures Trail(t, m, l, trail[..|trail| - 1])
    ensures StepOf(t, m, trail[|trail| - 2], Last(trail)) && Last(trail[..|trail| - 1]) == trail[|trail| - 2]
  {
    assert Linked(t, m, trail, |trail| - 2);
    var front := trail[..|trail| - 1];
    forall i: nat | i < |front| - 1
      ensures Linked(t, m, front, i)
    {
      assert Linked(t, m, trail, i);
    }
  }

  lemma CourseFront(t: Traits, l: Line, trail: seq<Line>)
    requires Course(t, l, trail) && |trail| > 1
    ensures Course(t, l, trail[..|trail| - 1])
    ensures Hidden(t, trail[|trail| - 2], Last(trail)) && Last(trail[..|trail| - 1]) == trail[|trail| - 2]
  {
    assert HiddenAt(t, trail, |trail| - 2);
    var front := trail[..|trail| - 1];
    forall i: nat | i < |front| - 1
      ensures HiddenAt(t, front, i)
    {
      assert HiddenAt(t, trail, i);
    }
  }

  lemma CourseExtend(t: Traits, l: Line, trail: seq<Line>, n: Line)
    requires Course(t, l, trail) && Hidden(t, Last(trail), n)
    ensures Course(t, l, trail + [n]) && Last(trail + [n]) == n
  {
    forall i: nat | i < |trail|
      ensures HiddenAt(t, trail + [n], i)
    {
      assert i < |trail| - 1 ==> HiddenAt(t, trail, i);
    }
  }

  lemma CourseJoin(t: Traits, l: Line, a: seq<Line>, b: seq<Line>)
    requires Course(t, l, a) && Course(t, Last(a), b)
    ensures Course(t, l, a + b[1..]) && Last(a + b[1..]) == Last(b)
  {
    var c := a + b[1..];
    forall i: nat | i < |c| - 1
      ensures HiddenAt(t, c, i)
    {
      if i >= |a| - 1 { assert HiddenAt(t, b, i + 1 - |a|); }
      else { assert HiddenAt(t, a, i); }
    }
  }

  /** A course of the line is a trail, whatever the client might have been sending. */
  lemma CourseIsTrail(t: Traits, m: Msg, l: Line, trail: seq<Line>)
    requires Course(t, l, trail)
    ensures Trail(t, m, l, trail)
  {
    forall i: nat | i < |trail| - 1
      ensures Linked(t, m, trail, i)
    {
      assert HiddenAt(t, trail, i);
    }
  }

  lemma TrailExtend(t: Traits, m: Msg, l: Line, trail: seq<Line>, n: Line)
    requires Trail(t, m, l, trail) && StepOf(t, m, Last(trail), n)
    ensures Trail(t, m, l, trail + [n]) && Last(trail + [n]) == n
  {
    forall i: nat | i < |trail|
      ensures Linked(t, m, trail + [n], i)
    {
      assert i < |trail| - 1 ==> Linked(t, m, trail, i);
    }
  }

  lemma TrailJoin(t: Traits, m: Msg, l: Line, a: seq<Line>, b: seq<Line>)
    requires Trail(t, m, l, a) && Trail(t, m, Last(a), b)
    ensures Trail(t, m, l, a + b[1..]) && Last(a + b[1..]) == Last(b)
  {
    var c := a + b[1..];
    forall i: nat | i < |c| - 1
      ensures Linked(t, m, c, i)
    {
      if i >= |a| - 1 { assert Linked(t, m, b, i + 1 - |a|); }
      else { assert Linked(t, m, a, i); }
    }
  }

  // ----- accounting

  /** Commands that are always answered, and the kind of the answer. */
  predicate Asks(cmd: byte, want: byte) {
    || cmd == want == CMD_WRITE_ALL
    || cmd == want == CMD_WRITE_ALL_COMPLETE
    || (cmd == CMD_CHECK_CRC && want == CMD_CHECK_CRC_RSP)
  }

  /** Questions on their way, answers not yet read, and losses. */
  function Credit(l: Line, cmd: byte, want: byte): nat {
    |Picked(l.up, cmd)| + |Picked(l.device.replies, want)| + l.lost
  }

  /** Dumps produced or asked for. */
  function Owed(l: Line): nat { l.dumps + |Picked(l.up, CMD_READ_ALL)| }

  /** On the way from a to b no question has vanished without an answer or a loss, and no
      dump has been produced that was not asked for. */
  ghost predicate Accounted(a: Line, b: Line) {
    && a.lost <= b.lost && a.lostVals <= b.lostVals && Owed(b) <= Owed(a)
    && forall cmd, want | Asks(cmd, want) :: Credit(a, cmd, want) <= Credit(b, cmd, want)
  }

  lemma AnswerPicked(t: Traits, d: DeviceState, m: Msg, want: byte)
    ensures Asks(m.cmd, want) ==> |Picked(Answer(t, d, m), want)| >= 1
  {
    var a := Answer(t, d, m);
    if |a| == 1 { PickedHead(a, want); }
  }

  lemma CreditDelivered(t: Traits, l: Line, cmd: byte, want: byte)
    requires l.up != [] && Asks(cmd, want)
    ensures Credit(l, cmd, want) <= Credit(Delivered(t, l), cmd, want)
  {
    var m := l.up[0];
    PickedHead(l.up, cmd);
    AnswerPicked(t, l.device, m, want);
    assert Delivered(t, l).device.replies == l.device.replies + Answer(t, l.device, m);
    PickedAppend(l.device.replies, Answer(t, l.device, m), want);
  }

  lemma CreditLost(l: Line, cmd: byte, want: byte)
    requires Asks(cmd, want)
    ensures l.up != [] ==> Credit(l, cmd, want) <= Credit(LostCommand(l), cmd, want)
    ensures l.device.replies != [] ==> Credit(l, cmd, want) <= Credit(LostReply(l), cmd, want)
  {
    if l.up != [] { PickedHead(l.up, cmd); }
    if l.device.replies != [] { PickedHead(l.device.replies, want); }
  }

  /** Whatever happens on the line is accounted for. */
  lemma HiddenAccounted(t: Traits, l: Line, n: Line)
    requires Hidden(t, l, n)
    ensures Accounted(l, n)
  {
    if l.up != [] { PickedHead(l.up, CMD_READ_ALL); }
    forall cmd, want | Asks(cmd, want)
      ensures Credit(l, cmd, want) <= Credit(n, cmd, want)
    {
      CreditLost(l, cmd, want);
      if l.up != [] { CreditDelivered(t, l, cmd, want); }
    }
  }

  lemma AccountedJoin(a: Line, b: Line, c: Line)
    requires Accounted(a, b) && Accounted(b, c)
    ensures Accounted(a, c)
  {
    forall cmd, want | Asks(cmd, want)
      ensures Credit(a, cmd, want) <= Credit(c, cmd, want)
    {
      assert Credit(a, cmd, want) <= Credit(b, cmd, want);
    }
  }

  /** What the client sees and does, in order. */
  datatype Event = Sent(m: Msg) | Got(m: Msg)

  /** The transport. Besides what is on the line it counts its own faults: a command refused
      at once, or nothing new reported while something was still under way. */
  class Port {
    const device: FakeDevice
    const base: uint16
    var up: seq<Msg>
    var now: int
    ghost var dumps: nat
    ghost var lost: nat
    ghost var lostVals: nat
    ghost var faults: nat
    ghost var log: seq<Event>

    constructor (device: FakeDevice, base: uint16)
      ensures this.device == device && this.base == base && up == [] && now == 0 && log == []
    {
      this.device, this.base, up, now, dumps, log := device, base, [], 0, 0, [];
      lost, lostVals, faults := 0, 0, 0;
    }

    ghost function State(): Line
      reads this, device
    {
      Line(up, device.State(), dumps, lost, lostVals)
    }

    /** Puts a command on its way; it can fail at once. */
    method Send(f: Frame) returns (ok: bool)
      requires |f.data| >= 8
      modifies `up, `log, `faults
      ensures ok ==> State() == Pushed(old(State()), Decode(f.data)) && log == old(log) + [Sent(Decode(f.data))]
      ensures !ok ==> State() == old(State()) && log == old(log)
      ensures faults == old(faults) + if ok then 0 else 1
    {
      ok := *;
      if ok {
        up := up + [Decode(f.data)];
        log := log + [Sent(Decode(f.data))];
      } else {
        faults := faults + 1;
      }
    }

    method Sleep(d: nat)
      modifies `now
      ensures now == old(now) + d
    {
      now := now + d;
    }

    method LoseCommand()
      requires up != []
      modifies `up, `lost, `lostVals
      ensures State() == LostCommand(old(State()))
    {
      if up[0].cmd == CMD_WRITE_ALL_VAL { lostVals := lostVals + 1; } else { lost := lost + 1; }
      up := up[1..];
    }

    method Deliver()
      requires up != [] && IsCrc(device.t.crc)
      modifies `up, `dumps, device
      ensures State() == Delivered(device.t, old(State()))
    {
      var c := up[0];
      up := up[1..];
      device.Send(c);
      if c.cmd == CMD_READ_ALL { dumps := dumps + 1; }
    }

    method LoseReply()
      requires device.rx != []
      modifies `lost, device`rx
      ensures State() == LostReply(old(State()))
    {
      lost := lost + 1;
      device.rx := device.rx[1..];
    }

    /** Something happens on the line, or nothing. */
    method Happen() returns (more: bool)
      requires IsCrc(device.t.crc)
      modifies `up, `dumps, `lost, `lostVals, device
      ensures more ==> Hidden(device.t, old(State()), State())
      ensures more ==> |up| < |old(up)| || (up == old(up) && |device.rx| < |old(device.rx)|)
      ensures !more ==> State() == old(State())
    {
      more := true;
      if {
      case up != [] =>
        LoseCommand();
      case up != [] =>
        Deliver();
      case device.rx != [] =>
        LoseReply();
      case true =>
        more := false;
      }
    }

    /** Any number of things happen on the line. */
    method Settle() returns (ghost trail: seq<Line>)
      requires IsCrc(device.t.crc)
      modifies `up, `dumps, `lost, `lostVals, device
      ensures Course(device.t, old(State()), trail) && State() == Last(trail)
      ensures Accounted(old(State()), State())
      ensures |up| < |old(up)| || (|up| == |old(up)| && |device.rx| <= |old(device.rx)|)
    {
      trail := [State()];
      var more := true;
      while more
        invariant Course(device.t, old(State()), trail) && State() == Last(trail)
        invariant Accounted(old(State()), State())
        invariant |up| < |old(up)| || (|up| == |old(up)| && |device.rx| <= |old(device.rx)|)
        decreases if more then 1 else 0, |up|, |device.rx|
      {
        ghost var before := State();
        more := Happen();
        if more {
          HiddenAccounted(device.t, before, State());
          AccountedJoin(old(State()), before, State());
          CourseExtend(device.t, old(State()), trail, State());
          trail := trail + [State()];
        }
      }
    }

    /** A frame, or an error once the timeout has passed. What the line does meanwhile is
        in the trail. */
    method Recv(timeout: nat) returns (f: Frame, ok: bool, ghost trail: seq<Line>)
      requires IsCrc(device.t.crc)
      modifies this, device
      ensures Course(device.t, old(State()), trail) && Accounted(old(State()), Last(trail))
      ensures ok && f.id == base && |f.data| >= 8 ==>
        && Last(trail).device.replies != [] && State() == Taken(Last(trail))
        && f.data == FrameBytes(Last(trail).device.replies[0])
        && log == old(log) + [Got(Last(trail).device.replies[0])] && now == old(now) && faults == old(faults)
      ensures !(ok && f.id == base && |f.data| >= 8) ==> State() == Last(trail) && log == old(log) && now >= old(now)
      ensures !(ok && f.id == base && |f.data| >= 8) ==> faults == old(faults) + if Empty(State()) then 0 else 1
      ensures ok ==> now > old(now) || |up| < |old(up)| || (|up| == |old(up)| && |device.rx| < |old(device.rx)|)
      ensures |up| < |old(up)| || (|up| == |old(up)| && |device.rx| <= |old(device.rx)|)
      ensures !ok ==> now == old(now) + timeout
    {
      trail := Settle();
      if {
      case device.rx != [] =>
        f, ok := Frame(base, FrameBytes(device.rx[0])), true;
        log := log + [Got(device.rx[0])];
        device.rx := device.rx[1..];
      case true =>
        f, ok := *, true;
        if f.id == base && |f.data| >= 8 { f := Frame(f.id, []); }
        var after: int :| after > 0;
        now := now + after;
        faults := faults + if Empty(State()) then 0 else 1;
      case true =>
        f, ok := Frame(0, []), false;
        now := now + timeout;
        faults := faults + if Empty(State()) then 0 else 1;
      }
    }
  }
}
