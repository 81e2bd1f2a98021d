/**
 CAN output: enabled slots are gathered into frames by identifier at start-up; in every
 cycle the frames that are due are filled from the variables and sent.
 */
module CanFrames {
  import opened PyInt
  import opened Blocks
  import Dbc

  datatype FrameHead = FrameHead(ide: int, id: int, dlc: nat, interval: nat)

  /** Slots that take part: enabled, one to 64 bits. */
  predicate Packable(s: CanOutCfg) { s.enabled && 1 <= s.bitLength <= 64 }

  /** The length and the interval a slot asks for; interval 0 means 100. */
  function DlcOf(s: CanOutCfg): nat
    requires s.bitLength >= 1
  {
    (s.startBit + s.bitLength - 1) / 8 + 1
  }

  function IntervalOf(s: CanOutCfg): nat { if s.interval == 0 then 100 else s.interval }

  predicate SameId(s: CanOutCfg, h: FrameHead) { s.ide == h.ide && s.id == h.id }

  /** Slot i is in frame j. */
  predicate Member(slots: seq<CanOutCfg>, placed: seq<int>, i: nat, j: int)
    requires |slots| == |placed|
  {
    i < |slots| && placed[i] == j && Packable(slots[i])
  }

  /** The first n slots are assembled: every slot that takes part is in exactly the frame
      with its identifier, frames have distinct identifiers, and each frame's length is
      the maximum and its interval the minimum over its members. */
  ghost predicate Assembled(slots: seq<CanOutCfg>, n: nat, placed: seq<int>, heads: seq<FrameHead>)
    requires n <= |slots|
  {
    && Grouped(slots, n, placed, heads)
    && (forall j | 0 <= j < |heads| :: Extremal(slots, placed, heads[j], j))
  }

  predicate Grouped(slots: seq<CanOutCfg>, n: nat, placed: seq<int>, heads: seq<FrameHead>)
    requires n <= |slots|
  {
    && |placed| == |slots|
    && (forall i | 0 <= i < |slots| :: placed[i] != -1 <==> i < n && Packable(slots[i]))
    && (forall i | 0 <= i < |slots| && placed[i] != -1 ::
          0 <= placed[i] < |heads| && SameId(slots[i], heads[placed[i]]))
    && (forall j, k | 0 <= j < k < |heads| :: heads[j].ide != heads[k].ide || heads[j].id != heads[k].id)
  }

  ghost predicate Extremal(slots: seq<CanOutCfg>, placed: seq<int>, h: FrameHead, j: int)
    requires |slots| == |placed|
  {
    && (forall i | 0 <= i < |slots| && Member(slots, placed, i, j) ::
          DlcOf(slots[i]) <= h.dlc && h.interval <= IntervalOf(slots[i]))
    && (exists i :: 0 <= i < |slots| && Member(slots, placed, i, j) && DlcOf(slots[i]) == h.dlc)
    && (exists i :: 0 <= i < |slots| && Member(slots, placed, i, j) && IntervalOf(slots[i]) == h.interval)
  }

  /** Any two assemblies of the same slots put two slots together, or apart, alike. */
  lemma AssemblyIsByIdentifier(slots: seq<CanOutCfg>, placed: seq<int>, heads: seq<FrameHead>, i: nat, k: nat)
    requires Assembled(slots, |slots|, placed, heads) && i < |slots| && k < |slots|
    requires Packable(slots[i]) && Packable(slots[k])
    ensures placed[i] == placed[k] <==> slots[i].ide == slots[k].ide && slots[i].id == slots[k].id
  {
    assert placed[i] != -1 && placed[k] != -1;
  }

  function Joined(h: FrameHead, s: CanOutCfg): FrameHead
    requires s.bitLength >= 1
  {
    h.(dlc := if DlcOf(s) > h.dlc then DlcOf(s) else h.dlc,
       interval := if IntervalOf(s) < h.interval then IntervalOf(s) else h.interval)
  }

  /** A slot placed in frame j does not concern the other frames. */
  lemma JoinElsewhere(slots: seq<CanOutCfg>, i: nat, placed: seq<int>, h: FrameHead, j: nat, k: nat)
    requires i < |slots| == |placed| && placed[i] == -1 && k != j && Extremal(slots, placed, h, k)
    ensures Extremal(slots, placed[i := j], h, k)
  {
    var a := placed[i := j];
    var m: nat :| m < |slots| && Member(slots, placed, m, k) && DlcOf(slots[m]) == h.dlc;
    var n: nat :| n < |slots| && Member(slots, placed, n, k) && IntervalOf(slots[n]) == h.interval;
    assert Member(slots, a, m, k) && Member(slots, a, n, k);
  }

  lemma JoinHere(slots: seq<CanOutCfg>, i: nat, placed: seq<int>, h: FrameHead, j: nat)
    requires i < |slots| == |placed| && placed[i] == -1 && Packable(slots[i]) && Extremal(slots, placed, h, j)
    ensures Extremal(slots, placed[i := j], Joined(h, slots[i]), j)
  {
    var a := placed[i := j];
    var m: nat :| m < |slots| && Member(slots, placed, m, j) && DlcOf(slots[m]) == h.dlc;
    var n: nat :| n < |slots| && Member(slots, placed, n, j) && IntervalOf(slots[n]) == h.interval;
    assert Member(slots, a, m, j) && Member(slots, a, n, j) && Member(slots, a, i, j);
    forall k: nat | k < |slots| && Member(slots, a, k, j)
      ensures DlcOf(slots[k]) <= Joined(h, slots[i]).dlc && Joined(h, slots[i]).interval <= IntervalOf(slots[k])
    {
      if k != i { assert Member(slots, placed, k, j); }
    }
  }

  lemma JoinGroup(slots: seq<CanOutCfg>, i: nat, placed: seq<int>, heads: seq<FrameHead>, j: nat, h: FrameHead)
    requires i < |slots| && Grouped(slots, i, placed, heads) && Packable(slots[i])
    requires j < |heads| && SameId(slots[i], heads[j]) && h.ide == heads[j].ide && h.id == heads[j].id
    ensures Grouped(slots, i + 1, placed[i := j], heads[j := h])
  {
  }

  lemma JoinFrame(slots: seq<CanOutCfg>, i: nat, placed: seq<int>, heads: seq<FrameHead>, j: nat)
    requires i < |slots| && Assembled(slots, i, placed, heads) && Packable(slots[i])
    requires j < |heads| && SameId(slots[i], heads[j])
    ensures Assembled(slots, i + 1, placed[i := j], heads[j := Joined(heads[j], slots[i])])
  {
    JoinGroup(slots, i, placed, heads, j, Joined(heads[j], slots[i]));
    forall k | 0 <= k < |heads|
      ensures Extremal(slots, placed[i := j], if k == j then Joined(heads[j], slots[i]) else heads[k], k)
    {
      assert Extremal(slots, placed, heads[k], k);
      if k == j {
        JoinHere(slots, i, placed, heads[j], j);
      } else {
        JoinElsewhere(slots, i, placed, heads[k], j, k);
      }
    }
  }

  lemma NewGroup(slots: seq<CanOutCfg>, i: nat, placed: seq<int>, heads: seq<FrameHead>, h: FrameHead)
    requires i < |slots| && Grouped(slots, i, placed, heads) && Packable(slots[i]) && SameId(slots[i], h)
    requires forall j | 0 <= j < |heads| :: !SameId(slots[i], heads[j])
    ensures Grouped(slots, i + 1, placed[i := |heads|], heads + [h])
  {
  }

  /** The first slot of a frame decides its length and its interval. */
  lemma NewAlone(slots: seq<CanOutCfg>, i: nat, placed: seq<int>, j: nat, h: FrameHead)
    requires i < |slots| == |placed| && Packable(slots[i]) && h.dlc == DlcOf(slots[i])
        && h.interval == IntervalOf(slots[i])
    requires forall k | 0 <= k < |slots| :: placed[k] != j
    ensures Extremal(slots, placed[i := j], h, j)
  {
    assert Member(slots, placed[i := j], i, j);
  }

  lemma NewFrame(slots: seq<CanOutCfg>, i: nat, placed: seq<int>, heads: seq<FrameHead>)
    requires i < |slots| && Assembled(slots, i, placed, heads) && Packable(slots[i])
    requires forall j | 0 <= j < |heads| :: !SameId(slots[i], heads[j])
    ensures Assembled(slots, i + 1, placed[i := |heads|],
      heads + [FrameHead(slots[i].ide, slots[i].id, DlcOf(slots[i]), IntervalOf(slots[i]))])
  {
    var h := FrameHead(slots[i].ide, slots[i].id, DlcOf(slots[i]), IntervalOf(slots[i]));
    NewGroup(slots, i, placed, heads, h);
    NewAlone(slots, i, placed, |heads|, h);
    forall k | 0 <= k < |heads|
      ensures Extremal(slots, placed[i := |heads|], heads[k], k)
    {
      JoinElsewhere(slots, i, placed, heads[k], |heads|, k);
    }
  }

  lemma SkipSlot(slots: seq<CanOutCfg>, i: nat, placed: seq<int>, heads: seq<FrameHead>)
    requires i < |slots| && Assembled(slots, i, placed, heads) && !Packable(slots[i])
    ensures Assembled(slots, i + 1, placed, heads)
  {
    forall j | 0 <= j < |heads| ensures Extremal(slots, placed, heads[j], j) {}
  }

  method FindFrame(s: CanOutCfg, heads: seq<FrameHead>) returns (j: nat)
    ensures j <= |heads| && (j < |heads| ==> SameId(s, heads[j]))
    ensures forall k | 0 <= k < j :: !SameId(s, heads[k])
  {
    j := 0;
    while j < |heads| && !SameId(s, heads[j])
      invariant 0 <= j <= |heads|
      invariant forall k | 0 <= k < j :: !SameId(s, heads[k])
    {
      j := j + 1;
    }
  }

  method InitFrames(slots: seq<CanOutCfg>) returns (placed: seq<int>, heads: seq<FrameHead>)
    ensures Assembled(slots, |slots|, placed, heads)
  {
    heads := [];
    placed := seq(|slots|, _ => -1);
    var i := 0;
    while i < |slots|
      invariant 0 <= i <= |slots|
      invariant Assembled(slots, i, placed, heads)
    {
      if Packable(slots[i]) {
        var s := slots[i];
        var j := FindFrame(s, heads);
        if j < |heads| {
          JoinFrame(slots, i, placed, heads, j);
          heads := heads[j := Joined(heads[j], s)];
        } else {
          NewFrame(slots, i, placed, heads);
          heads := heads + [FrameHead(s.ide, s.id, DlcOf(s), IntervalOf(s))];
        }
        placed := placed[i := j];
      } else {
        SkipSlot(slots, i, placed, heads);
      }
      i := i + 1;
    }
  }

  // ----- transmission

  /** A frame's payload after the first n slots have been considered. */
  function Filled(slots: seq<CanOutCfg>, placed: seq<int>, j: int, vars: seq<real>, data: seq<byte>,
                  n: nat): (r: seq<byte>)
    requires |slots| == |placed| && n <= |slots| && |data| == 8 && SourcesIn(slots, vars)
    ensures |r| == 8
  {
    if n == 0 then data
    else
      var d := Filled(slots, placed, j, vars, data, n - 1);
      var s := slots[n - 1];
      if Member(slots, placed, n - 1, j)
      then Dbc.EncodedBytes(d, vars[s.input], s.startBit, s.bitLength, s.factor, s.offset, s.byteOrder)
      else d
  }

  predicate SourcesIn(slots: seq<CanOutCfg>, vars: seq<real>) {
    forall i | 0 <= i < |slots| && slots[i].enabled :: 0 <= slots[i].input < |vars|
  }

  /** No member of frame j runs off the end of the payload. */
  predicate FrameFits(slots: seq<CanOutCfg>, placed: seq<int>, j: int)
    requires |slots| == |placed|
  {
    forall i | 0 <= i < |slots| && Member(slots, placed, i, j) ::
      Dbc.EncodeFits(slots[i].byteOrder, slots[i].startBit, slots[i].bitLength)
  }

  datatype TxFrame = TxFrame(head: FrameHead, data: array<byte>, nextTx: int)

  /** A frame, by value. */
  datatype FrameState = FrameState(head: FrameHead, data: seq<byte>, nextTx: int)

  function ValueOf(f: TxFrame): FrameState
    reads f.data
  {
    FrameState(f.head, f.data[..], f.nextTx)
  }

  /** A frame on the bus. */
  datatype Message = Message(id: int, dlc: nat, data: seq<byte>)

  predicate Due(f: FrameState, now: int) { now >= f.nextTx }

  /** Frame j after one cycle. */
  function FrameStep(slots: seq<CanOutCfg>, placed: seq<int>, j: int, vars: seq<real>, now: int,
                     f: FrameState): (r: FrameState)
    requires |slots| == |placed| && |f.data| == 8 && SourcesIn(slots, vars)
    ensures |r.data| == 8
  {
    if Due(f, now)
    then FrameState(f.head, Filled(slots, placed, j, vars, f.data, |slots|), now + f.head.interval)
    else f
  }

  /** What the first n frames send in one cycle. */
  function Sent(slots: seq<CanOutCfg>, placed: seq<int>, vars: seq<real>, now: int, fs: seq<FrameState>,
                n: nat): seq<Message>
    requires |slots| == |placed| && n <= |fs| && SourcesIn(slots, vars)
    requires forall j | 0 <= j < |fs| :: |fs[j].data| == 8
  {
    if n == 0 then []
    else
      var m := Sent(slots, placed, vars, now, fs, n - 1);
      var f := fs[n - 1];
      if Due(f, now)
      then m + [Message(f.head.id, f.head.dlc, FrameStep(slots, placed, n - 1, vars, now, f).data)]
      else m
  }

  /** The frames after the first n of them have had their turn in a cycle. */
  function Stepped(slots: seq<CanOutCfg>, placed: seq<int>, vars: seq<real>, now: int, fs: seq<FrameState>,
                   n: nat): (r: seq<FrameState>)
    requires |slots| == |placed| && SourcesIn(slots, vars)
    requires forall j | 0 <= j < |fs| :: |fs[j].data| == 8
    ensures |r| == |fs| && forall j | 0 <= j < |fs| :: |r[j].data| == 8
  {
    seq(|fs|, j requires 0 <= j < |fs| => if j < n then FrameStep(slots, placed, j, vars, now, fs[j]) else fs[j])
  }

  lemma NextStepped(slots: seq<CanOutCfg>, placed: seq<int>, vars: seq<real>, now: int, fs: seq<FrameState>, n: nat)
    requires |slots| == |placed| && SourcesIn(slots, vars) && n < |fs|
    requires forall j | 0 <= j < |fs| :: |fs[j].data| == 8
    ensures var a, b := Stepped(slots, placed, vars, now, fs, n), Stepped(slots, placed, vars, now, fs, n + 1);
      && a[n] == fs[n]
      && b == (if Due(fs[n], now) then a[n := FrameStep(slots, placed, n, vars, now, fs[n])] else a)
      && Sent(slots, placed, vars, now, fs, n + 1)
        == Sent(slots, placed, vars, now, fs, n)
           + (if Due(fs[n], now) then [Message(fs[n].head.id, fs[n].head.dlc, b[n].data)] else [])
  {
  }

  predicate AllEight(fs: seq<FrameState>) {
    forall j | 0 <= j < |fs| :: |fs[j].data| == 8
  }

  /** Frames at power-on: empty, and due at once. */
  function PoweredFrames(heads: seq<FrameHead>): (fs: seq<FrameState>)
    ensures |fs| == |heads| && AllEight(fs)
  {
    seq(|heads|, j requires 0 <= j < |heads| => FrameState(heads[j], [0, 0, 0, 0, 0, 0, 0, 0], 0))
  }

  method NewFrames(hs: seq<FrameHead>) returns (fs: seq<TxFrame>, ghost bs: set<array<byte>>)
    ensures fresh(bs) && |fs| == |hs|
    ensures forall j | 0 <= j < |fs| ::
      fs[j].head == hs[j] && fs[j].data in bs && fs[j].data.Length == 8
      && ValueOf(fs[j]) == FrameState(hs[j], [0, 0, 0, 0, 0, 0, 0, 0], 0)
    ensures forall j, k | 0 <= j < k < |fs| :: fs[j].data != fs[k].data
  {
    fs, bs := [], {};
    while |fs| < |hs|
      invariant |fs| <= |hs|
      invariant fresh(bs)
      invariant forall j | 0 <= j < |fs| ::
        fs[j].head == hs[j] && fs[j].data in bs && fs[j].data.Length == 8
        && ValueOf(fs[j]) == FrameState(hs[j], [0, 0, 0, 0, 0, 0, 0, 0], 0)
      invariant forall j, k | 0 <= j < k < |fs| :: fs[j].data != fs[k].data
      decreases |hs| - |fs|
    {
      var data: array<byte> := new byte[8](_ => 0);
      assert data[..] == [0, 0, 0, 0, 0, 0, 0, 0];
      fs := fs + [TxFrame(hs[|fs|], data, 0)];
      bs := bs + {data};
    }
  }

  /** A transmitter, by value. */
  datatype Status = Broken | Status(slots: seq<CanOutCfg>, placed: seq<int>, frames: seq<FrameState>, tx: seq<Message>)

  ghost predicate Servable(s: Status, vars: seq<real>) {
    s.Status? && |s.slots| == |s.placed| && AllEight(s.frames) && SourcesIn(s.slots, vars)
  }

  /** After a cycle's transmission. */
  ghost function Served(s: Status, vars: seq<real>, now: int): Status {
    if !Servable(s, vars) then Broken
    else
      s.(frames := Stepped(s.slots, s.placed, vars, now, s.frames, |s.frames|),
         tx := Sent(s.slots, s.placed, vars, now, s.frames, |s.frames|))
  }

  /** After the first n frames have had their turn. */
  ghost function ServedTo(s: Status, vars: seq<real>, now: int, n: nat): Status {
    if !Servable(s, vars) || n > |s.frames| then Broken
    else
      s.(frames := Stepped(s.slots, s.placed, vars, now, s.frames, n),
         tx := Sent(s.slots, s.placed, vars, now, s.frames, n))
  }

  /** After frame j, which is due, has been sent. */
  ghost function SentFrame(s: Status, vars: seq<real>, now: int, j: nat): Status {
    if !Servable(s, vars) || j >= |s.frames| then Broken
    else
      var f := FrameStep(s.slots, s.placed, j, vars, now, s.frames[j]);
      s.(frames := s.frames[j := f], tx := s.tx + [Message(f.head.id, f.head.dlc, f.data)])
  }

  ghost function WithFrame(s: Status, j: nat, f: FrameState): Status
    requires s.Status? && j < |s.frames|
  {
    s.(frames := s.frames[j := f])
  }

  /** After frame j has had its turn. */
  ghost function Turned(s: Status, vars: seq<real>, now: int, j: nat): Status {
    if s.Status? && j < |s.frames| && Due(s.frames[j], now) then SentFrame(s, vars, now, j) else s
  }

  /** Every frame that is due fits its payload. */
  ghost predicate FitsNow(s: Status, now: int) {
    s.Status? && |s.slots| == |s.placed|
    && forall j | 0 <= j < |s.frames| && Due(s.frames[j], now) :: FrameFits(s.slots, s.placed, j)
  }

  /** Those of the first n frames that are due fit their payloads. */
  ghost predicate FitsTo(s: Status, now: int, n: nat) {
    s.Status? && |s.slots| == |s.placed| && n <= |s.frames|
    && forall j | 0 <= j < n && Due(s.frames[j], now) :: FrameFits(s.slots, s.placed, j)
  }

  /** What the loop over the frames works on, turn after turn: the transmitter, and whether
      everything due so far fits. */
  ghost predicate Turns(s: Status, vars: seq<real>, now: int, turns: seq<(Status, bool)>) {
    && Servable(s, vars) && |turns| == |s.frames| + 1
    && turns[0] == (s.(tx := []), true) && turns[|s.frames|] == (Served(s, vars, now), FitsNow(s, now))
    && forall j: nat | j < |s.frames| :: TurnAt(s, vars, now, turns, j)
  }

  ghost predicate TurnAt(s: Status, vars: seq<real>, now: int, turns: seq<(Status, bool)>, j: nat)
    requires s.Status? && |s.slots| == |s.placed| && j < |s.frames| && |turns| == |s.frames| + 1
  {
    var (a, fit) := turns[j];
    && Servable(a, vars) && |a.frames| == |s.frames| && a.frames[j] == s.frames[j] && a.slots == s.slots
       && a.placed == s.placed
    && turns[j + 1].0 == Turned(a, vars, now, j)
    && turns[j + 1].1 == (fit && (Due(s.frames[j], now) ==> FrameFits(s.slots, s.placed, j)))
    && (!turns[j + 1].1 ==> !FitsNow(s, now))
  }

  lemma MakeTurns(s: Status, vars: seq<real>, now: int) returns (turns: seq<(Status, bool)>)
    requires Servable(s, vars)
    ensures Turns(s, vars, now, turns)
  {
    turns := seq(|s.frames| + 1, n requires 0 <= n <= |s.frames| => (ServedTo(s, vars, now, n), FitsTo(s, now, n)));
    assert Stepped(s.slots, s.placed, vars, now, s.frames, 0) == s.frames;
    forall j: nat | j < |s.frames|
      ensures TurnAt(s, vars, now, turns, j)
    {
      ServedNext(s, vars, now, j);
    }
  }

  lemma ServedNext(s: Status, vars: seq<real>, now: int, n: nat)
    requires Servable(s, vars) && n < |s.frames|
    ensures var a, b := ServedTo(s, vars, now, n), ServedTo(s, vars, now, n + 1);
      && Servable(a, vars) && |a.frames| == |s.frames| && a.frames[n] == s.frames[n]
      && a.slots == s.slots && a.placed == s.placed && b == Turned(a, vars, now, n)
  {
    NextStepped(s.slots, s.placed, vars, now, s.frames, n);
  }

  lemma OneTurn(s: Status, vars: seq<real>, now: int, turns: seq<(Status, bool)>, j: nat)
    requires Turns(s, vars, now, turns) && j < |s.frames|
    ensures TurnAt(s, vars, now, turns, j)
  {
  }

  class Transmitter {
    const slots: seq<CanOutCfg>
    const placed: seq<int>
    var frames: seq<TxFrame>
    var tx: seq<Message>
    ghost const heads: seq<FrameHead>
    ghost const buffers: set<array<byte>>

    ghost predicate Valid()
      reads this
    {
      Assembled(slots, |slots|, placed, heads) && Shaped()
    }

    /** Every frame has its own 8-byte buffer. */
    ghost predicate Shaped()
      reads this
    {
      && |slots| == |placed| && |frames| == |heads|
      && (forall i | 0 <= i < |slots| && placed[i] != -1 :: Packable(slots[i]))
      && (forall j | 0 <= j < |frames| ::
            frames[j].head == heads[j] && frames[j].data in buffers && frames[j].data.Length == 8)
      && (forall j, k | 0 <= j < k < |frames| :: frames[j].data != frames[k].data)
    }

    ghost function Values(): (fs: seq<FrameState>)
      requires Shaped()
      reads this, buffers
      ensures |fs| == |frames| && forall j | 0 <= j < |fs| :: |fs[j].data| == 8 && fs[j] == ValueOf(frames[j])
    {
      seq(|frames|, j requires 0 <= j < |frames| && Shaped() reads this, buffers => ValueOf(frames[j]))
    }

    constructor (slots: seq<CanOutCfg>)
      ensures Valid() && this.slots == slots && fresh(buffers) && tx == []
      ensures Values() == PoweredFrames(heads)
    {
      var a, hs := InitFrames(slots);
      var fs, bs := NewFrames(hs);
      this.slots := slots;
      placed := a;
      frames := fs;
      tx := [];
      heads := hs;
      buffers := bs;
    }

    /** Fills one frame from the variables, slot by slot. */
    method Fill(j: nat, vars: seq<real>) returns (ok: bool)
      requires Shaped() && j < |frames| && SourcesIn(slots, vars)
      modifies frames[j].data
      ensures ok == FrameFits(slots, placed, j)
      ensures ok ==> frames[j].data[..] == Filled(slots, placed, j, vars, old(frames[j].data[..]), |slots|)
    {
      var data := frames[j].data;
      var i := 0;
      while i < |slots|
        invariant 0 <= i <= |slots|
        invariant data[..] == Filled(slots, placed, j, vars, old(frames[j].data[..]), i)
        invariant forall k | 0 <= k < i && Member(slots, placed, k, j) ::
          Dbc.EncodeFits(slots[k].byteOrder, slots[k].startBit, slots[k].bitLength)
      {
        if placed[i] == j {
          var s := slots[i];
          assert Member(slots, placed, i, j);
          ok := Dbc.EncodeFloat(data, vars[s.input], s.startBit, s.bitLength, s.factor, s.offset, s.byteOrder);
          if !ok { return; }
        }
        i := i + 1;
      }
      ok := true;
    }

    /** The transmitter, by value. */
    ghost function Look(): Status
      reads this, buffers
    {
      if Valid() then Status(slots, placed, Values(), tx) else Broken
    }

    method Reschedule(j: nat, at: int)
      requires Look().Status? && j < |frames| == |Look().frames|
      modifies this`frames
      ensures |frames| == old(|frames|) && frames[j].data == old(frames[j].data)
      ensures Look() == WithFrame(old(Look()), j, old(Look()).frames[j].(nextTx := at))
    {
      ghost var was := Values();
      frames := frames[j := frames[j].(nextTx := at)];
      assert Values() == was[j := was[j].(nextTx := at)];
    }

    /** Sends one frame that is due. */
    method Send(j: nat, vars: seq<real>, now: int, ghost s: Status) returns (ok: bool)
      requires Look() == s && Servable(s, vars) && j < |s.frames| == |frames| && Due(s.frames[j], now)
      modifies this, frames[j].data
      ensures Look().Status? && |frames| == old(|frames|)
      ensures ok == FrameFits(s.slots, s.placed, j)
      ensures ok ==> Look() == SentFrame(s, vars, now, j)
    {
      Reschedule(j, now + frames[j].head.interval);
      ok := FillFrame(j, vars, Look());
      if ok { Append(j, Look()); }
    }

    method FillFrame(j: nat, vars: seq<real>, ghost s: Status) returns (ok: bool)
      requires Look() == s && Servable(s, vars) && j < |s.frames| == |frames|
      modifies frames[j].data
      ensures Look().Status? && ok == FrameFits(s.slots, s.placed, j)
      ensures ok ==>
        Look() == WithFrame(s, j, s.frames[j].(data := Filled(s.slots, s.placed, j, vars, s.frames[j].data, |s.slots|)))
    {
      ok := Fill(j, vars);
      if ok {
        assert Values() ==
          s.frames[j := s.frames[j].(data := Filled(slots, placed, j, vars, s.frames[j].data, |slots|))];
      }
    }

    method Append(j: nat, ghost s: Status)
      requires Look() == s && s.Status? && j < |s.frames| == |frames|
      modifies this`tx
      ensures Look() == s.(tx := s.tx + [Message(s.frames[j].head.id, s.frames[j].head.dlc, s.frames[j].data)])
    {
      tx := tx + [Message(frames[j].head.id, frames[j].head.dlc, frames[j].data[..])];
    }

    /** One frame's turn: it is sent if it is due. */
    method Turn(j: nat, vars: seq<real>, now: int, ghost s: Status) returns (ok: bool)
      requires Look() == s && Servable(s, vars) && j < |s.frames| == |frames|
      modifies this, buffers
      ensures ok == (Due(s.frames[j], now) ==> FrameFits(s.slots, s.placed, j))
      ensures Look().Status? && (ok ==> Look() == Turned(s, vars, now, j)) && |frames| == old(|frames|)
    {
      ok := true;
      if now >= frames[j].nextTx { ok := Send(j, vars, now, s); }
    }

    /** Forgets what the last cycle sent. */
    method Clear()
      requires Look().Status?
      modifies this`tx
      ensures Look() == old(Look()).(tx := [])
    {
      tx := [];
    }

    /** Sends the frames that are due. Fails exactly where filling one of them runs off the
        end of its payload. */
    method Transmit(vars: seq<real>, now: int) returns (ok: bool)
      requires Servable(Look(), vars)
      modifies this, buffers
      ensures Look().Status? && ok == FitsNow(old(Look()), now)
      ensures ok ==> Look() == Served(old(Look()), vars, now)
    {
      ghost var was := Look();
      ghost var turns := MakeTurns(was, vars, now);
      Clear();
      ok := TakeTurns(vars, now, was, turns);
    }

    method TakeTurns(vars: seq<real>, now: int, ghost was: Status, ghost turns: seq<(Status, bool)>) returns (ok: bool)
      requires Turns(was, vars, now, turns) && Look() == turns[0].0 && |frames| == |was.frames|
      modifies this, buffers
      ensures Look().Status? && ok == turns[|was.frames|].1
      ensures ok ==> Look() == turns[|was.frames|].0
    {
      var j := 0;
      while j < |frames|
        invariant 0 <= j <= |frames| == |was.frames|
        invariant Look() == turns[j].0 && turns[j].1
      {
        OneTurn(was, vars, now, turns, j);
        ok := Turn(j, vars, now, turns[j].0);
        if !ok { return; }
        j := j + 1;
      }
      ok := true;
    }
  }

  lemma IntervalsPositive(slots: seq<CanOutCfg>, placed: seq<int>, heads: seq<FrameHead>, j: nat)
    requires Assembled(slots, |slots|, placed, heads) && j < |heads|
    ensures heads[j].interval > 0
  {
    assert Extremal(slots, placed, heads[j], j);
  }
}
