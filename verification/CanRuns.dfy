/**
 The frames of a device over the cycles of a run: when they are sent, what they carry, and
 that what they carry can be read.
 */
module CanRuns {
  import opened PyInt
  import opened Blocks
  import opened CanFrames
  import Dbc

  /** Frame j, of the given interval, n cycles after power-on. */
  function NextTxAfter(interval: nat, n: nat): int {
    if n == 0 then 0
    else
      var next := NextTxAfter(interval, n - 1);
      if 2 * (n - 1) >= next then 2 * (n - 1) + interval else next
  }

  /** The frame is sent in cycle n, which runs at time 2n. */
  predicate SentIn(interval: nat, n: nat) { 2 * n >= NextTxAfter(interval, n) }

  /** A frame over the cycles of a run; views[n] is the vector it samples in cycle n. */
  function FrameRun(slots: seq<CanOutCfg>, placed: seq<int>, j: int, views: seq<seq<real>>,
                    f: FrameState): (r: FrameState)
    requires |slots| == |placed| && |f.data| == 8
    requires forall n | 0 <= n < |views| :: SourcesIn(slots, views[n])
    ensures |r.data| == 8
  {
    if |views| == 0 then f
    else
      var n := |views| - 1;
      FrameStep(slots, placed, j, views[n], 2 * n, FrameRun(slots, placed, j, views[..n], f))
  }

  /** Whatever the variables are, a frame is due in exactly the cycles SentIn says. */
  lemma {:induction false} DueInRun(slots: seq<CanOutCfg>, placed: seq<int>, j: int, views: seq<seq<real>>,
                                    f: FrameState)
    requires |slots| == |placed| && |f.data| == 8 && f.nextTx == 0
    requires forall n | 0 <= n < |views| :: SourcesIn(slots, views[n])
    ensures var r := FrameRun(slots, placed, j, views, f);
      r.head == f.head && r.nextTx == NextTxAfter(f.head.interval, |views|)
      && (Due(r, 2 * |views|) <==> SentIn(f.head.interval, |views|))
  {
    if |views| > 0 { DueInRun(slots, placed, j, views[..|views| - 1], f); }
  }

  lemma {:induction false} QuietUntil(interval: nat, a: nat, n: nat)
    requires SentIn(interval, a) && a < n
    requires forall c | a < c < n :: !SentIn(interval, c)
    ensures NextTxAfter(interval, n) == 2 * a + interval
  {
    if a + 1 < n {
      QuietUntil(interval, a, n - 1);
      assert !SentIn(interval, n - 1);
    }
  }

  lemma ScheduleGap(interval: nat, a: nat, b: nat)
    requires interval > 0 && SentIn(interval, a) && SentIn(interval, b) && a < b
    requires forall c | a < c < b :: !SentIn(interval, c)
    ensures interval <= 2 * b - 2 * a < interval + 2
  {
    QuietUntil(interval, a, b);
    if a + 1 < b { QuietUntil(interval, a, b - 1); }
  }

  /** All frames after the cycles of a run, cycle n running at time 2n. */
  function FramesAfter(slots: seq<CanOutCfg>, placed: seq<int>, views: seq<seq<real>>,
                       fs: seq<FrameState>): (r: seq<FrameState>)
    requires |slots| == |placed| && AllEight(fs) && AllSources(slots, views)
    ensures |r| == |fs| && AllEight(r)
  {
    if |views| == 0 then fs
    else
      var n := |views| - 1;
      Stepped(slots, placed, views[n], 2 * n, FramesAfter(slots, placed, views[..n], fs), |fs|)
  }

  predicate AllSources(slots: seq<CanOutCfg>, views: seq<seq<real>>) {
    forall n | 0 <= n < |views| :: SourcesIn(slots, views[n])
  }

  /** What goes on the bus in cycle n of a run. */
  function BusIn(slots: seq<CanOutCfg>, placed: seq<int>, heads: seq<FrameHead>, views: seq<seq<real>>,
                 n: nat): seq<Message>
    requires |slots| == |placed| && AllSources(slots, views) && n < |views|
  {
    Sent(slots, placed, views[n], 2 * n, FramesAfter(slots, placed, views[..n], PoweredFrames(heads)), |heads|)
  }

  /** Frame j is due in cycle n of a run. */
  predicate DueIn(slots: seq<CanOutCfg>, placed: seq<int>, heads: seq<FrameHead>, views: seq<seq<real>>, j: nat, n: nat)
    requires |slots| == |placed| && AllSources(slots, views) && n <= |views| && j < |heads|
  {
    Due(FramesAfter(slots, placed, views[..n], PoweredFrames(heads))[j], 2 * n)
  }

  lemma {:induction false} FrameAmongFrames(slots: seq<CanOutCfg>, placed: seq<int>, views: seq<seq<real>>,
                                            fs: seq<FrameState>, j: nat)
    requires |slots| == |placed| && AllEight(fs) && AllSources(slots, views) && j < |fs|
    ensures FramesAfter(slots, placed, views, fs)[j] == FrameRun(slots, placed, j, views, fs[j])
  {
    if |views| > 0 { FrameAmongFrames(slots, placed, views[..|views| - 1], fs, j); }
  }

  lemma DueAsScheduled(slots: seq<CanOutCfg>, placed: seq<int>, heads: seq<FrameHead>, views: seq<seq<real>>, j: nat,
                       n: nat)
    requires |slots| == |placed| && AllSources(slots, views) && n <= |views| && j < |heads|
    ensures DueIn(slots, placed, heads, views, j, n) <==> SentIn(heads[j].interval, n)
  {
    var fs := PoweredFrames(heads);
    FrameAmongFrames(slots, placed, views[..n], fs, j);
    DueInRun(slots, placed, j, views[..n], fs[j]);
  }

  /** In every run, whatever the variables are, two consecutive transmissions of a frame are
      at least one interval and less than an interval and two milliseconds apart, and every
      frame is sent in the first cycle. */
  lemma Cadence(slots: seq<CanOutCfg>, placed: seq<int>, heads: seq<FrameHead>, views: seq<seq<real>>, j: nat, a: nat,
                b: nat)
    requires Assembled(slots, |slots|, placed, heads) && AllSources(slots, views) && j < |heads| && a < b <= |views|
    requires DueIn(slots, placed, heads, views, j, a) && DueIn(slots, placed, heads, views, j, b)
    requires forall c | a < c < b :: !DueIn(slots, placed, heads, views, j, c)
    ensures heads[j].interval <= 2 * b - 2 * a < heads[j].interval + 2
    ensures DueIn(slots, placed, heads, views, j, 0)
  {
    IntervalsPositive(slots, placed, heads, j);
    DueAsScheduled(slots, placed, heads, views, j, a);
    DueAsScheduled(slots, placed, heads, views, j, b);
    forall c | a < c < b
      ensures !SentIn(heads[j].interval, c)
    {
      DueAsScheduled(slots, placed, heads, views, j, c);
    }
    ScheduleGap(heads[j].interval, a, b);
    DueAsScheduled(slots, placed, heads, views, j, 0);
  }

  /** The message of one of the first n frames that is due. */
  predicate Carried(slots: seq<CanOutCfg>, placed: seq<int>, vars: seq<real>, now: int, fs: seq<FrameState>, n: nat,
                    m: Message)
    requires |slots| == |placed| && n <= |fs| && SourcesIn(slots, vars) && AllEight(fs)
  {
    exists j :: 0 <= j < n && Due(fs[j], now) && m == MessageOf(slots, placed, vars, now, fs, j)
  }

  lemma {:induction false} SentPart(slots: seq<CanOutCfg>, placed: seq<int>, vars: seq<real>, now: int,
                                    fs: seq<FrameState>, n: nat, m: Message)
    requires |slots| == |placed| && n <= |fs| && SourcesIn(slots, vars) && AllEight(fs)
    ensures m in Sent(slots, placed, vars, now, fs, n) <==> Carried(slots, placed, vars, now, fs, n, m)
  {
    if n > 0 {
      SentPart(slots, placed, vars, now, fs, n - 1, m);
      if Due(fs[n - 1], now) && m == MessageOf(slots, placed, vars, now, fs, n - 1) {
        assert Carried(slots, placed, vars, now, fs, n, m);
      }
    }
  }

  /** What frame j puts on the bus when it is sent. */
  function MessageOf(slots: seq<CanOutCfg>, placed: seq<int>, vars: seq<real>, now: int, fs: seq<FrameState>,
                     j: nat): Message
    requires |slots| == |placed| && j < |fs| && SourcesIn(slots, vars) && AllEight(fs)
  {
    Message(fs[j].head.id, fs[j].head.dlc, FrameStep(slots, placed, j, vars, now, fs[j]).data)
  }

  /** Fields i and k of a payload share no bit. */
  predicate Apart(s: CanOutCfg, t: CanOutCfg) {
    forall p: nat | p < 64 ::
      !(Dbc.InField(s.byteOrder, s.startBit, s.bitLength, p) && Dbc.InField(t.byteOrder, t.startBit, t.bitLength, p))
  }

  /** A member's field in a filled payload holds what that member's variable encodes to,
      as long as no later member of the frame overlaps it. */
  lemma {:induction false} MemberReadable(slots: seq<CanOutCfg>, placed: seq<int>, j: int, vars: seq<real>,
                                          data: seq<byte>, i: nat, n: nat, signed: bool)
    requires |slots| == |placed| && |data| == 8 && SourcesIn(slots, vars) && i < n <= |slots|
    requires Member(slots, placed, i, j) && slots[i].bitLength <= 32
    requires Dbc.Inside(slots[i].byteOrder, slots[i].startBit, slots[i].bitLength)
    requires var s := slots[i];
      Dbc.Representable(Dbc.RawValue(vars[s.input], s.factor, s.offset), s.bitLength, signed)
    requires forall k | i < k < n && Member(slots, placed, k, j) :: Apart(slots[k], slots[i])
    ensures var s := slots[i];
      Dbc.DecodedInt(Filled(slots, placed, j, vars, data, n), s.startBit, s.bitLength, s.byteOrder, signed)
        == Dbc.RawValue(vars[s.input], s.factor, s.offset)
  {
    var s := slots[i];
    var d := Filled(slots, placed, j, vars, data, n - 1);
    if n == i + 1 {
      Dbc.DecodedRaw(d, vars[s.input], s.startBit, s.bitLength, s.factor, s.offset, s.byteOrder, signed);
    } else {
      MemberReadable(slots, placed, j, vars, data, i, n - 1, signed);
      var u := slots[n - 1];
      if Member(slots, placed, n - 1, j) && u.bitLength <= 32 {
        assert Apart(u, s);
        Dbc.EncodeFrame(d, vars[u.input], u.startBit, u.bitLength, u.factor, u.offset, u.byteOrder,
          s.byteOrder, s.startBit, s.bitLength, signed);
      }
    }
  }

  /** In each cycle exactly the due frames are on the bus, with the payloads the cycle leaves in them. */
  lemma BusCarriesDue(slots: seq<CanOutCfg>, placed: seq<int>, heads: seq<FrameHead>, views: seq<seq<real>>, n: nat,
                      m: Message)
    requires |slots| == |placed| && AllSources(slots, views) && n < |views|
    ensures var fs := FramesAfter(slots, placed, views[..n], PoweredFrames(heads));
      m in BusIn(slots, placed, heads, views, n) <==> Carried(slots, placed, views[n], 2 * n, fs, |heads|, m)
  {
    SentPart(slots, placed, views[n], 2 * n, FramesAfter(slots, placed, views[..n], PoweredFrames(heads)), |heads|, m);
  }
}
