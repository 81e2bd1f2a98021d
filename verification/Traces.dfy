/**
 What a client did and saw, in order.
 */
module Traces {
  import opened Messages
  import opened Link
  import ReadRuns

  /** The commands among what happened, each of them m. */
  ghost predicate Only(events: seq<Event>, m: Msg) {
    forall e | e in events && e.Sent? :: e.m == m
  }

  function Commands(events: seq<Event>): nat {
    if |events| == 0 then 0
    else Commands(events[..|events| - 1]) + if events[|events| - 1].Sent? then 1 else 0
  }

  /** How many whole-configuration requests were sent. */
  function Requests(events: seq<Event>): nat {
    if |events| == 0 then 0
    else Requests(events[..|events| - 1]) + if events[|events| - 1] == Sent(ReadRuns.READ) then 1 else 0
  }

  lemma {:induction false} RequestsAdd(a: seq<Event>, b: seq<Event>)
    ensures Requests(a + b) == Requests(a) + Requests(b)
  {
    if |b| == 0 {
      assert a + b == a;
    } else {
      assert (a + b)[..|a + b| - 1] == a + b[..|b| - 1];
      RequestsAdd(a, b[..|b| - 1]);
    }
  }

  lemma {:induction false} NoRequests(events: seq<Event>, m: Msg)
    requires Only(events, m) && m != ReadRuns.READ
    ensures Requests(events) == 0
  {
    if |events| > 0 { NoRequests(events[..|events| - 1], m); }
  }

  /** A frame of a dump: the start, or an entry. */
  predicate OfDump(e: Event) {
    e.Got? && (e.m.cmd == CMD_READ_ALL || e.m.cmd == CMD_READ_ALL_RSP)
  }

  /** Nothing is requested once a dump has been seen. */
  ghost predicate QuietOnceSeen(events: seq<Event>) {
    forall i, j | 0 <= i < j < |events| && OfDump(events[i]) :: events[j] != Sent(ReadRuns.READ)
  }

  ghost predicate Seen(events: seq<Event>) {
    exists i :: 0 <= i < |events| && OfDump(events[i])
  }

  lemma Continued(log: seq<Event>, events: seq<Event>, after: seq<Event>)
    requires events <= after
    ensures log + events + after[|events|..] == log + after
  {
  }

  lemma Further(log: seq<Event>, events: seq<Event>, sent: seq<Event>, after: seq<Event>)
    requires events <= sent <= after
    ensures log + sent[|events|..] + after[|sent|..] == log + after[|events|..]
  {
  }

  lemma Joined(log: seq<Event>, a: seq<Event>, b: seq<Event>)
    ensures log + a + b == log + (a + b)
  {
  }

  lemma GotNext(events: seq<Event>, m: Msg)
    requires QuietOnceSeen(events)
    ensures var es := events + [Got(m)];
      QuietOnceSeen(es) && Requests(es) == Requests(events) && Seen(es) == (Seen(events) || OfDump(Got(m)))
  {
    var es := events + [Got(m)];
    assert es[..|events|] == events;
    assert OfDump(es[|events|]) == OfDump(Got(m));
    if Seen(events) {
      var i :| 0 <= i < |events| && OfDump(events[i]);
      assert es[i] == events[i];
    }
  }

  lemma SentNext(events: seq<Event>)
    requires QuietOnceSeen(events) && !Seen(events)
    ensures var es := events + [Sent(ReadRuns.READ)];
      QuietOnceSeen(es) && Requests(es) == Requests(events) + 1 && !Seen(es)
  {
    assert (events + [Sent(ReadRuns.READ)])[..|events|] == events;
  }

  /** Other commands do not count. */
  lemma OtherNext(events: seq<Event>, more: seq<Event>, m: Msg)
    requires QuietOnceSeen(events) && Only(more, m) && m != ReadRuns.READ
    ensures QuietOnceSeen(events + more) && Requests(events + more) == Requests(events)
  {
    NoRequests(more, m);
    RequestsAdd(events, more);
    var es := events + more;
    forall i, j | 0 <= i < j < |es| && OfDump(es[i])
      ensures es[j] != Sent(ReadRuns.READ)
    {
      if j >= |events| { assert es[j] in more; }
    }
  }
}
