/**
 The states of the line during a bulk write: before the device has started a new staging
 list, while values are staged, and once the list has been committed.
 */
module WriteStates {
  import opened LittleEndian
  import opened Messages
  import opened Subsequences
  import opened Device
  import opened Link

  /** The parameters of the staging commands on their way. */
  function Vals(ms: seq<Msg>): seq<Param> { Picked(ms, CMD_WRITE_ALL_VAL) }

  const START := Msg(CMD_WRITE_ALL, 0, 0, 0)

  function Complete(count: uint16): Msg { Msg(CMD_WRITE_ALL_COMPLETE, count, 0, 0) }

  function ValOf(p: Param): Msg { Msg(CMD_WRITE_ALL_VAL, p.index, p.sub, p.value) }

  /** Nothing is under way that starts or completes a bulk write. Anything else may be. */
  predicate Clear(l: Line) {
    && NoneOf(l.up, CMD_WRITE_ALL) && NoneOf(l.up, CMD_WRITE_ALL_COMPLETE)
    && NoneOf(l.device.replies, CMD_WRITE_ALL) && NoneOf(l.device.replies, CMD_WRITE_ALL_COMPLETE)
  }

  /** Start commands come last, and once one is answered only they are left and nothing
      is staged. */
  ghost predicate Starting(l: Line) {
    && NoneOf(l.up, CMD_WRITE_ALL_COMPLETE) && NoneOf(l.device.replies, CMD_WRITE_ALL_COMPLETE)
    && StartsLast(l.up)
    && (!NoneOf(l.device.replies, CMD_WRITE_ALL) ==> All(l.up, CMD_WRITE_ALL) && l.device.staged == [])
  }

  predicate StartsLast(ms: seq<Msg>) {
    forall i, j | 0 <= i < j < |ms| && ms[i].cmd == CMD_WRITE_ALL :: ms[j].cmd == CMD_WRITE_ALL
  }

  /** Starts, then values, then commits, and nothing else. */
  predicate InOrder(ms: seq<Msg>) {
    && (forall m | m in ms :: CMD_WRITE_ALL <= m.cmd <= CMD_WRITE_ALL_COMPLETE)
    && (forall i, j | 0 <= i < j < |ms| :: ms[i].cmd <= ms[j].cmd)
  }

  /** What is staged and what is still on its way to be staged is part of what was sent, in
      order; and an answer to a commit says exactly what has been committed. */
  ghost predicate Writing(crc: Checksum, l: Line, sent: seq<Param>) {
    && InOrder(l.up)
    && FreshStart(l.up, l.device.staged)
    && Subseq(l.device.staged + Vals(l.up), sent)
    && (!NoneOf(l.device.replies, CMD_WRITE_ALL_COMPLETE) ==> Committed(crc, l))
  }

  /** While a start is still on its way nothing is staged. */
  predicate FreshStart(up: seq<Msg>, staged: seq<Param>) {
    up != [] && up[0].cmd == CMD_WRITE_ALL ==> staged == []
  }

  ghost predicate Committed(crc: Checksum, l: Line) {
    && All(l.up, CMD_WRITE_ALL_COMPLETE)
    && l.device.order == l.device.staged && Applied(l.device.store, l.device.staged) == l.device.store
    && OnlyReport(l.device.replies, CommitReply(crc, l.device.staged))
  }

  /** All answers to commits are this one. */
  predicate OnlyReport(replies: seq<Msg>, report: Msg) {
    forall m | m in replies && m.cmd == CMD_WRITE_ALL_COMPLETE :: m == report
  }

  /** No commit has been asked for yet. */
  ghost predicate Staging(crc: Checksum, l: Line, sent: seq<Param>) {
    && Writing(crc, l, sent)
    && NoneOf(l.up, CMD_WRITE_ALL_COMPLETE) && NoneOf(l.device.replies, CMD_WRITE_ALL_COMPLETE)
  }

  /** The device holds exactly this list, and nothing under way can change that. */
  ghost predicate Holds(l: Line, params: seq<Param>) {
    && l.device.order == params && l.device.staged == params
    && Applied(l.device.store, params) == l.device.store
    && All(l.up, CMD_WRITE_ALL_COMPLETE)
  }

  /** The device takes each of these parameters. */
  ghost predicate Willing(t: Traits, sent: seq<Param>) {
    forall p | p in sent :: !t.rejects(p)
  }

  /** Every value sent is staged, on its way, or lost since there were so many losses. */
  ghost predicate Whole(l: Line, sent: seq<Param>, losses: nat) {
    |sent| + losses <= |l.device.staged| + |Vals(l.up)| + l.lostVals
  }
}
