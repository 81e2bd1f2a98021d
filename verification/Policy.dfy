/**
 The client's timing and retry policy, in milliseconds, and its ways to fail.
 */
module Policy {
  import opened Options

  const REQUEST_TIMEOUT := 1000
  const REQUEST_TRIES := 6
  const READ_ALL_OVERALL := 20_000
  const READ_ALL_RESEND := 800
  const READ_ALL_POLL := 300
  const READ_ALL_QUIET := 1500
  const WRITE_BATCH_SIZE := 8
  const WRITE_BATCH_PAUSE := 8

  datatype Error =
    | NotSent
    | NoResponse
    | CountMismatch
    | CrcMismatch
    | NotResponding

  /** If this is an error, the transport refused a command or was late, or, when no answer
      came, six frames were lost. */
  predicate Unlucky(e: Option<Error>, faults: nat, faults': nat, lost: nat, lost': nat) {
    e.Some? ==>
      && (e.value == NotSent || e.value == NoResponse)
      && (faults' > faults || (e.value == NoResponse && lost' >= lost + REQUEST_TRIES))
  }

  predicate Due(lastSend: Option<int>, now: int) {
    lastSend.None? || now - lastSend.value > READ_ALL_RESEND
  }

  /** The k-th request went out at least k - 1 resend intervals after the start, and within the deadline. */
  predicate Paced(start: int, lastSend: Option<int>, now: int, requests: nat) {
    && start <= now && (lastSend.None? ==> requests == 0)
    && (lastSend.Some? ==>
          && start + READ_ALL_RESEND * (requests - 1) <= lastSend.value < start + READ_ALL_OVERALL
          && start <= lastSend.value <= now)
  }

  function Left(deadline: int, now: int): nat { if now < deadline then deadline - now else 0 }
}
