/**
 What a latch makes of a sequence of levels: a momentary one shows the last level, a
 latching one whether it has been pressed an odd number of times.
 */
module Latches {
  import opened Blocks

  /** A latch that has been shown these levels one after another. */
  function Latched(mode: int, invert: bool, levels: seq<bool>): Latch {
    if |levels| == 0 then Latch(false, false)
    else Check(Latched(mode, invert, levels[..|levels| - 1]), mode, invert, levels[|levels| - 1])
  }

  /** The n-th level is active and the one before it is not. Before the first, nothing is. */
  predicate Press(invert: bool, levels: seq<bool>, n: nat)
    requires n < |levels|
  {
    levels[n] != invert && (n == 0 || levels[n - 1] == invert)
  }

  function Presses(invert: bool, levels: seq<bool>): nat {
    if |levels| == 0 then 0
    else Presses(invert, levels[..|levels| - 1]) + if Press(invert, levels, |levels| - 1) then 1 else 0
  }

  predicate LastActive(invert: bool, levels: seq<bool>) {
    |levels| > 0 && levels[|levels| - 1] != invert
  }

  /** Mode 0 is momentary, mode 1 latching; any other never comes on. */
  lemma {:induction false} LatchShows(mode: int, invert: bool, levels: seq<bool>)
    ensures Latched(mode, invert, levels).last == LastActive(invert, levels)
    ensures mode == 0 ==> Latched(mode, invert, levels).out == LastActive(invert, levels)
    ensures mode == 1 ==> Latched(mode, invert, levels).out == (Presses(invert, levels) % 2 == 1)
    ensures mode != 0 && mode != 1 ==> !Latched(mode, invert, levels).out
  {
    if |levels| > 0 {
      var before := levels[..|levels| - 1];
      LatchShows(mode, invert, before);
      assert Press(invert, levels, |levels| - 1) == (!LastActive(invert, before) && LastActive(invert, levels));
    }
  }

  lemma LatchedMore(mode: int, invert: bool, levels: seq<bool>, b: bool)
    ensures Latched(mode, invert, levels + [b]) == Check(Latched(mode, invert, levels), mode, invert, b)
  {
    assert (levels + [b])[..|levels|] == levels;
  }
}
