/**
 What is left of a sequence when some of its elements are lost on the way.
 */
module Subsequences {

  predicate Subseq<T(==)>(a: seq<T>, b: seq<T>)
    decreases |b|
  {
    if |a| == 0 then true
    else if |b| == 0 then false
    else
      || (a[|a| - 1] == b[|b| - 1] && Subseq(a[..|a| - 1], b[..|b| - 1]))
      || Subseq(a, b[..|b| - 1])
  }

  lemma {:induction false} SubseqShorter<T>(a: seq<T>, b: seq<T>)
    requires Subseq(a, b)
    ensures |a| <= |b|
    decreases |b|
  {
    if |a| > 0 {
      if Subseq(a, b[..|b| - 1]) { SubseqShorter(a, b[..|b| - 1]); }
      else { SubseqShorter(a[..|a| - 1], b[..|b| - 1]); }
    }
  }

  /** Nothing is missing if the lengths agree. */
  lemma {:induction false} SubseqFull<T>(a: seq<T>, b: seq<T>)
    requires Subseq(a, b) && |a| == |b|
    ensures a == b
    decreases |b|
  {
    if |a| > 0 {
      if Subseq(a, b[..|b| - 1]) { SubseqShorter(a, b[..|b| - 1]); }
      SubseqFull(a[..|a| - 1], b[..|b| - 1]);
      assert a == a[..|a| - 1] + [a[|a| - 1]] && b == b[..|b| - 1] + [b[|b| - 1]];
    }
  }

  lemma {:induction false} SubseqSame<T>(a: seq<T>)
    ensures Subseq(a, a)
  {
    if |a| > 0 { SubseqSame(a[..|a| - 1]); }
  }

  lemma SubseqPush<T>(a: seq<T>, b: seq<T>, x: T)
    requires Subseq(a, b)
    ensures Subseq(a + [x], b + [x]) && Subseq(a, b + [x])
  {
    assert (a + [x])[..|a|] == a && (b + [x])[..|b|] == b;
  }

  /** Losing one more element. */
  lemma {:induction false} SubseqDrop<T>(a: seq<T>, b: seq<T>, i: nat)
    requires i < |a| && Subseq(a, b)
    ensures Subseq(a[..i] + a[i + 1..], b)
    decreases |b|
  {
    var front, c := b[..|b| - 1], a[..i] + a[i + 1..];
    assert b == front + [b[|b| - 1]];
    if Subseq(a, front) {
      SubseqDrop(a, front, i);
      SubseqPush(c, front, b[|b| - 1]);
    } else if i == |a| - 1 {
      assert c == a[..|a| - 1];
      SubseqPush(c, front, b[|b| - 1]);
    } else {
      var d := a[..|a| - 1];
      SubseqDrop(d, front, i);
      SubseqPush(d[..i] + d[i + 1..], front, b[|b| - 1]);
      assert c == d[..i] + d[i + 1..] + [a[|a| - 1]];
    }
  }

  lemma {:induction false} SubseqJoin<T>(a: seq<T>, b: seq<T>, c: seq<T>, d: seq<T>)
    requires Subseq(a, b) && Subseq(c, d)
    ensures Subseq(a + c, b + d)
    decreases |d|
  {
    if |d| == 0 {
      assert a + c == a && b + d == b;
    } else {
      var front := d[..|d| - 1];
      assert b + d == b + front + [d[|d| - 1]];
      if Subseq(c, front) {
        SubseqJoin(a, b, c, front);
        SubseqPush(a + c, b + front, d[|d| - 1]);
      } else if |c| > 0 {
        SubseqJoin(a, b, c[..|c| - 1], front);
        SubseqPush(a + c[..|c| - 1], b + front, d[|d| - 1]);
        assert a + c == a + c[..|c| - 1] + [c[|c| - 1]];
      }
    }
  }

  // ----- several rounds

  /** a is what is left of n rounds of b, one after another. */
  ghost predicate Rounds<T>(a: seq<T>, b: seq<T>, n: nat)
    decreases n
  {
    if n == 0 then a == [] else exists k :: 0 <= k <= |a| && Rounds(a[..k], b, n - 1) && Subseq(a[k..], b)
  }

  lemma OneRound<T>(a: seq<T>, b: seq<T>)
    ensures Rounds(a, b, 1) <==> Subseq(a, b)
  {
    if Subseq(a, b) { assert Rounds(a[..0], b, 0) && a[0..] == a; }
    if Rounds(a, b, 1) {
      var k :| 0 <= k <= |a| && Rounds(a[..k], b, 0) && Subseq(a[k..], b);
      assert k == 0 && a[0..] == a;
    }
  }

  lemma RoundsAdd<T>(a: seq<T>, c: seq<T>, b: seq<T>, n: nat)
    requires Rounds(a, b, n) && Subseq(c, b)
    ensures Rounds(a + c, b, n + 1)
  {
    assert (a + c)[..|a|] == a && (a + c)[|a|..] == c;
  }

  lemma RoundsSplit<T>(a: seq<T>, b: seq<T>, n: nat) returns (front: seq<T>, last: seq<T>)
    requires n > 0 && Rounds(a, b, n)
    ensures Rounds(front, b, n - 1) && Subseq(last, b) && front + last == a
  {
    var k :| 0 <= k <= |a| && Rounds(a[..k], b, n - 1) && Subseq(a[k..], b);
    front, last := a[..k], a[k..];
  }

  lemma {:induction false} RoundsMore<T>(a: seq<T>, b: seq<T>, m: nat, n: nat)
    requires Rounds(a, b, m) && m <= n
    ensures Rounds(a, b, n)
  {
    if m < n {
      RoundsMore(a, b, m, n - 1);
      RoundsAdd(a, [], b, n - 1);
      assert a + [] == a;
    }
  }

  /** Losing one more element. */
  lemma {:induction false} RoundsDrop<T>(a: seq<T>, b: seq<T>, n: nat, i: nat)
    requires i < |a| && Rounds(a, b, n)
    ensures Rounds(a[..i] + a[i + 1..], b, n)
    decreases n
  {
    var k :| 0 <= k <= |a| && Rounds(a[..k], b, n - 1) && Subseq(a[k..], b);
    var c, d := a[..k], a[k..];
    DropOfTwo(a, c, d, i);
    if i < k {
      RoundsDrop(c, b, n - 1, i);
      RoundsAdd(c[..i] + c[i + 1..], d, b, n - 1);
    } else {
      SubseqDrop(d, b, i - k);
      RoundsAdd(c, d[..i - k] + d[i - k + 1..], b, n - 1);
    }
  }

  lemma DropOfTwo<T>(a: seq<T>, c: seq<T>, d: seq<T>, i: nat)
    requires a == c + d && i < |a|
    ensures i < |c| ==> a[..i] + a[i + 1..] == c[..i] + c[i + 1..] + d
    ensures i >= |c| ==> a[..i] + a[i + 1..] == c + (d[..i - |c|] + d[i - |c| + 1..])
  {
  }

  lemma {:induction false} RoundsFront<T>(a: seq<T>, c: seq<T>, b: seq<T>, n: nat)
    requires Rounds(a + c, b, n)
    ensures Rounds(a, b, n)
    decreases |c|
  {
    if |c| > 0 {
      var all, front := a + c, c[..|c| - 1];
      RoundsDrop(all, b, n, |all| - 1);
      assert all[..|all| - 1] + all[|all|..] == a + front;
      RoundsFront(a, front, b, n);
    } else {
      assert a + c == a;
    }
  }
}
