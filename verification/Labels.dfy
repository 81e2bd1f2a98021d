/**
 Names of variables, taken apart so that two names can be told to differ: case does not
 matter, and numbers are written in decimal.
 */
module Labels {

  /** A variable's name, taken apart: a word, or a word and a number and perhaps an ending,
      or a word, a number, a second word and a second number. */
  datatype Label = Word(w: string) | One(w: string, n: nat, end: string) | Two(w: string, n: nat, v: string, m: nat)

  function Digit(d: nat): char
    requires d < 10
  {
    '0' + d as char
  }

  function Decimal(n: nat): string {
    if n < 10 then [Digit(n)] else Decimal(n / 10) + [Digit(n % 10)]
  }

  function Text(l: Label): string {
    match l
    case Word(w) => w
    case One(w, n, end) => w + Decimal(n) + end
    case Two(w, n, v, m) => w + Decimal(n) + v + Decimal(m)
  }

  /** The lower case of a letter. Outside ASCII only the dotted capital i and the Kelvin sign
      have one inside ASCII; other letters outside it are left as they are. */
  function LowerChar(c: char): char {
    if 'A' <= c <= 'Z' then c - 'A' + 'a' else if c == '\U{0130}' then 'i' else if c == '\U{212A}' then 'k' else c
  }

  function Lower(s: string): (r: string)
    ensures |r| == |s| && forall i | 0 <= i < |s| :: r[i] == LowerChar(s[i])
  {
    seq(|s|, i requires 0 <= i < |s| => LowerChar(s[i]))
  }

  function LowerLabel(l: Label): Label {
    match l
    case Word(w) => Word(Lower(w))
    case One(w, n, end) => One(Lower(w), n, Lower(end))
    case Two(w, n, v, m) => Two(Lower(w), n, Lower(v), m)
  }

  predicate IsDigit(c: char) { '0' <= c <= '9' }

  /** Unicode's white space. */
  predicate IsSpace(c: char) {
    || '\t' <= c <= '\r' || c == ' ' || c == '\U{0085}' || c == '\U{00A0}' || c == '\U{1680}'
    || '\U{2000}' <= c <= '\U{200A}' || c == '\U{2028}' || c == '\U{2029}' || c == '\U{202F}' || c == '\U{205F}'
    || c == '\U{3000}'
  }

  predicate IsLetter(c: char) { 'A' <= c <= 'Z' || 'a' <= c <= 'z' }

  predicate Letters(s: string) { forall c | c in s :: IsLetter(c) }

  predicate Digits(s: string) { forall c | c in s :: IsDigit(c) }

  predicate Plain(l: Label) {
    match l
    case Word(w) => Letters(w) && w != ""
    case One(w, _, end) => Letters(w) && Letters(end)
    case Two(w, _, v, _) => Letters(w) && Letters(v) && v != ""
  }

  lemma {:induction false} DecimalDigits(n: nat)
    ensures Digits(Decimal(n)) && Decimal(n) != "" && Lower(Decimal(n)) == Decimal(n)
  {
    if n >= 10 { DecimalDigits(n / 10); }
  }

  lemma {:induction false} DecimalInjective(a: nat, b: nat)
    requires Decimal(a) == Decimal(b)
    ensures a == b
  {
    var s := Decimal(a);
    if a >= 10 { DecimalDigits(a / 10); }
    if b >= 10 { DecimalDigits(b / 10); }
    assert s[|s| - 1] == Digit(a % 10) == Digit(b % 10);
    if a >= 10 && b >= 10 {
      assert s[..|s| - 1] == Decimal(a / 10) && s[..|s| - 1] == Decimal(b / 10);
      DecimalInjective(a / 10, b / 10);
    }
  }

  lemma LowerText(l: Label)
    ensures Lower(Text(l)) == Text(LowerLabel(l))
  {
    match l
    case Word(w) =>
    case One(w, n, end) =>
      DecimalDigits(n);
      assert Lower(w + Decimal(n) + end) == Lower(w) + Lower(Decimal(n)) + Lower(end);
    case Two(w, n, v, m) =>
      DecimalDigits(n);
      DecimalDigits(m);
      assert Lower(w + Decimal(n) + v + Decimal(m)) == Lower(w) + Lower(Decimal(n)) + Lower(v) + Lower(Decimal(m));
  }

  lemma LowerLetters(s: string)
    requires Letters(s)
    ensures Letters(Lower(s))
  {
    forall c | c in Lower(s)
      ensures IsLetter(c)
    {
      var i :| 0 <= i < |s| && Lower(s)[i] == c;
      assert s[i] in s;
    }
  }

  /** Two kinds of characters: digits, or everything else. */
  predicate Run(s: string, digits: bool) { forall c | c in s :: IsDigit(c) == digits }

  lemma Head(a: string, x: string, digits: bool)
    requires Run(a, digits) && (x == "" || IsDigit(x[0]) != digits) && a + x != ""
    ensures IsDigit((a + x)[0]) == digits <==> a != ""
  {
    if a != "" { assert a[0] in a; }
  }

  /** A run of one kind followed by something that begins with the other can be split off. */
  lemma {:induction false} SplitRun(a: string, x: string, b: string, y: string, digits: bool)
    requires Run(a, digits) && Run(b, digits) && a + x == b + y
    requires (x == "" || IsDigit(x[0]) != digits) && (y == "" || IsDigit(y[0]) != digits)
    ensures a == b && x == y
  {
    if a + x != "" {
      Head(a, x, digits);
      Head(b, y, digits);
      if a == "" {
        assert x == a + x && y == b + y;
      } else {
        assert (a + x)[1..] == a[1..] + x && (b + y)[1..] == b[1..] + y;
        assert a[0] == (a + x)[0] && b[0] == (b + y)[0];
        SplitRun(a[1..], x, b[1..], y, digits);
        assert a == [a[0]] + a[1..] && b == [b[0]] + b[1..];
      }
    }
  }

  /** What follows the first word. */
  function Rest(l: Label): string {
    match l
    case Word(_) => ""
    case One(_, n, end) => Decimal(n) + end
    case Two(_, n, v, m) => Decimal(n) + (v + Decimal(m))
  }

  function End(l: Label): string {
    match l
    case Word(_) => ""
    case One(_, _, end) => end
    case Two(_, _, v, m) => v + Decimal(m)
  }

  lemma RestStarts(l: Label)
    requires Plain(l)
    ensures Text(l) == l.w + Rest(l)
    ensures l.Word? <==> Rest(l) == ""
    ensures !l.Word? ==> IsDigit(Rest(l)[0]) && Rest(l) == Decimal(l.n) + End(l)
    ensures !l.Word? ==> End(l) == "" || !IsDigit(End(l)[0])
    ensures !l.Word? && End(l) != "" ==> (l.Two? <==> IsDigit(End(l)[|End(l)| - 1]))
    ensures l.Two? ==> End(l) != ""
  {
    match l
    case Word(_) =>
    case One(w, n, end) =>
      DecimalDigits(n);
      assert Decimal(n)[0] in Decimal(n);
      if end != "" { assert end[0] in end && end[|end| - 1] in end; }
    case Two(w, n, v, m) =>
      DecimalDigits(n);
      assert Decimal(n)[0] in Decimal(n);
      assert v[0] in v;
      DecimalDigits(m);
      assert Decimal(m)[|Decimal(m)| - 1] in Decimal(m);
  }

  /** Different labels read differently. */
  lemma TextInjective(a: Label, b: Label)
    requires Plain(a) && Plain(b) && Text(a) == Text(b)
    ensures a == b
  {
    RestStarts(a);
    RestStarts(b);
    SplitRun(a.w, Rest(a), b.w, Rest(b), false);
    if !a.Word? {
      DecimalDigits(a.n);
      DecimalDigits(b.n);
      SplitRun(Decimal(a.n), End(a), Decimal(b.n), End(b), true);
      DecimalInjective(a.n, b.n);
      if a.Two? && b.Two? {
        DecimalDigits(a.m);
        DecimalDigits(b.m);
        assert Decimal(a.m)[0] in Decimal(a.m) && Decimal(b.m)[0] in Decimal(b.m);
        SplitRun(a.v, Decimal(a.m), b.v, Decimal(b.m), false);
        DecimalInjective(a.m, b.m);
      }
    }
  }

  // ----- surrounding space

  predicate Spaces(s: string) { forall c | c in s :: IsSpace(c) }

  /** Not empty, and no space at either end. */
  predicate Bare(s: string) { s != "" && !IsSpace(s[0]) && !IsSpace(s[|s| - 1]) }

  function TrimLeft(s: string): string {
    if s != "" && IsSpace(s[0]) then TrimLeft(s[1..]) else s
  }

  function TrimRight(s: string): string {
    if s != "" && IsSpace(s[|s| - 1]) then TrimRight(s[..|s| - 1]) else s
  }

  /** s without the space around it. */
  function Trim(s: string): string { TrimRight(TrimLeft(s)) }

  lemma {:induction false} TrimLeftPadded(before: string, s: string)
    requires Spaces(before) && s != "" && !IsSpace(s[0])
    ensures TrimLeft(before + s) == s
  {
    if before == "" {
      assert before + s == s;
    } else {
      assert before[0] in before;
      assert (before + s)[1..] == before[1..] + s;
      TrimLeftPadded(before[1..], s);
    }
  }

  lemma {:induction false} TrimRightPadded(s: string, after: string)
    requires Spaces(after) && s != "" && !IsSpace(s[|s| - 1])
    ensures TrimRight(s + after) == s
  {
    if after == "" {
      assert s + after == s;
    } else {
      assert after[|after| - 1] in after;
      assert (s + after)[..|s + after| - 1] == s + after[..|after| - 1];
      TrimRightPadded(s, after[..|after| - 1]);
    }
  }

  /** Exactly the space around the text is trimmed. */
  lemma TrimPadded(before: string, s: string, after: string)
    requires Spaces(before) && Spaces(after) && Bare(s)
    ensures Trim(before + s + after) == s
  {
    assert before + s + after == before + (s + after);
    TrimLeftPadded(before, s + after);
    TrimRightPadded(s, after);
  }

  lemma {:induction false} DecimalBare(n: nat)
    ensures Bare(Decimal(n)) && forall c | c in Decimal(n) :: !IsSpace(c)
  {
    DecimalDigits(n);
    var s := Decimal(n);
    assert s[0] in s && s[|s| - 1] in s;
  }

  /** A name has no space at either end. */
  lemma TextBare(l: Label)
    requires Plain(l)
    ensures Bare(Text(l))
  {
    match l
    case Word(w) =>
      assert w[0] in w && w[|w| - 1] in w;
    case One(w, n, end) =>
      DecimalBare(n);
      if w != "" { assert w[0] in w; }
      if end != "" { assert end[|end| - 1] in end; }
    case Two(w, n, v, m) =>
      DecimalBare(n);
      DecimalBare(m);
      if w != "" { assert w[0] in w; }
  }
}
