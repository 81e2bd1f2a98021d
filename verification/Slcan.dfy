/**
 The text form of CAN frames on a serial line: one line a frame, ended by a carriage
 return, read back from a stream that arrives in pieces of any size.
 */
module Slcan {
  import opened Options
  import opened PyInt
  import opened LittleEndian
  import opened Messages

  const CR: byte := 13
  const LETTER_T: byte := 116

  // ----- hexadecimal

  function HexDigit(n: nat): byte
    requires n < 16
  {
    if n < 10 then 48 + n else 55 + n
  }

  function DigitValue(c: byte): Option<nat> {
    if 48 <= c <= 57 then Some(c - 48)
    else if 97 <= c <= 102 then Some(c - 97 + 10)
    else if 65 <= c <= 70 then Some(c - 65 + 10)
    else None
  }

  /** The number a run of digits stands for, the first digit the highest. */
  function HexOf(bs: seq<byte>): Option<nat> {
    if |bs| == 0 then Some(0)
    else
      var high := HexOf(bs[..|bs| - 1]);
      var low := DigitValue(bs[|bs| - 1]);
      if high.None? || low.None? then None else Some(16 * high.value + low.value)
  }

  const WORD := 0x1_0000_0000

  /** Four bits in from the right, the rest kept modulo 2^32. */
  lemma ShiftIn(x: nat, d: nat)
    ensures (16 * (x % WORD) + d) % WORD == (16 * x + d) % WORD
  {
    var q := x / WORD;
    assert x == WORD * q + x % WORD;
    assert 16 * x + d == WORD * (16 * q) + (16 * (x % WORD) + d);
    var y := 16 * (x % WORD) + d;
    ModUnique(16 * x + d, WORD, 16 * q + y / WORD, y % WORD);
  }

  /** A run of digits, in 32 bits: digits shifted out at the top are lost. */
  method HexN(bs: seq<byte>) returns (v: nat, ok: bool)
    ensures ok <==> HexOf(bs).Some?
    ensures v == if ok then HexOf(bs).value % WORD else 0
  {
    v := 0;
    var i := 0;
    while i < |bs|
      invariant 0 <= i <= |bs|
      invariant HexOf(bs[..i]).Some? && v == HexOf(bs[..i]).value % WORD
    {
      assert bs[..i + 1][..i] == bs[..i];
      var c := bs[i];
      var d: nat;
      if 48 <= c <= 57 {
        d := c - 48;
      } else if 97 <= c <= 102 {
        d := c - 97 + 10;
      } else if 65 <= c <= 70 {
        d := c - 65 + 10;
      } else {
        BadDigit(bs, i);
        return 0, false;
      }
      ShiftIn(HexOf(bs[..i]).value, d);
      v := (v * 16 + d) % WORD;
      i := i + 1;
    }
    assert bs[..i] == bs;
    ok := true;
  }

  lemma {:induction false} BadDigit(bs: seq<byte>, i: nat)
    requires i < |bs| && DigitValue(bs[i]).None?
    ensures HexOf(bs).None?
  {
    if i < |bs| - 1 { BadDigit(bs[..|bs| - 1], i); }
  }

  /** The n lowest digits of a number. */
  function Hex(v: nat, n: nat): (bs: seq<byte>)
    ensures |bs| == n
  {
    if n == 0 then [] else Hex(v / 16, n - 1) + [HexDigit(v % 16)]
  }

  function Power16(n: nat): nat {
    if n == 0 then 1 else 16 * Power16(n - 1)
  }

  lemma DigitRoundTrip(n: nat)
    requires n < 16
    ensures DigitValue(HexDigit(n)) == Some(n) && HexDigit(n) != CR
  {
  }

  lemma {:induction false} HexRoundTrip(v: nat, n: nat)
    requires v < Power16(n)
    ensures HexOf(Hex(v, n)) == Some(v)
  {
    if n > 0 {
      HexRoundTrip(v / 16, n - 1);
      DigitRoundTrip(v % 16);
      var bs := Hex(v, n);
      assert bs[..n - 1] == Hex(v / 16, n - 1);
    }
  }

  lemma {:induction false} HexNoReturn(v: nat, n: nat)
    ensures CR !in Hex(v, n)
  {
    if n > 0 { HexNoReturn(v / 16, n - 1); }
  }

  // ----- one line

  function DataHex(data: seq<byte>): (bs: seq<byte>)
    ensures |bs| == 2 * |data|
  {
    if |data| == 0 then [] else DataHex(data[..|data| - 1]) + Hex(data[|data| - 1], 2)
  }

  /** The line of a frame, without its end. The identifier keeps eleven bits. */
  function LineOf(f: Frame): seq<byte>
    requires |f.data| <= 8
  {
    [LETTER_T] + Hex(f.id % 0x800, 3) + Hex(|f.data|, 1) + DataHex(f.data)
  }

  /** The character for a digit, upper case. */
  function DigitChar(n: nat): char
    requires n < 16
  {
    "0123456789ABCDEF"[n]
  }

  lemma DigitIs(n: nat)
    requires n < 16
    ensures HexDigit(n) == DigitChar(n) as int
  {
  }

  lemma {:induction false} DataChars(data: seq<byte>, i: nat)
    requires i < |data|
    ensures DataHex(data)[2 * i] == DigitChar(data[i] / 16) as int
    ensures DataHex(data)[2 * i + 1] == DigitChar(data[i] % 16) as int
  {
    DigitIs(data[i] / 16);
    DigitIs(data[i] % 16);
    if i == |data| - 1 {
      assert Hex(data[i], 2) == Hex(data[i] / 16, 1) + [HexDigit(data[i] % 16)];
      assert Hex(data[i] / 16, 1) == Hex(data[i] / 256, 0) + [HexDigit(data[i] / 16 % 16)];
    } else {
      DataChars(data[..|data| - 1], i);
    }
  }

  lemma OneDigit(v: nat)
    requires v < 16
    ensures Hex(v, 1) == [HexDigit(v)]
  {
    assert v / 16 == 0 && v % 16 == v;
    assert Hex(v, 1) == Hex(v / 16, 0) + [HexDigit(v)];
  }

  lemma ThreeDigits(v: nat, a: nat, b: nat, c: nat)
    requires a < 16 && b < 16 && c < 16 && v == 256 * a + 16 * b + c
    ensures Hex(v, 3) == [HexDigit(a), HexDigit(b), HexDigit(c)]
  {
    assert v / 16 == 16 * a + b && v % 16 == c;
    assert (16 * a + b) / 16 == a && (16 * a + b) % 16 == b;
    OneDigit(a);
    assert Hex(16 * a + b, 2) == Hex(a, 1) + [HexDigit(b)];
    assert Hex(v, 3) == Hex(16 * a + b, 2) + [HexDigit(c)];
  }

  /** The line, character by character: t, three digits a, b and c of the identifier's low
      eleven bits, one of the length, two of each byte; digits are upper case, the high ones
      come first. */
  lemma LineInCharacters(f: Frame, line: seq<byte>, a: nat, b: nat, c: nat)
    requires |f.data| <= 8 && line == LineOf(f)
    requires a < 16 && b < 16 && c < 16 && f.id % 0x800 == 256 * a + 16 * b + c
    ensures |line| == 5 + 2 * |f.data| && line[0] == 't' as int && CR == '\r' as int
    ensures line[1] == DigitChar(a) as int && line[2] == DigitChar(b) as int && line[3] == DigitChar(c) as int
    ensures line[4] == DigitChar(|f.data|) as int
    ensures forall i | 0 <= i < |f.data| ::
      line[5 + 2 * i] == DigitChar(f.data[i] / 16) as int && line[6 + 2 * i] == DigitChar(f.data[i] % 16) as int
  {
    ThreeDigits(f.id % 0x800, a, b, c);
    OneDigit(|f.data|);
    DigitIs(a);
    DigitIs(b);
    DigitIs(c);
    DigitIs(|f.data|);
    assert line[5..] == DataHex(f.data);
    forall i | 0 <= i < |f.data|
      ensures line[5 + 2 * i] == DigitChar(f.data[i] / 16) as int && line[6 + 2 * i] == DigitChar(f.data[i] % 16) as int
    {
      DataChars(f.data, i);
      assert line[5..][2 * i] == line[5 + 2 * i] && line[5..][2 * i + 1] == line[6 + 2 * i];
    }
  }

  /** What is written for a frame; a frame of more than eight bytes is refused. */
  method Send(f: Frame) returns (s: seq<byte>, ok: bool)
    ensures ok == (|f.data| <= 8)
    ensures ok ==> s == LineOf(f) + [CR]
  {
    if |f.data| > 8 {
      return [], false;
    }
    s := [LETTER_T] + Hex(f.id % 0x800, 3) + Hex(|f.data|, 1);
    var i := 0;
    while i < |f.data|
      invariant 0 <= i <= |f.data|
      invariant s == [LETTER_T] + Hex(f.id % 0x800, 3) + Hex(|f.data|, 1) + DataHex(f.data[..i])
    {
      assert f.data[..i + 1][..i] == f.data[..i];
      s := s + Hex(f.data[i], 2);
      i := i + 1;
    }
    assert f.data[..i] == f.data;
    s := s + [CR];
    ok := true;
  }

  /** The bytes written as pairs of digits, n of them. */
  function DataOf(bs: seq<byte>, n: nat): (d: Option<seq<byte>>)
    requires 2 * n <= |bs|
    ensures d.Some? ==> |d.value| == n
  {
    if n == 0 then Some([])
    else
      var front := DataOf(bs, n - 1);
      var b := HexOf(bs[2 * n - 2..2 * n]);
      if front.None? || b.None? then None
      else
        PairBelow(bs[2 * n - 2..2 * n]);
        Some(front.value + [b.value])
  }

  lemma PairBelow(bs: seq<byte>)
    requires |bs| == 2 && HexOf(bs).Some?
    ensures HexOf(bs).value < 256
  {
    assert bs[..1][..0] == [];
    assert HexOf(bs[..1]).value < 16;
  }

  /** The frame a line stands for, if it stands for one. What follows the data is ignored. */
  function Parse(line: seq<byte>): Option<Frame> {
    if |line| < 5 || line[0] != LETTER_T then None
    else
      var id, dlc := HexOf(line[1..4]), HexOf(line[4..5]);
      if id.None? || dlc.None? || dlc.value > 8 || |line| < 5 + 2 * dlc.value then None
      else
        var data := DataOf(line[5..], dlc.value);
        if data.None? then None
        else
          Kept(line[1..4]);
          Some(Frame(id.value, data.value))
  }

  /** Up to three digits lose nothing. */
  lemma Kept(bs: seq<byte>)
    requires 1 <= |bs| <= 3
    ensures HexOf(bs).Some? ==> HexOf(bs).value < 0x1000 && HexOf(bs).value % WORD == HexOf(bs).value
    ensures HexOf(bs).Some? && |bs| == 2 ==> HexOf(bs).value < 256
  {
    if HexOf(bs).Some? {
      if |bs| == 2 { PairBelow(bs); }
      if |bs| == 3 { PairBelow(bs[..2]); }
    }
  }

  // ----- which lines parse, digit by digit

  /** c is the digit n, in upper or lower case. */
  predicate IsDigit(c: byte, n: nat) {
    n < 16 && (c == "0123456789ABCDEF"[n] as int || c == "0123456789abcdef"[n] as int)
  }

  lemma DigitReads(c: byte, n: nat)
    ensures DigitValue(c) == Some(n) <==> IsDigit(c, n)
  {
  }

  lemma DigitBelow(c: byte)
    ensures DigitValue(c).Some? ==> DigitValue(c).value < 16
  {
  }

  /** A number's last digit, and the others. */
  lemma LastDigit(bs: seq<byte>, front: seq<byte>, c: byte, n: nat, high: nat, low: nat)
    requires |bs| > 0 && front == bs[..|bs| - 1] && c == bs[|bs| - 1]
    requires n == 16 * high + low && low < 16
    ensures HexOf(bs) == Some(n) <==> HexOf(front) == Some(high) && IsDigit(c, low)
  {
    DigitReads(c, low);
    var h, d := HexOf(front), DigitValue(c);
    if h.Some? && d.Some? {
      DigitBelow(c);
      SameSplit(high, low, h.value, d.value);
    }
  }

  lemma SameSplit(high: nat, low: nat, h: nat, d: nat)
    requires low < 16 && d < 16
    ensures 16 * high + low == 16 * h + d <==> high == h && low == d
  {
  }

  lemma OneReads(bs: seq<byte>, n: nat)
    requires |bs| == 1
    ensures HexOf(bs) == Some(n) <==> IsDigit(bs[0], n)
  {
    LastDigit(bs, bs[..0], bs[0], n, n / 16, n % 16);
  }

  lemma TwoRead(bs: seq<byte>, n: nat)
    requires |bs| == 2
    ensures HexOf(bs) == Some(n) <==> IsDigit(bs[0], n / 16) && IsDigit(bs[1], n % 16)
  {
    LastDigit(bs, bs[..1], bs[1], n, n / 16, n % 16);
    OneReads(bs[..1], n / 16);
  }

  lemma ThreeRead(bs: seq<byte>, n: nat, high: nat)
    requires |bs| == 3 && high == n / 16
    ensures HexOf(bs) == Some(n) <==> IsDigit(bs[0], high / 16) && IsDigit(bs[1], high % 16) && IsDigit(bs[2], n % 16)
  {
    LastDigit(bs, bs[..2], bs[2], n, high, n % 16);
    TwoRead(bs[..2], high);
  }

  /** The first n bytes of data, two digits each. */
  predicate DataDigits(bs: seq<byte>, data: seq<byte>, n: nat)
    requires n <= |data| && 2 * n <= |bs|
  {
    forall i | 0 <= i < n :: IsDigit(bs[2 * i], data[i] / 16) && IsDigit(bs[2 * i + 1], data[i] % 16)
  }

  lemma DigitsStep(bs: seq<byte>, data: seq<byte>, n: nat)
    requires 0 < n == |data| && 2 * n <= |bs|
    ensures DataDigits(bs, data, n) <==>
      DataDigits(bs, data[..n - 1], n - 1) && IsDigit(bs[2 * n - 2], data[n - 1] / 16)
      && IsDigit(bs[2 * n - 1], data[n - 1] % 16)
  {
  }

  lemma DataStep(bs: seq<byte>, data: seq<byte>, n: nat)
    requires 0 < n == |data| && 2 * n <= |bs|
    ensures DataOf(bs, n) == Some(data) <==>
      DataOf(bs, n - 1) == Some(data[..n - 1]) && HexOf(bs[2 * n - 2..2 * n]) == Some(data[n - 1])
  {
    assert data == data[..n - 1] + [data[n - 1]];
  }

  lemma {:induction false} DataReads(bs: seq<byte>, data: seq<byte>, n: nat)
    requires |data| == n && 2 * n <= |bs|
    ensures DataOf(bs, n) == Some(data) <==> DataDigits(bs, data, n)
  {
    if n > 0 {
      DataReads(bs, data[..n - 1], n - 1);
      TwoRead(bs[2 * n - 2..2 * n], data[n - 1]);
      DataStep(bs, data, n);
      DigitsStep(bs, data, n);
    }
  }

  /** A line stands for a frame exactly if it begins with t, three digits of an identifier
      of at most twelve bits, one of a length up to eight and two of each byte, in either
      case. Whatever follows does not matter. */
  lemma ParsesExactly(line: seq<byte>, f: Frame)
    ensures Parse(line) == Some(f) <==>
      && |f.data| <= 8 && |line| >= 5 + 2 * |f.data| && line[0] == 't' as int
      && IsDigit(line[1], f.id / 16 / 16) && IsDigit(line[2], f.id / 16 % 16) && IsDigit(line[3], f.id % 16)
      && IsDigit(line[4], |f.data|)
      && forall i | 0 <= i < |f.data| ::
        IsDigit(line[5 + 2 * i], f.data[i] / 16) && IsDigit(line[6 + 2 * i], f.data[i] % 16)
  {
    if |line| >= 5 {
      ThreeRead(line[1..4], f.id, f.id / 16);
      OneReads(line[4..5], |f.data|);
      if |line| >= 5 + 2 * |f.data| {
        DataReads(line[5..], f.data, |f.data|);
        DataFollows(line, f.data);
      }
    }
  }

  lemma DataFollows(line: seq<byte>, data: seq<byte>)
    requires |line| >= 5 + 2 * |data|
    ensures DataDigits(line[5..], data, |data|) <==>
      forall i | 0 <= i < |data| :: IsDigit(line[5 + 2 * i], data[i] / 16) && IsDigit(line[6 + 2 * i], data[i] % 16)
  {
    var bs := line[5..];
    assert forall i | 0 <= i < |data| :: bs[2 * i] == line[5 + 2 * i] && bs[2 * i + 1] == line[6 + 2 * i];
  }

  method ParseFrame(line: seq<byte>) returns (f: Frame, ok: bool)
    ensures if ok then Parse(line) == Some(f) else Parse(line).None?
  {
    f := Frame(0, []);
    if |line| < 5 || line[0] != LETTER_T {
      return f, false;
    }
    var id, dlc;
    Kept(line[1..4]);
    id, ok := HexN(line[1..4]);
    if !ok {
      return;
    }
    Kept(line[4..5]);
    dlc, ok := HexN(line[4..5]);
    if !ok || dlc > 8 || |line| < 5 + dlc * 2 {
      return f, false;
    }
    var data;
    data, ok := ParseData(line, dlc);
    return if ok then Frame(id, data) else Frame(0, []), ok;
  }

  /** The data of a line that is long enough, two digits a byte. */
  method ParseData(line: seq<byte>, dlc: nat) returns (data: seq<byte>, ok: bool)
    requires |line| >= 5 + dlc * 2
    ensures if ok then DataOf(line[5..], dlc) == Some(data) else DataOf(line[5..], dlc).None?
  {
    ghost var rest := line[5..];
    data := [];
    var i := 0;
    while i < dlc
      invariant 0 <= i <= dlc
      invariant DataOf(rest, i) == Some(data)
    {
      assert line[5 + i * 2..7 + i * 2] == rest[2 * (i + 1) - 2..2 * (i + 1)];
      Kept(line[5 + i * 2..7 + i * 2]);
      var b;
      b, ok := HexN(line[5 + i * 2..7 + i * 2]);
      if !ok {
        BadPair(rest, dlc, i);
        return;
      }
      data := data + [b];
      i := i + 1;
    }
    ok := true;
  }

  lemma {:induction false} BadPair(bs: seq<byte>, n: nat, i: nat)
    requires i < n && 2 * n <= |bs| && HexOf(bs[2 * (i + 1) - 2..2 * (i + 1)]).None?
    ensures DataOf(bs, n).None?
  {
    if i < n - 1 { BadPair(bs, n - 1, i); }
  }

  lemma {:induction false} DataPrefix(a: seq<byte>, b: seq<byte>, n: nat)
    requires a <= b && 2 * n <= |a|
    ensures DataOf(a, n) == DataOf(b, n)
  {
    if n > 0 {
      DataPrefix(a, b, n - 1);
      assert a[2 * n - 2..2 * n] == b[2 * n - 2..2 * n];
    }
  }

  lemma DataAppend(bs: seq<byte>, data: seq<byte>, pair: seq<byte>, b: byte)
    requires |bs| == 2 * |data| && DataOf(bs, |data|) == Some(data) && |pair| == 2 && HexOf(pair) == Some(b)
    ensures DataOf(bs + pair, |data| + 1) == Some(data + [b])
  {
    var n := |data| + 1;
    DataPrefix(bs, bs + pair, |data|);
    assert (bs + pair)[2 * n - 2..2 * n] == pair;
  }

  lemma DataHexLast(front: seq<byte>, b: byte)
    ensures DataHex(front + [b]) == DataHex(front) + Hex(b, 2)
  {
    assert (front + [b])[..|front|] == front;
  }

  lemma DataLast(front: seq<byte>, b: byte, data: seq<byte>, bs: seq<byte>)
    requires data == front + [b] && bs == DataHex(front) && DataOf(bs, |front|) == Some(front)
    ensures DataOf(DataHex(data), |data|) == Some(data)
  {
    assert Power16(2) == 256;
    HexRoundTrip(b, 2);
    DataAppend(bs, front, Hex(b, 2), b);
    DataHexLast(front, b);
  }

  lemma FrontAndLast(data: seq<byte>)
    requires |data| > 0
    ensures data == data[..|data| - 1] + [data[|data| - 1]]
  {
  }

  lemma {:induction false} DataRoundTrip(data: seq<byte>)
    ensures DataOf(DataHex(data), |data|) == Some(data)
  {
    if |data| > 0 {
      var front := data[..|data| - 1];
      DataRoundTrip(front);
      FrontAndLast(data);
      DataLast(front, data[|data| - 1], data, DataHex(front));
    }
  }

  lemma LineParts(id: seq<byte>, dlc: seq<byte>, data: seq<byte>, line: seq<byte>)
    requires |id| == 3 && |dlc| == 1 && line == [LETTER_T] + id + dlc + data
    ensures line[0] == LETTER_T && line[1..4] == id && line[4..5] == dlc && line[5..] == data
  {
  }

  /** Reading a written line gives the frame back, with its identifier cut to eleven bits:
      the frame itself exactly when the identifier is standard. */
  lemma LineRoundTrip(f: Frame)
    requires |f.data| <= 8
    ensures Parse(LineOf(f)) == Some(Frame(f.id % 0x800, f.data))
    ensures Parse(LineOf(f)) == Some(f) <==> f.id <= 0x7FF
  {
    var line := LineOf(f);
    LineParts(Hex(f.id % 0x800, 3), Hex(|f.data|, 1), DataHex(f.data), line);
    assert Power16(3) == 0x1000 && Power16(1) == 16;
    HexRoundTrip(f.id % 0x800, 3);
    HexRoundTrip(|f.data|, 1);
    DataRoundTrip(f.data);
  }

  lemma {:induction false} DataNoReturn(data: seq<byte>)
    ensures CR !in DataHex(data)
  {
    if |data| > 0 {
      DataNoReturn(data[..|data| - 1]);
      HexNoReturn(data[|data| - 1], 2);
    }
  }

  lemma LineNoReturn(f: Frame)
    requires |f.data| <= 8
    ensures CR !in LineOf(f)
  {
    HexNoReturn(f.id % 0x800, 3);
    HexNoReturn(|f.data|, 1);
    DataNoReturn(f.data);
  }

  // ----- the stream

  /** The frames of the finished lines, and the unfinished line. */
  datatype Reading = Reading(frames: seq<Frame>, line: seq<byte>)

  function Feed(r: Reading, b: byte): Reading {
    if b != CR then r.(line := r.line + [b])
    else
      match Parse(r.line)
      case Some(f) => Reading(r.frames + [f], [])
      case None => Reading(r.frames, [])
  }

  function Stream(bytes: seq<byte>): Reading {
    if |bytes| == 0 then Reading([], []) else Feed(Stream(bytes[..|bytes| - 1]), bytes[|bytes| - 1])
  }

  lemma StreamNext(bytes: seq<byte>, b: byte)
    ensures Stream(bytes + [b]) == Feed(Stream(bytes), b)
  {
    assert (bytes + [b])[..|bytes|] == bytes;
  }

  function Concat(chunks: seq<seq<byte>>): seq<byte> {
    if |chunks| == 0 then [] else Concat(chunks[..|chunks| - 1]) + chunks[|chunks| - 1]
  }

  method TakeByte(frames: seq<Frame>, line: seq<byte>, b: byte) returns (fs: seq<Frame>, l: seq<byte>)
    ensures Reading(fs, l) == Feed(Reading(frames, line), b)
  {
    if b == CR {
      var f, ok := ParseFrame(line);
      return if ok then frames + [f] else frames, [];
    }
    return frames, line + [b];
  }

  /** Reads a stream that arrives in chunks. How it is cut does not matter. */
  method ReadLoop(chunks: seq<seq<byte>>) returns (frames: seq<Frame>, line: seq<byte>)
    ensures Reading(frames, line) == Stream(Concat(chunks))
  {
    frames, line := [], [];
    var k := 0;
    while k < |chunks|
      invariant 0 <= k <= |chunks|
      invariant Reading(frames, line) == Stream(Concat(chunks[..k]))
    {
      assert chunks[..k + 1][..k] == chunks[..k];
      var tmp := chunks[k];
      ghost var before := Concat(chunks[..k]);
      var i := 0;
      assert before + tmp[..0] == before;
      while i < |tmp|
        invariant 0 <= i <= |tmp|
        invariant Reading(frames, line) == Stream(before + tmp[..i])
      {
        var b := tmp[i];
        StreamNext(before + tmp[..i], b);
        assert before + tmp[..i] + [b] == before + tmp[..i + 1];
        frames, line := TakeByte(frames, line, b);
        i := i + 1;
      }
      assert tmp[..i] == tmp;
      k := k + 1;
    }
    assert chunks[..k] == chunks;
  }

  lemma {:induction false} FeedLine(bytes: seq<byte>, line: seq<byte>)
    requires Stream(bytes).line == [] && CR !in line
    ensures Stream(bytes + line) == Reading(Stream(bytes).frames, line)
  {
    if |line| == 0 {
      assert bytes + line == bytes;
    } else {
      var front := line[..|line| - 1];
      FeedLine(bytes, front);
      assert (bytes + line)[..|bytes + line| - 1] == bytes + front;
      assert front + [line[|line| - 1]] == line;
    }
  }

  /** A finished line. */
  lemma FinishLine(bytes: seq<byte>, line: seq<byte>)
    requires Stream(bytes).line == [] && CR !in line
    ensures
      var fs := Stream(bytes).frames;
      Stream(bytes + (line + [CR])) == Reading(if Parse(line).Some? then fs + [Parse(line).value] else fs, [])
  {
    FeedLine(bytes, line);
    StreamNext(bytes + line, CR);
    assert bytes + line + [CR] == bytes + (line + [CR]);
  }

  // ----- messages through the whole stack

  /** What goes over the line: a message to or from an identifier, or a line that is no frame. */
  datatype Item = Message(id: uint16, m: Msg) | Other(line: seq<byte>)

  predicate Proper(item: Item) {
    match item
    case Message(id, _) => id <= 0x7FF
    case Other(line) => CR !in line && Parse(line).None?
  }

  function Text(item: Item): seq<byte> {
    match item
    case Message(id, m) => LineOf(Frame(id, FrameBytes(m))) + [CR]
    case Other(line) => line + [CR]
  }

  function Texts(items: seq<Item>): seq<byte> {
    if |items| == 0 then [] else Texts(items[..|items| - 1]) + Text(items[|items| - 1])
  }

  /** The messages among the items, with their identifiers. */
  function MessagesIn(items: seq<Item>): seq<(uint16, Msg)> {
    if |items| == 0 then []
    else
      var front := MessagesIn(items[..|items| - 1]);
      var last := items[|items| - 1];
      if last.Message? then front + [(last.id, last.m)] else front
  }

  /** The messages frames carry; frames too short to carry one are skipped. */
  function Decoded(frames: seq<Frame>): seq<(uint16, Msg)> {
    if |frames| == 0 then []
    else
      var front := Decoded(frames[..|frames| - 1]);
      var f := frames[|frames| - 1];
      if |f.data| >= 8 then front + [(f.id, Decode(f.data))] else front
  }

  lemma {:induction false} TextsRead(items: seq<Item>)
    requires forall item | item in items :: Proper(item)
    ensures Stream(Texts(items)).line == [] && Decoded(Stream(Texts(items)).frames) == MessagesIn(items)
  {
    if |items| > 0 {
      var front, last := items[..|items| - 1], items[|items| - 1];
      TextsRead(front);
      assert Proper(last);
      var fs := Stream(Texts(front)).frames;
      match last {
        case Message(id, m) =>
          var f := Frame(id, FrameBytes(m));
          LineRoundTrip(f);
          LineNoReturn(f);
          DecodeFrame(m);
          FinishLine(Texts(front), LineOf(f));
          assert (fs + [f])[..|fs|] == fs;
        case Other(line) =>
          FinishLine(Texts(front), line);
      }
    }
  }

  /** Every message survives the whole stack: encoded, written as a line, mixed with lines
      that are no frames and perhaps an unfinished one, read in chunks of any size, and decoded. */
  method ThroughTheStack(items: seq<Item>, tail: seq<byte>, chunks: seq<seq<byte>>) returns (got: seq<(uint16, Msg)>)
    requires forall item | item in items :: Proper(item)
    requires Concat(chunks) == Texts(items) + tail && CR !in tail
    ensures got == MessagesIn(items)
  {
    var frames, line := ReadLoop(chunks);
    TextsRead(items);
    FeedLine(Texts(items), tail);
    got := [];
    var i := 0;
    while i < |frames|
      invariant 0 <= i <= |frames|
      invariant got == Decoded(frames[..i])
    {
      assert frames[..i + 1][..i] == frames[..i];
      if |frames[i].data| >= 8 {
        got := got + [(frames[i].id, Decode(frames[i].data))];
      }
      i := i + 1;
    }
    assert frames[..i] == frames;
  }
}
