/**
 The messages of the parameter protocol and the eight bytes they travel in.
 */
module Messages {
  import opened PyInt
  import opened LittleEndian
  import Crc

  const CMD_READ: byte := 1
  const CMD_WRITE: byte := 2
  const CMD_READ_ALL: byte := 10
  const CMD_READ_ALL_RSP: byte := 11
  const CMD_READ_ALL_COMPLETE: byte := 12
  const CMD_WRITE_ALL: byte := 20
  const CMD_WRITE_ALL_VAL: byte := 21
  const CMD_WRITE_ALL_COMPLETE: byte := 22
  const CMD_BURN_SETTINGS: byte := 30
  const CMD_VERSION: byte := 31
  const CMD_CHECK_CRC: byte := 34
  const CMD_CHECK_CRC_RSP: byte := 35

  const CONFIG_RX_OFFSET := 1
  const CONFIG_TX_OFFSET := 0

  datatype Param = Param(index: uint16, sub: byte, value: uint32)

  datatype Msg = Msg(cmd: byte, index: uint16, sub: byte, value: uint32)

  /** A CAN frame on the wire. */
  datatype Frame = Frame(id: uint16, data: seq<byte>)

  function FrameBytes(m: Msg): (d: seq<byte>)
    ensures |d| == 8
  {
    [m.cmd] + Put16(m.index) + [m.sub] + Put32(m.value)
  }

  function Decode(data: seq<byte>): Msg
    requires |data| >= 8
  {
    Msg(data[0], Get16(data[1..3]), data[3], Get32(data[4..8]))
  }

  /** The bytes of a message: command, index low and high, subindex, then the value, lowest
      byte first. */
  lemma FrameLayout(m: Msg, d: seq<byte>)
    requires d == FrameBytes(m)
    ensures |d| == 8 && d[0] == m.cmd && d[3] == m.sub
    ensures m.index == d[1] as int + 0x100 * d[2] as int
    ensures m.value == d[4] as int + 0x100 * d[5] as int + 0x1_0000 * d[6] as int + 0x100_0000 * d[7] as int
  {
    RoundTrip16(m.index);
    RoundTrip32(m.value);
    assert d[1..3] == Put16(m.index) && d[4..8] == Put32(m.value);
  }

  /** Decoding undoes encoding. */
  lemma DecodeFrame(m: Msg)
    ensures Decode(FrameBytes(m)) == m
  {
    var d := FrameBytes(m);
    assert d[1..3] == Put16(m.index) && d[4..8] == Put32(m.value);
    RoundTrip16(m.index);
    RoundTrip32(m.value);
  }

  /** Every eight bytes are the encoding of some message. */
  lemma EncodeDecoded(data: seq<byte>)
    requires |data| == 8
    ensures FrameBytes(Decode(data)) == data
  {
    Bytes16(data[1..3]);
    Bytes32(data[4..8]);
    assert data == [data[0]] + data[1..3] + [data[3]] + data[4..8];
  }

  function Values(ps: seq<Param>): (vs: seq<uint32>)
    ensures |vs| == |ps| && forall i | 0 <= i < |ps| :: vs[i] == ps[i].value
  {
    seq(|ps|, i requires 0 <= i < |ps| => ps[i].value)
  }

  /** A checksum over values. */
  type Checksum = seq<uint32> -> uint32

  /** The checksum is the standard CRC-32. */
  ghost predicate IsCrc(crc: Checksum) {
    forall vs {:trigger Crc.CrcOf(vs)} :: crc(vs) == Crc.CrcOf(vs)
  }

  /** One parameter list with one value replaced. */
  function WithValue(ps: seq<Param>, i: nat, v: uint32): seq<Param>
    requires i < |ps|
  {
    ps[i := ps[i].(value := v)]
  }

  lemma OneWrongParam(crc: Checksum, ps: seq<Param>, i: nat, v: uint32)
    requires IsCrc(crc) && i < |ps| && v != ps[i].value
    ensures crc(Values(WithValue(ps, i, v))) != crc(Values(ps))
  {
    var a, b := Values(WithValue(ps, i, v)), Values(ps);
    assert a == b[i := v];
    Crc.OneWrongValue(b, i, v);
    assert crc(a) == Crc.CrcOf(a) && crc(b) == Crc.CrcOf(b);
  }

  /** What the client checks at the end of a write or of a dump: the count and the checksum. */
  predicate Accepts(crc: Checksum, ps: seq<Param>, end: Msg) {
    end.index == |ps| && end.value == crc(Values(ps))
  }

  method ComputeCrc(ghost crc: Checksum, ps: seq<Param>) returns (c: uint32)
    requires IsCrc(crc)
    ensures c == crc(Values(ps))
  {
    c := Crc.ComputeCrc(Values(ps));
  }

  function ParamOf(m: Msg): Param { Param(m.index, m.sub, m.value) }

  /** The parameters of the messages of one kind. */
  function Picked(ms: seq<Msg>, cmd: byte): seq<Param> {
    if |ms| == 0 then []
    else
      var front := Picked(ms[..|ms| - 1], cmd);
      if ms[|ms| - 1].cmd == cmd then front + [ParamOf(ms[|ms| - 1])] else front
  }

  lemma {:induction false} PickedHead(ms: seq<Msg>, cmd: byte)
    requires |ms| > 0
    ensures Picked(ms, cmd) == (if ms[0].cmd == cmd then [ParamOf(ms[0])] else []) + Picked(ms[1..], cmd)
  {
    if |ms| > 1 {
      var front := ms[..|ms| - 1];
      PickedHead(front, cmd);
      assert ms[1..][..|ms| - 2] == front[1..];
    } else {
      assert ms[1..] == [] && ms[..0] == [];
    }
  }

  lemma {:induction false} PickedAppend(a: seq<Msg>, b: seq<Msg>, cmd: byte)
    ensures Picked(a + b, cmd) == Picked(a, cmd) + Picked(b, cmd)
  {
    if |b| == 0 {
      assert a + b == a;
    } else {
      assert (a + b)[..|a + b| - 1] == a + b[..|b| - 1];
      PickedAppend(a, b[..|b| - 1], cmd);
    }
  }

  predicate All(ms: seq<Msg>, cmd: byte) {
    forall m | m in ms :: m.cmd == cmd
  }

  predicate NoneOf(ms: seq<Msg>, cmd: byte) {
    forall m | m in ms :: m.cmd != cmd
  }

  lemma {:induction false} NonePicked(ms: seq<Msg>, cmd: byte)
    requires NoneOf(ms, cmd)
    ensures Picked(ms, cmd) == []
  {
    if |ms| > 0 { NonePicked(ms[..|ms| - 1], cmd); }
  }
}
