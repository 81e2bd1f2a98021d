/**
 The device at the other end of the parameter protocol: a live store, the list last
 committed, a list being staged, and a queue of replies not yet read.
 */
module Device {
  import opened PyInt
  import opened LittleEndian
  import opened Messages

  function Key(index: uint16, sub: byte): nat { index * 256 + sub }

  type Store = map<nat, uint32>

  /** The store after a list has been written to it, in order. */
  function Applied(s: Store, ps: seq<Param>): Store {
    if |ps| == 0 then s
    else
      var p := ps[|ps| - 1];
      Applied(s, ps[..|ps| - 1])[Key(p.index, p.sub) := p.value]
  }

  /** What does not change: the checksum, the parameters a device refuses, and two constants. */
  datatype Traits = Traits(crc: Checksum, rejects: Param -> bool, version: uint32, burnResult: uint32)

  datatype DeviceState = DeviceState(staged: seq<Param>, order: seq<Param>, store: Store, burned: bool,
    replies: seq<Msg>)

  function CommitReply(crc: Checksum, staged: seq<Param>): Msg {
    Msg(CMD_WRITE_ALL_COMPLETE, |staged| % 0x1_0000, 0, crc(Values(staged)))
  }

  function DumpEntries(order: seq<Param>): (ms: seq<Msg>)
    ensures |ms| == |order|
  {
    seq(|order|, i requires 0 <= i < |order| => Msg(CMD_READ_ALL_RSP, order[i].index, order[i].sub, order[i].value))
  }

  function DumpEnd(crc: Checksum, order: seq<Param>): Msg {
    Msg(CMD_READ_ALL_COMPLETE, |order| % 0x1_0000, 0, crc(Values(order)))
  }

  /** The answer to one ReadAll. */
  function Dump(crc: Checksum, order: seq<Param>): seq<Msg> {
    [Msg(CMD_READ_ALL, 0, 0, 0)] + DumpEntries(order) + [DumpEnd(crc, order)]
  }

  /** What a command makes the device answer. */
  function Answer(t: Traits, d: DeviceState, m: Msg): seq<Msg> {
    if m.cmd == CMD_WRITE_ALL then [Msg(CMD_WRITE_ALL, 0, 0, 0)]
    else if m.cmd == CMD_WRITE_ALL_COMPLETE then [CommitReply(t.crc, d.staged)]
    else if m.cmd == CMD_WRITE then if t.rejects(ParamOf(m)) then [] else [m]
    else if m.cmd == CMD_READ then
      var k := Key(m.index, m.sub);
      [Msg(CMD_READ, m.index, m.sub, if k in d.store then d.store[k] else 0)]
    else if m.cmd == CMD_READ_ALL then Dump(t.crc, d.order)
    else if m.cmd == CMD_CHECK_CRC then [Msg(CMD_CHECK_CRC_RSP, 0, 0, t.crc(Values(d.order)))]
    else if m.cmd == CMD_BURN_SETTINGS then [Msg(CMD_BURN_SETTINGS, 0, 0, t.burnResult)]
    else if m.cmd == CMD_VERSION then [Msg(CMD_VERSION, 0, 0, t.version)]
    else []
  }

  /** What a command leaves behind. */
  function React(t: Traits, d: DeviceState, m: Msg): DeviceState {
    var e := d.(replies := d.replies + Answer(t, d, m));
    if m.cmd == CMD_WRITE_ALL then e.(staged := [])
    else if m.cmd == CMD_WRITE_ALL_VAL then
      if t.rejects(ParamOf(m)) then e else e.(staged := d.staged + [ParamOf(m)])
    else if m.cmd == CMD_WRITE_ALL_COMPLETE then e.(order := d.staged, store := Applied(d.store, d.staged))
    else if m.cmd == CMD_WRITE then
      if t.rejects(ParamOf(m)) then e else e.(store := d.store[Key(m.index, m.sub) := m.value])
    else if m.cmd == CMD_BURN_SETTINGS then e.(burned := true)
    else e
  }

  class FakeDevice {
    const t: Traits
    var staged: seq<Param>
    var order: seq<Param>
    var store: Store
    var burned: bool
    var rx: seq<Msg>

    constructor (t: Traits)
      ensures this.t == t && State() == DeviceState([], [], map[], false, [])
    {
      this.t := t;
      staged, order, store, burned, rx := [], [], map[], false, [];
    }

    ghost function State(): DeviceState
      reads this
    {
      DeviceState(staged, order, store, burned, rx)
    }

    method Reply(cmd: byte, index: uint16, sub: byte, value: uint32)
      modifies `rx
      ensures rx == old(rx) + [Msg(cmd, index, sub, value)]
    {
      rx := rx + [Msg(cmd, index, sub, value)];
    }

    method Commit()
      modifies `order, `store
      ensures order == staged && store == Applied(old(store), staged)
    {
      order := staged;
      var i := 0;
      while i < |staged|
        invariant 0 <= i <= |staged| && order == staged
        invariant store == Applied(old(store), staged[..i])
      {
        assert staged[..i + 1][..i] == staged[..i];
        var p := staged[i];
        store := store[Key(p.index, p.sub) := p.value];
        i := i + 1;
      }
      assert staged[..i] == staged;
    }

    method DumpAll()
      requires IsCrc(t.crc)
      modifies `rx
      ensures rx == old(rx) + Dump(t.crc, order)
    {
      Reply(CMD_READ_ALL, 0, 0, 0);
      var i := 0;
      while i < |order|
        invariant 0 <= i <= |order|
        invariant rx == old(rx) + [Msg(CMD_READ_ALL, 0, 0, 0)] + DumpEntries(order)[..i]
      {
        Reply(CMD_READ_ALL_RSP, order[i].index, order[i].sub, order[i].value);
        assert DumpEntries(order)[..i + 1] == DumpEntries(order)[..i] + [DumpEntries(order)[i]];
        i := i + 1;
      }
      assert DumpEntries(order)[..i] == DumpEntries(order);
      var crc := ComputeCrc(t.crc, order);
      Reply(CMD_READ_ALL_COMPLETE, |order| % 0x1_0000, 0, crc);
    }

    /** Takes one command. */
    method Send(m: Msg)
      requires IsCrc(t.crc)
      modifies this
      ensures State() == React(t, old(State()), m)
    {
      if m.cmd == CMD_WRITE_ALL {
        staged := [];
        Reply(CMD_WRITE_ALL, 0, 0, 0);
      } else if m.cmd == CMD_WRITE_ALL_VAL {
        if !t.rejects(ParamOf(m)) {
          staged := staged + [ParamOf(m)];
        }
      } else if m.cmd == CMD_WRITE_ALL_COMPLETE {
        var count := |staged|;
        Commit();
        var crc := ComputeCrc(t.crc, staged);
        Reply(CMD_WRITE_ALL_COMPLETE, count % 0x1_0000, 0, crc);
      } else if m.cmd == CMD_WRITE {
        if !t.rejects(ParamOf(m)) {
          store := store[Key(m.index, m.sub) := m.value];
          Reply(CMD_WRITE, m.index, m.sub, m.value);
        }
      } else if m.cmd == CMD_READ {
        var k := Key(m.index, m.sub);
        Reply(CMD_READ, m.index, m.sub, if k in store then store[k] else 0);
      } else if m.cmd == CMD_READ_ALL {
        DumpAll();
      } else if m.cmd == CMD_CHECK_CRC {
        var crc := ComputeCrc(t.crc, order);
        Reply(CMD_CHECK_CRC_RSP, 0, 0, crc);
      } else if m.cmd == CMD_BURN_SETTINGS {
        burned := true;
        Reply(CMD_BURN_SETTINGS, 0, 0, t.burnResult);
      } else if m.cmd == CMD_VERSION {
        Reply(CMD_VERSION, 0, 0, t.version);
      }
    }
  }

  // ----- the store after a commit

  function Lookup(ps: seq<Param>, k: nat): (v: int)
    ensures v == -1 || 0 <= v < 0x1_0000_0000
  {
    if |ps| == 0 then -1
    else if Key(ps[|ps| - 1].index, ps[|ps| - 1].sub) == k then ps[|ps| - 1].value
    else Lookup(ps[..|ps| - 1], k)
  }

  lemma {:induction false} AppliedAt(s: Store, ps: seq<Param>, k: nat)
    ensures Lookup(ps, k) == -1 ==> ((k in Applied(s, ps)) == (k in s)) && (k in s ==> Applied(s, ps)[k] == s[k])
    ensures Lookup(ps, k) != -1 ==> k in Applied(s, ps) && Applied(s, ps)[k] == Lookup(ps, k)
  {
    if |ps| > 0 { AppliedAt(s, ps[..|ps| - 1], k); }
  }

  /** Committing the same list twice is committing it once. */
  lemma CommitTwice(s: Store, ps: seq<Param>)
    ensures Applied(Applied(s, ps), ps) == Applied(s, ps)
  {
    var a := Applied(s, ps);
    forall k: nat
      ensures (k in Applied(a, ps)) == (k in a) && (k in a ==> Applied(a, ps)[k] == a[k])
    {
      AppliedAt(s, ps, k);
      AppliedAt(a, ps, k);
    }
    assert Applied(a, ps) == a;
  }
}
