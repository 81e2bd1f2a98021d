/**
 How long an assembled frame is, against the bits its members occupy. The length is
 computed as if every member were little-endian; for a Motorola member it can be too short.
 */
module FrameLengths {
  import opened Blocks
  import opened CanFrames
  import opened Dbc

  /** Every bit of a field lies in the first n bytes. */
  ghost predicate Covered(order: int, start: nat, len: nat, n: nat) {
    forall j | 0 <= j < len :: Pos(order, start, len, j) < 8 * n
  }

  lemma LittleEndianCovered(order: int, start: nat, len: nat, n: nat)
    requires order != BIG_ENDIAN && len >= 1
    ensures Covered(order, start, len, n) <==> start + len <= 8 * n
  {
    assert Pos(order, start, len, len - 1) == start + len - 1;
  }

  lemma MotByte(m: nat, n: nat)
    ensures Mot(m) < 8 * n <==> m < 8 * n
  {
  }

  lemma MotorolaCovered(start: nat, len: nat, n: nat)
    requires len >= 1
    ensures Covered(BIG_ENDIAN, start, len, n) <==> Mot(start) + len <= 8 * n
  {
    forall j | 0 <= j < len
      ensures Pos(BIG_ENDIAN, start, len, j) < 8 * n <==> Mot(start) + len - 1 - j < 8 * n
    {
      MotByte(Mot(start) + len - 1 - j, n);
    }
    assert Covered(BIG_ENDIAN, start, len, n) ==> Pos(BIG_ENDIAN, start, len, 0) < 8 * n;
  }

  /** The frame of a little-endian slot alone is exactly as long as its field needs. */
  lemma ShortestFrame(s: CanOutCfg, n: nat)
    requires s.bitLength >= 1 && s.byteOrder != BIG_ENDIAN
    ensures Covered(s.byteOrder, s.startBit, s.bitLength, n) <==> DlcOf(s) <= n
  {
    LittleEndianCovered(s.byteOrder, s.startBit, s.bitLength, n);
  }

  /** The length computed for a Motorola slot holds its whole field exactly if the start bit
      is in the upper half of its byte, or the field ends early enough in its last byte.
      Otherwise the last byte of the field is not part of the frame. */
  lemma MotorolaLength(s: CanOutCfg)
    requires s.bitLength >= 1 && s.byteOrder == BIG_ENDIAN
    ensures Covered(s.byteOrder, s.startBit, s.bitLength, DlcOf(s))
      <==> s.startBit % 8 >= 4 || (s.bitLength + s.startBit % 8 - 1) % 8 <= 2 * (s.startBit % 8)
  {
    MotorolaCovered(s.startBit, s.bitLength, DlcOf(s));
    var b, r := s.startBit / 8, s.startBit % 8;
    assert s.startBit + s.bitLength - 1 == 8 * b + (s.bitLength + r - 1);
  }

  /** Sixteen bits from bit 0 downwards need three bytes and get two. */
  lemma MotorolaCut()
    ensures var s := CanOutSlot(true, 0, 0, 0, 0, 16, 1.0, 0.0, BIG_ENDIAN, 100);
      DlcOf(s) == 2 && !Covered(s.byteOrder, s.startBit, s.bitLength, 2)
  {
    MotorolaCovered(0, 16, 2);
  }

  /** An assembled frame is as long as its longest member asks for: if its members are all
      little-endian, it is the shortest frame that holds every one of them. */
  lemma AssembledLength(slots: seq<CanOutCfg>, placed: seq<int>, heads: seq<FrameHead>, j: nat, n: nat)
    requires Assembled(slots, |slots|, placed, heads) && j < |heads|
    requires forall i: nat | i < |slots| && Member(slots, placed, i, j) :: slots[i].byteOrder != BIG_ENDIAN
    ensures heads[j].dlc <= n <==>
      forall i: nat | i < |slots| && Member(slots, placed, i, j) ::
        Covered(slots[i].byteOrder, slots[i].startBit, slots[i].bitLength, n)
  {
    assert Extremal(slots, placed, heads[j], j);
    forall i: nat | i < |slots| && Member(slots, placed, i, j)
      ensures Covered(slots[i].byteOrder, slots[i].startBit, slots[i].bitLength, n) <==> DlcOf(slots[i]) <= n
    {
      ShortestFrame(slots[i], n);
    }
    var m: nat :| m < |slots| && Member(slots, placed, m, j) && DlcOf(slots[m]) == heads[j].dlc;
  }

  /** Its interval is the shortest that a member asks for, where 0 asks for 100; and exactly
      the enabled slots of 1 to 64 bits are members of a frame. */
  lemma AssembledInterval(slots: seq<CanOutCfg>, placed: seq<int>, heads: seq<FrameHead>, j: nat, n: nat, i: nat)
    requires Assembled(slots, |slots|, placed, heads) && j < |heads| && i < |slots|
    ensures placed[i] >= 0 <==> slots[i].enabled && 1 <= slots[i].bitLength <= 64
    ensures heads[j].interval >= n <==>
      forall m: nat | m < |slots| && Member(slots, placed, m, j) ::
        if slots[m].interval == 0 then n <= 100 else slots[m].interval >= n
  {
    assert Extremal(slots, placed, heads[j], j);
    var m: nat :| m < |slots| && Member(slots, placed, m, j) && IntervalOf(slots[m]) == heads[j].interval;
  }
}
