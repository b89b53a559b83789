/** The starting position. */
module Initial {
  import opened Geometry
  import opened Rules
  import opened Bytes
  import opened Boards

  function InitialSlots(): (r: seq<Square>)
    ensures |r| == 12
  {
    [Sq(2, 5), Sq(2, 6), Sq(3, 5), Sq(3, 6), Sq(4, 5), Sq(4, 6),
     Sq(4, 1), Sq(4, 0), Sq(3, 1), Sq(3, 0), Sq(2, 1), Sq(2, 0)]
  }

  function InitialByteAt(i: int): bv8 {
    if i == 42 || i == 50 then BLACK | ROOK
    else if i == 43 then BLACK | KING
    else if i == 51 then BLACK | BISHOP
    else if i == 44 || i == 52 then BLACK | PAWN
    else if i == 12 || i == 4 then WHITE | ROOK
    else if i == 11 then WHITE | KING
    else if i == 3 then WHITE | BISHOP
    else if i == 10 || i == 2 then WHITE | PAWN
    else 0
  }

  function InitialByte(s: Square): bv8 {
    InitialByteAt(Index(s))
  }

  lemma InitialSlotIndices()
    ensures var slots := InitialSlots();
      Index(slots[0]) == 42 && Index(slots[1]) == 50 && Index(slots[2]) == 43 && Index(slots[3]) == 51
      && Index(slots[4]) == 44 && Index(slots[5]) == 52 && Index(slots[6]) == 12 && Index(slots[7]) == 4
      && Index(slots[8]) == 11 && Index(slots[9]) == 3 && Index(slots[10]) == 10 && Index(slots[11]) == 2
  {
  }

  ghost predicate InitialBytes(b: seq<bv8>)
    ensures InitialBytes(b) ==> |b| == 64
  {
    |b| == 64 && forall s: Square :: b[Index(s)] == InitialByte(s)
  }

  ghost predicate IsInitial(d: BoardData) {
    Sized(d) && d.slots == InitialSlots() && InitialBytes(d.b0)
    && Rotated(d.b0, d.b90, R90) && Rotated(d.b0, d.b180, R180) && Rotated(d.b0, d.b270, R270)
    && d.player == White && d.killed == 0 && d.killedIdx == -1
  }

  lemma InitialByteFits(s: Square)
    ensures WellFormed(InitialByte(s))
    ensures InitialByte(s) != 0 ==> s in InitialSlots()
  {
    InitialSlotIndices();
    if InitialByte(s) != 0 {
      var k := InitialSlotAt(Index(s));
      IndexInjective(s, InitialSlots()[k]);
    }
  }

  lemma InitialSlotAt(i: int) returns (k: int)
    requires InitialByteAt(i) != 0
    ensures 0 <= k < 12 && Index(InitialSlots()[k]) == i
  {
    InitialSlotIndices();
    k := if i == 42 then 0 else if i == 50 then 1 else if i == 43 then 2 else if i == 51 then 3
         else if i == 44 then 4 else if i == 52 then 5 else if i == 12 then 6 else if i == 4 then 7
         else if i == 11 then 8 else if i == 3 then 9 else if i == 10 then 10 else 11;
  }

  lemma InitialSlotFits(i: int)
    requires 0 <= i < 12
    ensures Ring(InitialSlots()[i]) && SlotByte(i, InitialByte(InitialSlots()[i]))
  {
  }

  lemma InitialSlotsDiffer(i: int)
    requires 0 <= i < 12
    ensures forall j :: 0 <= j < i ==> InitialSlots()[j] != InitialSlots()[i]
  {
  }

  lemma InitialFit(slots: seq<Square>, b0: seq<bv8>)
    requires slots == InitialSlots() && InitialBytes(b0)
    ensures LiveSlotsFit(slots, b0)
  {
    forall i | 0 <= i < 12 ensures Ring(slots[i]) && SlotByte(i, b0[Index(slots[i])]) {
      InitialSlotFits(i);
    }
  }

  lemma InitialDistinct(slots: seq<Square>)
    requires slots == InitialSlots()
    ensures LiveSlotsDistinct(slots)
  {
    InitialSlotIndices();
    forall i, j | 0 <= i < j < 12 ensures slots[i] != slots[j] {
      InitialSlotsDiffer(j);
    }
  }

  lemma InitialWellFormed(b0: seq<bv8>)
    requires InitialBytes(b0)
    ensures WellFormedBoard(b0)
  {
    hide InitialByte, WellFormed;
    forall i | 0 <= i < 64 ensures WellFormed(b0[i]) {
      var s := FromIndex(i);
      assert b0[Index(s)] == InitialByte(s);
      InitialByteFits(s);
    }
  }

  lemma InitialCovered(slots: seq<Square>, b0: seq<bv8>)
    requires slots == InitialSlots() && InitialBytes(b0)
    ensures Covered(slots, b0)
  {
    hide InitialByteAt, InitialSlots;
    assert b0[Index(DEAD)] == InitialByte(DEAD);
    DeadIsEmpty();
    forall s: Square | b0[Index(s)] != 0 ensures s in slots {
      InitialByteFits(s);
    }
  }

  lemma DeadIsEmpty()
    ensures InitialByte(DEAD) == 0
  {
  }

  /** Board(), square by square: Black's rooks on (2,5) and (2,6), king on (3,5), bishop on (3,6) and
      pawns on (4,5) and (4,6), White's mirrored, White to move, and nothing to undo. */
  lemma InitialRule(d: BoardData, i: int)
    requires IsInitial(d) && 0 <= i < 64
    ensures d.b0[i] == (if i == 42 || i == 50 then 0x24
                        else if i == 43 then 0x28
                        else if i == 51 then 0x30
                        else if i == 44 || i == 52 then 0x22
                        else if i == 12 || i == 4 then 0x44
                        else if i == 11 then 0x48
                        else if i == 3 then 0x50
                        else if i == 10 || i == 2 then 0x42
                        else 0)
    ensures d.slots == [Sq(2, 5), Sq(2, 6), Sq(3, 5), Sq(3, 6), Sq(4, 5), Sq(4, 6),
                        Sq(4, 1), Sq(4, 0), Sq(3, 1), Sq(3, 0), Sq(2, 1), Sq(2, 0)]
    ensures d.player == White && d.killed == 0 && d.killedIdx == -1
  {
    hide Rotated, InitialByteAt;
    var s := FromIndex(i);
    assert d.b0[Index(s)] == InitialByte(s);
    InitialBits(i);
  }

  lemma InitialBits(i: int)
    ensures InitialByteAt(i) == (if i == 42 || i == 50 then 0x24
                                 else if i == 43 then 0x28
                                 else if i == 51 then 0x30
                                 else if i == 44 || i == 52 then 0x22
                                 else if i == 12 || i == 4 then 0x44
                                 else if i == 11 then 0x48
                                 else if i == 3 then 0x50
                                 else if i == 10 || i == 2 then 0x42
                                 else 0)
  {
  }

  /** The starting board satisfies the representation invariant. */
  lemma InitialInv(d: BoardData)
    requires IsInitial(d)
    ensures Inv(d)
  {
    hide InitialBytes, InitialSlots, LiveSlotsFit, LiveSlotsDistinct, Covered, WellFormedBoard, Rotated;
    InitialFit(d.slots, d.b0);
    InitialDistinct(d.slots);
    InitialCovered(d.slots, d.b0);
    InitialWellFormed(d.b0);
  }
}
