/** The piece counts of the evaluation function, which read kind bits directly and therefore see
    what undoing a promotion leaves behind. */
module Features {
  import opened Geometry
  import opened Rules
  import opened Bytes
  import opened Boards
  import opened BoardFacts
  import opened UndoFacts
  import opened Initial

  /** The kinds of piece that are counted. */
  datatype Counted = Pawns | Rooks | Bishops

  function BitOf(k: Counted): bv8 {
    match k case Pawns => PAWN case Rooks => ROOK case Bishops => BISHOP
  }

  /** sign_alive */
  function SignAlive(slots: seq<Square>, b0: seq<bv8>, i: int, bit: bv8): int
    requires |slots| == 12 && |b0| == 64 && 0 <= i < 12
  {
    if slots[i] == DEAD then 0 else if b0[Index(slots[i])] & bit != 0 then 1 else 0
  }

  /** The first slot of a side. */
  function Base(c: Color): int { if c == Black then 0 else 6 }

  /** num_w_pawns, num_b_rooks and so on: the pawn slots count for every kind. */
  function Count(slots: seq<Square>, b0: seq<bv8>, c: Color, k: Counted): int
    requires |slots| == 12 && |b0| == 64
  {
    var bit, o := BitOf(k), Base(c);
    SignAlive(slots, b0, o + 4, bit) + SignAlive(slots, b0, o + 5, bit)
    + (match k
       case Pawns => 0
       case Rooks => SignAlive(slots, b0, o, bit) + SignAlive(slots, b0, o + 1, bit)
       case Bishops => SignAlive(slots, b0, o + 3, bit))
  }

  function Has(b: bv8, bit: bv8): int { if b & bit != 0 then 1 else 0 }

  lemma SignAliveAfter(slots: seq<Square>, b0: seq<bv8>, v: bv8, i: int, j: int, bit: bv8)
    requires |slots| == 12 && |b0| == 64 && LiveSlotsDistinct(slots)
    requires 0 <= i < 12 && slots[i] != DEAD && 0 <= j < 12
    ensures SignAlive(slots, Put(b0, slots[i], v), j, bit) ==
      if j == i then Has(v, bit) else SignAlive(slots, b0, j, bit)
  {
    PutAt(b0, slots[i], v, slots[j]);
  }

  lemma CountPut(slots: seq<Square>, b0: seq<bv8>, c: Color, k: Counted, v: bv8, i: int)
    requires |slots| == 12 && |b0| == 64 && LiveSlotsDistinct(slots)
    requires (i == Base(c) + 4 || i == Base(c) + 5) && slots[i] != DEAD
    ensures Count(slots, Put(b0, slots[i], v), c, k) ==
      Count(slots, b0, c, k) - Has(b0[Index(slots[i])], BitOf(k)) + Has(v, BitOf(k))
  {
    hide LiveSlotsDistinct, SignAlive, Has, Put, Index, BitOf;
    var bit, o := BitOf(k), Base(c);
    SignAliveAfter(slots, b0, v, i, o, bit);
    SignAliveAfter(slots, b0, v, i, o + 1, bit);
    SignAliveAfter(slots, b0, v, i, o + 3, bit);
    SignAliveAfter(slots, b0, v, i, o + 4, bit);
    SignAliveAfter(slots, b0, v, i, o + 5, bit);
    SignAliveIs(slots, b0, i, bit);
  }

  lemma SignAliveIs(slots: seq<Square>, b0: seq<bv8>, i: int, bit: bv8)
    requires |slots| == 12 && |b0| == 64 && 0 <= i < 12 && slots[i] != DEAD
    ensures SignAlive(slots, b0, i, bit) == Has(b0[Index(slots[i])], bit)
  {
  }

  /** The slot of a pawn. */
  lemma PawnSlot(d: BoardData, c: Color, m: Move) returns (i: int)
    requires Inv(d) && IsPseudo(CellsOf(d.b0), c, m) && m.promo != NoPromo
    ensures m.from != DEAD && 0 <= i < 12 && d.slots[i] == m.from && (i == Base(c) + 4 || i == Base(c) + 5)
  {
    PseudoMovable(d, c, m);
    i := MoverOf(d, m);
  }

  /** Exactly how promoting and taking it back shifts the counts: the promoted kind gains one
      unless the pawn already carried that bit, and the other kind loses one if it did. */
  lemma PromotionShiftsCounts(d: BoardData, c: Color, m: Move, k: Counted)
    requires Inv(d) && IsPseudo(CellsOf(d.b0), c, m) && m.promo != NoPromo
    ensures var u, b := UndoMove(DoMove(d, m), m), d.b0[Index(m.from)];
      Count(u.slots, u.b0, c, k) - Count(d.slots, d.b0, c, k) ==
        (match k
         case Pawns => 0
         case Rooks => (if m.promo == ToRook then 1 else 0) - (if b & 0x04 != 0 then 1 else 0)
         case Bishops => (if m.promo == ToBishop then 1 else 0) - (if b & 0x10 != 0 then 1 else 0))
  {
    hide Inv, IsPseudo, CellsOf, DoMove, UndoMove, Count, Has, DemoteByte, PromoteByte, Decode;
    DoUndo(d, c, m);
    var i := PawnSlot(d, c, m);
    var b := d.b0[Index(m.from)];
    InvDistinct(d);
    CountPut(d.slots, d.b0, c, k, ReturnedByte(b, m.promo), i);
    PawnByte(d, c, m);
    ReturnedBits(b, m.promo, k);
  }

  /** On the starting board each side counts two pawns, two rooks and a bishop. */
  lemma InitialCounts(d: BoardData, c: Color)
    requires IsInitial(d)
    ensures Sized(d) && Count(d.slots, d.b0, c, Pawns) == 2 && Count(d.slots, d.b0, c, Rooks) == 2
    ensures Count(d.slots, d.b0, c, Bishops) == 1
  {
    hide SignAlive, InitialSlots, InitialBytes, Rotated;
    var o := Base(c);
    InitialSign(d.slots, d.b0, o);
    InitialSign(d.slots, d.b0, o + 1);
    InitialSign(d.slots, d.b0, o + 3);
    InitialSign(d.slots, d.b0, o + 4);
    InitialSign(d.slots, d.b0, o + 5);
  }

  lemma InitialSign(slots: seq<Square>, b0: seq<bv8>, i: int)
    requires slots == InitialSlots() && InitialBytes(b0) && 0 <= i < 12
    ensures i == 0 || i == 1 || i == 6 || i == 7 ==> SignAlive(slots, b0, i, ROOK) == 1
    ensures i == 3 || i == 9 ==> SignAlive(slots, b0, i, BISHOP) == 1
    ensures i == 4 || i == 5 || i == 10 || i == 11 ==>
      SignAlive(slots, b0, i, PAWN) == 1 && SignAlive(slots, b0, i, ROOK) == 0 && SignAlive(slots, b0, i, BISHOP) == 0
  {
    hide InitialSlots;
    InitialSlotIndices();
    assert b0[Index(slots[i])] == InitialByte(slots[i]);
  }

  lemma InvDistinct(d: BoardData)
    requires Inv(d)
    ensures LiveSlotsDistinct(d.slots)
  {
  }

  lemma PawnByte(d: BoardData, c: Color, m: Move)
    requires Inv(d) && IsPseudo(CellsOf(d.b0), c, m) && m.promo != NoPromo
    ensures var b := d.b0[Index(m.from)]; b != 0 && WellFormed(b) && Decode(b).kind == Pawn
  {
    PseudoMovable(d, c, m);
    var i := MoverOf(d, m);
  }

  lemma ReturnedBits(b: bv8, promo: Promo, k: Counted)
    requires b != 0 && WellFormed(b) && promo != NoPromo && Decode(b).kind == Pawn
    ensures Has(ReturnedByte(b, promo), BitOf(k)) - Has(b, BitOf(k)) ==
      (match k
       case Pawns => 0
       case Rooks => (if promo == ToRook then 1 else 0) - (if b & 0x04 != 0 then 1 else 0)
       case Bishops => (if promo == ToBishop then 1 else 0) - (if b & 0x10 != 0 then 1 else 0))
  {
    ReturnedByteExact(b, promo);
    match promo {
      case ToRook => match k { case Pawns => case Rooks => case Bishops => }
      case ToBishop => match k { case Pawns => case Rooks => case Bishops => }
    }
  }
}
