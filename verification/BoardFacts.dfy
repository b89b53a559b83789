/** What one move and its undo do to the redundant record. */
module BoardFacts {
  import opened Geometry
  import opened Rules
  import opened RuleFacts
  import opened Bytes
  import opened Boards

  lemma PromoteDecode(b: bv8, promo: Promo)
    requires b != 0 && WellFormed(b)
    ensures PromoteByte(b, promo) != 0 && WellFormed(PromoteByte(b, promo))
    ensures Decode(PromoteByte(b, promo)) == Promoted(Decode(b), promo)
  {
  }

  /** A demoted byte decodes to a pawn whatever bit is left over. */
  lemma DemoteDecode(b: bv8, promo: Promo)
    requires b != 0 && WellFormed(b) && promo != NoPromo
    ensures DemoteByte(b, promo) != 0 && WellFormed(DemoteByte(b, promo))
    ensures Decode(DemoteByte(b, promo)) == Piece(Decode(b).color, Pawn)
  {
  }

  /** The slot of an occupied square. */
  lemma SlotOf(d: BoardData, s: Square) returns (i: int)
    requires Inv(d) && d.b0[Index(s)] != 0
    ensures 0 <= i < 12 && d.slots[i] == s && Ring(s) && SlotByte(i, d.b0[Index(s)])
    ensures forall j :: 0 <= j < 12 && j != i ==> d.slots[j] != s
  {
    i :| 0 <= i < 12 && d.slots[i] == s;
  }

  /** Between two different ring squares, from an occupied one; only pawns promote. */
  ghost predicate Movable(d: BoardData, m: Move)
    requires Sized(d)
  {
    Ring(m.from) && Ring(m.to) && m.from != m.to && d.b0[Index(m.from)] != 0
    && (m.promo != NoPromo ==> Decode(d.b0[Index(m.from)]).kind == Pawn)
  }

  lemma PseudoMovable(d: BoardData, c: Color, m: Move)
    requires Inv(d) && IsPseudo(CellsOf(d.b0), c, m)
    ensures Movable(d, m)
  {
    PseudoShape(CellsOf(d.b0), c, m);
    OccupiedIsRing(d, m.from);
  }

  lemma OccupiedIsRing(d: BoardData, s: Square)
    requires Inv(d) && s in CellsOf(d.b0)
    ensures Ring(s)
  {
    var i := SlotOf(d, s);
  }

  /** Slot i, and no other, names the square that the move leaves. */
  ghost predicate MoverAt(d: BoardData, m: Move, i: int)
    requires Sized(d)
  {
    0 <= i < 12 && d.slots[i] == m.from && SlotByte(i, d.b0[Index(m.from)])
    && forall j :: 0 <= j < 12 && j != i ==> d.slots[j] != m.from
  }

  /** Slot v, and no other, names the square that the move goes to, unless that square is empty. */
  ghost predicate VictimAt(d: BoardData, m: Move, v: int)
    requires Sized(d)
  {
    v == LastIndexOf(d.slots, m.to)
    && (v < 0 ==> d.b0[Index(m.to)] == 0)
    && (v >= 0 ==> SlotByte(v, d.b0[Index(m.to)]))
    && forall j :: 0 <= j < 12 && j != v ==> d.slots[j] != m.to
  }

  lemma MoverOf(d: BoardData, m: Move) returns (i: int)
    requires Inv(d) && d.b0[Index(m.from)] != 0
    ensures MoverAt(d, m, i)
  {
    i := SlotOf(d, m.from);
  }

  lemma VictimOf(d: BoardData, m: Move) returns (v: int)
    requires Inv(d) && m.to != DEAD
    ensures VictimAt(d, m, v)
  {
    v := LastIndexOf(d.slots, m.to);
    if d.b0[Index(m.to)] != 0 { var w := SlotOf(d, m.to); }
  }

  /** The scan, slot by slot. */
  lemma MovedSlotsAt(d: BoardData, m: Move, i: int, v: int, k: int)
    requires Sized(d) && MoverAt(d, m, i) && VictimAt(d, m, v)
    requires m.from != m.to && m.from != DEAD && 0 <= k < 12
    ensures MovedSlots(d.slots, m)[k] == if k == v then DEAD else if k == i then m.to else d.slots[k]
  {
  }

  // ---------------------------------------------------------------- one step keeps the invariant

  lemma Moved64At(b: seq<bv8>, from: Square, to: Square, piece: bv8, s: Square)
    requires |b| == 64 && from != to
    ensures Moved64(b, from, to, piece)[Index(s)]
         == if s == from then 0 else if s == to then piece else b[Index(s)]
  {
    PutAt(b, to, piece, s);
    PutAt(Put(b, to, piece), from, 0, s);
  }

  lemma Moved64Rotated(b0: seq<bv8>, bt: seq<bv8>, t: Turn, from: Square, to: Square, piece: bv8)
    requires Rotated(b0, bt, t)
    ensures Rotated(Moved64(b0, from, to, piece), Moved64(bt, Rot(t, from), Rot(t, to), piece), t)
  {
    PutRotated(b0, bt, t, to, piece);
    PutRotated(Put(b0, to, piece), Put(bt, Rot(t, to), piece), t, from, 0);
  }

  lemma Moved64Cells(b: seq<bv8>, m: Move, piece: bv8)
    requires |b| == 64 && m.from != m.to && b[Index(m.from)] != 0 && piece != 0
    requires Decode(piece) == Promoted(Decode(b[Index(m.from)]), m.promo)
    ensures CellsOf(Moved64(b, m.from, m.to, piece)) == Moved(CellsOf(b), m)
  {
    CellsOfPut(b, m.to, piece);
    CellsOfPut(Put(b, m.to, piece), m.from, 0);
    UpdateRemove(CellsOf(b), m.from, m.to, Decode(piece));
  }

  lemma UpdateRemove(cells: Cells, from: Square, to: Square, p: Piece)
    requires from != to
    ensures cells[to := p] - {from} == (cells - {from})[to := p]
  {
  }

  lemma MovedCells(d: BoardData, m: Move)
    requires Inv(d) && Movable(d, m)
    ensures CellsOf(DoMove(d, m).b0) == Moved(CellsOf(d.b0), m)
  {
    var i := MoverOf(d, m);
    PromoteDecode(d.b0[Index(m.from)], m.promo);
    Moved64Cells(d.b0, m, PromoteByte(d.b0[Index(m.from)], m.promo));
  }

  lemma MovedFit(d: BoardData, m: Move, i: int, v: int)
    requires Inv(d) && MoverAt(d, m, i) && VictimAt(d, m, v)
    requires Ring(m.from) && Ring(m.to) && m.from != m.to
    requires m.promo != NoPromo ==> Decode(d.b0[Index(m.from)]).kind == Pawn
    ensures LiveSlotsFit(DoMove(d, m).slots, DoMove(d, m).b0)
  {
    hide Inv, DoMove, MoverAt, VictimAt;
    var e := DoMove(d, m);
    forall k | 0 <= k < 12 && e.slots[k] != DEAD
      ensures Ring(e.slots[k]) && SlotByte(k, e.b0[Index(e.slots[k])])
    {
      MovedSlotFits(d, m, i, v, k);
    }
  }

  lemma MovedSlotFits(d: BoardData, m: Move, i: int, v: int, k: int)
    requires Inv(d) && MoverAt(d, m, i) && VictimAt(d, m, v)
    requires Ring(m.from) && Ring(m.to) && m.from != m.to
    requires m.promo != NoPromo ==> Decode(d.b0[Index(m.from)]).kind == Pawn
    requires 0 <= k < 12 && DoMove(d, m).slots[k] != DEAD
    ensures var e := DoMove(d, m);
      Ring(e.slots[k]) && SlotByte(k, e.b0[Index(e.slots[k])])
  {
    hide Rotated, WellFormedBoard, Covered, LiveSlotsDistinct, CellsOf, Ring;
    PromoteDecode(d.b0[Index(m.from)], m.promo);
    MovedSlotsAt(d, m, i, v, k);
    Moved64At(d.b0, m.from, m.to, PromoteByte(d.b0[Index(m.from)], m.promo), DoMove(d, m).slots[k]);
  }

  lemma MovedDistinct(d: BoardData, m: Move, i: int, v: int)
    requires Inv(d) && MoverAt(d, m, i) && VictimAt(d, m, v)
    requires Ring(m.from) && Ring(m.to) && m.from != m.to
    ensures LiveSlotsDistinct(DoMove(d, m).slots)
  {
    var e := DoMove(d, m);
    forall j, k | 0 <= j < k < 12 && e.slots[j] != DEAD ensures e.slots[j] != e.slots[k] {
      MovedSlotsAt(d, m, i, v, j);
      MovedSlotsAt(d, m, i, v, k);
    }
  }

  lemma MovedCovered(d: BoardData, m: Move, i: int, v: int)
    requires Inv(d) && MoverAt(d, m, i) && VictimAt(d, m, v)
    requires Ring(m.from) && Ring(m.to) && m.from != m.to
    ensures Covered(DoMove(d, m).slots, DoMove(d, m).b0)
  {
    var e := DoMove(d, m);
    var piece := PromoteByte(d.b0[Index(m.from)], m.promo);
    Moved64At(d.b0, m.from, m.to, piece, DEAD);
    forall s: Square | e.b0[Index(s)] != 0 ensures s in e.slots {
      Moved64At(d.b0, m.from, m.to, piece, s);
      var k := i;
      if s != m.to { k := SlotOf(d, s); }
      MovedSlotsAt(d, m, i, v, k);
      assert e.slots[k] == s;
    }
  }

  lemma MovedWellFormed(b: seq<bv8>, m: Move, piece: bv8)
    requires WellFormedBoard(b) && b[Index(m.from)] != 0 && piece == PromoteByte(b[Index(m.from)], m.promo)
    ensures WellFormedBoard(Moved64(b, m.from, m.to, piece))
  {
    PromoteDecode(b[Index(m.from)], m.promo);
    PutWellFormed(b, m.to, piece);
    PutWellFormed(Put(b, m.to, piece), m.from, 0);
  }

  lemma MovableKeepsInv(d: BoardData, m: Move)
    requires Inv(d) && Movable(d, m)
    ensures Inv(DoMove(d, m))
  {
    var i := MoverOf(d, m);
    var v := VictimOf(d, m);
    var piece := PromoteByte(d.b0[Index(m.from)], m.promo);
    Moved64Rotated(d.b0, d.b90, R90, m.from, m.to, piece);
    Moved64Rotated(d.b0, d.b180, R180, m.from, m.to, piece);
    Moved64Rotated(d.b0, d.b270, R270, m.from, m.to, piece);
    MovedWellFormed(d.b0, m, piece);
    MovedFit(d, m, i, v);
    MovedDistinct(d, m, i, v);
    MovedCovered(d, m, i, v);
  }

  /** One pseudolegal move keeps the representation invariant and is the simple move on the
      simple form. */
  lemma StepRefines(d: BoardData, c: Color, m: Move)
    requires Inv(d) && IsPseudo(CellsOf(d.b0), c, m)
    ensures Inv(DoMove(d, m))
    ensures Abs(DoMove(d, m)) == Position(Moved(CellsOf(d.b0), m), d.player)
  {
    PseudoMovable(d, c, m);
    MovableKeepsInv(d, m);
    MovedCells(d, m);
  }
}
