/** Undo against do: exact up to the bit that undoing a promotion leaves behind. */
module UndoFacts {
  import opened Geometry
  import opened Rules
  import opened Bytes
  import opened Boards
  import opened BoardFacts

  // ---------------------------------------------------------------- captures and the live count

  /** The slots that still name a square. */
  ghost function LiveSlots(slots: seq<Square>): set<int> {
    set i | 0 <= i < |slots| && slots[i] != DEAD
  }

  /** i is the only slot on the square the move leaves, v the only one on its target, if any. */
  ghost predicate SlotsMove(slots: seq<Square>, m: Move, i: int, v: int) {
    |slots| == 12 && m.from != m.to && m.from != DEAD && m.to != DEAD
    && 0 <= i < 12 && slots[i] == m.from && (forall j :: 0 <= j < 12 && j != i ==> slots[j] != m.from)
    && -1 <= v < 12 && (v >= 0 ==> slots[v] == m.to) && (forall j :: 0 <= j < 12 && j != v ==> slots[j] != m.to)
  }

  lemma SlotsOf(d: BoardData, m: Move) returns (i: int, v: int)
    requires Inv(d) && Movable(d, m)
    ensures SlotsMove(d.slots, m, i, v)
    ensures v == LastIndexOf(d.slots, m.to) && (v >= 0 <==> m.to in CellsOf(d.b0))
  {
    i := MoverOf(d, m);
    v := VictimOf(d, m);
  }

  lemma MovedSlotsAre(slots: seq<Square>, m: Move, i: int, v: int)
    requires SlotsMove(slots, m, i, v)
    ensures forall k :: 0 <= k < 12 ==>
      MovedSlots(slots, m)[k] == if k == v then DEAD else if k == i then m.to else slots[k]
  {
  }

  lemma LiveAfter(slots: seq<Square>, m: Move, i: int, v: int)
    requires SlotsMove(slots, m, i, v)
    ensures LiveSlots(MovedSlots(slots, m)) == LiveSlots(slots) - {v}
    ensures |LiveSlots(MovedSlots(slots, m))| == |LiveSlots(slots)| - if v >= 0 then 1 else 0
  {
    MovedSlotsAre(slots, m, i, v);
    assert LiveSlots(MovedSlots(slots, m)) == LiveSlots(slots) - {v};
    if v >= 0 { assert v in LiveSlots(slots); } else { assert LiveSlots(slots) - {v} == LiveSlots(slots); }
  }

  lemma MovableKillsOne(d: BoardData, m: Move)
    requires Inv(d) && Movable(d, m)
    ensures LiveSlots(DoMove(d, m).slots) == LiveSlots(d.slots) - {DoMove(d, m).killedIdx}
    ensures |LiveSlots(DoMove(d, m).slots)| == |LiveSlots(d.slots)| - if m.to in CellsOf(d.b0) then 1 else 0
  {
    var i, v := SlotsOf(d, m);
    LiveAfter(d.slots, m, i, v);
  }

  /** A move takes exactly the captured piece's slot out of play, and it takes one out exactly
      when the target square is occupied. */
  lemma CaptureKillsOne(d: BoardData, c: Color, m: Move)
    requires Inv(d) && IsPseudo(CellsOf(d.b0), c, m)
    ensures LiveSlots(DoMove(d, m).slots) == LiveSlots(d.slots) - {DoMove(d, m).killedIdx}
    ensures |LiveSlots(DoMove(d, m).slots)| == |LiveSlots(d.slots)| - if m.to in CellsOf(d.b0) then 1 else 0
  {
    PseudoMovable(d, c, m);
    MovableKillsOne(d, m);
  }

  // ---------------------------------------------------------------- slots

  lemma SlotsRestored(slots: seq<Square>, m: Move, i: int, v: int)
    requires SlotsMove(slots, m, i, v)
    ensures RestoredSlots(MovedSlots(slots, m), m, v) == slots
  {
    var after := MovedSlots(slots, m);
    MovedSlotsAre(slots, m, i, v);
    assert after[i] == m.to;
    assert FirstIndexOf(after, m.to) == i;
  }

  // ---------------------------------------------------------------- arrays

  lemma Restored64At(b: seq<bv8>, from: Square, to: Square, piece: bv8, dead: bv8, s: Square)
    requires |b| == 64 && from != to
    ensures Restored64(b, from, to, piece, dead)[Index(s)]
         == if s == to then dead else if s == from then piece else b[Index(s)]
  {
    PutAt(b, from, piece, s);
    PutAt(Put(b, from, piece), to, dead, s);
  }

  lemma Same64(a: seq<bv8>, b: seq<bv8>)
    requires |a| == 64 && |b| == 64 && forall s: Square :: a[Index(s)] == b[Index(s)]
    ensures a == b
  {
    forall i | 0 <= i < 64 ensures a[i] == b[i] {
      var s := FromIndex(i);
      assert a[Index(s)] == b[Index(s)];
    }
  }

  lemma RestoredMoved(b: seq<bv8>, from: Square, to: Square, piece: bv8, back: bv8)
    requires |b| == 64 && from != to
    ensures Restored64(Moved64(b, from, to, piece), from, to, back, b[Index(to)]) == Put(b, from, back)
  {
    var r := Restored64(Moved64(b, from, to, piece), from, to, back, b[Index(to)]);
    forall s: Square ensures r[Index(s)] == Put(b, from, back)[Index(s)] {
      Moved64At(b, from, to, piece, s);
      Restored64At(Moved64(b, from, to, piece), from, to, back, b[Index(to)], s);
      PutAt(b, from, back, s);
    }
    Same64(r, Put(b, from, back));
  }

  // ---------------------------------------------------------------- exact effect of do, then undo

  /** The byte that comes back on the square the mover left. */
  function ReturnedByte(b: bv8, promo: Promo): bv8 {
    DemoteByte(PromoteByte(b, promo), promo)
  }

  /** The record with byte v on square s, in all four arrays, and no undo information. */
  ghost function WithByte(d: BoardData, s: Square, v: bv8): BoardData
    requires Sized(d)
  {
    BoardData(d.slots, Put(d.b0, s, v), Put(d.b90, Rot(R90, s), v), Put(d.b180, Rot(R180, s), v),
              Put(d.b270, Rot(R270, s), v), d.player, 0, -1)
  }

  lemma RotNotEqual(t: Turn, s: Square, r: Square)
    requires s != r
    ensures Rot(t, s) != Rot(t, r)
  {
    RotInverse(t, s);
    RotInverse(t, r);
  }

  /** Do, then undo, changes nothing but the mover's byte and the undo record itself. */
  lemma DoUndo(d: BoardData, c: Color, m: Move)
    requires Inv(d) && IsPseudo(CellsOf(d.b0), c, m)
    ensures UndoMove(DoMove(d, m), m) == WithByte(d, m.from, ReturnedByte(d.b0[Index(m.from)], m.promo))
  {
    PseudoMovable(d, c, m);
    DoUndoMovable(d, m);
  }

  lemma MovableMoves(d: BoardData, m: Move)
    requires Inv(d) && Movable(d, m)
    ensures m.from != m.to && (m.to in CellsOf(d.b0) <==> d.b0[Index(m.to)] != 0)
    ensures d.b90[Index(Rot(R90, m.to))] == d.b0[Index(m.to)]
    ensures d.b180[Index(Rot(R180, m.to))] == d.b0[Index(m.to)]
    ensures d.b270[Index(Rot(R270, m.to))] == d.b0[Index(m.to)]
  {
    hide CellsOf, WellFormedBoard, LiveSlotsFit, LiveSlotsDistinct, Covered;
    CellAt(d.b0, m.to);
  }

  lemma DoUndoMovable(d: BoardData, m: Move)
    requires Inv(d) && Movable(d, m)
    ensures UndoMove(DoMove(d, m), m) == WithByte(d, m.from, ReturnedByte(d.b0[Index(m.from)], m.promo))
  {
    hide Inv, Movable, SlotsMove, CellsOf, DemoteByte, PromoteByte, Put, Rot, LastIndexOf, MovedSlots, RestoredSlots,
      Restored64, Moved64;
    MovableMoves(d, m);
    var b := d.b0[Index(m.from)];
    var piece, back := PromoteByte(b, m.promo), ReturnedByte(b, m.promo);
    var i, v := SlotsOf(d, m);
    SlotsRestored(d.slots, m, i, v);
    Moved64At(d.b0, m.from, m.to, piece, m.to);
    RotNotEqual(R90, m.from, m.to);
    RotNotEqual(R180, m.from, m.to);
    RotNotEqual(R270, m.from, m.to);
    RestoredMoved(d.b0, m.from, m.to, piece, back);
    RestoredMoved(d.b90, Rot(R90, m.from), Rot(R90, m.to), piece, back);
    RestoredMoved(d.b180, Rot(R180, m.from), Rot(R180, m.to), piece, back);
    RestoredMoved(d.b270, Rot(R270, m.from), Rot(R270, m.to), piece, back);
  }

  /** The bit that undoing a promotion leaves under the pawn. */
  function ResidueBit(promo: Promo): bv8 {
    match promo
    case NoPromo => 0
    case ToRook => ROOK
    case ToBishop => BISHOP
  }

  lemma ReturnedByteExact(b: bv8, promo: Promo)
    requires b != 0 && WellFormed(b) && (promo != NoPromo ==> Decode(b).kind == Pawn)
    ensures promo == NoPromo ==> ReturnedByte(b, promo) == b
    ensures promo != NoPromo ==> ReturnedByte(b, promo) == ColorPart(b) | PAWN | ResidueBit(promo)
    ensures promo != NoPromo ==> ReturnedByte(b, promo) != ColorPart(b) | PAWN
  {
  }

  lemma ReturnedByteIs(b: bv8, promo: Promo)
    requires b != 0 && WellFormed(b) && (promo != NoPromo ==> Decode(b).kind == Pawn)
    ensures ReturnedByte(b, promo) == b
       <==> promo == NoPromo || (promo == ToRook && (b == 0x46 || b == 0x26))
            || (promo == ToBishop && (b == 0x52 || b == 0x32))
  {
    match promo case NoPromo => case ToRook => case ToBishop =>
  }

  /** Exactly when undo restores the record: for every move but a promotion, and for a promotion
      only if the pawn's byte already carried that very residue, a rook or a bishop bit. */
  lemma UndoIsExactIff(d: BoardData, c: Color, m: Move)
    requires Inv(d) && IsPseudo(CellsOf(d.b0), c, m)
    ensures UndoMove(DoMove(d, m), m) == d.(killed := 0, killedIdx := -1)
       <==> m.promo == NoPromo
            || (m.promo == ToRook && (d.b0[Index(m.from)] == 0x46 || d.b0[Index(m.from)] == 0x26))
            || (m.promo == ToBishop && (d.b0[Index(m.from)] == 0x52 || d.b0[Index(m.from)] == 0x32))
  {
    PseudoMovable(d, c, m);
    DoUndoMovable(d, m);
    var b := d.b0[Index(m.from)];
    var i := MoverOf(d, m);
    ReturnedByteIs(b, m.promo);
    PutAt(d.b0, m.from, ReturnedByte(b, m.promo), m.from);
    if ReturnedByte(b, m.promo) == b { WithSameByte(d, m.from); }
  }

  lemma PutSame(b: seq<bv8>, s: Square)
    requires |b| == 64
    ensures Put(b, s, b[Index(s)]) == b
  {
  }

  lemma WithSameByte(d: BoardData, s: Square)
    requires Inv(d)
    ensures WithByte(d, s, d.b0[Index(s)]) == d.(killed := 0, killedIdx := -1)
  {
    PutSame(d.b0, s);
    PutSame(d.b90, Rot(R90, s));
    PutSame(d.b180, Rot(R180, s));
    PutSame(d.b270, Rot(R270, s));
  }

  // ---------------------------------------------------------------- equality up to residue

  /** The same record as far as any generator can tell: left-over kind bits under a PAWN bit and
      the undo information may differ. */
  ghost predicate Similar(d: BoardData, e: BoardData) {
    Inv(d) && Inv(e) && d.slots == e.slots && Abs(d) == Abs(e)
  }

  lemma SimilarTransitive(d: BoardData, e: BoardData, f: BoardData)
    requires Similar(d, e) && Similar(e, f)
    ensures Similar(d, f)
  {
  }

  lemma Restored64Cells(cells: Cells, b: seq<bv8>, m: Move, back: bv8, dead: bv8)
    requires |b| == 64 && m.from in cells && m.from != m.to && CellsOf(b) == Moved(cells, m)
    requires back != 0 && Decode(back) == cells[m.from]
    requires if dead == 0 then m.to !in cells else m.to in cells && Decode(dead) == cells[m.to]
    ensures CellsOf(Restored64(b, m.from, m.to, back, dead)) == cells
  {
    CellsOfPut(b, m.from, back);
    CellsOfPut(Put(b, m.from, back), m.to, dead);
  }

  lemma Restored64Rotated(b0: seq<bv8>, bt: seq<bv8>, t: Turn, m: Move, back: bv8, dead: bv8)
    requires Rotated(b0, bt, t)
    ensures Rotated(Restored64(b0, m.from, m.to, back, dead),
                    Restored64(bt, Rot(t, m.from), Rot(t, m.to), back, dead), t)
  {
    PutRotated(b0, bt, t, m.from, back);
    PutRotated(Put(b0, m.from, back), Put(bt, Rot(t, m.from), back), t, m.to, dead);
  }

  lemma CellAt(b: seq<bv8>, s: Square)
    requires |b| == 64
    ensures s in CellsOf(b) <==> b[Index(s)] != 0
    ensures s in CellsOf(b) ==> CellsOf(b)[s] == Decode(b[Index(s)])
  {
    hide Decode;
  }

  lemma SameCellsAt(a: seq<bv8>, b: seq<bv8>, s: Square)
    requires |a| == 64 && |b| == 64 && CellsOf(a) == CellsOf(b)
    ensures a[Index(s)] != 0 <==> b[Index(s)] != 0
    ensures a[Index(s)] != 0 ==> Decode(a[Index(s)]) == Decode(b[Index(s)])
  {
    assert s in CellsOf(a) <==> s in CellsOf(b);
    if s in CellsOf(a) { assert CellsOf(a)[s] == CellsOf(b)[s]; }
  }

  lemma SlotFitsCells(d: BoardData, b: seq<bv8>, i: int)
    requires Inv(d) && |b| == 64 && WellFormedBoard(b) && CellsOf(b) == CellsOf(d.b0)
    requires 0 <= i < 12 && d.slots[i] != DEAD
    ensures SlotByte(i, b[Index(d.slots[i])])
  {
    SameCellsAt(b, d.b0, d.slots[i]);
  }

  /** The slot conditions only depend on the decoded cells. */
  lemma SlotsFitCells(d: BoardData, b: seq<bv8>)
    requires Inv(d) && |b| == 64 && WellFormedBoard(b) && CellsOf(b) == CellsOf(d.b0)
    ensures LiveSlotsFit(d.slots, b) && Covered(d.slots, b)
  {
    forall i | 0 <= i < 12 && d.slots[i] != DEAD ensures SlotByte(i, b[Index(d.slots[i])]) {
      SlotFitsCells(d, b, i);
    }
    SameCellsAt(b, d.b0, DEAD);
    forall s: Square | b[Index(s)] != 0 ensures s in d.slots {
      SameCellsAt(b, d.b0, s);
    }
  }

  /** e looks like d after the move m, and holds the undo information of that move. */
  ghost predicate AfterMove(d: BoardData, m: Move, e: BoardData) {
    Inv(d) && Movable(d, m) && Similar(DoMove(d, m), e)
    && e.killed == DoMove(d, m).killed && e.killedIdx == DoMove(d, m).killedIdx
  }

  lemma ReturnedByteDecodes(orig: bv8, moved: bv8, promo: Promo)
    requires orig != 0 && WellFormed(orig) && moved != 0 && WellFormed(moved)
    requires Decode(moved) == Promoted(Decode(orig), promo) && (promo != NoPromo ==> Decode(orig).kind == Pawn)
    ensures DemoteByte(moved, promo) != 0 && WellFormed(DemoteByte(moved, promo))
    ensures Decode(DemoteByte(moved, promo)) == Decode(orig)
  {
    if promo != NoPromo { DemoteDecode(moved, promo); }
  }

  lemma ReturnedByteFits(d: BoardData, m: Move, e: BoardData)
    requires AfterMove(d, m, e)
    ensures var back := DemoteByte(e.b0[Index(m.to)], m.promo);
      back != 0 && WellFormed(back) && Decode(back) == Decode(d.b0[Index(m.from)])
  {
    var orig := d.b0[Index(m.from)];
    MovedByte(d, m);
    SameCellsAt(DoMove(d, m).b0, e.b0, m.to);
    ReturnedByteDecodes(orig, e.b0[Index(m.to)], m.promo);
  }

  lemma MovedByte(d: BoardData, m: Move)
    requires Inv(d) && Movable(d, m)
    ensures var b := DoMove(d, m).b0[Index(m.to)];
      b != 0 && Decode(b) == Promoted(Decode(d.b0[Index(m.from)]), m.promo)
  {
    var orig := d.b0[Index(m.from)];
    PromoteDecode(orig, m.promo);
    Moved64At(d.b0, m.from, m.to, PromoteByte(orig, m.promo), m.to);
  }

  lemma DeadByteFits(d: BoardData, m: Move)
    requires Inv(d) && Movable(d, m)
    ensures DoMove(d, m).killed == d.b0[Index(m.to)] && WellFormed(d.b0[Index(m.to)])
  {
    var v := VictimOf(d, m);
  }

  /** Undo gives back a similar record even if, in between, left-over bits have appeared anywhere. */
  lemma UndoSimilar(d: BoardData, m: Move, e: BoardData)
    requires AfterMove(d, m, e)
    ensures Inv(UndoMove(e, m)) && UndoMove(e, m).slots == d.slots
    ensures CellsOf(UndoMove(e, m).b0) == CellsOf(d.b0)
  {
    hide CellsOf, Rotated, WellFormedBoard, LiveSlotsFit, LiveSlotsDistinct, Covered, DemoteByte, Decode, Put, Rot,
      LastIndexOf, MovedSlots, RestoredSlots, SlotsMove;
    var u := UndoMove(e, m);
    var back, dead := DemoteByte(e.b0[Index(m.to)], m.promo), d.b0[Index(m.to)];
    var i, v := SlotsOf(d, m);
    SlotsRestored(d.slots, m, i, v);
    ReturnedByteFits(d, m, e);
    DeadByteFits(d, m);
    MovedCells(d, m);
    CellAt(d.b0, m.from);
    CellAt(d.b0, m.to);
    Restored64Cells(CellsOf(d.b0), e.b0, m, back, dead);
    PutWellFormed(e.b0, m.from, back);
    PutWellFormed(Put(e.b0, m.from, back), m.to, dead);
    SlotsFitCells(d, u.b0);
    Restored64Rotated(e.b0, e.b90, R90, m, back, dead);
    Restored64Rotated(e.b0, e.b180, R180, m, back, dead);
    Restored64Rotated(e.b0, e.b270, R270, m, back, dead);
  }
}
