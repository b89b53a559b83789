/** Pseudolegal moves of one piece on any side, through the rotated boards and the tables. */
module Generation {
  import opened Geometry
  import opened Rules
  import opened Symmetry
  import opened Bytes
  import opened Generators
  import opened BishopGenerator
  import opened Boards
  import opened BoardFacts

  function TurnMove(t: Turn, m: Move): Move {
    Move(Rot(t, m.from), Rot(t, m.to), m.promo)
  }

  /** Reads a rotation table. */
  function Lookup(table: seq<int>, s: Square): (r: Square)
    requires |table| == 64 && 0 <= table[Index(s)] < 64
  {
    FromIndex(table[Index(s)])
  }

  lemma LookupIsRot(t: Turn, table: seq<int>, s: Square)
    requires IsTable(t, table)
    ensures 0 <= table[Index(s)] < 64 && Lookup(table, s) == Rot(t, s)
  {
    IndexInjective(FromIndex(table[Index(s)]), Rot(t, s));
  }

  lemma TurnMoveInverse(t: Turn, m: Move, n: Move)
    ensures n == TurnMove(t, m) <==> m == TurnMove(Inverse(t), n)
  {
    RotInverse(t, m.from);
    RotInverse(t, m.to);
    RotInverse(t, n.from);
    RotInverse(t, n.to);
  }

  /** The first set holds exactly the moves that turn into moves of the second. */
  ghost predicate TurnedFrom(t: Turn, turned: set<Move>, moves: set<Move>) {
    forall m :: m in turned <==> TurnMove(t, m) in moves
  }

  /** The pseudolegal moves of the piece on s. */
  ghost predicate ArePieceMoves(cells: Cells, s: Square, moves: set<Move>) {
    forall m :: m in moves <==> IsPieceMove(cells, s, m)
  }

  /** transform_moves, with the table that undoes the turn t. */
  method TransformMoves(moves: set<Move>, transform: seq<int>, ghost t: Turn) returns (rotMoves: set<Move>)
    requires IsTable(Inverse(t), transform)
    ensures TurnedFrom(t, rotMoves, moves)
  {
    rotMoves := {};
    var todo := moves;
    while todo != {}
      invariant todo <= moves
      invariant forall m :: m in rotMoves <==> TurnMove(t, m) in moves - todo
      decreases |todo|
    {
      var move :| move in todo;
      LookupIsRot(Inverse(t), transform, move.from);
      LookupIsRot(Inverse(t), transform, move.to);
      forall m: Move ensures TurnMove(t, m) == move <==> m == TurnMove(Inverse(t), move) {
        TurnMoveInverse(t, m, move);
      }
      todo := todo - {move};
      rotMoves := rotMoves + {Move(Lookup(transform, move.from), Lookup(transform, move.to), move.promo)};
    }
  }

  /** A rotated array stands for the turned position. */
  lemma RotatedCells(b0: seq<bv8>, bt: seq<bv8>, t: Turn)
    requires Rotated(b0, bt, t)
    ensures CellsOf(bt) == TurnCells(t, CellsOf(b0))
  {
    forall s: Square
      ensures Rot(t, s) in CellsOf(bt) <==> s in CellsOf(b0)
      ensures s in CellsOf(b0) ==> CellsOf(bt)[Rot(t, s)] == CellsOf(b0)[s]
    {
    }
    TurnCellsUnique(t, CellsOf(b0), CellsOf(bt));
  }

  lemma RotatedWellFormed(b0: seq<bv8>, bt: seq<bv8>, t: Turn)
    requires Rotated(b0, bt, t) && WellFormedBoard(b0)
    ensures WellFormedBoard(bt)
  {
    forall i | 0 <= i < 64 ensures WellFormed(bt[i]) {
      var s := FromIndex(i);
      RotInverse(t, s);
      assert bt[Index(Rot(t, Rot(Inverse(t), s)))] == b0[Index(Rot(Inverse(t), s))];
    }
  }

  /** The promotion choices as the generator is told about them. */
  function Promotes(piece: bv8, s: Square): bool {
    ((Index(s) == 51 || Index(s) == 43) && piece & WHITE != 0)
    || ((Index(s) == 11 || Index(s) == 3) && piece & BLACK != 0)
  }

  lemma PromotesIsRule(piece: bv8, s: Square)
    requires piece != 0 && WellFormed(piece) && Decode(piece).kind == Pawn
    ensures PawnPromos(Promotes(piece, s)) == Promos(Decode(piece), s)
  {
  }

  /** The generator for the piece's kind, chosen by the same bit tests in the same order. */
  method BottomMoves(p0: Square, board: seq<bv8>, promote: bool) returns (moves: set<Move>)
    requires Bottom(p0, board)
    requires promote ==> Index(p0) == 3 || Index(p0) == 11
    ensures var p := Decode(board[Index(p0)]);
      MovesAre(moves, p0, Targets(CellsOf(board), p.color, p.kind, p0),
                       if p.kind == Pawn then PawnPromos(promote) else {NoPromo})
  {
    var pieceId := board[Index(p0)];
    if pieceId & PAWN != 0 {
      moves := PawnMoves(p0, board, promote);
    } else if pieceId & ROOK != 0 {
      moves := RookMoves(p0, board);
    } else if pieceId & BISHOP != 0 {
      moves := BishopMoves(p0, board);
    } else {
      moves := KingMoves(p0, board);
    }
  }

  lemma FrameToBottom(s: Square)
    requires Ring(s)
    ensures OnBottom(Rot(Frame(s), s))
  {
  }

  lemma PromotesAtBottom(piece: bv8, s: Square)
    requires Ring(s) && Promotes(piece, s)
    ensures Index(Rot(Frame(s), s)) == 3 || Index(Rot(Frame(s), s)) == 11
  {
  }

  /** The bottom moves of a piece on its turned board. */
  ghost predicate AreTurnedMoves(cells: Cells, s: Square, t: Turn, moves: set<Move>)
    requires s in cells
  {
    MovesAre(moves, Rot(t, s), Targets(TurnCells(t, cells), cells[s].color, cells[s].kind, Rot(t, s)),
             Promos(cells[s], s))
  }

  /** Generating at the bottom on the turned board and turning the moves back gives the piece's
      moves on its own side. */
  lemma TurnedBack(cells: Cells, s: Square, t: Turn, atBottom: set<Move>, moves: set<Move>)
    requires Ring(s) && s in cells && AreTurnedMoves(cells, s, t, atBottom)
    requires TurnedFrom(t, moves, atBottom)
    ensures ArePieceMoves(cells, s, moves)
  {
    TargetsTurn(t, cells, cells[s].color, cells[s].kind, s);
    RotInverses(t);
  }

  // The four sides as the generator's index sets.

  function LeftSet(): set<int> { {0, 8, 16, 24, 32, 40, 9, 17, 25, 33} }

  function TopSet(): set<int> { {48, 49, 50, 51, 52, 53, 41, 42, 43, 44} }

  function RightSet(): set<int> { {54, 46, 38, 30, 22, 14, 45, 37, 29, 21} }

  lemma Sides(s: Square)
    requires Ring(s)
    ensures Index(s) in LeftSet() <==> Frame(s) == R270
    ensures Index(s) in TopSet() <==> Frame(s) == R180
    ensures Index(s) in RightSet() <==> Frame(s) == R90
  {
    if s.y == 0 {} else if s.y == 1 {} else if s.y == 2 {} else if s.y == 3 {}
    else if s.y == 4 {} else if s.y == 5 {} else { assert s.y == 6; }
  }

  /** The rotated view of a board that a piece on s is generated on. */
  ghost predicate IsView(b0: seq<bv8>, view: seq<bv8>, t: Turn) {
    Rotated(b0, view, t) && WellFormedBoard(b0)
  }

  lemma ViewIsBottom(b0: seq<bv8>, view: seq<bv8>, s: Square)
    requires IsView(b0, view, Frame(s)) && Ring(s) && b0[Index(s)] != 0
    ensures Bottom(Rot(Frame(s), s), view) && view[Index(Rot(Frame(s), s))] == b0[Index(s)]
    ensures CellsOf(view) == TurnCells(Frame(s), CellsOf(b0))
  {
    FrameToBottom(s);
    RotatedWellFormed(b0, view, Frame(s));
    RotatedCells(b0, view, Frame(s));
  }

  /** Turns the bottom moves back to the piece's own side. */
  method MovesBack(ghost cells: Cells, s: Square, ghost t: Turn, atBottom: set<Move>, invCoordMap: seq<int>)
    returns (moves: set<Move>)
    requires Ring(s) && s in cells && IsTable(Inverse(t), invCoordMap)
    requires AreTurnedMoves(cells, s, t, atBottom)
    ensures ArePieceMoves(cells, s, moves)
  {
    moves := TransformMoves(atBottom, invCoordMap, t);
    TurnedBack(cells, s, t, atBottom, moves);
  }

  /** Everything the bottom generator needs to know about the promotion flag. */
  lemma PromoSetup(piece: bv8, s: Square, p0: Square)
    requires Ring(s) && p0 == Rot(Frame(s), s) && piece != 0 && WellFormed(piece)
    ensures Promotes(piece, s) ==> Index(p0) == 3 || Index(p0) == 11
    ensures Promos(Decode(piece), s)
         == if Decode(piece).kind == Pawn then PawnPromos(Promotes(piece, s)) else {NoPromo}
  {
    if Promotes(piece, s) { PromotesAtBottom(piece, s); }
    if Decode(piece).kind == Pawn { PromotesIsRule(piece, s); }
  }

  /** Everything else it needs to know about the view. */
  lemma ViewSetup(cells: Cells, b0: seq<bv8>, view: seq<bv8>, s: Square, t: Turn, p0: Square)
    requires Ring(s) && t == Frame(s) && p0 == Rot(t, s) && IsView(b0, view, t) && b0[Index(s)] != 0
    requires cells == CellsOf(b0)
    ensures s in cells && Bottom(p0, view) && Decode(view[Index(p0)]) == cells[s]
    ensures CellsOf(view) == TurnCells(t, cells)
    ensures Promotes(b0[Index(s)], s) ==> Index(p0) == 3 || Index(p0) == 11
    ensures Promos(cells[s], s) == if cells[s].kind == Pawn then PawnPromos(Promotes(b0[Index(s)], s)) else {NoPromo}
  {
    ViewIsBottom(b0, view, s);
    PromoSetup(b0[Index(s)], s, p0);
  }

  method MovesOnView(ghost cells: Cells, ghost b0: seq<bv8>, s: Square, piece: bv8, view: seq<bv8>, ghost t: Turn,
                     coordMap: seq<int>)
    returns (moves: set<Move>)
    requires Ring(s) && t == Frame(s) && IsView(b0, view, t) && piece == b0[Index(s)] != 0
    requires IsTable(t, coordMap) && cells == CellsOf(b0)
    ensures s in cells && AreTurnedMoves(cells, s, t, moves)
  {
    LookupIsRot(t, coordMap, s);
    ViewSetup(cells, b0, view, s, t, Rot(t, s));
    moves := BottomMoves(Lookup(coordMap, s), view, Promotes(piece, s));
  }

  /** Generate at the bottom of the view, then turn back. */
  method ViewMoves(ghost cells: Cells, ghost b0: seq<bv8>, s: Square, piece: bv8, view: seq<bv8>, ghost t: Turn,
                   coordMap: seq<int>, invCoordMap: seq<int>)
    returns (moves: set<Move>)
    requires Ring(s) && t == Frame(s) && IsView(b0, view, t) && piece == b0[Index(s)] != 0
    requires IsTable(t, coordMap) && IsTable(Inverse(t), invCoordMap) && cells == CellsOf(b0)
    ensures ArePieceMoves(cells, s, moves)
  {
    moves := MovesOnView(cells, b0, s, piece, view, t, coordMap);
    moves := MovesBack(cells, s, t, moves, invCoordMap);
  }

  /** The array and the tables of the side that s is on. */
  method SelectView(s: Square, b0: seq<bv8>, b90: seq<bv8>, b180: seq<bv8>, b270: seq<bv8>)
    returns (view: seq<bv8>, coordMap: seq<int>, invCoordMap: seq<int>)
    requires Rotated(b0, b90, R90) && Rotated(b0, b180, R180) && Rotated(b0, b270, R270) && Ring(s)
    ensures Rotated(b0, view, Frame(s)) && IsTable(Frame(s), coordMap) && IsTable(Inverse(Frame(s)), invCoordMap)
  {
    hide Frame, Ring, Index, Rotated, IsTable, LeftSet, TopSet, RightSet;
    Sides(s);
    if Index(s) in LeftSet() {
      view := b270;
      coordMap := TableAcw90();
      invCoordMap := TableCw90();
    } else if Index(s) in TopSet() {
      view := b180;
      coordMap := TableCw180();
      invCoordMap := TableCw180();
    } else if Index(s) in RightSet() {
      view := b90;
      coordMap := TableCw90();
      invCoordMap := TableAcw90();
    } else {
      view := b0;
      IdentityView(b0, b90);
      coordMap := TableId();
      invCoordMap := TableId();
    }
  }

  /** _get_pseudolegal_moves_for_piece */
  method PieceMovesOf(s: Square, b0: seq<bv8>, b90: seq<bv8>, b180: seq<bv8>, b270: seq<bv8>)
    returns (moves: set<Move>)
    requires Rotated(b0, b90, R90) && Rotated(b0, b180, R180) && Rotated(b0, b270, R270) && WellFormedBoard(b0)
    requires Ring(s) && b0[Index(s)] != 0
    ensures ArePieceMoves(CellsOf(b0), s, moves)
  {
    var view, coordMap, invCoordMap := SelectView(s, b0, b90, b180, b270);
    moves := ViewMoves(CellsOf(b0), b0, s, b0[Index(s)], view, Frame(s), coordMap, invCoordMap);
  }

  lemma IdentityView(b0: seq<bv8>, b90: seq<bv8>)
    requires Rotated(b0, b90, R90)
    ensures Rotated(b0, b0, R0)
  {
  }

  // ---------------------------------------------------------------- one side

  /** The pseudolegal moves of one side. */
  ghost predicate ArePseudo(cells: Cells, c: Color, moves: set<Move>) {
    forall m :: m in moves <==> IsPseudo(cells, c, m)
  }

  ghost predicate InSlots(slots: seq<Square>, lo: int, hi: int, s: Square) {
    exists k :: lo <= k < hi && 0 <= k < |slots| && slots[k] == s
  }

  /** The moves of the pieces in the slots from lo up to hi. */
  ghost predicate AreMovesOfSlots(cells: Cells, slots: seq<Square>, lo: int, hi: int, moves: set<Move>) {
    forall m :: m in moves <==> InSlots(slots, lo, hi, m.from) && IsPieceMove(cells, m.from, m)
  }

  lemma OneMoreSlot(cells: Cells, slots: seq<Square>, lo: int, hi: int, moves: set<Move>, pieceMoves: set<Move>)
    requires 0 <= lo <= hi < |slots| && AreMovesOfSlots(cells, slots, lo, hi, moves)
    requires if slots[hi] in cells then ArePieceMoves(cells, slots[hi], pieceMoves) else pieceMoves == {}
    ensures AreMovesOfSlots(cells, slots, lo, hi + 1, moves + pieceMoves)
  {
    forall m: Move ensures m in moves + pieceMoves
      <==> InSlots(slots, lo, hi + 1, m.from) && IsPieceMove(cells, m.from, m)
    {
      assert InSlots(slots, lo, hi + 1, m.from) <==> InSlots(slots, lo, hi, m.from) || m.from == slots[hi];
    }
  }

  /** The six slots of a side hold exactly the pieces of that colour. */
  lemma SixSlots(d: BoardData, c: Color, moves: set<Move>)
    requires Inv(d)
    requires AreMovesOfSlots(CellsOf(d.b0), d.slots, if c == White then 6 else 0, if c == White then 12 else 6, moves)
    ensures ArePseudo(CellsOf(d.b0), c, moves)
  {
    forall s: Square | s in CellsOf(d.b0)
      ensures InSlots(d.slots, if c == White then 6 else 0, if c == White then 12 else 6, s)
         <==> Owns(CellsOf(d.b0), s, c)
    {
      var k := SlotOf(d, s);
    }
  }

  /** The moves of the piece in slot k; none if it has been captured. */
  method SlotMoves(k: int, slots: seq<Square>, b0: seq<bv8>, b90: seq<bv8>, b180: seq<bv8>, b270: seq<bv8>,
                   ghost d: BoardData)
    returns (moves: set<Move>)
    requires Inv(d) && d.slots == slots && d.b0 == b0 && d.b90 == b90 && d.b180 == b180 && d.b270 == b270
    requires 0 <= k < 12
    ensures if slots[k] in CellsOf(b0) then ArePieceMoves(CellsOf(b0), slots[k], moves) else moves == {}
  {
    moves := {};
    if slots[k] != DEAD {
      assert SlotByte(k, b0[Index(slots[k])]);
      moves := PieceMovesOf(slots[k], b0, b90, b180, b270);
    }
  }

  /** _get_pseudolegal_moves_for_side */
  method SideMovesOf(c: Color, slots: seq<Square>, b0: seq<bv8>, b90: seq<bv8>, b180: seq<bv8>, b270: seq<bv8>,
                     ghost d: BoardData)
    returns (moves: set<Move>)
    requires Inv(d) && d.slots == slots && d.b0 == b0 && d.b90 == b90 && d.b180 == b180 && d.b270 == b270
    ensures ArePseudo(CellsOf(b0), c, moves)
  {
    hide Inv, CellsOf, IsPieceMove, IsPseudo, ArePieceMoves;
    ghost var cells := CellsOf(b0);
    var first := if c == White then 6 else 0;
    moves := {};
    for i := 0 to 6
      invariant AreMovesOfSlots(cells, slots, first, first + i, moves)
    {
      var pieceMoves := SlotMoves(first + i, slots, b0, b90, b180, b270, d);
      OneMoreSlot(cells, slots, first, first + i, moves, pieceMoves);
      moves := moves + pieceMoves;
    }
    SixSlots(d, c, moves);
  }
}
