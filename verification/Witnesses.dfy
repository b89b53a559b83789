/** Concrete boards and interleavings in which the properties that the engine does not have fail. */
module Witnesses {
  import opened Geometry
  import opened Rules
  import opened Bytes
  import opened Generators
  import opened Boards
  import opened BoardFacts
  import opened UndoFacts
  import opened Residue
  import opened Features
  import opened Initial
  import opened Openings
  import opened Runs
  import opened MoveText
  import opened Protocol

  // ---------------------------------------------------------------- moves on the starting board

  /** White's pawn to the left of its bishop goes one step. */
  const STEP := Move(Sq(2, 0), Sq(1, 0), NoPromo)

  const STEP_BACK := Move(Sq(1, 0), Sq(2, 0), NoPromo)

  /** A Black rook takes that pawn, straight across the hole: no rule allows it, but on_position
      plays what it is told. */
  const INTRUDE := Move(Sq(2, 5), Sq(2, 0), NoPromo)

  /** A Black pawn takes White's bishop, as illegally, and then stands where it promotes. */
  const TAKE_BISHOP := Move(Sq(4, 6), Sq(3, 0), NoPromo)

  const PROMOTE := Move(Sq(3, 0), Sq(2, 0), ToRook)

  /** The tokens that say a move exist: the printed move after three others. */
  lemma TokensExist(m: Move, header: seq<Text>) returns (toks: seq<Text>)
    requires |header| == 3
    ensures toks == header + [Said(m)] && SaysMove(toks, m)
  {
    hide MoveToStr, Pack, Heard;
    SaidIsHeard(m);
    toks := header + [Said(m)];
  }

  lemma InitialHas(d: BoardData)
    requires IsInitial(d)
    ensures Inv(d) && InitialCells(CellsOf(d.b0)) && d.player == White && Clean(d.b0)
  {
    hide Inv, CellsOf, Clean, InitialBytes, InitialCells, Rotated, InitialSlots;
    InitialInv(d);
    InitialBytesCells(d.b0);
    InitialClean(d.b0);
  }

  lemma PawnGoesLeft(cells: Cells, c: Color, s: Square, t: Square)
    requires Owns(cells, s, c) && cells[s].kind == Pawn && s.y == 0 && 2 <= s.x <= 5 && t == Sq(s.x - 1, 0)
    requires !Owns(cells, t, c)
    ensures t in Targets(cells, c, Pawn, s)
  {
    hide Targets, Owns;
    PawnSteps(cells, c, s, t);
  }

  lemma RookGoesLeft(cells: Cells, c: Color, s: Square, t: Square)
    requires s.y == 0 && 2 <= s.x <= 5 && t == Sq(s.x - 1, 0) && t !in cells
    ensures t in Targets(cells, c, Rook, s)
  {
    hide Targets, ForwardFrom, UpwardPath, RookStep;
    RookReaches(cells, c, s, t);
    ForwardStep(s.x - 1, 0);
    SlideCons(cells, c, t, ForwardFrom(s.x - 1, 0));
  }

  /** The step is legal at the start. */
  lemma StepIsLegal(cells: Cells)
    requires InitialCells(cells)
    ensures IsLegal(Position(cells, White), STEP)
  {
    hide InitialCells, Targets, Placed, InCheck;
    InitialSquares(cells);
    PawnGoesLeft(cells, White, STEP.from, STEP.to);
    InitialPlaced(cells);
    InitialKings(cells);
    PlacedKept(cells, Black, STEP);
    KingKept(cells, White, STEP, Sq(3, 1));
    NotInCheck(Moved(cells, STEP), White, Sq(3, 1));
  }

  lemma StepIsLegalOn(d: BoardData)
    requires IsInitial(d)
    ensures Inv(d) && IsLegal(Abs(d), STEP)
  {
    hide Inv, CellsOf, Clean, InitialCells, IsInitial, IsLegal;
    InitialHas(d);
    StepIsLegal(CellsOf(d.b0));
  }

  lemma OccupiedIsMovable(d: BoardData, m: Move)
    requires Inv(d) && m.from in CellsOf(d.b0) && Ring(m.from) && Ring(m.to) && m.from != m.to && m.promo == NoPromo
    ensures Movable(d, m)
  {
    hide Inv, CellsOf;
    CellAt(d.b0, m.from);
  }

  /** The board after an unchecked position message. */
  lemma AfterMessage(d: BoardData, m: Move)
    requires Inv(d) && m.from in CellsOf(d.b0) && Ring(m.from) && Ring(m.to) && m.from != m.to && m.promo == NoPromo
    ensures var e := Flip(DoMove(d, m)); Inv(e) && Abs(e) == Position(Moved(CellsOf(d.b0), m), Opp(d.player))
    ensures Clean(d.b0) ==> Clean(Flip(DoMove(d, m)).b0)
  {
    hide Inv, CellsOf, Movable, Ring, Clean, DoMove;
    OccupiedIsMovable(d, m);
    MovableKeepsInv(d, m);
    MovedCells(d, m);
    KeptPlayer(d, m);
    FlipInv(DoMove(d, m));
    if Clean(d.b0) { MovableKeepsClean(d, m); }
  }

  lemma KeptPlayer(d: BoardData, m: Move)
    requires Sized(d)
    ensures DoMove(d, m).player == d.player
  {
  }

  // ---------------------------------------------------------------- undoing a promotion

  /** A clean board on which the side to move has a legal promotion, with which do then undo
      restores neither the record nor the count of its rooks. */
  ghost predicate UndoFails(e: BoardData)
    requires Sized(e)
  {
    var u := UndoMove(DoMove(e, PROMOTE), PROMOTE);
    Inv(e) && Clean(e.b0) && IsLegal(Abs(e), PROMOTE)
    && u != e.(killed := 0, killedIdx := -1) && !Clean(u.b0)
    && u.b0[Index(PROMOTE.from)] == BLACK | PAWN | ROOK
    && Count(u.slots, u.b0, e.player, Rooks) == Count(e.slots, e.b0, e.player, Rooks) + 1
  }

  lemma PromotionFails(e: BoardData)
    requires Inv(e) && Clean(e.b0) && e.player == Black && IsLegal(Abs(e), PROMOTE)
    requires PROMOTE.from in CellsOf(e.b0) && CellsOf(e.b0)[PROMOTE.from] == Piece(Black, Pawn)
    ensures UndoFails(e)
  {
    hide Inv, CellsOf, DoMove, UndoMove, IsPseudo, InCheck, Count;
    CellAt(e.b0, PROMOTE.from);
    UndoIsExactIff(e, Black, PROMOTE);
    UndoCleanIff(e, Black, PROMOTE);
    PromotionShiftsCounts(e, Black, PROMOTE, Rooks);
    ReturnedHere(e);
  }

  lemma ReturnedHere(e: BoardData)
    requires Inv(e) && IsPseudo(CellsOf(e.b0), Black, PROMOTE) && e.b0[Index(PROMOTE.from)] == BLACK | PAWN
    ensures UndoMove(DoMove(e, PROMOTE), PROMOTE).b0[Index(PROMOTE.from)] == BLACK | PAWN | ROOK
  {
    hide Inv, CellsOf, DoMove, UndoMove, IsPseudo, Put;
    DoUndo(e, Black, PROMOTE);
    PutAt(e.b0, PROMOTE.from, ReturnedByte(BLACK | PAWN, ToRook), PROMOTE.from);
  }

  lemma PromoteIsLegal(cells: Cells)
    requires InitialCells(cells)
    ensures var after := Moved(cells, TAKE_BISHOP);
      IsLegal(Position(after, Black), PROMOTE) && Sq(3, 0) in after && after[Sq(3, 0)] == Piece(Black, Pawn)
  {
    hide InitialCells, Targets, Placed, InCheck;
    var after := Moved(cells, TAKE_BISHOP);
    InitialSquares(cells);
    PawnGoesLeft(after, Black, PROMOTE.from, PROMOTE.to);
    InitialPlaced(cells);
    InitialKings(cells);
    PlacedKept(cells, White, TAKE_BISHOP);
    PlacedKept(after, White, PROMOTE);
    KingKept(cells, Black, TAKE_BISHOP, Sq(3, 5));
    KingKept(after, Black, PROMOTE, Sq(3, 5));
    NotInCheck(Moved(after, PROMOTE), Black, Sq(3, 5));
  }

  /** One position message takes the starting board to such a board. */
  lemma UndoCanFail(d: BoardData, header: seq<Text>) returns (toks: seq<Text>)
    requires IsInitial(d) && |header| == 3
    ensures toks == header + [Said(TAKE_BISHOP)] && SaysMove(toks, TAKE_BISHOP)
    ensures Sized(d) && UndoFails(OnPosition(d, toks))
  {
    hide Inv, CellsOf, Clean, DoMove, UndoFails, Heard, IsInitial, InitialCells, IsLegal, Moved;
    toks := TokensExist(TAKE_BISHOP, header);
    InitialHas(d);
    InitialSquares(CellsOf(d.b0));
    AfterMessage(d, TAKE_BISHOP);
    PromoteIsLegal(CellsOf(d.b0));
    PromotionFails(Flip(DoMove(d, TAKE_BISHOP)));
  }

  // ---------------------------------------------------------------- go and stop

  /** A server that has just been started, whatever move best_move holds. */
  ghost predicate AtStart(s: Server) {
    IsInitial(s.b) && s.thread == NoThread && !s.stopping
  }

  /** With a left-over move from an empty corner, an immediate stop ends the process. */
  lemma StopCanAbort(s: Server) returns (ss: seq<Server>, es: seq<Event>)
    requires AtStart(s) && s.best == Move(Sq(0, 0), Sq(0, 0), NoPromo)
    ensures QuietWindow(ss, es) && ss[0] == s && Aborts(ss[|es|], Joined)
  {
    hide Inv, CellsOf, IsInitial, InitialCells, Clean, QuietWindow, Aborts;
    InitialHas(s.b);
    CornerIsEmpty(CellsOf(s.b.b0));
    NoMoveFromEmpty(Abs(s.b), s.best);
    ss, es := StopBeforeAnyWrite(s);
  }

  lemma CornerIsEmpty(cells: Cells)
    requires InitialCells(cells)
    ensures Sq(0, 0) !in cells
  {
    hide InitialByte;
    CornerByte(Sq(0, 0));
  }

  lemma CornerByte(s: Square)
    requires s.x == 0 && s.y == 0
    ensures InitialByte(s) == 0
  {
    hide InitialByteAt;
    assert Index(s) == 0;
    ZeroByte(Index(s));
  }

  lemma ZeroByte(i: int)
    requires i == 0
    ensures InitialByteAt(i) == 0
  {
  }

  lemma NoMoveFromEmpty(p: Position, m: Move)
    requires m.from !in p.cells
    ensures !IsLegal(p, m)
  {
    hide Targets, InCheck;
  }

  /** The search finds the step, the client plays it too, and the stop ends the process. */
  lemma PositionCanAbort(s: Server, toks: seq<Text>) returns (ss: seq<Server>, es: seq<Event>)
    requires AtStart(s) && SaysMove(toks, STEP)
    ensures OpenWindow(ss, es) && ss[0] == s && Aborts(ss[|es|], Joined)
    ensures es == [Go, Copies, Writes(STEP), NewPosition(toks), StopRequest, Returns]
  {
    hide Inv, CellsOf, IsInitial, InitialCells, OpenWindow, Aborts, IsPseudo, InCheck, Intrudes, Heard;
    StepIsLegalOn(s.b);
    ss, es := PositionDuringSearch(s, STEP, STEP, toks);
  }

  lemma IntruderMoves(cells: Cells)
    requires InitialCells(cells)
    ensures IsLegal(Position(Moved(cells, INTRUDE), Black), STEP)
  {
    hide InitialCells, Targets, Placed, InCheck;
    var after := Moved(cells, INTRUDE);
    InitialSquares(cells);
    RookGoesLeft(after, Black, STEP.from, STEP.to);
    InitialPlaced(cells);
    InitialKings(cells);
    PlacedKept(cells, White, INTRUDE);
    PlacedKept(after, White, STEP);
    KingKept(cells, Black, INTRUDE, Sq(3, 5));
    KingKept(after, Black, STEP, Sq(3, 5));
    NotInCheck(Moved(after, STEP), Black, Sq(3, 5));
  }

  /** An intruding message exists: the found step is a legal move of the rook that has taken the
      pawn, and on_stop plays it without an assert noticing. */
  lemma IntruderPasses(s: Server, toks: seq<Text>) returns (ss: seq<Server>, es: seq<Event>)
    requires AtStart(s) && SaysMove(toks, INTRUDE)
    ensures OpenWindow(ss, es) && ss[0] == s && !Aborts(ss[|es|], Joined)
    ensures es == [Go, Copies, Writes(STEP), NewPosition(toks), StopRequest, Returns]
  {
    hide Inv, CellsOf, IsInitial, InitialCells, OpenWindow, Aborts, IsPseudo, IsLegal, Heard, DoMove, Clean, Moved;
    StepIsLegalOn(s.b);
    InitialHas(s.b);
    InitialSquares(CellsOf(s.b.b0));
    AfterMessage(s.b, INTRUDE);
    IntruderMoves(CellsOf(s.b.b0));
    ss, es := PositionDuringSearch(s, STEP, INTRUDE, toks);
  }

  /** The search finds the step, two messages play it and take it back, and the assert holds. */
  lemma PositionsCancel(s: Server, there: seq<Text>, back: seq<Text>) returns (ss: seq<Server>, es: seq<Event>)
    requires AtStart(s) && SaysMove(there, STEP) && SaysMove(back, STEP_BACK)
    ensures OpenWindow(ss, es) && ss[0] == s && !Aborts(ss[|es|], Joined)
    ensures es == [Go, Copies, Writes(STEP), NewPosition(there), NewPosition(back), StopRequest, Returns]
  {
    hide Inv, CellsOf, IsInitial, InitialCells, OpenWindow, Aborts, IsLegal, Heard, ThereAndBack;
    StepIsLegalOn(s.b);
    InitialThereAndBack(s.b);
    ss, es := PositionsCanCancel(s, STEP, STEP, STEP_BACK, there, back);
  }

  lemma InitialThereAndBack(d: BoardData)
    requires IsInitial(d)
    ensures ThereAndBack(d, STEP, STEP_BACK)
  {
    hide Inv, CellsOf, InitialCells, Clean, InitialBytes, Rotated, InitialSlots, Movable, Index;
    InitialHas(d);
    InitialSquares(CellsOf(d.b0));
    OccupiedIsMovable(d, STEP);
    CellAt(d.b0, STEP.to);
  }
}
