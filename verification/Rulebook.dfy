/** The rules of the game and the effect of a move, square by square and bit by bit, in terms of
    nothing but coordinates, pieces and bits. */
module Rulebook {
  import opened Geometry
  import opened Rules
  import opened RuleFacts
  import opened Bytes
  import opened Generators
  import opened BishopGenerator
  import opened Boards
  import opened BoardFacts
  import opened UndoFacts

  // ---------------------------------------------------------------- where the pieces move

  /** The 7x7 board without its middle 3x3 squares. */
  lemma RingIs(s: Coord)
    ensures Ring(s) <==> 0 <= s.x <= 6 && 0 <= s.y <= 6 && !(2 <= s.x <= 4 && 2 <= s.y <= 4)
  {
  }

  /** A king reaches the up to eight neighbouring ring squares that hold no own piece. */
  lemma KingRule(cells: Cells, own: Color, s: Square, t: Square)
    ensures t in Targets(cells, own, King, s)
       <==> Ring(s) && Ring(t) && t != s && -1 <= t.x - s.x <= 1 && -1 <= t.y - s.y <= 1 && !Owns(cells, t, own)
  {
    hide Ring, Owns, SlideAll, Paths;
  }

  /** A pawn reaches the up to three squares ahead of it, straight or diagonally, that hold no own
      piece. Ahead is towards x = 0 on the bottom side, up on the left, towards x = 6 on the top, and
      down on the right; each side begins with the corner where the one before it ends. */
  lemma PawnRule(cells: Cells, own: Color, s: Square, t: Square)
    requires Ring(s)
    ensures t in Targets(cells, own, Pawn, s)
       <==> (Ring(t) && !Owns(cells, t, own)
             && (if (s.y == 0 && 1 <= s.x <= 6) || (s.y == 1 && 2 <= s.x <= 5) then
                   t.x == s.x - 1 && -1 <= t.y - s.y <= 1
                 else if (s.x == 0 && 0 <= s.y <= 5) || (s.x == 1 && 1 <= s.y <= 4) then
                   t.y == s.y + 1 && -1 <= t.x - s.x <= 1
                 else if (s.y == 6 && 0 <= s.x <= 5) || (s.y == 5 && 1 <= s.x <= 4) then
                   t.x == s.x + 1 && -1 <= t.y - s.y <= 1
                 else t.y == s.y - 1 && -1 <= t.x - s.x <= 1))
  {
    hide Ring, Owns, Slide, SlideAll, Targets, Forward, Clockwise, Plus, Back, Go, Step, Frame;
    var f := Forward(s);
    var r := Clockwise(f);
    TargetsAlong(cells, own, Pawn, s);
    ThreePaths(cells, own, Step(s, f), Step(s, Plus(f, r)), Step(s, Plus(f, Back(r))));
    StepSlide(cells, own, s, f, t);
    StepSlide(cells, own, s, Plus(f, r), t);
    StepSlide(cells, own, s, Plus(f, Back(r)), t);
    AheadIs(s, t);
  }

  lemma AheadIs(s: Square, t: Square)
    ensures var f := Forward(s);
      (t == Go(s, f) || t == Go(s, Plus(f, Clockwise(f))) || t == Go(s, Plus(f, Back(Clockwise(f)))))
      <==> (if (s.y == 0 && 1 <= s.x <= 6) || (s.y == 1 && 2 <= s.x <= 5) then t.x == s.x - 1 && -1 <= t.y - s.y <= 1
            else if (s.x == 0 && 0 <= s.y <= 5) || (s.x == 1 && 1 <= s.y <= 4) then
              t.y == s.y + 1 && -1 <= t.x - s.x <= 1
            else if (s.y == 6 && 0 <= s.x <= 5) || (s.y == 5 && 1 <= s.x <= 4) then
              t.x == s.x + 1 && -1 <= t.y - s.y <= 1
            else t.y == s.y - 1 && -1 <= t.x - s.x <= 1)
  {
    hide Go, Plus, Clockwise, Back;
    var f := Forward(s);
    assert f.dx == (if Frame(s) == R0 then -1 else if Frame(s) == R180 then 1 else 0);
    assert f.dy == (if Frame(s) == R270 then 1 else if Frame(s) == R90 then -1 else 0);
    AheadOf(s, t, f);
  }

  lemma AheadOf(s: Square, t: Square, f: Dir)
    requires IsStraight(f)
    ensures (t == Go(s, f) || t == Go(s, Plus(f, Clockwise(f))) || t == Go(s, Plus(f, Back(Clockwise(f)))))
      <==> (if f.dy == 0 then t.x == s.x + f.dx && -1 <= t.y - s.y <= 1 else t.y == s.y + f.dy && -1 <= t.x - s.x <= 1)
  {
  }

  lemma {:induction false} LeftEdgeSlide(cells: Cells, own: Color, y: int, t: Square)
    requires 0 <= y <= 7
    ensures t in Slide(cells, own, LeftEdge(y))
       <==> !Owns(cells, t, own) && t.x == 0 && y <= t.y <= 6 && forall v :: y <= v < t.y ==> Sq(0, v) !in cells
    decreases 7 - y
  {
    hide Slide, LeftEdge;
    if y == 7 {
      LeftEdgeEnds();
      EmptySlide(cells, own);
    } else {
      LeftEdgeOn(y);
      SlideCons(cells, own, Sq(0, y), LeftEdge(y + 1));
      LeftEdgeSlide(cells, own, y + 1, t);
    }
  }

  /** Straight ahead on the bottom side, and around the corner from the outer lane. */
  lemma {:induction false} ForwardSlide(cells: Cells, own: Color, x: int, y: int, t: Square)
    requires 0 <= x <= 6 && 0 <= y <= 1
    ensures t in Slide(cells, own, ForwardFrom(x, y))
       <==> (!Owns(cells, t, own)
             && ((t.y == y && t.x < x && forall u :: t.x < u < x ==> Sq(u, y) !in cells)
                 || (y == 0 && t.x == 0 && 1 <= t.y <= 6 && (forall u :: 0 <= u < x ==> Sq(u, 0) !in cells)
                     && forall v :: 1 <= v < t.y ==> Sq(0, v) !in cells)))
    decreases x
  {
    hide Slide, ForwardFrom, Reflection;
    ForwardStep(x - 1, y);
    if x == 0 {
      EndOfLane(cells, own, y, t);
    } else {
      SlideCons(cells, own, Sq(x - 1, y), ForwardFrom(x - 1, y));
      ForwardSlide(cells, own, x - 1, y, t);
    }
  }

  lemma EndOfLane(cells: Cells, own: Color, y: int, t: Square)
    requires 0 <= y <= 1
    ensures t in Slide(cells, own, Reflection(y))
       <==> (y == 0 && !Owns(cells, t, own) && t.x == 0 && 1 <= t.y <= 6
             && forall v :: 1 <= v < t.y ==> Sq(0, v) !in cells)
  {
    hide Slide, LeftEdge;
    EmptySlide(cells, own);
    if y == 0 {
      ReflectionIsLeftEdge(y);
      LeftEdgeSlide(cells, own, 1, t);
    }
  }

  /** From the square before the corner, inwards. */
  lemma {:induction false} InnerSlide(cells: Cells, own: Color, y: int, t: Square)
    requires 1 <= y <= 7
    ensures t in Slide(cells, own, InnerLane(y - 1))
       <==> !Owns(cells, t, own) && t.x == 1 && y <= t.y <= 6 && forall v :: y <= v < t.y ==> Sq(1, v) !in cells
    decreases 7 - y
  {
    hide Slide, InnerLane;
    InnerStep(y);
    if y == 7 {
      EmptySlide(cells, own);
    } else {
      SlideCons(cells, own, Sq(1, y), InnerLane(y));
      InnerSlide(cells, own, y + 1, t);
    }
  }

  /** A rook on the bottom side reaches the squares that hold no own piece and lie one step to the
      right, up or down; any distance ahead with only empty squares between; from the outer lane,
      around the corner as well; and from the square before the corner, any distance up. */
  lemma RookRule(cells: Cells, own: Color, s: Square, t: Square)
    requires (s.y == 0 && 1 <= s.x <= 6) || (s.y == 1 && 2 <= s.x <= 5)
    ensures t in Targets(cells, own, Rook, s) <==> (!Owns(cells, t, own)
      && ((Ring(t) && (t == Sq(s.x + 1, s.y) || t == Sq(s.x, s.y + 1) || t == Sq(s.x, s.y - 1)))
          || (t.y == s.y && t.x < s.x && forall u :: t.x < u < s.x ==> Sq(u, s.y) !in cells)
          || (s.y == 0 && t.x == 0 && 1 <= t.y <= 6 && (forall u :: 0 <= u < s.x ==> Sq(u, 0) !in cells)
              && forall v :: 1 <= v < t.y ==> Sq(0, v) !in cells)
          || (s.x == 1 && s.y == 0 && t.x == 1 && 1 <= t.y <= 6 && forall v :: 1 <= v < t.y ==> Sq(1, v) !in cells)))
  {
    hide Targets, Slide, ForwardFrom, UpwardPath, InnerLane, Ring, Owns, RookStep, Index;
    RookReaches(cells, own, s, t);
    RookSteps(s, t);
    ForwardSlide(cells, own, s.x, s.y, t);
    IndexOne(s);
    if s.x == 1 && s.y == 0 {
      InnerStart(s);
      InnerSlide(cells, own, 1, t);
    }
  }

  /** t is on the line, with only empty squares before it. */
  predicate OnLine(cells: Cells, line: seq<Square>, t: Square) {
    exists k :: 0 <= k < |line| && line[k] == t && forall j :: 0 <= j < k ==> line[j] !in cells
  }

  /** A bishop on the bottom side reaches the squares that hold no own piece and lie one step
      diagonally back, or on one of these lines with only empty squares before them. */
  lemma BishopRule(cells: Cells, own: Color, s: Square, t: Square)
    requires (s.y == 0 && 1 <= s.x <= 6) || (s.y == 1 && 2 <= s.x <= 5)
    ensures t in Targets(cells, own, Bishop, s) <==> (!Owns(cells, t, own)
      && ((Ring(t) && (t == Sq(s.x + 1, s.y + 1) || t == Sq(s.x + 1, s.y - 1)))
          || OnLine(cells,
                    if s == Sq(1, 0) then [Sq(0, 1), Sq(1, 2)]
                    else if s == Sq(2, 0) then [Sq(1, 1), Sq(0, 2), Sq(1, 3)]
                    else if s == Sq(3, 0) then [Sq(2, 1), Sq(1, 2), Sq(0, 3), Sq(1, 4), Sq(2, 5), Sq(3, 6)]
                    else if s == Sq(4, 0) then [Sq(3, 1), Sq(2, 0)]
                    else if s == Sq(5, 0) then [Sq(4, 1), Sq(3, 0)]
                    else if s == Sq(6, 0) then [Sq(5, 1)]
                    else if s == Sq(2, 1) then [Sq(1, 2), Sq(0, 3), Sq(1, 4), Sq(2, 5), Sq(3, 6)]
                    else if s == Sq(3, 1) then [Sq(2, 0), Sq(1, 1), Sq(0, 2)]
                    else if s == Sq(4, 1) then [Sq(3, 0), Sq(2, 1), Sq(1, 2), Sq(0, 3)]
                    else [Sq(4, 0), Sq(3, 1)], t)
          || (s == Sq(2, 1) && OnLine(cells, [Sq(1, 0), Sq(0, 1)], t))))
  {
    hide Targets, Slide, Owns, BishopPaths, BishopStep, Ring, OnLine;
    BishopReachedAt(cells, own, s, Dir(-1, 1), Dir(-1, -1), t);
    BishopSteps(s, t);
    OnLineSlides(cells, own, BishopPaths(s).0, t);
    OnLineSlides(cells, own, BishopPaths(s).1, t);
    BishopLines(s);
    NoLine(cells, t);
  }

  lemma BishopLines(s: Square)
    requires (s.y == 0 && 1 <= s.x <= 6) || (s.y == 1 && 2 <= s.x <= 5)
    ensures BishopPaths(s).0 ==
      if s == Sq(1, 0) then [Sq(0, 1), Sq(1, 2)]
      else if s == Sq(2, 0) then [Sq(1, 1), Sq(0, 2), Sq(1, 3)]
      else if s == Sq(3, 0) then [Sq(2, 1), Sq(1, 2), Sq(0, 3), Sq(1, 4), Sq(2, 5), Sq(3, 6)]
      else if s == Sq(4, 0) then [Sq(3, 1), Sq(2, 0)]
      else if s == Sq(5, 0) then [Sq(4, 1), Sq(3, 0)]
      else if s == Sq(6, 0) then [Sq(5, 1)]
      else if s == Sq(2, 1) then [Sq(1, 2), Sq(0, 3), Sq(1, 4), Sq(2, 5), Sq(3, 6)]
      else if s == Sq(3, 1) then [Sq(2, 0), Sq(1, 1), Sq(0, 2)]
      else if s == Sq(4, 1) then [Sq(3, 0), Sq(2, 1), Sq(1, 2), Sq(0, 3)]
      else [Sq(4, 0), Sq(3, 1)]
    ensures BishopPaths(s).1 == if s == Sq(2, 1) then [Sq(1, 0), Sq(0, 1)] else []
  {
    IndexParts(s);
  }

  lemma OnLineSlides(cells: Cells, own: Color, line: seq<Square>, t: Square)
    ensures t in Slide(cells, own, line) <==> !Owns(cells, t, own) && OnLine(cells, line, t)
  {
    SlideRule(cells, own, line, t);
  }

  lemma NoLine(cells: Cells, t: Square)
    ensures !OnLine(cells, [], t)
  {
  }

  /** Promotions: a pawn that leaves one of its two last squares becomes a rook or a bishop, and
      nothing else is ever promoted. */
  lemma PromotionRule(cells: Cells, c: Color, from: Square, to: Square, promo: Promo)
    requires Owns(cells, from, c)
    ensures var last := if c == White then from == Sq(3, 5) || from == Sq(3, 6)
                        else from == Sq(3, 0) || from == Sq(3, 1);
      IsPseudo(cells, c, Move(from, to, promo))
      <==> to in Targets(cells, c, cells[from].kind, from)
           && (if cells[from].kind == Pawn && last then promo == ToRook || promo == ToBishop else promo == NoPromo)
  {
    hide Targets;
  }

  /** A move is legal if it is pseudolegal and no reply could take the mover's king. */
  lemma LegalRule(p: Position, m: Move)
    ensures IsLegal(p, m) <==> (IsPseudo(p.cells, p.player, m)
      && !exists r: Move :: IsPseudo(Moved(p.cells, m), if p.player == White then Black else White, r)
                         && r.to in Moved(p.cells, m) && Moved(p.cells, m)[r.to] == Piece(p.player, King))
  {
    hide IsPseudo, Moved;
  }

  // ---------------------------------------------------------------- what a move does

  /** _do_move, for a pseudolegal move: the mover stands on the target, as itself, as a rook or as a
      bishop; its square is empty; every other square is as it was; the turn does not pass; the
      mover's slot follows it; and exactly what stood on the target is out of play and recorded. */
  lemma MoveRule(d: BoardData, c: Color, m: Move)
    requires Inv(d) && IsPseudo(CellsOf(d.b0), c, m)
    ensures var e, cells, after := DoMove(d, m), CellsOf(d.b0), CellsOf(DoMove(d, m).b0);
      m.from in cells && cells[m.from].color == c && m.from != m.to && m.from !in after
      && m.to in after && after[m.to] == (match m.promo
                                          case NoPromo => cells[m.from]
                                          case ToRook => Piece(c, Rook)
                                          case ToBishop => Piece(c, Bishop))
      && (forall s: Square :: s != m.from && s != m.to ==>
            (s in after <==> s in cells) && (s in cells ==> after[s] == cells[s]))
      && e.player == d.player
  {
    hide Inv, Targets, Moved64, Put, LastIndexOf, MovedSlots, CellsOf;
    PseudoShape(CellsOf(d.b0), c, m);
    StepRefines(d, c, m);
  }

  /** The slots and the undo record of _do_move. */
  lemma SlotRule(d: BoardData, c: Color, m: Move) returns (i: int)
    requires Inv(d) && IsPseudo(CellsOf(d.b0), c, m)
    ensures var e := DoMove(d, m);
      0 <= i < 12 && d.slots[i] == m.from && e.slots[i] == m.to
      && (forall k :: 0 <= k < 12 && k != i ==> e.slots[k] == if d.slots[k] == m.to then Sq(7, 7) else d.slots[k])
      && (if d.b0[Index(m.to)] == 0 then e.killed == 0 && e.killedIdx == -1 && m.to !in d.slots
          else e.killed == d.b0[Index(m.to)] && 0 <= e.killedIdx < 12 && d.slots[e.killedIdx] == m.to)
  {
    hide Inv, IsPseudo, Moved64, Put, MovedSlots, CellsOf, Movable;
    PseudoMovable(d, c, m);
    MovableMoves(d, m);
    var v;
    i, v := SlotsOf(d, m);
    MovedSlotsAre(d.slots, m, i, v);
  }

  /** What do then undo leaves on the mover's square: the byte as it was, or, after a promotion, the
      colour bit, the pawn bit 0x02 and the bit of the promoted kind: 0x04 for a rook, 0x10 for a
      bishop. */
  lemma UndoRule(d: BoardData, c: Color, m: Move)
    requires Inv(d) && IsPseudo(CellsOf(d.b0), c, m)
    ensures UndoMove(DoMove(d, m), m).b0[Index(m.from)] == (match m.promo
      case NoPromo => d.b0[Index(m.from)]
      case ToRook => (if c == White then 0x46 else 0x26)
      case ToBishop => (if c == White then 0x52 else 0x32))
  {
    hide Inv, IsPseudo, CellsOf, DoMove, UndoMove, Put;
    DoUndo(d, c, m);
    PawnByteOf(d, c, m);
    PutAt(d.b0, m.from, ReturnedByte(d.b0[Index(m.from)], m.promo), m.from);
    ReturnedBits(d.b0[Index(m.from)], c, m.promo);
  }

  lemma PawnByteOf(d: BoardData, c: Color, m: Move)
    requires Inv(d) && IsPseudo(CellsOf(d.b0), c, m)
    ensures var b := d.b0[Index(m.from)];
      b != 0 && WellFormed(b) && Decode(b).color == c && (m.promo != NoPromo ==> Decode(b).kind == Pawn)
  {
    hide IsPseudo, CellsOf, Decode;
    PseudoShape(CellsOf(d.b0), c, m);
    CellAt(d.b0, m.from);
  }

  lemma ReturnedBits(b: bv8, c: Color, promo: Promo)
    requires b != 0 && WellFormed(b) && Decode(b).color == c && (promo != NoPromo ==> Decode(b).kind == Pawn)
    ensures ReturnedByte(b, promo) == (match promo
      case NoPromo => b
      case ToRook => (if c == White then 0x46 else 0x26)
      case ToBishop => (if c == White then 0x52 else 0x32))
  {
    match promo {
      case NoPromo =>
      case ToRook => if c == White {} else {}
      case ToBishop => if c == White {} else {}
    }
  }

  /** The byte of a piece without left-over bits, and what each such byte stands for. */
  lemma ByteRule(b: bv8)
    ensures b == 0x42 ==> Decode(b) == Piece(White, Pawn)
    ensures b == 0x44 ==> Decode(b) == Piece(White, Rook)
    ensures b == 0x48 ==> Decode(b) == Piece(White, King)
    ensures b == 0x50 ==> Decode(b) == Piece(White, Bishop)
    ensures b == 0x22 ==> Decode(b) == Piece(Black, Pawn)
    ensures b == 0x24 ==> Decode(b) == Piece(Black, Rook)
    ensures b == 0x28 ==> Decode(b) == Piece(Black, King)
    ensures b == 0x30 ==> Decode(b) == Piece(Black, Bishop)
  {
  }
}
