/** How far the pieces reach while they stand where they started. */
module Openings {
  import opened Geometry
  import opened Rules
  import opened RuleFacts
  import opened Symmetry
  import opened Bytes
  import opened Generators
  import opened BishopGenerator
  import opened Initial

  // ---------------------------------------------------------------- White

  /** Where White's pieces of each kind start. */
  predicate HomeSquare(kind: Kind, s: Square) {
    match kind
    case Rook => s == Sq(4, 1) || s == Sq(4, 0)
    case King => s == Sq(3, 1)
    case Bishop => s == Sq(3, 0)
    case Pawn => s == Sq(2, 1) || s == Sq(2, 0)
  }

  /** The turn that brings the side's starting squares to White's. */
  function HomeTurn(c: Color): Turn {
    if c == White then R0 else R180
  }

  /** The pieces that a side has left stand where its pieces of their kind started. */
  ghost predicate Placed(cells: Cells, c: Color) {
    forall s: Square :: Owns(cells, s, c) ==> HomeSquare(cells[s].kind, Rot(HomeTurn(c), s))
  }

  /** The two lanes in front of the rooks and the diagonal of the bishop are shut by pieces of
      either side. */
  ghost predicate Closed(cells: Cells, c: Color) {
    var t := HomeTurn(c);
    Rot(t, Sq(2, 1)) in cells
    && (Rot(t, Sq(3, 0)) in cells || Rot(t, Sq(2, 0)) in cells)
    && (Rot(t, Sq(3, 1)) in cells || Rot(t, Sq(2, 1)) in cells)
  }

  lemma StoppedSlide(cells: Cells, own: Color, path: seq<Square>, t: Square)
    requires path != [] && path[0] in cells && t in Slide(cells, own, path)
    ensures t == path[0]
  {
  }

  lemma ShutSlide(cells: Cells, own: Color, a: Square, b: Square, rest: seq<Square>, t: Square)
    requires (a in cells || b in cells) && t in Slide(cells, own, [a] + ([b] + rest))
    ensures t == a || t == b
  {
    SlideCons(cells, own, a, [b] + rest);
    SlideCons(cells, own, b, rest);
  }

  lemma RookStaysLow(cells: Cells, s: Square, t: Square)
    requires s.x == 4 && 0 <= s.y <= 1 && (Sq(3, s.y) in cells || Sq(2, s.y) in cells)
    requires t in Targets(cells, White, Rook, s)
    ensures t.y <= 2
  {
    hide Slide, SlideAll, Targets, ForwardFrom, UpwardPath, Owns;
    RookReaches(cells, White, s, t);
    IndexOne(s);
    ForwardStep(3, s.y);
    ForwardStep(2, s.y);
    if t in Slide(cells, White, ForwardFrom(s.x, s.y)) {
      ShutSlide(cells, White, Sq(3, s.y), Sq(2, s.y), ForwardFrom(2, s.y), t);
    }
  }

  lemma BishopStaysLow(cells: Cells, s: Square, t: Square)
    requires Index(s) == 3 && Sq(2, 1) in cells
    requires t in Targets(cells, White, Bishop, s)
    ensures t.y <= 2
  {
    hide Slide, SlideAll, Targets, Owns;
    IndexParts(s);
    BishopReachedAt(cells, White, s, Dir(-1, 1), Dir(-1, -1), t);
    EmptySlide(cells, White);
    if t in Slide(cells, White, BishopPaths(s).0) { StoppedSlide(cells, White, BishopPaths(s).0, t); }
  }

  lemma PawnStaysLow(cells: Cells, s: Square, t: Square)
    requires OnBottom(s) && t in Targets(cells, White, Pawn, s)
    ensures t.y <= 2
  {
    hide Slide, SlideAll, Targets;
    PawnSteps(cells, White, s, t);
  }

  lemma KingStaysLow(cells: Cells, s: Square, t: Square)
    requires s.y <= 1 && t in Targets(cells, White, King, s)
    ensures t.y <= 2
  {
    hide Slide, SlideAll, Paths;
  }

  /** No White piece at home reaches beyond the third row. */
  lemma WhiteReach(cells: Cells, s: Square, t: Square)
    requires Placed(cells, White) && Closed(cells, White) && Owns(cells, s, White)
    requires t in Targets(cells, White, cells[s].kind, s)
    ensures t.y <= 2
  {
    hide Targets;
    match cells[s].kind
    case King => KingStaysLow(cells, s, t);
    case Pawn => PawnStaysLow(cells, s, t);
    case Rook => RookStaysLow(cells, s, t);
    case Bishop => BishopStaysLow(cells, s, t);
  }

  // ---------------------------------------------------------------- Black, by symmetry

  /** The same board with the colours exchanged. */
  ghost function Swap(cells: Cells): Cells {
    map s | s in cells :: Piece(Opp(cells[s].color), cells[s].kind)
  }

  lemma {:induction false} SlideSwaps(cells: Cells, own: Color, path: seq<Square>)
    ensures Slide(cells, own, path) == Slide(Swap(cells), Opp(own), path)
  {
    if path != [] { SlideSwaps(cells, own, path[1..]); }
  }

  /** The rules are the same for both colours. */
  lemma TargetsSwap(cells: Cells, own: Color, kind: Kind, s: Square)
    ensures Targets(cells, own, kind, s) == Targets(Swap(cells), Opp(own), kind, s)
  {
    hide Slide, Paths;
    if Ring(s) && kind != King {
      forall i | 0 <= i < |Paths(kind, s)|
        ensures Slide(cells, own, Paths(kind, s)[i]) == Slide(Swap(cells), Opp(own), Paths(kind, s)[i])
      {
        SlideSwaps(cells, own, Paths(kind, s)[i]);
      }
    }
  }

  /** Black's board as White sees it. */
  ghost function Mirror(cells: Cells): Cells {
    TurnCells(R180, Swap(cells))
  }

  lemma MirrorAt(cells: Cells, s: Square)
    ensures Rot(R180, s) in Mirror(cells) <==> s in cells
    ensures s in cells ==> Mirror(cells)[Rot(R180, s)] == Piece(Opp(cells[s].color), cells[s].kind)
  {
    hide Rot, TurnCells;
    TurnCellsAt(R180, Swap(cells), s);
  }

  lemma MirrorHome(cells: Cells)
    requires Placed(cells, Black) && Closed(cells, Black)
    ensures Placed(Mirror(cells), White) && Closed(Mirror(cells), White)
  {
    hide Mirror, HomeSquare;
    forall s: Square | Owns(Mirror(cells), s, White) ensures HomeSquare(Mirror(cells)[s].kind, Rot(R0, s)) {
      RotInverse(R180, s);
      MirrorAt(cells, Rot(R180, s));
      assert Rot(R180, Rot(R180, s)) == s == Rot(R0, s);
    }
    MirrorBlockers(cells);
  }

  lemma MirrorBlockers(cells: Cells)
    requires Closed(cells, Black)
    ensures Closed(Mirror(cells), White)
  {
    hide Mirror;
    MirrorAt(cells, Rot(R180, Sq(2, 1)));
    MirrorAt(cells, Rot(R180, Sq(3, 0)));
    MirrorAt(cells, Rot(R180, Sq(2, 0)));
    MirrorAt(cells, Rot(R180, Sq(3, 1)));
  }

  /** No Black piece at home reaches below the fifth row. */
  lemma BlackReach(cells: Cells, s: Square, t: Square)
    requires Placed(cells, Black) && Closed(cells, Black) && Owns(cells, s, Black)
    requires t in Targets(cells, Black, cells[s].kind, s)
    ensures t.y >= 4
  {
    hide Targets, Mirror, Placed, Closed, Ring;
    var kind := cells[s].kind;
    TargetsClosed(cells, Black, kind, s, t);
    TargetsSwap(cells, Black, kind, s);
    MirrorTargets(cells, kind, s, t);
    MirrorAt(cells, s);
    MirrorHome(cells);
    WhiteReach(Mirror(cells), Rot(R180, s), Rot(R180, t));
    TurnedHeight(t);
  }

  lemma MirrorTargets(cells: Cells, kind: Kind, s: Square, t: Square)
    requires t in Targets(Swap(cells), White, kind, s)
    ensures Rot(R180, t) in Targets(Mirror(cells), White, kind, Rot(R180, s))
  {
    hide Targets, Swap, Rot;
    TargetsTurn(R180, Swap(cells), White, kind, s);
  }

  lemma TurnedHeight(t: Square)
    requires Ring(t)
    ensures Rot(R180, t).y == 6 - t.y
  {
  }

  // ---------------------------------------------------------------- safety of the kings

  /** The only king of the side is the one on k, if any. */
  ghost predicate KingAt(cells: Cells, c: Color, k: Square) {
    forall s: Square :: s in cells && cells[s] == Piece(c, King) ==> s == k
  }

  /** A king on its own half is safe from pieces at home. */
  lemma NotInCheck(cells: Cells, c: Color, k: Square)
    requires Placed(cells, Opp(c)) && Closed(cells, Opp(c)) && KingAt(cells, c, k)
    requires if c == White then k.y <= 3 else k.y >= 3
    ensures !InCheck(cells, c)
  {
    hide Targets, Placed, Closed;
    forall m: Move | IsPseudo(cells, Opp(c), m) ensures m.to != k {
      if c == White { BlackReach(cells, m.from, m.to); } else { WhiteReach(cells, m.from, m.to); }
    }
  }

  lemma PlacedKept(cells: Cells, c: Color, m: Move)
    requires Placed(cells, c) && Owns(cells, m.from, Opp(c))
    ensures Placed(Moved(cells, m), c)
  {
    hide HomeSquare, Rot;
  }

  lemma KingKept(cells: Cells, c: Color, m: Move, k: Square)
    requires KingAt(cells, c, k) && m.from in cells && cells[m.from].kind != King
    ensures KingAt(Moved(cells, m), c, k)
  {
  }

  // ---------------------------------------------------------------- the starting position

  ghost predicate InitialCells(cells: Cells) {
    forall s: Square :: (s in cells <==> InitialByte(s) != 0) && (s in cells ==> cells[s] == Decode(InitialByte(s)))
  }

  lemma InitialBytesCells(b: seq<bv8>)
    requires InitialBytes(b)
    ensures InitialCells(CellsOf(b))
  {
    hide Decode, InitialByte;
  }

  lemma WhiteByteAt(i: int)
    requires InitialByteAt(i) != 0 && Decode(InitialByteAt(i)).color == White
    ensures match Decode(InitialByteAt(i)).kind
      case Rook => i == 12 || i == 4
      case King => i == 11
      case Bishop => i == 3
      case Pawn => i == 10 || i == 2
  {
  }

  lemma BlackByteAt(i: int)
    requires InitialByteAt(i) != 0 && Decode(InitialByteAt(i)).color == Black
    ensures match Decode(InitialByteAt(i)).kind
      case Rook => i == 42 || i == 50
      case King => i == 43
      case Bishop => i == 51
      case Pawn => i == 44 || i == 52
  {
  }

  lemma InitialWhite(cells: Cells, s: Square)
    requires InitialCells(cells) && Owns(cells, s, White)
    ensures HomeSquare(cells[s].kind, s)
  {
    hide Decode, InitialByteAt;
    WhiteByteAt(Index(s));
    IndexParts(s);
  }

  lemma InitialBlack(cells: Cells, s: Square)
    requires InitialCells(cells) && Owns(cells, s, Black)
    ensures HomeSquare(cells[s].kind, Rot(R180, s))
  {
    hide Decode, InitialByteAt;
    BlackByteAt(Index(s));
    IndexParts(s);
    assert Index(s) / 8 == s.y && Index(s) % 8 == s.x;
  }

  lemma InitialPlaced(cells: Cells)
    requires InitialCells(cells)
    ensures Placed(cells, White) && Placed(cells, Black)
  {
    hide HomeSquare, InitialCells;
    forall s: Square | Owns(cells, s, White) ensures HomeSquare(cells[s].kind, Rot(R0, s)) {
      InitialWhite(cells, s);
    }
    forall s: Square | Owns(cells, s, Black) ensures HomeSquare(cells[s].kind, Rot(R180, s)) {
      InitialBlack(cells, s);
    }
  }

  /** The squares of the starting position that matter here. */
  lemma InitialSquares(cells: Cells)
    requires InitialCells(cells)
    ensures Sq(2, 1) in cells && Sq(3, 0) in cells && Sq(3, 1) in cells
    ensures Sq(4, 5) in cells && Sq(3, 6) in cells && Sq(3, 5) in cells
    ensures Sq(1, 0) !in cells
    ensures Sq(2, 0) in cells && cells[Sq(2, 0)] == Piece(White, Pawn)
    ensures Sq(4, 6) in cells && cells[Sq(4, 6)] == Piece(Black, Pawn)
    ensures Sq(2, 5) in cells && cells[Sq(2, 5)] == Piece(Black, Rook)
  {
    hide Index, Decode, InitialByteAt;
    HomeBytes(Sq(2, 1), Sq(3, 0), Sq(3, 1), Sq(4, 5), Sq(3, 6), Sq(3, 5));
    PieceBytes(Sq(1, 0), Sq(2, 0), Sq(4, 6), Sq(2, 5));
  }

  lemma HomeBytes(a: Square, b: Square, c: Square, d: Square, e: Square, f: Square)
    requires a == Sq(2, 1) && b == Sq(3, 0) && c == Sq(3, 1) && d == Sq(4, 5) && e == Sq(3, 6) && f == Sq(3, 5)
    ensures InitialByte(a) != 0 && InitialByte(b) != 0 && InitialByte(c) != 0
    ensures InitialByte(d) != 0 && InitialByte(e) != 0 && InitialByte(f) != 0
  {
  }

  lemma PieceBytes(a: Square, b: Square, c: Square, d: Square)
    requires a == Sq(1, 0) && b == Sq(2, 0) && c == Sq(4, 6) && d == Sq(2, 5)
    ensures InitialByte(a) == 0
    ensures InitialByte(b) != 0 && Decode(InitialByte(b)) == Piece(White, Pawn)
    ensures InitialByte(c) != 0 && Decode(InitialByte(c)) == Piece(Black, Pawn)
    ensures InitialByte(d) != 0 && Decode(InitialByte(d)) == Piece(Black, Rook)
  {
  }

  lemma InitialKings(cells: Cells)
    requires InitialCells(cells)
    ensures KingAt(cells, White, Sq(3, 1)) && KingAt(cells, Black, Sq(3, 5))
  {
    hide InitialCells;
    forall s: Square | s in cells && cells[s] == Piece(White, King) ensures s == Sq(3, 1) {
      InitialWhite(cells, s);
    }
    forall s: Square | s in cells && cells[s] == Piece(Black, King) ensures s == Sq(3, 5) {
      InitialBlack(cells, s);
    }
  }

  lemma InitialClosed(cells: Cells)
    requires InitialCells(cells)
    ensures Closed(cells, White) && Closed(cells, Black)
  {
    hide InitialCells;
    InitialSquares(cells);
  }
}
