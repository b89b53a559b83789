/** Move generation for the bottom side, with its loops and path tables, proved against Rules. */
module Generators {
  import opened Geometry
  import opened Rules
  import opened Bytes

  /** The moves from p0 to the targets, with each of the promotion choices. */
  ghost predicate MovesAre(moves: set<Move>, p0: Square, targets: set<Square>, promos: set<Promo>) {
    forall m :: m in moves <==> m.from == p0 && m.to in targets && m.promo in promos
  }

  /** The ten squares of the bottom side: 1 to 6 and 10 to 13. */
  predicate OnBottom(s: Square) {
    (s.y == 0 && 1 <= s.x <= 6) || (s.y == 1 && 2 <= s.x <= 5)
  }

  /** What the generators are called with: a well-formed board and an occupied bottom square. */
  ghost predicate Bottom(p0: Square, bytes: seq<bv8>) {
    WellFormedBoard(bytes) && OnBottom(p0) && bytes[Index(p0)] != 0
  }

  lemma ThreePaths(cells: Cells, own: Color, a: seq<Square>, b: seq<Square>, c: seq<Square>)
    ensures SlideAll(cells, own, [a, b, c]) == Slide(cells, own, a) + Slide(cells, own, b) + Slide(cells, own, c)
  {
    var ps := [a, b, c];
    assert ps[0] == a && ps[1] == b && ps[2] == c;
  }

  lemma FourPaths(cells: Cells, own: Color, a: seq<Square>, b: seq<Square>, c: seq<Square>, d: seq<Square>)
    ensures SlideAll(cells, own, [a, b, c, d])
         == Slide(cells, own, a) + Slide(cells, own, b) + Slide(cells, own, c) + Slide(cells, own, d)
  {
    var ps := [a, b, c, d];
    assert ps[0] == a && ps[1] == b && ps[2] == c && ps[3] == d;
  }

  lemma MovesNone(p0: Square, promos: set<Promo>)
    ensures MovesAre({}, p0, {}, promos)
  {
  }

  /** Adds the move to p1 unless a piece of the mover stands there. */
  method TryMove(p0: Square, p1: Square, board: seq<bv8>, moves: set<Move>, ghost reached: set<Square>)
    returns (more: set<Move>, ghost further: set<Square>)
    requires Bottom(p0, board)
    requires MovesAre(moves, p0, reached, {NoPromo})
    ensures forall t :: (t in further
      <==> t in reached || (t == p1 && !Owns(CellsOf(board), p1, Decode(board[Index(p0)]).color)))
    ensures MovesAre(more, p0, further, {NoPromo})
  {
    more, further := moves, reached;
    OwnTest(board, p1, p0);
    if board[Index(p1)] & ColorPart(board[Index(p0)]) == 0 {
      more, further := more + {Move(p0, p1, NoPromo)}, further + {p1};
    }
  }

  // ---------------------------------------------------------------- king

  /** The king's neighbours as the bottom generator enumerates them. */
  ghost predicate KingNeighbour(p0: Square, t: Square) {
    var i := Index(p0);
    t == Sq(p0.x - 1, 0) || t == Sq(p0.x - 1, 1) || (i == 10 && t == Sq(p0.x - 1, 2))
    || (i != 6 && t == Sq(p0.x + 1, 0)) || (i != 6 && t == Sq(p0.x + 1, 1))
    || (i >= 12 && t == Sq(p0.x + 1, 2)) || (i == 13 && t == Sq(p0.x, 2)) || t == Sq(p0.x, 1 - p0.y)
  }

  lemma KingNeighbours(p0: Square, t: Square)
    requires OnBottom(p0)
    ensures KingNeighbour(p0, t) <==> Ring(t) && Adjacent(p0, t)
  {
  }

  lemma OpenNeighbours(cells: Cells, own: Color, p0: Square, ts: set<Square>)
    requires OnBottom(p0)
    requires forall t: Square :: t in ts <==> KingNeighbour(p0, t) && !Owns(cells, t, own)
    ensures ts == Targets(cells, own, King, p0)
  {
    forall t: Square ensures t in ts <==> t in KingTargets(cells, own, p0) {
      KingNeighbours(p0, t);
    }
  }

  method KingMoves(p0: Square, board: seq<bv8>) returns (moves: set<Move>)
    requires Bottom(p0, board)
    ensures MovesAre(moves, p0, Targets(CellsOf(board), Decode(board[Index(p0)]).color, King, p0), {NoPromo})
  {
    hide Owns, CellsOf, Decode, MovesAre, Targets;
    ghost var cells, own := CellsOf(board), Decode(board[Index(p0)]).color;
    var x, i := p0.x, Index(p0);
    moves := {};
    MovesNone(p0, {NoPromo});
    ghost var reached: set<Square> := {};
    moves, reached := TryMove(p0, Sq(x - 1, 0), board, moves, reached);
    moves, reached := TryMove(p0, Sq(x - 1, 1), board, moves, reached);
    if i == 10 { moves, reached := TryMove(p0, Sq(x - 1, 2), board, moves, reached); }
    if i != 6 { moves, reached := TryMove(p0, Sq(x + 1, 0), board, moves, reached); }
    if i != 6 { moves, reached := TryMove(p0, Sq(x + 1, 1), board, moves, reached); }
    if i >= 12 { moves, reached := TryMove(p0, Sq(x + 1, 2), board, moves, reached); }
    if i == 13 { moves, reached := TryMove(p0, Sq(x, 2), board, moves, reached); }
    moves, reached := TryMove(p0, Sq(x, 1 - p0.y), board, moves, reached);
    assert forall t: Square :: t in reached <==> KingNeighbour(p0, t) && !Owns(cells, t, own);
    OpenNeighbours(cells, own, p0, reached);
  }

  // ---------------------------------------------------------------- pawn

  lemma StepSlide(cells: Cells, own: Color, s: Square, d: Dir, t: Square)
    ensures t in Slide(cells, own, Step(s, d)) <==> Ring(t) && t == Go(s, d) && !Owns(cells, t, own)
  {
  }

  /** The pawn's forward squares as the bottom generator enumerates them. */
  ghost predicate PawnNeighbour(p0: Square, t: Square) {
    t == Sq(p0.x - 1, 0) || t == Sq(p0.x - 1, 1) || (Index(p0) == 10 && t == Sq(1, 2))
  }

  lemma PawnNeighbours(p0: Square, t: Square)
    requires OnBottom(p0)
    ensures PawnNeighbour(p0, t)
       <==> Ring(t) && (t == Sq(p0.x - 1, p0.y) || t == Sq(p0.x - 1, p0.y + 1) || t == Sq(p0.x - 1, p0.y - 1))
  {
  }

  lemma PawnPathsAtBottom(p0: Square, up: Dir, down: Dir)
    requires OnBottom(p0) && up.dx == -1 && up.dy == 1 && down.dx == -1 && down.dy == -1
    ensures Ring(p0) && Paths(Pawn, p0) == [Step(p0, Dir(-1, 0)), Step(p0, up), Step(p0, down)]
  {
    hide Ring, Forward, Step;
    ForwardAtBottom(p0);
    assert up == Plus(Dir(-1, 0), Dir(0, 1)) && down == Plus(Dir(-1, 0), Back(Dir(0, 1)));
  }

  lemma PawnTargets(cells: Cells, own: Color, p0: Square, up: Dir, down: Dir)
    requires OnBottom(p0) && up.dx == -1 && up.dy == 1 && down.dx == -1 && down.dy == -1
    ensures Targets(cells, own, Pawn, p0)
         == Slide(cells, own, Step(p0, Dir(-1, 0))) + Slide(cells, own, Step(p0, up))
            + Slide(cells, own, Step(p0, down))
  {
    hide *;
    PawnPathsAtBottom(p0, up, down);
    TargetsAlong(cells, own, Pawn, p0);
    ThreePaths(cells, own, Step(p0, Dir(-1, 0)), Step(p0, up), Step(p0, down));
  }

  lemma PawnSteps(cells: Cells, own: Color, p0: Square, t: Square)
    requires OnBottom(p0)
    ensures t in Targets(cells, own, Pawn, p0) <==> PawnNeighbour(p0, t) && !Owns(cells, t, own)
  {
    hide Ring, Slide, Targets, Owns, PawnNeighbour, OnBottom, Step;
    var f, up, down := Dir(-1, 0), Dir(-1, 1), Dir(-1, -1);
    PawnTargets(cells, own, p0, up, down);
    StepSlide(cells, own, p0, f, t);
    StepSlide(cells, own, p0, up, t);
    StepSlide(cells, own, p0, down, t);
    PawnNeighbours(p0, t);
  }

  lemma OpenPawnNeighbours(cells: Cells, own: Color, p0: Square, ts: set<Square>)
    requires OnBottom(p0)
    requires forall t: Square :: t in ts <==> PawnNeighbour(p0, t) && !Owns(cells, t, own)
    ensures ts == Targets(cells, own, Pawn, p0)
  {
    forall t: Square ensures t in ts <==> t in Targets(cells, own, Pawn, p0) {
      PawnSteps(cells, own, p0, t);
    }
  }

  function PawnPromos(promote: bool): set<Promo> {
    if promote then {ToRook, ToBishop} else {NoPromo}
  }

  /** Adds the pawn move to p1, or both promotions there, unless a piece of the mover stands there. */
  method TryPawnMove(p0: Square, p1: Square, board: seq<bv8>, promote: bool, moves: set<Move>,
                     ghost reached: set<Square>)
    returns (more: set<Move>, ghost further: set<Square>)
    requires Bottom(p0, board)
    requires MovesAre(moves, p0, reached, PawnPromos(promote))
    ensures forall t :: (t in further
      <==> t in reached || (t == p1 && !Owns(CellsOf(board), p1, Decode(board[Index(p0)]).color)))
    ensures MovesAre(more, p0, further, PawnPromos(promote))
  {
    more, further := moves, reached;
    OwnTest(board, p1, p0);
    if board[Index(p1)] & ColorPart(board[Index(p0)]) == 0 {
      further := further + {p1};
      if promote {
        more := more + {Move(p0, p1, ToRook)} + {Move(p0, p1, ToBishop)};
      } else {
        more := more + {Move(p0, p1, NoPromo)};
      }
    }
  }

  method PawnMoves(p0: Square, board: seq<bv8>, promote: bool) returns (moves: set<Move>)
    requires Bottom(p0, board)
    requires promote ==> Index(p0) == 3 || Index(p0) == 11
    ensures MovesAre(moves, p0, Targets(CellsOf(board), Decode(board[Index(p0)]).color, Pawn, p0),
                             PawnPromos(promote))
  {
    moves := {};
    ghost var reached: set<Square> := {};
    moves, reached := TryPawnMove(p0, Sq(p0.x - 1, 0), board, promote, moves, reached);
    moves, reached := TryPawnMove(p0, Sq(p0.x - 1, 1), board, promote, moves, reached);
    if Index(p0) == 10 { moves, reached := TryPawnMove(p0, Sq(1, 2), board, false, moves, reached); }
    OpenPawnNeighbours(CellsOf(board), Decode(board[Index(p0)]).color, p0, reached);
  }

  // ---------------------------------------------------------------- rook

  /** One more square of a slide: what the loops below do with it. */
  lemma SlideCons(cells: Cells, own: Color, p1: Square, rest: seq<Square>)
    ensures p1 !in cells ==> Slide(cells, own, [p1] + rest) == {p1} + Slide(cells, own, rest)
    ensures p1 in cells ==> Slide(cells, own, [p1] + rest) == if Owns(cells, p1, own) then {} else {p1}
  {
  }

  /** The body of every sliding loop: an empty square is added and the slide goes on; a piece
      ends it, and an enemy piece can be captured. */
  method Visit(p0: Square, p1: Square, board: seq<bv8>, moves: set<Move>, ghost reached: set<Square>,
               ghost rest: seq<Square>)
    returns (more: set<Move>, ghost further: set<Square>, blocked: bool)
    requires Bottom(p0, board)
    requires MovesAre(moves, p0, reached, {NoPromo})
    ensures MovesAre(more, p0, further, {NoPromo})
    ensures blocked <==> p1 in CellsOf(board)
    ensures !blocked ==> further == reached + {p1}
    ensures var cells, own := CellsOf(board), Decode(board[Index(p0)]).color;
      reached + Slide(cells, own, [p1] + rest) == further + if blocked then {} else Slide(cells, own, rest)
  {
    more, further, blocked := moves, reached, false;
    OwnTest(board, p1, p0);
    SlideCons(CellsOf(board), Decode(board[Index(p0)]).color, p1, rest);
    if board[Index(p1)] != 0 {
      blocked := true;
      if board[Index(p1)] & ColorPart(board[Index(p0)]) != 0 { return; }
    }
    more, further := more + {Move(p0, p1, NoPromo)}, further + {p1};
  }

  /** The squares above p0: one step, and from (1,0) the whole lane. */
  ghost function UpwardPath(p0: Square): seq<Square> {
    if Index(p0) == 1 then Lane(p0, Dir(0, 1)) else Step(p0, Dir(0, 1))
  }

  /** The inner lane x = 1 above row y. */
  ghost function InnerLane(y: int): seq<Square> {
    if 0 <= y <= 6 then Lane(Sq(1, y), Dir(0, 1)) else []
  }

  lemma InnerStep(y: int)
    ensures 1 <= y <= 6 ==> InnerLane(y - 1) == [Sq(1, y)] + InnerLane(y)
    ensures y == 7 ==> InnerLane(y - 1) == []
  {
    assert Go(Sq(1, y - 1), Dir(0, 1)) == Sq(1, y);
  }

  lemma InnerStart(p0: Square)
    requires Index(p0) == 1
    ensures UpwardPath(p0) == InnerLane(p0.y) && p0.y == 0
  {
    hide Lane;
    IndexOne(p0);
  }

  /** The loop over the inner lane from (1,0) upwards. */
  method SlideUp(p0: Square, board: seq<bv8>, moves: set<Move>, ghost reached: set<Square>)
    returns (more: set<Move>, ghost further: set<Square>)
    requires Bottom(p0, board) && Index(p0) == 1
    requires MovesAre(moves, p0, reached, {NoPromo})
    ensures further == reached + Slide(CellsOf(board), Decode(board[Index(p0)]).color, UpwardPath(p0))
    ensures MovesAre(more, p0, further, {NoPromo})
  {
    hide InnerLane, UpwardPath, Decode, CellsOf, MovesAre;
    ghost var cells, own := CellsOf(board), Decode(board[Index(p0)]).color;
    more, further := moves, reached;
    ghost var goal := reached + Slide(cells, own, UpwardPath(p0));
    InnerStart(p0);
    for y := 1 to 7
      invariant MovesAre(more, p0, further, {NoPromo})
      invariant goal == further + Slide(cells, own, InnerLane(y - 1))
    {
      InnerStep(y);
      var blocked: bool;
      more, further, blocked := Visit(p0, Sq(1, y), board, more, further, InnerLane(y));
      if blocked { break; }
    }
    InnerStep(7);
  }

  /** The forward path from (x, y): the lane, and beyond the corner the left edge. */
  ghost function ForwardFrom(x: int, y: int): seq<Square> {
    if 0 <= x <= 6 && 0 <= y <= 1 then LaneAroundCorner(Sq(x, y), Dir(-1, 0)) else []
  }

  /** The left edge above the corner, for the outer lane only. */
  ghost function Reflection(y: int): seq<Square> {
    if y == 0 then Lane(Sq(0, y), Dir(0, 1)) else []
  }

  lemma ForwardStep(x: int, y: int)
    requires 0 <= y <= 1
    ensures 0 <= x <= 5 ==> ForwardFrom(x + 1, y) == [Sq(x, y)] + ForwardFrom(x, y)
    ensures x == -1 ==> ForwardFrom(x + 1, y) == Reflection(y)
  {
    assert Go(Sq(x + 1, y), Dir(-1, 0)) == Sq(x, y);
  }

  /** The loop along the forward lane, up to the left edge. What it leaves for the reflection is
      the lane from the corner upwards. */
  method SlideForward(p0: Square, board: seq<bv8>, moves: set<Move>, ghost reached: set<Square>)
    returns (more: set<Move>, ghost further: set<Square>, reflBlocked: bool)
    requires Bottom(p0, board)
    requires MovesAre(moves, p0, reached, {NoPromo})
    ensures MovesAre(more, p0, further, {NoPromo})
    ensures var cells, own := CellsOf(board), Decode(board[Index(p0)]).color;
      reached + Slide(cells, own, ForwardFrom(p0.x, p0.y))
      == further + if reflBlocked then {} else Slide(cells, own, Reflection(p0.y))
    ensures !reflBlocked ==> Sq(0, p0.y) in further && Sq(0, p0.y) !in CellsOf(board)
  {
    ghost var cells, own := CellsOf(board), Decode(board[Index(p0)]).color;
    more, further, reflBlocked := moves, reached, false;
    ghost var goal := reached + Slide(cells, own, ForwardFrom(p0.x, p0.y));
    for x := p0.x downto 0
      invariant !reflBlocked
      invariant MovesAre(more, p0, further, {NoPromo})
      invariant goal == further + Slide(cells, own, ForwardFrom(x, p0.y))
      invariant x == 0 ==> Sq(0, p0.y) in further && Sq(0, p0.y) !in cells
    {
      ForwardStep(x, p0.y);
      more, further, reflBlocked := Visit(p0, Sq(x, p0.y), board, more, further, ForwardFrom(x, p0.y));
      if reflBlocked { break; }
    }
    ForwardStep(-1, p0.y);
  }

  /** The left edge from row y upwards. */
  ghost function LeftEdge(y: int): seq<Square>
    requires 0 <= y
    decreases 7 - y
  {
    if y > 6 then [] else [Sq(0, y)] + LeftEdge(y + 1)
  }

  lemma {:induction false} LeftEdgeIsLane(y: int)
    requires 0 <= y <= 6
    ensures Lane(Sq(0, y), Dir(0, 1)) == LeftEdge(y + 1)
    decreases 7 - y
  {
    if y < 6 { LeftEdgeIsLane(y + 1); }
  }

  lemma ReflectionIsLeftEdge(y: int)
    requires y == 0
    ensures Reflection(y) == LeftEdge(y + 1)
  {
    hide Lane, LeftEdge;
    LeftEdgeIsLane(y);
  }

  lemma LeftEdgeOn(y: int)
    requires 0 <= y <= 6
    ensures LeftEdge(y) == [Sq(0, y)] + LeftEdge(y + 1)
  {
  }

  lemma LeftEdgeEnds()
    ensures LeftEdge(7) == []
  {
  }

  lemma EmptySlide(cells: Cells, own: Color)
    ensures Slide(cells, own, []) == {}
  {
  }

  /** left_rook_reflect */
  method EdgeSquare(y: int) returns (p1: Square)
    requires 0 <= y < 7
    ensures p1 == Sq(0, y)
  {
    var leftRookReflect := [0, 8, 16, 24, 32, 40, 48];
    assert leftRookReflect[y] == Index(Sq(0, y));
    p1 := FromIndex(leftRookReflect[y]);
    IndexInjective(p1, Sq(0, y));
  }

  /** The loop along the left edge, which starts over on the corner square. */
  method SlideReflected(p0: Square, board: seq<bv8>, moves: set<Move>, ghost reached: set<Square>)
    returns (more: set<Move>, ghost further: set<Square>)
    requires Bottom(p0, board) && p0.y == 0
    requires MovesAre(moves, p0, reached, {NoPromo})
    requires Sq(0, p0.y) in reached && Sq(0, p0.y) !in CellsOf(board)
    ensures MovesAre(more, p0, further, {NoPromo})
    ensures further == reached + Slide(CellsOf(board), Decode(board[Index(p0)]).color, Reflection(p0.y))
  {
    hide Slide, CellsOf, Decode, MovesAre, LeftEdge, Reflection;
    ghost var cells, own := CellsOf(board), Decode(board[Index(p0)]).color;
    more, further := moves, reached;
    ghost var goal := reached + Slide(cells, own, LeftEdge(p0.y + 1));
    ReflectionIsLeftEdge(p0.y);
    LeftEdgeOn(p0.y);
    LeftEdgeEnds();
    EmptySlide(cells, own);
    SlideCons(cells, own, Sq(0, p0.y), LeftEdge(p0.y + 1));
    for y := 0 to 7
      invariant MovesAre(more, p0, further, {NoPromo})
      invariant goal == further + Slide(cells, own, LeftEdge(y))
    {
      var p1 := EdgeSquare(y);
      LeftEdgeOn(y);
      var blocked: bool;
      more, further, blocked := Visit(p0, p1, board, more, further, LeftEdge(y + 1));
      if blocked { break; }
    }
  }

  ghost predicate RookStep(p0: Square, t: Square) {
    ((Index(p0) < 8 || Index(p0) == 13) && t == Sq(p0.x, p0.y + 1))
    || (Index(p0) >= 8 && t == Sq(p0.x, p0.y - 1))
    || (Index(p0) != 6 && t == Sq(p0.x + 1, p0.y))
  }

  lemma RookSteps(p0: Square, t: Square)
    requires OnBottom(p0)
    ensures RookStep(p0, t)
       <==> Ring(t) && (t == Sq(p0.x, p0.y + 1) || t == Sq(p0.x, p0.y - 1) || t == Sq(p0.x + 1, p0.y))
  {
  }

  lemma ForwardAtBottom(p0: Square)
    requires OnBottom(p0)
    ensures Ring(p0) && Forward(p0) == Dir(-1, 0)
  {
  }

  lemma IndexOne(s: Square)
    ensures Index(s) == 1 <==> s.x == 1 && s.y == 0
  {
    IndexParts(s);
  }

  lemma OneBeforeCorner(p0: Square)
    requires OnBottom(p0)
    ensures Corner(Go(p0, Dir(-1, 0))) <==> p0.x == 1 && p0.y == 0
  {
  }

  lemma CornerAhead(p0: Square)
    requires OnBottom(p0)
    ensures Corner(Go(p0, Dir(-1, 0))) <==> Index(p0) == 1
  {
    hide *;
    IndexOne(p0);
    OneBeforeCorner(p0);
  }

  lemma TargetsAlong(cells: Cells, own: Color, kind: Kind, s: Square)
    requires Ring(s) && kind != King
    ensures Targets(cells, own, kind, s) == SlideAll(cells, own, Paths(kind, s))
  {
    hide Slide, SlideAll, Paths, Ring;
  }

  lemma RookPathsAtBottom(p0: Square)
    requires OnBottom(p0)
    ensures Ring(p0)
    ensures Paths(Rook, p0) == [ForwardFrom(p0.x, p0.y), Step(p0, Dir(1, 0)), Step(p0, Dir(0, -1)), UpwardPath(p0)]
  {
    hide Ring, Forward, Lane, LaneAroundCorner, Step, Corner, Go;
    ForwardAtBottom(p0);
    CornerAhead(p0);
  }

  lemma RookTargets(cells: Cells, own: Color, p0: Square)
    requires OnBottom(p0)
    ensures Targets(cells, own, Rook, p0)
         == Slide(cells, own, ForwardFrom(p0.x, p0.y)) + Slide(cells, own, Step(p0, Dir(1, 0)))
            + Slide(cells, own, Step(p0, Dir(0, -1))) + Slide(cells, own, UpwardPath(p0))
  {
    hide *;
    RookPathsAtBottom(p0);
    TargetsAlong(cells, own, Rook, p0);
    FourPaths(cells, own, ForwardFrom(p0.x, p0.y), Step(p0, Dir(1, 0)), Step(p0, Dir(0, -1)), UpwardPath(p0));
  }

  lemma UpwardSlide(cells: Cells, own: Color, p0: Square, t: Square)
    requires OnBottom(p0)
    ensures t in Slide(cells, own, UpwardPath(p0))
       <==> (Ring(t) && t == Go(p0, Dir(0, 1)) && !Owns(cells, t, own))
            || (Index(p0) == 1 && t in Slide(cells, own, UpwardPath(p0)))
  {
    StepSlide(cells, own, p0, Dir(0, 1), t);
    if Index(p0) == 1 {
      SlideCons(cells, own, Go(p0, Dir(0, 1)), Lane(Go(p0, Dir(0, 1)), Dir(0, 1)));
    }
  }

  lemma RookReaches(cells: Cells, own: Color, p0: Square, t: Square)
    requires OnBottom(p0)
    ensures t in Targets(cells, own, Rook, p0)
       <==> t in Slide(cells, own, ForwardFrom(p0.x, p0.y))
            || (Index(p0) == 1 && t in Slide(cells, own, UpwardPath(p0)))
            || (RookStep(p0, t) && !Owns(cells, t, own))
  {
    hide Targets, Slide, ForwardFrom, UpwardPath, Ring, Owns, RookStep, OnBottom, Index, Step;
    RookTargets(cells, own, p0);
    UpwardSlide(cells, own, p0, t);
    StepSlide(cells, own, p0, Dir(1, 0), t);
    StepSlide(cells, own, p0, Dir(0, -1), t);
    RookSteps(p0, t);
  }

  /** The three single steps. */
  method RookStepMoves(p0: Square, board: seq<bv8>) returns (moves: set<Move>, ghost reached: set<Square>)
    requires Bottom(p0, board)
    ensures forall t: Square :: (t in reached
      <==> RookStep(p0, t) && !Owns(CellsOf(board), t, Decode(board[Index(p0)]).color))
    ensures MovesAre(moves, p0, reached, {NoPromo})
  {
    moves, reached := {}, {};
    if Index(p0) < 8 || Index(p0) == 13 {
      moves, reached := TryMove(p0, Sq(p0.x, p0.y + 1), board, moves, reached);
    }
    if Index(p0) >= 8 { moves, reached := TryMove(p0, Sq(p0.x, p0.y - 1), board, moves, reached); }
    if Index(p0) != 6 { moves, reached := TryMove(p0, Sq(p0.x + 1, p0.y), board, moves, reached); }
  }

  /** The rook's targets put together the way the generator does. */
  lemma RookReached(cells: Cells, own: Color, p0: Square, steps: set<Square>, reached: set<Square>)
    requires OnBottom(p0)
    requires forall t: Square :: t in steps <==> RookStep(p0, t) && !Owns(cells, t, own)
    requires reached == steps + (if Index(p0) == 1 then Slide(cells, own, UpwardPath(p0)) else {})
                        + Slide(cells, own, ForwardFrom(p0.x, p0.y))
    ensures reached == Targets(cells, own, Rook, p0)
  {
    hide Targets, RookStep, Owns, Slide, UpwardPath, ForwardFrom, OnBottom, Index;
    forall t: Square ensures t in reached <==> t in Targets(cells, own, Rook, p0) {
      RookReaches(cells, own, p0, t);
    }
  }

  /** Forward, and along the left edge if the outer lane was clear. */
  method SlideAround(p0: Square, board: seq<bv8>, moves: set<Move>, ghost reached: set<Square>)
    returns (more: set<Move>, ghost further: set<Square>)
    requires Bottom(p0, board)
    requires MovesAre(moves, p0, reached, {NoPromo})
    ensures MovesAre(more, p0, further, {NoPromo})
    ensures further == reached + Slide(CellsOf(board), Decode(board[Index(p0)]).color, ForwardFrom(p0.x, p0.y))
  {
    var reflBlocked: bool;
    more, further, reflBlocked := SlideForward(p0, board, moves, reached);
    if !reflBlocked && Index(p0) < 8 {
      more, further := SlideReflected(p0, board, more, further);
    }
  }

  method RookMoves(p0: Square, board: seq<bv8>) returns (moves: set<Move>)
    requires Bottom(p0, board)
    ensures MovesAre(moves, p0, Targets(CellsOf(board), Decode(board[Index(p0)]).color, Rook, p0), {NoPromo})
  {
    hide Slide, CellsOf, Decode, MovesAre, Targets, RookStep, Owns, ForwardFrom, UpwardPath;
    ghost var steps, reached: set<Square>;
    moves, steps := RookStepMoves(p0, board);
    reached := steps;
    if Index(p0) == 1 { moves, reached := SlideUp(p0, board, moves, reached); }
    moves, reached := SlideAround(p0, board, moves, reached);
    RookReached(CellsOf(board), Decode(board[Index(p0)]).color, p0, steps, reached);
  }
}
