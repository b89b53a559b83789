/** Turning the board commutes with the rules: this is what lets move generation be written for
    the bottom side only. */
module Symmetry {
  import opened Geometry
  import opened Rules

  /** The board turned by t: what stood on s stands on Rot(t, s). */
  ghost function TurnCells(t: Turn, cells: Cells): (r: Cells)
  {
    map s | s in AllSquares() && Rot(Inverse(t), s) in cells :: cells[Rot(Inverse(t), s)]
  }

  lemma RotInverses(t: Turn)
    ensures forall s: Square :: Rot(t, Rot(Inverse(t), s)) == s
    ensures forall s: Square :: Rot(Inverse(t), Rot(t, s)) == s
  {
    forall s: Square
      ensures Rot(t, Rot(Inverse(t), s)) == s && Rot(Inverse(t), Rot(t, s)) == s
    {
      RotInverse(t, s);
    }
  }

  lemma TurnCellsAt(t: Turn, cells: Cells, s: Square)
    ensures Rot(t, s) in TurnCells(t, cells) <==> s in cells
    ensures s in cells ==> TurnCells(t, cells)[Rot(t, s)] == cells[s]
  {
    RotInverse(t, s);
  }

  lemma TurnCellsUnique(t: Turn, cells: Cells, r: Cells)
    requires forall s: Square :: Rot(t, s) in r <==> s in cells
    requires forall s: Square :: s in cells ==> r[Rot(t, s)] == cells[s]
    ensures r == TurnCells(t, cells)
  {
    forall s: Square ensures s in r <==> s in TurnCells(t, cells)
      ensures s in r ==> r[s] == TurnCells(t, cells)[s]
    {
      hide Rot;
      var u := Rot(Inverse(t), s);
      assert Rot(t, u) == s by { RotInverse(t, s); }
      assert u in cells <==> s in r;
    }
  }

  function TurnPath(path: seq<Square>): (r: seq<Square>)
    ensures |r| == |path|
    ensures forall i :: 0 <= i < |path| ==> r[i] == Rot(R90, path[i])
  {
    seq(|path|, i requires 0 <= i < |path| => Rot(R90, path[i]))
  }

  lemma TurnPathCons(s: Square, path: seq<Square>)
    ensures TurnPath([s] + path) == [Rot(R90, s)] + TurnPath(path)
  {
  }

  /** Steps turn with the board. */
  lemma GoTurns(s: Square, d: Dir)
    requires Ring(s)
    ensures Ring(Go(Rot(R90, s), Clockwise(d))) <==> Ring(Go(s, d))
    ensures Ring(Go(s, d)) ==> Go(Rot(R90, s), Clockwise(d)) == Rot(R90, Go(s, d))
  {
  }

  lemma StepTurns(s: Square, d: Dir)
    requires Ring(s)
    ensures Step(Rot(R90, s), Clockwise(d)) == TurnPath(Step(s, d))
  {
    GoTurns(s, d);
  }

  lemma {:induction false} LaneTurns(s: Square, d: Dir)
    requires Ring(s) && IsDir(d)
    ensures Lane(Rot(R90, s), Clockwise(d)) == TurnPath(Lane(s, d))
    decreases Room(s, d)
  {
    GoTurns(s, d);
    if Ring(Go(s, d)) {
      LaneTurns(Go(s, d), d);
      TurnPathCons(Go(s, d), Lane(Go(s, d), d));
    }
  }

  lemma {:induction false} LaneAroundCornerTurns(s: Square, d: Dir)
    requires Ring(s) && IsDir(d)
    ensures LaneAroundCorner(Rot(R90, s), Clockwise(d)) == TurnPath(LaneAroundCorner(s, d))
    decreases Room(s, d)
  {
    GoTurns(s, d);
    if Ring(Go(s, d)) {
      LaneAroundCornerTurns(Go(s, d), d);
      TurnPathCons(Go(s, d), LaneAroundCorner(Go(s, d), d));
    } else if Corner(s) {
      LaneTurns(s, Clockwise(d));
    }
  }

  lemma {:induction false} BounceTurns(s: Square, d: Dir)
    requires Ring(s) && IsDiagonal(d)
    ensures Bounce(Rot(R90, s), Clockwise(d)) == TurnPath(Bounce(s, d))
    decreases Room(s, d)
  {
    GoTurns(s, d);
    if Ring(Go(s, d)) {
      BounceTurns(Go(s, d), d);
      TurnPathCons(Go(s, d), Bounce(Go(s, d), d));
    } else {
      ReflectionTurns(s, d);
    }
  }

  lemma WallsTurn(s: Square, d: Dir)
    requires Ring(s) && IsDiagonal(d)
    ensures HitsVertical(Rot(R90, s), Clockwise(d)) <==> HitsHorizontal(s, d)
    ensures HitsHorizontal(Rot(R90, s), Clockwise(d)) <==> HitsVertical(s, d)
  {
    hide Ring, Rot, Go;
    GoTurns(s, Dir(d.dx, 0));
    GoTurns(s, Dir(0, d.dy));
  }

  lemma BounceAtWall(s: Square, d: Dir)
    requires Ring(s) && IsDiagonal(d) && !Ring(Go(s, d))
    ensures !(HitsVertical(s, d) && HitsHorizontal(s, d))
    ensures HitsVertical(s, d) ==> Bounce(s, d) == Lane(s, Dir(-d.dx, d.dy))
    ensures HitsHorizontal(s, d) ==> Bounce(s, d) == Lane(s, Dir(d.dx, -d.dy))
    ensures !HitsVertical(s, d) && !HitsHorizontal(s, d) ==> Bounce(s, d) == []
  {
    hide Ring, Lane, Go;
  }

  lemma ReflectionTurns(s: Square, d: Dir)
    requires Ring(s) && IsDiagonal(d) && !Ring(Go(s, d))
    ensures Bounce(Rot(R90, s), Clockwise(d)) == TurnPath(Bounce(s, d))
  {
    hide Ring, Lane, Bounce, Rot, Go, HitsVertical, HitsHorizontal;
    RingTurns(s);
    GoTurns(s, d);
    WallsTurn(s, d);
    BounceAtWall(s, d);
    BounceAtWall(Rot(R90, s), Clockwise(d));
    LaneTurns(s, Dir(-d.dx, d.dy));
    LaneTurns(s, Dir(d.dx, -d.dy));
  }

  /** Two sets of squares are images of each other under a quarter turn. */
  ghost predicate Images(a: set<Square>, b: set<Square>) {
    forall u: Square :: u in a <==> Rot(R90, u) in b
  }

  lemma {:induction false} SlideTurns(cells: Cells, own: Color, path: seq<Square>)
    ensures Images(Slide(cells, own, path), Slide(TurnCells(R90, cells), own, TurnPath(path)))
  {
    hide Rot, TurnCells;
    if path != [] {
      TurnCellsAt(R90, cells, path[0]);
      SlideTurns(cells, own, path[1..]);
      assert TurnPath(path)[1..] == TurnPath(path[1..]);
      RotInverses(R90);
    }
  }

  lemma RingTurns(s: Square)
    requires Ring(s)
    ensures Ring(Rot(R90, s))
  {
  }

  lemma ForwardTurns(s: Square)
    requires Ring(s)
    ensures Forward(Rot(R90, s)) == Clockwise(Forward(s))
  {
  }

  ghost predicate PathsImage(ps: seq<seq<Square>>, qs: seq<seq<Square>>) {
    |ps| == |qs| && forall i :: 0 <= i < |ps| ==> qs[i] == TurnPath(ps[i])
  }

  lemma StepTurnsTo(s: Square, d: Dir, e: Dir)
    requires Ring(s) && e == Clockwise(d)
    ensures Step(Rot(R90, s), e) == TurnPath(Step(s, d))
  {
    StepTurns(s, d);
  }

  lemma BounceTurnsTo(s: Square, d: Dir, e: Dir)
    requires Ring(s) && IsDiagonal(d) && e == Clockwise(d)
    ensures Bounce(Rot(R90, s), e) == TurnPath(Bounce(s, d))
  {
    BounceTurns(s, d);
  }

  /** A quarter turn takes the square and its two directions to the primed ones. */
  predicate TurnedFrame(s: Square, f: Dir, r: Dir, s': Square, f': Dir, r': Dir) {
    Ring(s) && Ring(s') && s' == Rot(R90, s) && IsStraight(f) && IsStraight(f')
    && r == f' == Clockwise(f) && r' == Clockwise(f')
  }

  lemma PawnPathsTurn(s: Square, f: Dir, r: Dir, s': Square, f': Dir, r': Dir)
    requires TurnedFrame(s, f, r, s', f', r')
    ensures PathsImage(PathsAlong(Pawn, s, f, r), PathsAlong(Pawn, s', f', r'))
  {
    StepTurnsTo(s, f, f');
    StepTurnsTo(s, Plus(f, r), Plus(f', r'));
    StepTurnsTo(s, Plus(f, Back(r)), Plus(f', Back(r')));
  }

  lemma RookPathsTurn(s: Square, f: Dir, r: Dir, s': Square, f': Dir, r': Dir)
    requires TurnedFrame(s, f, r, s', f', r')
    ensures PathsImage(PathsAlong(Rook, s, f, r), PathsAlong(Rook, s', f', r'))
  {
    hide LaneAroundCorner, Lane, Step, Corner, Go, Ring, Rot;
    LaneAroundCornerTurns(s, f);
    StepTurnsTo(s, Back(f), Back(f'));
    StepTurnsTo(s, Back(r), Back(r'));
    StepTurnsTo(s, r, r');
    LaneTurns(s, r);
    CornerTurns(s, f, f');
  }

  lemma CornerTurns(s: Square, f: Dir, f': Dir)
    requires Ring(s) && f' == Clockwise(f)
    ensures Corner(Go(s, f)) <==> Corner(Go(Rot(R90, s), f'))
  {
  }

  lemma DiagonalRight(f: Dir, r: Dir)
    requires IsStraight(f) && r == Clockwise(f)
    ensures IsDiagonal(Plus(f, r))
  {
  }

  lemma DiagonalLeft(f: Dir, r: Dir)
    requires IsStraight(f) && r == Clockwise(f)
    ensures IsDiagonal(Plus(f, Back(r)))
  {
  }

  lemma BishopPathsTurnAlong(s: Square, a: Dir, b: Dir, a': Dir, b': Dir)
    requires Ring(s) && IsDiagonal(a) && IsDiagonal(b) && a' == Clockwise(a) && b' == Clockwise(b)
    ensures PathsImage([Bounce(s, a), Bounce(s, b), Step(s, Back(b)), Step(s, Back(a))],
                       [Bounce(Rot(R90, s), a'), Bounce(Rot(R90, s), b'),
                        Step(Rot(R90, s), Back(b')), Step(Rot(R90, s), Back(a'))])
  {
    BounceTurnsTo(s, a, a');
    BounceTurnsTo(s, b, b');
    StepTurnsTo(s, Back(b), Back(b'));
    StepTurnsTo(s, Back(a), Back(a'));
    FourImages(Bounce(s, a), Bounce(s, b), Step(s, Back(b)), Step(s, Back(a)),
               Bounce(Rot(R90, s), a'), Bounce(Rot(R90, s), b'),
               Step(Rot(R90, s), Back(b')), Step(Rot(R90, s), Back(a')));
  }

  lemma FourImages(a: seq<Square>, b: seq<Square>, c: seq<Square>, d: seq<Square>,
                   a': seq<Square>, b': seq<Square>, c': seq<Square>, d': seq<Square>)
    requires a' == TurnPath(a) && b' == TurnPath(b) && c' == TurnPath(c) && d' == TurnPath(d)
    ensures PathsImage([a, b, c, d], [a', b', c', d'])
  {
  }

  lemma BishopPathsTurn(s: Square, f: Dir, r: Dir, s': Square, f': Dir, r': Dir)
    requires TurnedFrame(s, f, r, s', f', r')
    ensures PathsImage(PathsAlong(Bishop, s, f, r), PathsAlong(Bishop, s', f', r'))
  {
    DiagonalRight(f, r);
    DiagonalLeft(f, r);
    BishopPathsTurnAlong(s, Plus(f, r), Plus(f, Back(r)), Plus(f', r'), Plus(f', Back(r')));
  }

  /** Every piece other than the king has the same paths on all four sides. */
  lemma PathsTurn(kind: Kind, s: Square)
    requires Ring(s) && kind != King
    ensures PathsImage(Paths(kind, s), Paths(kind, Rot(R90, s)))
  {
    ForwardTurns(s);
    RingTurns(s);
    var f := Forward(s);
    var r := Clockwise(f);
    match kind
    case Pawn => PawnPathsTurn(s, f, r, Rot(R90, s), r, Clockwise(r));
    case Rook => RookPathsTurn(s, f, r, Rot(R90, s), r, Clockwise(r));
    case Bishop => BishopPathsTurn(s, f, r, Rot(R90, s), r, Clockwise(r));
  }

  lemma UnionImages(cells: Cells, own: Color, ps: seq<seq<Square>>, qs: seq<seq<Square>>)
    requires PathsImage(ps, qs)
    ensures Images(SlideAll(cells, own, ps), SlideAll(TurnCells(R90, cells), own, qs))
  {
    forall i | 0 <= i < |ps|
      ensures Images(Slide(cells, own, ps[i]), Slide(TurnCells(R90, cells), own, qs[i]))
    {
      SlideTurns(cells, own, ps[i]);
    }
  }

  lemma SlideAllTurns(cells: Cells, own: Color, kind: Kind, s: Square)
    requires Ring(s) && kind != King
    ensures Images(SlideAll(cells, own, Paths(kind, s)),
                   SlideAll(TurnCells(R90, cells), own, Paths(kind, Rot(R90, s))))
  {
    PathsTurn(kind, s);
    UnionImages(cells, own, Paths(kind, s), Paths(kind, Rot(R90, s)));
  }

  lemma KingTurns(cells: Cells, own: Color, s: Square)
    requires Ring(s)
    ensures Images(KingTargets(cells, own, s), KingTargets(TurnCells(R90, cells), own, Rot(R90, s)))
  {
    hide Rot, Adjacent, Ring, TurnCells;
    forall u: Square
      ensures u in KingTargets(cells, own, s)
         <==> Rot(R90, u) in KingTargets(TurnCells(R90, cells), own, Rot(R90, s))
    {
      AdjacentTurns(s, u);
      TurnCellsAt(R90, cells, u);
    }
  }

  lemma AdjacentTurns(s: Square, u: Square)
    requires Ring(s)
    ensures Ring(u) && Adjacent(s, u) <==> Ring(Rot(R90, u)) && Adjacent(Rot(R90, s), Rot(R90, u))
  {
  }

  lemma TargetsTurnQuarter(cells: Cells, own: Color, kind: Kind, s: Square)
    ensures Images(Targets(cells, own, kind, s), Targets(TurnCells(R90, cells), own, kind, Rot(R90, s)))
  {
    if Ring(s) {
      if kind == King { KingTurns(cells, own, s); } else { SlideAllTurns(cells, own, kind, s); }
    }
  }

  lemma TurnNext(t: Turn, cells: Cells)
    ensures TurnCells(Next(t), cells) == TurnCells(R90, TurnCells(t, cells))
  {
    hide Rot;
    var a, b := TurnCells(Next(t), cells), TurnCells(R90, TurnCells(t, cells));
    forall u: Square ensures u in a <==> u in b
      ensures u in a ==> a[u] == b[u]
    {
      RotCompose(Inverse(t), R270, u);
      assert Compose(Inverse(t), R270) == Inverse(Next(t));
    }
  }

  /** How many quarter turns t is. */
  function Quarters(t: Turn): nat {
    match t
    case R0 => 0
    case R90 => 1
    case R180 => 2
    case R270 => 3
  }

  /** Rotation equivariance: turning the position and then moving is moving and then turning. */
  lemma {:induction false} TargetsTurn(t: Turn, cells: Cells, own: Color, kind: Kind, s: Square)
    ensures forall u: Square ::
      u in Targets(cells, own, kind, s) <==> Rot(t, u) in Targets(TurnCells(t, cells), own, kind, Rot(t, s))
    decreases Quarters(t)
  {
    if t == R0 {
      TurnCellsUnique(R0, cells, cells);
    } else {
      var p := if t == R90 then R0 else if t == R180 then R90 else R180;
      TargetsTurn(p, cells, own, kind, s);
      TurnNext(p, cells);
      TargetsTurnQuarter(TurnCells(p, cells), own, kind, Rot(p, s));
      RotCompose(R90, p, s);
      forall u: Square
        ensures u in Targets(cells, own, kind, s) <==> Rot(t, u) in Targets(TurnCells(t, cells), own, kind, Rot(t, s))
      {
        RotCompose(R90, p, u);
      }
    }
  }
}
