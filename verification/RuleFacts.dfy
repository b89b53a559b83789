/** What the rules promise on every board: the ray rule, and closure of the generated moves. */
module RuleFacts {
  import opened Geometry
  import opened Rules

  /** The ray rule: a slide reaches exactly the squares of the path that are preceded by empty
      squares only and do not hold an own piece. */
  lemma {:induction false} SlideRule(cells: Cells, own: Color, path: seq<Square>, t: Square)
    ensures t in Slide(cells, own, path)
       <==> !Owns(cells, t, own)
            && exists k :: 0 <= k < |path| && path[k] == t && forall j :: 0 <= j < k ==> path[j] !in cells
  {
    if path != [] {
      SlideRule(cells, own, path[1..], t);
      if path[0] !in cells {
        if t in Slide(cells, own, path[1..]) {
          var k :| 0 <= k < |path| - 1 && path[1..][k] == t && forall j :: 0 <= j < k ==> path[1..][j] !in cells;
          forall j | 0 <= j < k + 1 ensures path[j] !in cells {
            if j > 0 { assert path[j] == path[1..][j - 1]; }
          }
          assert path[k + 1] == t;
        }
        if k :| 0 <= k < |path| && path[k] == t && forall j :: 0 <= j < k ==> path[j] !in cells {
          if k > 0 {
            assert path[1..][k - 1] == t;
            assert forall j :: 0 <= j < k - 1 ==> path[1..][j] == path[j + 1];
          } else {
            assert t == path[0];
          }
        }
      }
    }
  }

  /** t lies strictly further than s in one of the components of d. */
  predicate Beyond(t: Square, s: Square, d: Dir) {
    BeyondX(t, s, d) || BeyondY(t, s, d)
  }

  predicate BeyondX(t: Square, s: Square, d: Dir) {
    (d.dx > 0 && t.x > s.x) || (d.dx < 0 && t.x < s.x)
  }

  predicate BeyondY(t: Square, s: Square, d: Dir) {
    (d.dy > 0 && t.y > s.y) || (d.dy < 0 && t.y < s.y)
  }

  /** A path of ring squares that never comes back to s. */
  ghost predicate Leaves(s: Square, path: seq<Square>) {
    forall t :: t in path ==> Ring(t) && t != s
  }

  lemma {:induction false} LaneBeyond(s: Square, d: Dir)
    requires Ring(s) && IsStraight(d)
    ensures forall t :: t in Lane(s, d) ==> Ring(t) && Beyond(t, s, d)
    ensures d.dx == 0 ==> forall t :: t in Lane(s, d) ==> t.x == s.x
    ensures d.dy == 0 ==> forall t :: t in Lane(s, d) ==> t.y == s.y
    decreases Room(s, d)
  {
    if Ring(Go(s, d)) {
      LaneBeyond(Go(s, d), d);
    }
  }

  /** t is not behind s with respect to d. */
  predicate NotBehind(t: Square, s: Square, d: Dir) {
    (d.dx > 0 ==> t.x >= s.x) && (d.dx < 0 ==> t.x <= s.x)
    && (d.dy > 0 ==> t.y >= s.y) && (d.dy < 0 ==> t.y <= s.y)
  }

  lemma {:induction false} LaneAroundCornerLeaves(s: Square, d: Dir)
    requires Ring(s) && IsStraight(d)
    ensures Leaves(s, LaneAroundCorner(s, d))
    ensures forall t :: t in LaneAroundCorner(s, d) ==> NotBehind(t, s, d)
    decreases Room(s, d)
  {
    if Ring(Go(s, d)) {
      LaneAroundCornerLeaves(Go(s, d), d);
    } else if Corner(s) {
      LaneBeyond(s, Clockwise(d));
    }
  }

  lemma {:induction false} DiagonalBeyond(s: Square, d: Dir)
    requires Ring(s) && IsDiagonal(d)
    ensures forall t :: t in Lane(s, d) ==> Ring(t) && BeyondX(t, s, d) && BeyondY(t, s, d)
    decreases Room(s, d)
  {
    if Ring(Go(s, d)) {
      DiagonalBeyond(Go(s, d), d);
    }
  }

  /** One of the two components survives the reflection, so the path never returns. */
  lemma {:induction false} BounceBeyond(s: Square, d: Dir)
    requires Ring(s) && IsDiagonal(d)
    ensures forall t :: t in Bounce(s, d) ==> Ring(t) && Beyond(t, s, d)
    decreases Room(s, d)
  {
    hide Lane, HitsVertical, HitsHorizontal;
    if Ring(Go(s, d)) {
      BounceBeyond(Go(s, d), d);
    } else if HitsVertical(s, d) {
      DiagonalBeyond(s, Dir(-d.dx, d.dy));
    } else if HitsHorizontal(s, d) {
      DiagonalBeyond(s, Dir(d.dx, -d.dy));
    }
  }

  lemma {:induction false} SlideInPath(cells: Cells, own: Color, path: seq<Square>, t: Square)
    requires t in Slide(cells, own, path)
    ensures t in path && !Owns(cells, t, own)
  {
    SlideRule(cells, own, path, t);
  }

  lemma PawnPathsLeave(s: Square, f: Dir, r: Dir)
    requires Ring(s) && IsStraight(f) && r == Clockwise(f)
    ensures forall i :: 0 <= i < 3 ==> Leaves(s, PathsAlong(Pawn, s, f, r)[i])
  {
  }

  lemma RookPathsLeave(s: Square, f: Dir, r: Dir)
    requires Ring(s) && IsStraight(f) && r == Clockwise(f)
    ensures forall i :: 0 <= i < 4 ==> Leaves(s, PathsAlong(Rook, s, f, r)[i])
  {
    LaneAroundCornerLeaves(s, f);
    LaneBeyond(s, r);
  }

  lemma BishopPathsLeave(s: Square, f: Dir, r: Dir)
    requires Ring(s) && IsStraight(f) && r == Clockwise(f)
    ensures forall i :: 0 <= i < 4 ==> Leaves(s, PathsAlong(Bishop, s, f, r)[i])
  {
    BounceBeyond(s, Plus(f, r));
    BounceBeyond(s, Plus(f, Back(r)));
  }

  /** Generation is closed: every target is a ring square, is not the starting square, and does
      not hold a piece of the mover. */
  lemma TargetsClosed(cells: Cells, own: Color, kind: Kind, s: Square, t: Square)
    requires t in Targets(cells, own, kind, s)
    ensures Ring(t) && t != s && !Owns(cells, t, own)
  {
    if kind != King {
      var f := Forward(s);
      var r := Clockwise(f);
      PawnPathsLeave(s, f, r);
      RookPathsLeave(s, f, r);
      BishopPathsLeave(s, f, r);
      var ps := Paths(kind, s);
      var i :| 0 <= i < |ps| && t in Slide(cells, own, ps[i]);
      assert Leaves(s, ps[i]);
      SlideInPath(cells, own, ps[i], t);
    }
  }

  /** What every pseudolegal move looks like. */
  lemma PseudoShape(cells: Cells, c: Color, m: Move)
    requires IsPseudo(cells, c, m)
    ensures Owns(cells, m.from, c) && Ring(m.to) && m.to != m.from && !Owns(cells, m.to, c)
    ensures m.promo != NoPromo ==> cells[m.from].kind == Pawn
  {
    TargetsClosed(cells, c, cells[m.from].kind, m.from, m.to);
  }
}
