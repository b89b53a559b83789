/** The bishop generator of the bottom side: its table of paths is the reflected diagonal of the
    rules, square by square. */
module BishopGenerator {
  import opened Geometry
  import opened Rules
  import opened Bytes
  import opened Generators
  import opened Symmetry

  /** The forward paths of a bishop on the bottom side, as the table spells them out. */
  function BishopPaths(p0: Square): (seq<Square>, seq<Square>) {
    var i := Index(p0);
    if i == 1 then ([Sq(0, 1), Sq(1, 2)], [])
    else if i == 2 then ([Sq(1, 1), Sq(0, 2), Sq(1, 3)], [])
    else if i == 3 then ([Sq(2, 1), Sq(1, 2), Sq(0, 3), Sq(1, 4), Sq(2, 5), Sq(3, 6)], [])
    else if i == 4 then ([Sq(3, 1), Sq(2, 0)], [])
    else if i == 5 then ([Sq(4, 1), Sq(3, 0)], [])
    else if i == 6 then ([Sq(5, 1)], [])
    else if i == 10 then ([Sq(1, 2), Sq(0, 3), Sq(1, 4), Sq(2, 5), Sq(3, 6)], [Sq(1, 0), Sq(0, 1)])
    else if i == 11 then ([Sq(2, 0), Sq(1, 1), Sq(0, 2)], [])
    else if i == 12 then ([Sq(3, 0), Sq(2, 1), Sq(1, 2), Sq(0, 3)], [])
    else if i == 13 then ([Sq(4, 0), Sq(3, 1)], [])
    else ([], [])
  }

  /** One more square of a lane or of the first leg of a reflected diagonal. */
  lemma LaneOn(s: Square, d: Dir, a: Square, rest: seq<Square>)
    requires Ring(s) && Ring(a) && IsDir(d) && a == Go(s, d) && Lane(a, d) == rest
    ensures Lane(s, d) == [a] + rest
  {
  }

  lemma BounceOn(s: Square, d: Dir, a: Square, rest: seq<Square>)
    requires Ring(s) && Ring(a) && IsDiagonal(d) && a == Go(s, d) && Bounce(a, d) == rest
    ensures Bounce(s, d) == [a] + rest
  {
  }

  /** The second leg, of at most three squares. */
  lemma Leg0(s: Square, d: Dir)
    requires Ring(s) && IsDir(d) && !Ring(Go(s, d))
    ensures Lane(s, d) == []
  {
  }

  lemma Leg1(s: Square, d: Dir, a: Square)
    requires Ring(s) && Ring(a) && IsDir(d) && a == Go(s, d) && !Ring(Go(a, d))
    ensures Lane(s, d) == [a]
  {
    Leg0(a, d);
    LaneOn(s, d, a, []);
  }

  lemma Leg2(s: Square, d: Dir, a: Square, b: Square)
    requires Ring(s) && Ring(a) && Ring(b) && IsDir(d) && a == Go(s, d) && b == Go(a, d) && !Ring(Go(b, d))
    ensures Lane(s, d) == [a, b]
  {
    Leg1(a, d, b);
    LaneOn(s, d, a, [b]);
  }

  lemma Leg3(s: Square, d: Dir, a: Square, b: Square, c: Square)
    requires Ring(s) && Ring(a) && Ring(b) && Ring(c) && IsDir(d)
    requires a == Go(s, d) && b == Go(a, d) && c == Go(b, d) && !Ring(Go(c, d))
    ensures Lane(s, d) == [a, b, c]
  {
    Leg2(a, d, b, c);
    LaneOn(s, d, a, [b, c]);
  }

  /** The reflection. */
  lemma BounceTurn(s: Square, d: Dir, e: Dir, rest: seq<Square>)
    requires Ring(s) && IsDiagonal(d) && !Ring(Go(s, d))
    requires (HitsVertical(s, d) && e == Dir(-d.dx, d.dy)) || (HitsHorizontal(s, d) && e == Dir(d.dx, -d.dy))
    requires Lane(s, e) == rest
    ensures Bounce(s, d) == rest
  {
  }

  predicate Reflects(s: Square, d: Dir, e: Dir) {
    !Ring(Go(s, d))
    && ((HitsVertical(s, d) && e == Dir(-d.dx, d.dy)) || (HitsHorizontal(s, d) && e == Dir(d.dx, -d.dy)))
  }

  // Diagonals by the number of squares before and after the reflection, for the shapes that occur.
  // A shape speaks about coordinates only; the lemma beside it turns it into the path.

  predicate Shape10(s: Square, d: Dir, a: Square) {
    Ring(s) && IsDiagonal(d) && Ring(a)
    && a == Go(s, d) && !Ring(Go(a, d)) && !HitsVertical(a, d) && !HitsHorizontal(a, d)
  }

  lemma Bounce10(s: Square, d: Dir, a: Square)
    requires Shape10(s, d, a)
    ensures Bounce(s, d) == [a]
  {
    BounceOn(s, d, a, []);
  }

  predicate Shape11(s: Square, d: Dir, e: Dir, a: Square, u: Square) {
    Ring(s) && IsDiagonal(d) && Ring(a) && Ring(u)
    && a == Go(s, d) && Reflects(a, d, e) && u == Go(a, e) && !Ring(Go(u, e))
  }

  lemma Bounce11(s: Square, d: Dir, e: Dir, a: Square, u: Square)
    requires Shape11(s, d, e, a, u)
    ensures Bounce(s, d) == [a, u]
  {
    Leg1(a, e, u);
    BounceTurn(a, d, e, [u]);
    BounceOn(s, d, a, [u]);
  }

  predicate Shape12(s: Square, d: Dir, e: Dir, a: Square, u: Square, v: Square) {
    Ring(s) && IsDiagonal(d) && Ring(a) && Ring(u) && Ring(v)
    && a == Go(s, d) && Reflects(a, d, e) && u == Go(a, e) && v == Go(u, e) && !Ring(Go(v, e))
  }

  lemma Bounce12(s: Square, d: Dir, e: Dir, a: Square, u: Square, v: Square)
    requires Shape12(s, d, e, a, u, v)
    ensures Bounce(s, d) == [a, u, v]
  {
    Leg2(a, e, u, v);
    BounceTurn(a, d, e, [u, v]);
    BounceOn(s, d, a, [u, v]);
  }

  predicate Shape13(s: Square, d: Dir, e: Dir, a: Square, u: Square, v: Square, w: Square) {
    Ring(s) && IsDiagonal(d) && Ring(a) && Ring(u) && Ring(v) && Ring(w)
    && a == Go(s, d) && Reflects(a, d, e) && u == Go(a, e) && v == Go(u, e) && w == Go(v, e) && !Ring(Go(w, e))
  }

  lemma Bounce13(s: Square, d: Dir, e: Dir, a: Square, u: Square, v: Square, w: Square)
    requires Shape13(s, d, e, a, u, v, w)
    ensures Bounce(s, d) == [a, u, v, w]
  {
    Leg3(a, e, u, v, w);
    BounceTurn(a, d, e, [u, v, w]);
    BounceOn(s, d, a, [u, v, w]);
  }

  predicate Shape21(s: Square, d: Dir, e: Dir, a: Square, b: Square, u: Square) {
    Ring(s) && IsDiagonal(d) && Ring(a) && Ring(b) && Ring(u)
    && a == Go(s, d) && b == Go(a, d) && Reflects(b, d, e) && u == Go(b, e) && !Ring(Go(u, e))
  }

  lemma Bounce21(s: Square, d: Dir, e: Dir, a: Square, b: Square, u: Square)
    requires Shape21(s, d, e, a, b, u)
    ensures Bounce(s, d) == [a, b, u]
  {
    Bounce11(a, d, e, b, u);
    BounceOn(s, d, a, [b, u]);
  }

  predicate Shape23(s: Square, d: Dir, e: Dir, a: Square, b: Square, u: Square, v: Square, w: Square) {
    Ring(s) && IsDiagonal(d) && Ring(a) && Ring(b) && Ring(u) && Ring(v) && Ring(w)
    && a == Go(s, d) && b == Go(a, d) && Reflects(b, d, e)
    && u == Go(b, e) && v == Go(u, e) && w == Go(v, e) && !Ring(Go(w, e))
  }

  lemma Bounce23(s: Square, d: Dir, e: Dir, a: Square, b: Square, u: Square, v: Square, w: Square)
    requires Shape23(s, d, e, a, b, u, v, w)
    ensures Bounce(s, d) == [a, b, u, v, w]
  {
    Bounce13(a, d, e, b, u, v, w);
    BounceOn(s, d, a, [b, u, v, w]);
  }

  predicate Shape33(s: Square, d: Dir, e: Dir, a: Square, b: Square, c: Square, u: Square, v: Square, w: Square) {
    Ring(s) && IsDiagonal(d) && Ring(a) && Ring(b) && Ring(c) && Ring(u) && Ring(v) && Ring(w)
    && a == Go(s, d) && b == Go(a, d) && c == Go(b, d) && Reflects(c, d, e)
    && u == Go(c, e) && v == Go(u, e) && w == Go(v, e) && !Ring(Go(w, e))
  }

  lemma Bounce33(s: Square, d: Dir, e: Dir, a: Square, b: Square, c: Square, u: Square, v: Square, w: Square)
    requires Shape33(s, d, e, a, b, c, u, v, w)
    ensures Bounce(s, d) == [a, b, c, u, v, w]
  {
    Bounce23(a, d, e, b, c, u, v, w);
    BounceOn(s, d, a, [b, c, u, v, w]);
  }

  // The diagonals of the ten bottom squares.

  lemma UpFrom1Shape(p0: Square, d: Dir) returns (e: Dir, a: Square, u: Square)
    requires Index(p0) == 1 && d.dx == -1 && d.dy == 1
    ensures Shape11(p0, d, e, a, u) && BishopPaths(p0).0 == [a, u]
  {
    hide Shape11;
    IndexParts(p0);
    e, a, u := Dir(1, 1), Sq(0, 1), Sq(1, 2);
    CornerShape(p0, d, e, a, u);
  }

  lemma CornerShape(s: Square, d: Dir, e: Dir, a: Square, u: Square)
    requires s.x == 1 && s.y == 0 && a.x == 0 && a.y == 1 && u.x == 1 && u.y == 2
    requires d.dx == -1 && d.dy == 1 && e.dx == 1 && e.dy == 1
    ensures Shape11(s, d, e, a, u)
  {
  }

  lemma UpFrom1(p0: Square, d: Dir)
    requires Index(p0) == 1 && d.dx == -1 && d.dy == 1
    ensures Ring(p0) && Bounce(p0, d) == BishopPaths(p0).0
  {
    var e, a, u := UpFrom1Shape(p0, d);
    Bounce11(p0, d, e, a, u);
  }

  lemma UpFrom2Shape(p0: Square, d: Dir) returns (e: Dir, a: Square, b: Square, u: Square)
    requires Index(p0) == 2 && d.dx == -1 && d.dy == 1
    ensures Shape21(p0, d, e, a, b, u) && BishopPaths(p0).0 == [a, b, u]
  {
    IndexParts(p0);
    e, a, b, u := Dir(1, 1), Sq(1, 1), Sq(0, 2), Sq(1, 3);
  }

  lemma UpFrom2(p0: Square, d: Dir)
    requires Index(p0) == 2 && d.dx == -1 && d.dy == 1
    ensures Ring(p0) && Bounce(p0, d) == BishopPaths(p0).0
  {
    var e, a, b, u := UpFrom2Shape(p0, d);
    Bounce21(p0, d, e, a, b, u);
  }

  lemma UpFrom3Shape(p0: Square, d: Dir)
    returns (e: Dir, a: Square, b: Square, c: Square, u: Square, v: Square, w: Square)
    requires Index(p0) == 3 && d.dx == -1 && d.dy == 1
    ensures Shape33(p0, d, e, a, b, c, u, v, w) && BishopPaths(p0).0 == [a, b, c, u, v, w]
  {
    IndexParts(p0);
    e, a, b, c, u, v, w := Dir(1, 1), Sq(2, 1), Sq(1, 2), Sq(0, 3), Sq(1, 4), Sq(2, 5), Sq(3, 6);
  }

  lemma UpFrom3(p0: Square, d: Dir)
    requires Index(p0) == 3 && d.dx == -1 && d.dy == 1
    ensures Ring(p0) && Bounce(p0, d) == BishopPaths(p0).0
  {
    var e, a, b, c, u, v, w := UpFrom3Shape(p0, d);
    Bounce33(p0, d, e, a, b, c, u, v, w);
  }

  lemma UpFrom4Shape(p0: Square, d: Dir) returns (e: Dir, a: Square, u: Square)
    requires Index(p0) == 4 && d.dx == -1 && d.dy == 1
    ensures Shape11(p0, d, e, a, u) && BishopPaths(p0).0 == [a, u]
  {
    IndexParts(p0);
    e, a, u := Dir(-1, -1), Sq(3, 1), Sq(2, 0);
  }

  lemma UpFrom4(p0: Square, d: Dir)
    requires Index(p0) == 4 && d.dx == -1 && d.dy == 1
    ensures Ring(p0) && Bounce(p0, d) == BishopPaths(p0).0
  {
    var e, a, u := UpFrom4Shape(p0, d);
    Bounce11(p0, d, e, a, u);
  }

  lemma UpFrom5Shape(p0: Square, d: Dir) returns (e: Dir, a: Square, u: Square)
    requires Index(p0) == 5 && d.dx == -1 && d.dy == 1
    ensures Shape11(p0, d, e, a, u) && BishopPaths(p0).0 == [a, u]
  {
    IndexParts(p0);
    e, a, u := Dir(-1, -1), Sq(4, 1), Sq(3, 0);
  }

  lemma UpFrom5(p0: Square, d: Dir)
    requires Index(p0) == 5 && d.dx == -1 && d.dy == 1
    ensures Ring(p0) && Bounce(p0, d) == BishopPaths(p0).0
  {
    var e, a, u := UpFrom5Shape(p0, d);
    Bounce11(p0, d, e, a, u);
  }

  lemma UpFrom6Shape(p0: Square, d: Dir) returns (a: Square)
    requires Index(p0) == 6 && d.dx == -1 && d.dy == 1
    ensures Shape10(p0, d, a) && BishopPaths(p0).0 == [a]
  {
    IndexParts(p0);
    a := Sq(5, 1);
  }

  lemma UpFrom6(p0: Square, d: Dir)
    requires Index(p0) == 6 && d.dx == -1 && d.dy == 1
    ensures Ring(p0) && Bounce(p0, d) == BishopPaths(p0).0
  {
    var a := UpFrom6Shape(p0, d);
    Bounce10(p0, d, a);
  }

  lemma UpFrom10Shape(p0: Square, d: Dir) returns (e: Dir, a: Square, b: Square, u: Square, v: Square, w: Square)
    requires Index(p0) == 10 && d.dx == -1 && d.dy == 1
    ensures Shape23(p0, d, e, a, b, u, v, w) && BishopPaths(p0).0 == [a, b, u, v, w]
  {
    IndexParts(p0);
    e, a, b, u, v, w := Dir(1, 1), Sq(1, 2), Sq(0, 3), Sq(1, 4), Sq(2, 5), Sq(3, 6);
  }

  lemma UpFrom10(p0: Square, d: Dir)
    requires Index(p0) == 10 && d.dx == -1 && d.dy == 1
    ensures Ring(p0) && Bounce(p0, d) == BishopPaths(p0).0
  {
    var e, a, b, u, v, w := UpFrom10Shape(p0, d);
    Bounce23(p0, d, e, a, b, u, v, w);
  }

  lemma DownFrom10Shape(p0: Square, d: Dir) returns (e: Dir, a: Square, u: Square)
    requires Index(p0) == 10 && d.dx == -1 && d.dy == -1
    ensures Shape11(p0, d, e, a, u) && BishopPaths(p0).1 == [a, u]
  {
    IndexParts(p0);
    e, a, u := Dir(-1, 1), Sq(1, 0), Sq(0, 1);
  }

  lemma DownFrom10(p0: Square, d: Dir)
    requires Index(p0) == 10 && d.dx == -1 && d.dy == -1
    ensures Ring(p0) && Bounce(p0, d) == BishopPaths(p0).1
  {
    var e, a, u := DownFrom10Shape(p0, d);
    Bounce11(p0, d, e, a, u);
  }

  lemma DownFrom11Shape(p0: Square, d: Dir) returns (e: Dir, a: Square, u: Square, v: Square)
    requires Index(p0) == 11 && d.dx == -1 && d.dy == -1
    ensures Shape12(p0, d, e, a, u, v) && BishopPaths(p0).0 == [a, u, v]
  {
    IndexParts(p0);
    e, a, u, v := Dir(-1, 1), Sq(2, 0), Sq(1, 1), Sq(0, 2);
  }

  lemma DownFrom11(p0: Square, d: Dir)
    requires Index(p0) == 11 && d.dx == -1 && d.dy == -1
    ensures Ring(p0) && Bounce(p0, d) == BishopPaths(p0).0
  {
    var e, a, u, v := DownFrom11Shape(p0, d);
    Bounce12(p0, d, e, a, u, v);
  }

  lemma DownFrom12Shape(p0: Square, d: Dir) returns (e: Dir, a: Square, u: Square, v: Square, w: Square)
    requires Index(p0) == 12 && d.dx == -1 && d.dy == -1
    ensures Shape13(p0, d, e, a, u, v, w) && BishopPaths(p0).0 == [a, u, v, w]
  {
    IndexParts(p0);
    e, a, u, v, w := Dir(-1, 1), Sq(3, 0), Sq(2, 1), Sq(1, 2), Sq(0, 3);
  }

  lemma DownFrom12(p0: Square, d: Dir)
    requires Index(p0) == 12 && d.dx == -1 && d.dy == -1
    ensures Ring(p0) && Bounce(p0, d) == BishopPaths(p0).0
  {
    var e, a, u, v, w := DownFrom12Shape(p0, d);
    Bounce13(p0, d, e, a, u, v, w);
  }

  lemma DownFrom13Shape(p0: Square, d: Dir) returns (e: Dir, a: Square, u: Square)
    requires Index(p0) == 13 && d.dx == -1 && d.dy == -1
    ensures Shape11(p0, d, e, a, u) && BishopPaths(p0).0 == [a, u]
  {
    IndexParts(p0);
    e, a, u := Dir(-1, 1), Sq(4, 0), Sq(3, 1);
  }

  lemma DownFrom13(p0: Square, d: Dir)
    requires Index(p0) == 13 && d.dx == -1 && d.dy == -1
    ensures Ring(p0) && Bounce(p0, d) == BishopPaths(p0).0
  {
    var e, a, u := DownFrom13Shape(p0, d);
    Bounce11(p0, d, e, a, u);
  }

  lemma {:induction false} LanePrefix(s: Square, d: Dir)
    requires Ring(s) && IsDiagonal(d)
    ensures Lane(s, d) <= Bounce(s, d)
    decreases Room(s, d)
  {
    if Ring(Go(s, d)) { LanePrefix(Go(s, d), d); }
  }

  /** A diagonal that is reflected on the spot runs along the other one. */
  lemma ReflectedAtOnce(s: Square, d: Dir, e: Dir)
    requires Ring(s) && IsDiagonal(d) && Reflects(s, d, e)
    ensures Bounce(s, d) <= Bounce(s, e)
  {
    BounceTurn(s, d, e, Lane(s, e));
    LanePrefix(s, e);
  }

  lemma {:induction false} SlidePrefix(cells: Cells, own: Color, a: seq<Square>, b: seq<Square>)
    requires a <= b
    ensures Slide(cells, own, a) <= Slide(cells, own, b)
  {
    if a != [] { SlidePrefix(cells, own, a[1..], b[1..]); }
  }

  lemma Absorbed(cells: Cells, own: Color, a: seq<Square>, b: seq<Square>)
    requires a <= b
    ensures Slide(cells, own, a) + Slide(cells, own, b) == Slide(cells, own, b) + Slide(cells, own, [])
    ensures Slide(cells, own, b) + Slide(cells, own, a) == Slide(cells, own, b) + Slide(cells, own, [])
  {
    SlidePrefix(cells, own, a, b);
  }

  lemma UpFromOuterLane(p0: Square, up: Dir)
    requires OnBottom(p0) && p0.y == 0 && up.dx == -1 && up.dy == 1
    ensures Bounce(p0, up) == BishopPaths(p0).0
  {
    if p0.x == 1 { UpFrom1(p0, up); }
    else if p0.x == 2 { UpFrom2(p0, up); }
    else if p0.x == 3 { UpFrom3(p0, up); }
    else if p0.x == 4 { UpFrom4(p0, up); }
    else if p0.x == 5 { UpFrom5(p0, up); }
    else { UpFrom6(p0, up); }
  }

  /** From the outer lane the downward diagonal adds nothing. */
  lemma OuterDiagonals(cells: Cells, own: Color, p0: Square, up: Dir, down: Dir)
    requires OnBottom(p0) && p0.y == 0 && up.dx == -1 && up.dy == 1 && down.dx == -1 && down.dy == -1
    ensures Slide(cells, own, Bounce(p0, up)) + Slide(cells, own, Bounce(p0, down))
         == Slide(cells, own, BishopPaths(p0).0) + Slide(cells, own, BishopPaths(p0).1)
  {
    OuterReflects(p0, down, up);
    ReflectedAtOnce(p0, down, up);
    NoSecondPath(p0);
    Absorbed(cells, own, Bounce(p0, down), Bounce(p0, up));
    UpFromOuterLane(p0, up);
  }

  lemma OuterReflects(p0: Square, down: Dir, up: Dir)
    requires OnBottom(p0) && p0.y == 0 && up.dx == -1 && up.dy == 1 && down.dx == -1 && down.dy == -1
    ensures Reflects(p0, down, up)
  {
  }

  lemma InnerReflects(p0: Square, up: Dir, down: Dir)
    requires OnBottom(p0) && (p0.x == 3 || p0.x == 4) && p0.y == 1
    requires up.dx == -1 && up.dy == 1 && down.dx == -1 && down.dy == -1
    ensures Reflects(p0, up, down)
  {
  }

  lemma HeadOn(p0: Square, up: Dir)
    requires Index(p0) == 13 && up.dx == -1 && up.dy == 1
    ensures Ring(p0) && Bounce(p0, up) == []
  {
  }

  /** From the inner lane the upward diagonal adds nothing, except from (2,1). */
  lemma InnerPrefix(p0: Square, up: Dir, down: Dir)
    requires OnBottom(p0) && p0.x != 2 && p0.y == 1
    requires up.dx == -1 && up.dy == 1 && down.dx == -1 && down.dy == -1
    ensures Bounce(p0, up) <= Bounce(p0, down)
  {
    if p0.x == 5 { HeadOn(p0, up); } else { InnerReflects(p0, up, down); ReflectedAtOnce(p0, up, down); }
  }

  lemma DownFromInnerLane(p0: Square, down: Dir)
    requires OnBottom(p0) && p0.x != 2 && p0.y == 1 && down.dx == -1 && down.dy == -1
    ensures Bounce(p0, down) == BishopPaths(p0).0
  {
    if p0.x == 3 { DownFrom11(p0, down); }
    else if p0.x == 4 { DownFrom12(p0, down); }
    else { DownFrom13(p0, down); }
  }

  lemma NoSecondPath(p0: Square)
    requires OnBottom(p0) && !(p0.x == 2 && p0.y == 1)
    ensures BishopPaths(p0).1 == []
  {
  }

  lemma InnerDiagonals(cells: Cells, own: Color, p0: Square, up: Dir, down: Dir)
    requires OnBottom(p0) && p0.y == 1 && up.dx == -1 && up.dy == 1 && down.dx == -1 && down.dy == -1
    ensures Slide(cells, own, Bounce(p0, up)) + Slide(cells, own, Bounce(p0, down))
         == Slide(cells, own, BishopPaths(p0).0) + Slide(cells, own, BishopPaths(p0).1)
  {
    if p0.x == 2 {
      UpFrom10(p0, up);
      DownFrom10(p0, down);
    } else {
      InnerPrefix(p0, up, down);
      DownFromInnerLane(p0, down);
      NoSecondPath(p0);
      Absorbed(cells, own, Bounce(p0, up), Bounce(p0, down));
    }
  }

  ghost predicate BishopStep(p0: Square, t: Square) {
    ((Index(p0) < 6 || Index(p0) >= 12) && t == Sq(p0.x + 1, p0.y + 1))
    || (Index(p0) > 6 && t == Sq(p0.x + 1, p0.y - 1))
  }

  lemma BishopSteps(p0: Square, t: Square)
    requires OnBottom(p0)
    ensures BishopStep(p0, t) <==> Ring(t) && (t == Sq(p0.x + 1, p0.y + 1) || t == Sq(p0.x + 1, p0.y - 1))
  {
  }

  /** The paths of the rules, with the two forward directions named. */
  lemma BishopPathsAtBottom(p0: Square, up: Dir, down: Dir)
    requires OnBottom(p0) && up == Plus(Dir(-1, 0), Dir(0, 1)) && down == Plus(Dir(-1, 0), Back(Dir(0, 1)))
    ensures Ring(p0) && IsDiagonal(up) && IsDiagonal(down)
    ensures Paths(Bishop, p0) == [Bounce(p0, up), Bounce(p0, down), Step(p0, Back(down)), Step(p0, Back(up))]
  {
    hide Ring, Forward, Bounce, Step, IsDiagonal, Plus, Back;
    ForwardAtBottom(p0);
    assert Clockwise(Dir(-1, 0)) == Dir(0, 1);
    DiagonalRight(Dir(-1, 0), Dir(0, 1));
    DiagonalLeft(Dir(-1, 0), Dir(0, 1));
  }

  lemma BishopTargets(cells: Cells, own: Color, p0: Square, up: Dir, down: Dir)
    requires OnBottom(p0) && up == Plus(Dir(-1, 0), Dir(0, 1)) && down == Plus(Dir(-1, 0), Back(Dir(0, 1)))
    ensures Ring(p0) && IsDiagonal(up) && IsDiagonal(down)
    ensures Targets(cells, own, Bishop, p0)
         == Slide(cells, own, Bounce(p0, up)) + Slide(cells, own, Bounce(p0, down))
            + Slide(cells, own, Step(p0, Back(down))) + Slide(cells, own, Step(p0, Back(up)))
  {
    hide *;
    BishopPathsAtBottom(p0, up, down);
    TargetsAlong(cells, own, Bishop, p0);
    FourPaths(cells, own, Bounce(p0, up), Bounce(p0, down), Step(p0, Back(down)), Step(p0, Back(up)));
  }

  lemma BishopBackSteps(cells: Cells, own: Color, p0: Square, up: Dir, down: Dir, t: Square)
    requires OnBottom(p0) && up.dx == -1 && up.dy == 1 && down.dx == -1 && down.dy == -1
    ensures BishopStep(p0, t) && !Owns(cells, t, own)
       <==> t in Slide(cells, own, Step(p0, Back(down))) || t in Slide(cells, own, Step(p0, Back(up)))
  {
    StepSlide(cells, own, p0, Back(down), t);
    StepSlide(cells, own, p0, Back(up), t);
    BishopSteps(p0, t);
  }

  /** The bishop's targets put together the way the generator does. */
  lemma BishopReached(cells: Cells, own: Color, p0: Square, steps: set<Square>, reached: set<Square>)
    requires OnBottom(p0)
    requires forall t: Square :: t in steps <==> BishopStep(p0, t) && !Owns(cells, t, own)
    requires reached == steps + Slide(cells, own, BishopPaths(p0).0) + Slide(cells, own, BishopPaths(p0).1)
    ensures reached == Targets(cells, own, Bishop, p0)
  {
    var up, down := Dir(-1, 1), Dir(-1, -1);
    forall t: Square ensures t in reached <==> t in Targets(cells, own, Bishop, p0) {
      BishopReachedAt(cells, own, p0, up, down, t);
    }
  }

  lemma ForwardDiagonals(up: Dir, down: Dir)
    requires up.dx == -1 && up.dy == 1 && down.dx == -1 && down.dy == -1
    ensures up == Plus(Dir(-1, 0), Dir(0, 1)) && down == Plus(Dir(-1, 0), Back(Dir(0, 1)))
  {
  }

  lemma BishopReachedAt(cells: Cells, own: Color, p0: Square, up: Dir, down: Dir, t: Square)
    requires OnBottom(p0) && up.dx == -1 && up.dy == 1 && down.dx == -1 && down.dy == -1
    ensures t in Targets(cells, own, Bishop, p0)
       <==> (BishopStep(p0, t) && !Owns(cells, t, own))
            || t in Slide(cells, own, BishopPaths(p0).0) + Slide(cells, own, BishopPaths(p0).1)
  {
    hide Ring, Owns, Slide, Targets, Step, Bounce, BishopPaths, BishopStep, Plus, Back, IsDiagonal, Index;
    ForwardDiagonals(up, down);
    BishopBackSteps(cells, own, p0, up, down, t);
    BishopTargets(cells, own, p0, up, down);
    if p0.y == 0 { OuterDiagonals(cells, own, p0, up, down); } else { InnerDiagonals(cells, own, p0, up, down); }
  }

  /** The loop over one list of squares. */
  method SlideAlong(p0: Square, p1s: seq<Square>, board: seq<bv8>, moves: set<Move>, ghost reached: set<Square>)
    returns (more: set<Move>, ghost further: set<Square>)
    requires Bottom(p0, board)
    requires MovesAre(moves, p0, reached, {NoPromo})
    ensures MovesAre(more, p0, further, {NoPromo})
    ensures further == reached + Slide(CellsOf(board), Decode(board[Index(p0)]).color, p1s)
  {
    ghost var cells, own := CellsOf(board), Decode(board[Index(p0)]).color;
    more, further := moves, reached;
    ghost var goal := reached + Slide(cells, own, p1s);
    for k := 0 to |p1s|
      invariant MovesAre(more, p0, further, {NoPromo})
      invariant goal == further + Slide(cells, own, p1s[k..])
    {
      var blocked: bool;
      assert p1s[k..] == [p1s[k]] + p1s[k + 1..];
      more, further, blocked := Visit(p0, p1s[k], board, more, further, p1s[k + 1..]);
      if blocked { break; }
    }
  }

  method BishopMoves(p0: Square, board: seq<bv8>) returns (moves: set<Move>)
    requires Bottom(p0, board)
    ensures MovesAre(moves, p0, Targets(CellsOf(board), Decode(board[Index(p0)]).color, Bishop, p0), {NoPromo})
  {
    ghost var steps, reached: set<Square> := {}, {};
    moves := {};
    if Index(p0) < 6 || Index(p0) >= 12 {
      moves, steps := TryMove(p0, Sq(p0.x + 1, p0.y + 1), board, moves, steps);
    }
    if Index(p0) > 6 {
      moves, steps := TryMove(p0, Sq(p0.x + 1, p0.y - 1), board, moves, steps);
    }
    var (p1s, p1s2) := BishopPaths(p0);
    moves, reached := SlideAlong(p0, p1s, board, moves, steps);
    moves, reached := SlideAlong(p0, p1s2, board, moves, reached);
    BishopReached(CellsOf(board), Decode(board[Index(p0)]).color, p0, steps, reached);
  }
}
