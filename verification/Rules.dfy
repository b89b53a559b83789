/** The rules of Rollerball on one plain board, in board coordinates and for all four sides at
    once. Nothing here knows about piece slots, rotated arrays, lookup tables or bytes. */
module Rules {
  import opened Geometry

  datatype Color = White | Black

  function Opp(c: Color): Color {
    if c == White then Black else White
  }

  datatype Kind = Pawn | Rook | Bishop | King

  datatype Piece = Piece(color: Color, kind: Kind)

  /** A partial map from squares to pieces. */
  type Cells = map<Square, Piece>

  datatype Promo = NoPromo | ToRook | ToBishop

  datatype Move = Move(from: Square, to: Square, promo: Promo)

  datatype Position = Position(cells: Cells, player: Color)

  predicate Owns(cells: Cells, s: Square, c: Color) {
    s in cells && cells[s].color == c
  }

  function AllSquares(): (all: set<Square>)
    ensures forall s: Square :: s in all
  {
    var all := set x, y | 0 <= x < 8 && 0 <= y < 8 :: Sq(x, y);
    assert forall s: Square :: s == Sq(s.x, s.y) && s in all;
    all
  }

  // ---------------------------------------------------------------- directions and paths

  /** The turn that brings a ring square to the bottom side, where play runs towards x = 0. */
  function Frame(s: Coord): Turn {
    if (s.y == 0 && 1 <= s.x <= 6) || (s.y == 1 && 2 <= s.x <= 5) then R0
    else if (s.x == 0 && 0 <= s.y <= 5) || (s.x == 1 && 1 <= s.y <= 4) then R270
    else if (s.y == 6 && 0 <= s.x <= 5) || (s.y == 5 && 1 <= s.x <= 4) then R180
    else R90
  }

  datatype Dir = Dir(dx: int, dy: int)

  predicate IsDir(d: Dir) {
    -1 <= d.dx <= 1 && -1 <= d.dy <= 1 && (d.dx != 0 || d.dy != 0)
  }

  predicate IsDiagonal(d: Dir) {
    IsDir(d) && d.dx != 0 && d.dy != 0
  }

  function Plus(a: Dir, b: Dir): Dir { Dir(a.dx + b.dx, a.dy + b.dy) }

  function Back(d: Dir): Dir { Dir(-d.dx, -d.dy) }

  /** A quarter turn clockwise: the direction of play at the bottom becomes the one on the left. */
  function Clockwise(d: Dir): Dir { Dir(d.dy, -d.dx) }

  /** The direction of play around the ring on the side of s. */
  function Forward(s: Coord): (d: Dir)
    ensures IsStraight(d)
  {
    match Frame(s)
    case R0 => Dir(-1, 0)
    case R270 => Dir(0, 1)
    case R180 => Dir(1, 0)
    case R90 => Dir(0, -1)
  }

  function Go(s: Coord, d: Dir): Coord { Sq(s.x + d.dx, s.y + d.dy) }

  /** How many steps the board edge allows at most in direction d. */
  function Room(s: Coord, d: Dir): int {
    (if d.dx < 0 then s.x else if d.dx > 0 then 6 - s.x else 0)
    + (if d.dy < 0 then s.y else if d.dy > 0 then 6 - s.y else 0)
  }

  function Step(s: Coord, d: Dir): seq<Square> {
    if Ring(Go(s, d)) then [Go(s, d)] else []
  }

  /** All ring squares in direction d, up to the first one outside the ring. */
  function Lane(s: Coord, d: Dir): seq<Square>
    requires Ring(s) && IsDir(d)
    decreases Room(s, d)
  {
    if Ring(Go(s, d)) then [Go(s, d)] + Lane(Go(s, d), d) else []
  }

  predicate Corner(s: Coord) {
    (s.x == 0 || s.x == 6) && (s.y == 0 || s.y == 6)
  }

  /** The lane in the direction of play, which goes on around a corner of the board. */
  function LaneAroundCorner(s: Coord, d: Dir): seq<Square>
    requires Ring(s) && IsDir(d)
    decreases Room(s, d)
  {
    if Ring(Go(s, d)) then [Go(s, d)] + LaneAroundCorner(Go(s, d), d)
    else if Corner(s) then Lane(s, Clockwise(d))
    else []
  }

  /** A diagonal that is reflected at most once, by the outer wall or by the hole. It ends where
      it would meet a corner head-on. */
  function Bounce(s: Coord, d: Dir): seq<Square>
    requires Ring(s) && IsDiagonal(d)
    decreases Room(s, d)
  {
    if Ring(Go(s, d)) then [Go(s, d)] + Bounce(Go(s, d), d)
    else if HitsVertical(s, d) then Lane(s, Dir(-d.dx, d.dy))
    else if HitsHorizontal(s, d) then Lane(s, Dir(d.dx, -d.dy))
    else []
  }

  /** Only the horizontal part of the step d leaves the ring, so a vertical wall reflects it. */
  predicate HitsVertical(s: Coord, d: Dir) {
    !Ring(Go(s, Dir(d.dx, 0))) && Ring(Go(s, Dir(0, d.dy)))
  }

  predicate HitsHorizontal(s: Coord, d: Dir) {
    Ring(Go(s, Dir(d.dx, 0))) && !Ring(Go(s, Dir(0, d.dy)))
  }

  /** The squares reachable along a path: its empty prefix, then the first piece if it is an
      enemy. */
  function Slide(cells: Cells, own: Color, path: seq<Square>): set<Square> {
    if path == [] then {}
    else if path[0] !in cells then {path[0]} + Slide(cells, own, path[1..])
    else if Owns(cells, path[0], own) then {}
    else {path[0]}
  }

  // ---------------------------------------------------------------- the four kinds of piece

  predicate Adjacent(s: Square, t: Square) {
    t != s && -1 <= t.x - s.x <= 1 && -1 <= t.y - s.y <= 1
  }

  ghost function KingTargets(cells: Cells, own: Color, s: Square): set<Square> {
    set t | t in AllSquares() && Ring(t) && Adjacent(s, t) && !Owns(cells, t, own)
  }

  /** The paths along which a piece other than the king moves. */
  function Paths(kind: Kind, s: Square): seq<seq<Square>>
    requires Ring(s) && kind != King
  {
    PathsAlong(kind, s, Forward(s), Clockwise(Forward(s)))
  }

  predicate IsStraight(d: Dir) {
    IsDir(d) && (d.dx == 0 || d.dy == 0)
  }

  /** The paths of a piece for the direction of play f, with r pointing to the right of it. */
  function PathsAlong(kind: Kind, s: Square, f: Dir, r: Dir): seq<seq<Square>>
    requires Ring(s) && kind != King && IsStraight(f) && r == Clockwise(f)
  {
    match kind
    // one step straight or diagonally forward
    case Pawn => [Step(s, f), Step(s, Plus(f, r)), Step(s, Plus(f, Back(r)))]
    // any distance forward, around a corner; one step back or sideways; from the square before a
    // corner also any distance inwards
    case Rook =>
      [LaneAroundCorner(s, f), Step(s, Back(f)), Step(s, Back(r)),
       if Corner(Go(s, f)) then Lane(s, r) else Step(s, r)]
    // any distance diagonally forward with one reflection; one step diagonally back
    case Bishop =>
      [Bounce(s, Plus(f, r)), Bounce(s, Plus(f, Back(r))),
       Step(s, Back(Plus(f, Back(r)))), Step(s, Back(Plus(f, r)))]
  }

  ghost function SlideAll(cells: Cells, own: Color, paths: seq<seq<Square>>): set<Square> {
    set t | t in AllSquares() && exists i :: 0 <= i < |paths| && t in Slide(cells, own, paths[i])
  }

  ghost function Targets(cells: Cells, own: Color, kind: Kind, s: Square): set<Square> {
    if !Ring(s) then {}
    else if kind == King then KingTargets(cells, own, s)
    else SlideAll(cells, own, Paths(kind, s))
  }

  // ---------------------------------------------------------------- moves

  predicate PromotesFrom(c: Color, s: Square) {
    if c == White then s == Sq(3, 6) || s == Sq(3, 5) else s == Sq(3, 1) || s == Sq(3, 0)
  }

  function Promos(piece: Piece, s: Square): set<Promo>
  {
    if piece.kind == Pawn && PromotesFrom(piece.color, s) then {ToRook, ToBishop} else {NoPromo}
  }

  /** The pseudolegal moves of the piece on s, if there is one. */
  ghost predicate IsPieceMove(cells: Cells, s: Square, m: Move) {
    s in cells
    && m.from == s
    && m.to in Targets(cells, cells[s].color, cells[s].kind, s)
    && m.promo in Promos(cells[s], s)
  }

  /** The pseudolegal moves of one side. */
  ghost predicate IsPseudo(cells: Cells, c: Color, m: Move) {
    Owns(cells, m.from, c) && IsPieceMove(cells, m.from, m)
  }

  function Promoted(piece: Piece, promo: Promo): Piece {
    match promo
    case NoPromo => piece
    case ToRook => Piece(piece.color, Rook)
    case ToBishop => Piece(piece.color, Bishop)
  }

  function Moved(cells: Cells, m: Move): Cells {
    if m.from in cells then (cells - {m.from})[m.to := Promoted(cells[m.from], m.promo)] else cells
  }

  ghost predicate Attacked(cells: Cells, attacker: Color, s: Square) {
    exists m: Move :: IsPseudo(cells, attacker, m) && m.to == s
  }

  ghost predicate InCheck(cells: Cells, c: Color) {
    exists s: Square :: s in cells && cells[s] == Piece(c, King) && Attacked(cells, Opp(c), s)
  }

  ghost predicate IsLegal(p: Position, m: Move) {
    IsPseudo(p.cells, p.player, m) && !InCheck(Moved(p.cells, m), p.player)
  }

  function Apply(p: Position, m: Move): Position {
    Position(Moved(p.cells, m), Opp(p.player))
  }

  /** The legal moves as a set. */
  ghost function LegalMoves(p: Position): (ms: set<Move>)
    ensures forall m :: m in ms <==> IsLegal(p, m)
  {
    set s, t, pr
      | s in AllSquares() && t in AllSquares() && pr in {NoPromo, ToRook, ToBishop} && IsLegal(p, Move(s, t, pr))
      :: Move(s, t, pr)
  }
}
