/** Pawns only go forward, so each of them makes at most twelve moves. */
module Pawns {
  import opened Geometry
  import opened Rules
  import opened Bytes
  import opened Generators
  import opened Boards
  import opened BoardFacts
  import opened Initial
  import opened Runs

  /** How many sides of the ring lie between a pawn and the side it promotes on. */
  function SidesLeft(c: Color, t: Turn): int {
    match t
    case R0 => if c == White then 2 else 0
    case R270 => if c == White then 1 else 3
    case R180 => if c == White then 0 else 2
    case R90 => if c == White then 3 else 1
  }

  /** The column in the frame of the square's own side, where play runs towards 0. */
  function FrameX(s: Square): int {
    Rot(Frame(s), s).x
  }

  /** An upper bound on the number of moves a pawn on s still makes. */
  function Distance(c: Color, s: Square): int {
    6 * SidesLeft(c, Frame(s)) + FrameX(s) - 2
  }

  /** Where an unpromoted pawn can be: on its way from its starting file to its promotion file, so
      never on the side in front of its start and never past the promotion file. */
  predicate OnItsWay(c: Color, s: Square) {
    Ring(s) && 1 <= Distance(c, s) <= 12
  }

  lemma StartDistances()
    ensures Distance(White, Sq(2, 1)) == 12 && Distance(White, Sq(2, 0)) == 12
    ensures Distance(Black, Sq(4, 5)) == 12 && Distance(Black, Sq(4, 6)) == 12
  {
  }

  /** The forbidden squares of the two colours, spelled out. */
  lemma OffTheWay(s: Square)
    ensures OnItsWay(White, s) ==> s != Sq(4, 5) && s != Sq(4, 6) && Frame(s) != R90
    ensures OnItsWay(Black, s) ==> s != Sq(2, 1) && s != Sq(2, 0) && Frame(s) != R270
  {
  }

  lemma PawnTargetShape(cells: Cells, own: Color, s: Square, t: Square)
    requires Ring(s) && t in Targets(cells, own, Pawn, s)
    ensures var f := Forward(s);
      Ring(t) && (t == Go(s, f) || t == Go(s, Plus(f, Clockwise(f))) || t == Go(s, Plus(f, Back(Clockwise(f)))))
  {
    hide Ring, Forward, SlideAll;
    var f := Forward(s);
    var r := Clockwise(f);
    TargetsAlong(cells, own, Pawn, s);
    ThreePaths(cells, own, Step(s, f), Step(s, Plus(f, r)), Step(s, Plus(f, Back(r))));
    StepSlide(cells, own, s, f, t);
    StepSlide(cells, own, s, Plus(f, r), t);
    StepSlide(cells, own, s, Plus(f, Back(r)), t);
  }

  lemma CloserFromBottom(c: Color, s: Square, t: Square)
    requires OnItsWay(c, s) && !PromotesFrom(c, s) && Ring(t) && Frame(s) == R0
    requires t.x == s.x - 1 && -1 <= t.y - s.y <= 1
    ensures OnItsWay(c, t) && Distance(c, t) < Distance(c, s)
  {
    if c == White {} else {}
  }

  lemma CloserFromLeft(c: Color, s: Square, t: Square)
    requires OnItsWay(c, s) && !PromotesFrom(c, s) && Ring(t) && Frame(s) == R270
    requires t.y == s.y + 1 && -1 <= t.x - s.x <= 1
    ensures OnItsWay(c, t) && Distance(c, t) < Distance(c, s)
  {
    if c == White {} else {}
  }

  lemma CloserFromTop(c: Color, s: Square, t: Square)
    requires OnItsWay(c, s) && !PromotesFrom(c, s) && Ring(t) && Frame(s) == R180
    requires t.x == s.x + 1 && -1 <= t.y - s.y <= 1
    ensures OnItsWay(c, t) && Distance(c, t) < Distance(c, s)
  {
    if c == White {} else {}
  }

  lemma CloserFromRight(c: Color, s: Square, t: Square)
    requires OnItsWay(c, s) && !PromotesFrom(c, s) && Ring(t) && Frame(s) == R90
    requires t.y == s.y - 1 && -1 <= t.x - s.x <= 1
    ensures OnItsWay(c, t) && Distance(c, t) < Distance(c, s)
  {
    if c == White {} else {}
  }

  /** Any step that a pawn can take brings it closer. */
  lemma StepGetsCloser(c: Color, s: Square, t: Square)
    requires OnItsWay(c, s) && !PromotesFrom(c, s) && Ring(t)
    requires var f := Forward(s);
      t == Go(s, f) || t == Go(s, Plus(f, Clockwise(f))) || t == Go(s, Plus(f, Back(Clockwise(f))))
    ensures OnItsWay(c, t) && Distance(c, t) < Distance(c, s)
  {
    hide *;
    StepDirection(s, t);
    match Frame(s)
    case R0 => CloserFromBottom(c, s, t);
    case R270 => CloserFromLeft(c, s, t);
    case R180 => CloserFromTop(c, s, t);
    case R90 => CloserFromRight(c, s, t);
  }

  lemma StepComponents(s: Square, t: Square, f: Dir)
    requires IsStraight(f)
    requires t == Go(s, f) || t == Go(s, Plus(f, Clockwise(f))) || t == Go(s, Plus(f, Back(Clockwise(f))))
    ensures f.dy == 0 ==> t.x == s.x + f.dx && -1 <= t.y - s.y <= 1
    ensures f.dx == 0 ==> t.y == s.y + f.dy && -1 <= t.x - s.x <= 1
  {
  }

  /** A pawn's steps by the side it is on. */
  lemma StepDirection(s: Square, t: Square)
    requires var f := Forward(s);
      t == Go(s, f) || t == Go(s, Plus(f, Clockwise(f))) || t == Go(s, Plus(f, Back(Clockwise(f))))
    ensures match Frame(s)
      case R0 => t.x == s.x - 1 && -1 <= t.y - s.y <= 1
      case R270 => t.y == s.y + 1 && -1 <= t.x - s.x <= 1
      case R180 => t.x == s.x + 1 && -1 <= t.y - s.y <= 1
      case R90 => t.y == s.y - 1 && -1 <= t.x - s.x <= 1
  {
    hide Frame, Go, Plus, Clockwise, Back;
    StepComponents(s, t, Forward(s));
  }

  // ---------------------------------------------------------------- pawns over runs

  function SlotColor(i: int): Color {
    if i < 6 then Black else White
  }

  /** Slot i holds an unpromoted pawn. */
  ghost predicate IsPawn(d: BoardData, i: int)
    requires Sized(d) && 0 <= i < 12
  {
    d.slots[i] != DEAD && d.b0[Index(d.slots[i])] != 0 && Decode(d.b0[Index(d.slots[i])]).kind == Pawn
  }

  ghost function Remaining(d: BoardData, i: int): int
    requires Sized(d) && 0 <= i < 12
  {
    if IsPawn(d, i) then Distance(SlotColor(i), d.slots[i]) else 0
  }

  ghost predicate PawnsOnTheirWay(d: BoardData)
    requires Sized(d)
  {
    forall i :: 0 <= i < 12 && IsPawn(d, i) ==> OnItsWay(SlotColor(i), d.slots[i])
  }

  ghost predicate MovesPawn(d: BoardData, m: Move, i: int)
    requires Sized(d) && 0 <= i < 12
  {
    IsPawn(d, i) && d.slots[i] == m.from
  }

  /** A pawn's own move brings it closer to promotion, or promotes it. */
  lemma MoverGetsCloser(d: BoardData, c: Color, m: Move, i: int)
    requires Inv(d) && IsPseudo(CellsOf(d.b0), c, m) && MoverAt(d, m, i) && IsPawn(d, i)
    requires OnItsWay(SlotColor(i), d.slots[i])
    ensures m.promo == NoPromo ==>
      OnItsWay(SlotColor(i), m.to) && Distance(SlotColor(i), m.to) < Distance(SlotColor(i), m.from)
  {
    hide OnItsWay, Distance, Targets, Inv;
    var cells := CellsOf(d.b0);
    assert cells[m.from] == Piece(SlotColor(i), Pawn);
    assert m.to in Targets(cells, SlotColor(i), Pawn, m.from);
    PseudoMovable(d, c, m);
    PawnTargetShape(cells, SlotColor(i), m.from, m.to);
    if m.promo == NoPromo { StepGetsCloser(SlotColor(i), m.from, m.to); }
  }

  lemma SlotAfter(d: BoardData, m: Move, i: int, v: int, k: int)
    requires Inv(d) && Movable(d, m) && MoverAt(d, m, i) && VictimAt(d, m, v) && 0 <= k < 12
    ensures var e := DoMove(d, m);
      e.slots[k] == (if k == v then DEAD else if k == i then m.to else d.slots[k])
      && (IsPawn(e, k) <==> k != v && IsPawn(d, k) && (k == i ==> m.promo == NoPromo))
  {
    var b := d.b0[Index(m.from)];
    MovedSlotsAt(d, m, i, v, k);
    PromoteDecode(b, m.promo);
    Moved64At(d.b0, m.from, m.to, PromoteByte(b, m.promo), DoMove(d, m).slots[k]);
  }

  lemma OneSlotStep(d: BoardData, c: Color, m: Move, k: int)
    requires Inv(d) && PawnsOnTheirWay(d) && IsPseudo(CellsOf(d.b0), c, m) && 0 <= k < 12
    ensures IsPawn(DoMove(d, m), k) ==> OnItsWay(SlotColor(k), DoMove(d, m).slots[k])
    ensures Remaining(DoMove(d, m), k) <= Remaining(d, k) - if MovesPawn(d, m, k) then 1 else 0
  {
    hide Inv, IsPseudo, DoMove, CellsOf, Distance;
    PseudoMovable(d, c, m);
    var i := MoverOf(d, m);
    var v := VictimOf(d, m);
    SlotAfter(d, m, i, v, k);
    if k == i && IsPawn(d, k) { MoverGetsCloser(d, c, m, i); }
  }

  lemma PawnsStep(d: BoardData, c: Color, m: Move)
    requires Inv(d) && PawnsOnTheirWay(d) && IsPseudo(CellsOf(d.b0), c, m)
    ensures PawnsOnTheirWay(DoMove(d, m))
  {
    hide Inv, IsPseudo, DoMove, CellsOf, IsPawn, OnItsWay;
    forall k | 0 <= k < 12 && IsPawn(DoMove(d, m), k)
      ensures OnItsWay(SlotColor(k), DoMove(d, m).slots[k])
    {
      OneSlotStep(d, c, m, k);
    }
  }

  /** How many of the moves are moves of the pawn in slot i. */
  ghost function PawnMoveCount(d: BoardData, ms: seq<Move>, i: int): int
    requires Sized(d) && 0 <= i < 12
    decreases |ms|
  {
    if ms == [] then 0
    else (if MovesPawn(d, ms[0], i) then 1 else 0) + PawnMoveCount(Flip(DoMove(d, ms[0])), ms[1..], i)
  }

  lemma FlipPawns(d: BoardData, i: int)
    requires Sized(d) && 0 <= i < 12
    ensures Remaining(Flip(d), i) == Remaining(d, i)
    ensures PawnsOnTheirWay(d) ==> PawnsOnTheirWay(Flip(d))
  {
    hide OnItsWay, Distance;
  }

  /** Over any run, a pawn's moves and what it still has to go never exceed what it had to go. */
  lemma {:induction false} RunBoundsPawn(d: BoardData, ms: seq<Move>, i: int)
    requires Inv(d) && PawnsOnTheirWay(d) && PseudoRun(Abs(d), ms) && 0 <= i < 12
    ensures Inv(Played(d, ms)) && PawnsOnTheirWay(Played(d, ms))
    ensures PawnMoveCount(d, ms, i) + Remaining(Played(d, ms), i) <= Remaining(d, i)
    decreases |ms|
  {
    hide Inv, IsPseudo, DoMove, CellsOf, PawnsOnTheirWay, Remaining, MovesPawn, Flip, Apply;
    if ms != [] {
      var e := DoMove(d, ms[0]);
      PlayRefines(d, ms[0]);
      PawnsStep(d, d.player, ms[0]);
      OneSlotStep(d, d.player, ms[0], i);
      FlipPawns(e, i);
      RunBoundsPawn(Flip(e), ms[1..], i);
    }
  }

  lemma InitialPawn(d: BoardData, i: int)
    requires IsInitial(d) && 0 <= i < 12
    ensures IsPawn(d, i) ==> OnItsWay(SlotColor(i), d.slots[i])
    ensures Remaining(d, i) <= 12
  {
    hide InitialByteAt, Rotated, Decode, Frame, Rot;
    InitialSlotFits(i);
    StartDistances();
    assert IsPawn(d, i) ==> i == 4 || i == 5 || i == 10 || i == 11;
  }

  /** In every run from the starting position each pawn makes at most twelve moves, and no
      unpromoted pawn stands on its promotion side's last squares or beyond. */
  lemma AtMostTwelveMoves(d: BoardData, ms: seq<Move>, i: int)
    requires IsInitial(d) && PseudoRun(Abs(d), ms) && 0 <= i < 12
    ensures PawnMoveCount(d, ms, i) <= 12
    ensures var e := Played(d, ms);
      IsPawn(e, i) ==>
        if i >= 6 then e.slots[i] != Sq(4, 5) && e.slots[i] != Sq(4, 6) && Frame(e.slots[i]) != R90
        else e.slots[i] != Sq(2, 1) && e.slots[i] != Sq(2, 0) && Frame(e.slots[i]) != R270
  {
    hide IsInitial, PseudoRun, IsPawn, Frame, Inv;
    InitialInv(d);
    forall k | 0 <= k < 12 && IsPawn(d, k) ensures OnItsWay(SlotColor(k), d.slots[k]) {
      InitialPawn(d, k);
    }
    InitialPawn(d, i);
    RunBoundsPawn(d, ms, i);
    OffTheWay(Played(d, ms).slots[i]);
  }
}
