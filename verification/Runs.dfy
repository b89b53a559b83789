/** Whole runs of moves: the representation invariant, and the safety of the kings. */
module Runs {
  import opened Geometry
  import opened Rules
  import opened RuleFacts
  import opened Bytes
  import opened Boards
  import opened BoardFacts
  import opened Initial
  import opened Legality
  import opened Openings

  ghost predicate PseudoRun(p: Position, ms: seq<Move>)
    decreases |ms|
  {
    ms == [] || (IsPseudo(p.cells, p.player, ms[0]) && PseudoRun(Apply(p, ms[0]), ms[1..]))
  }

  ghost predicate LegalRun(p: Position, ms: seq<Move>)
    decreases |ms|
  {
    ms == [] || (IsLegal(p, ms[0]) && LegalRun(Apply(p, ms[0]), ms[1..]))
  }

  ghost function After(p: Position, ms: seq<Move>): Position
    decreases |ms|
  {
    if ms == [] then p else After(Apply(p, ms[0]), ms[1..])
  }

  /** do_move, once per move. */
  ghost function Played(d: BoardData, ms: seq<Move>): (r: BoardData)
    requires Sized(d)
    ensures Sized(r)
    decreases |ms|
  {
    if ms == [] then d else Played(Flip(DoMove(d, ms[0])), ms[1..])
  }

  lemma FlipInv(d: BoardData)
    requires Inv(d)
    ensures Inv(Flip(d)) && Abs(Flip(d)) == Position(CellsOf(d.b0), Opp(d.player))
  {
    hide CellsOf, WellFormedBoard, Rotated, LiveSlotsFit, LiveSlotsDistinct, Covered;
  }

  lemma PlayRefines(d: BoardData, m: Move)
    requires Inv(d) && IsPseudo(Abs(d).cells, Abs(d).player, m)
    ensures Inv(Flip(DoMove(d, m))) && Abs(Flip(DoMove(d, m))) == Apply(Abs(d), m)
  {
    hide CellsOf, IsPseudo, Inv, DoMove, Moved;
    StepRefines(d, d.player, m);
    FlipInv(DoMove(d, m));
  }

  /** Every run of pseudolegal moves keeps the record consistent and in step with the simple form. */
  lemma {:induction false} RunRefines(d: BoardData, ms: seq<Move>)
    requires Inv(d) && PseudoRun(Abs(d), ms)
    ensures Inv(Played(d, ms)) && Abs(Played(d, ms)) == After(Abs(d), ms)
    decreases |ms|
  {
    hide CellsOf, IsPseudo, Inv, DoMove, Moved, Flip, Apply, Abs;
    if ms != [] {
      PlayRefines(d, ms[0]);
      RunRefines(Flip(DoMove(d, ms[0])), ms[1..]);
    }
  }

  lemma {:induction false} LegalRunIsPseudo(p: Position, ms: seq<Move>)
    requires LegalRun(p, ms)
    ensures PseudoRun(p, ms)
    decreases |ms|
  {
    hide IsPseudo, InCheck, Moved, Apply;
    if ms != [] { LegalRunIsPseudo(Apply(p, ms[0]), ms[1..]); }
  }

  // ---------------------------------------------------------------- the kings

  /** Both kings are on the board and the side that has just moved is not in check. */
  ghost predicate KingsSafe(d: BoardData)
    ensures KingsSafe(d) ==> Inv(d)
  {
    Inv(d) && d.slots[KingSlot(White)] != DEAD && d.slots[KingSlot(Black)] != DEAD
    && !InCheck(CellsOf(d.b0), Opp(d.player))
  }

  ghost predicate CapturesKing(d: BoardData, m: Move)
    requires Sized(d)
  {
    m.to == d.slots[KingSlot(White)] || m.to == d.slots[KingSlot(Black)]
  }

  /** Where nothing attacks the king's slot, no move of the attacker ends there. */
  lemma NoKingCapture(d: BoardData, m: Move)
    requires KingsSafe(d) && IsPseudo(CellsOf(d.b0), d.player, m)
    ensures m.to != d.slots[KingSlot(Opp(d.player))]
  {
    hide CellsOf, IsPseudo, Inv, InCheck;
    KingSlotDecidesCheck(d, Opp(d.player));
  }

  lemma KingSlotSurvives(d: BoardData, m: Move, c: Color)
    requires Inv(d) && d.slots[KingSlot(c)] != DEAD && m.to != d.slots[KingSlot(c)]
    requires Ring(m.to)
    ensures DoMove(d, m).slots[KingSlot(c)] != DEAD
  {
  }

  lemma NotOwnKing(d: BoardData, m: Move)
    requires Inv(d) && IsPseudo(CellsOf(d.b0), d.player, m) && d.slots[KingSlot(d.player)] != DEAD
    ensures Ring(m.to) && m.to != d.slots[KingSlot(d.player)]
  {
    hide CellsOf, IsPseudo, Inv;
    PseudoShape(CellsOf(d.b0), d.player, m);
    KingSlotHoldsKing(d, d.player);
  }

  /** A legal move leaves the kings safe, so it never captures one. */
  lemma LegalKeepsKingsSafe(d: BoardData, m: Move)
    requires KingsSafe(d) && IsLegal(Abs(d), m)
    ensures KingsSafe(Flip(DoMove(d, m)))
    ensures !CapturesKing(d, m)
  {
    hide CellsOf, IsPseudo, Inv, InCheck, Moved, DoMove;
    NoKingCapture(d, m);
    NotOwnKing(d, m);
    KingSlotSurvives(d, m, White);
    KingSlotSurvives(d, m, Black);
    PlayRefines(d, m);
  }

  lemma {:induction false} RunKeepsKingsSafe(d: BoardData, ms: seq<Move>)
    requires KingsSafe(d) && LegalRun(Abs(d), ms)
    ensures KingsSafe(Played(d, ms))
    decreases |ms|
  {
    hide KingsSafe, IsLegal, Apply, Flip, DoMove, Abs;
    if ms != [] {
      LegalKeepsKingsSafe(d, ms[0]);
      LegalPlayRefines(d, ms[0]);
      RunKeepsKingsSafe(Flip(DoMove(d, ms[0])), ms[1..]);
    }
  }

  lemma LegalPlayRefines(d: BoardData, m: Move)
    requires KingsSafe(d) && IsLegal(Abs(d), m)
    ensures Abs(Flip(DoMove(d, m))) == Apply(Abs(d), m)
  {
    hide CellsOf, IsPseudo, Inv, InCheck, Moved, DoMove;
    PlayRefines(d, m);
  }

  // ---------------------------------------------------------------- from the starting position

  lemma InitialKingsSafe(d: BoardData)
    requires IsInitial(d)
    ensures KingsSafe(d)
  {
    hide CellsOf, Inv, InCheck, InitialCells, InitialBytes, Placed, Closed, Rotated;
    InitialInv(d);
    InitialBytesCells(d.b0);
    InitialPlaced(CellsOf(d.b0));
    InitialClosed(CellsOf(d.b0));
    InitialKings(CellsOf(d.b0));
    NotInCheck(CellsOf(d.b0), Black, Sq(3, 5));
  }

  /** In every run of legal moves from the starting position, whatever its length and however it
      ends, both kings stay on the board, the side that has just moved is not in check, and no
      further legal move would capture a king. */
  lemma KingsNeverCaptured(d: BoardData, ms: seq<Move>)
    requires IsInitial(d) && LegalRun(Abs(d), ms)
    ensures KingsSafe(Played(d, ms))
    ensures forall m :: IsLegal(Abs(Played(d, ms)), m) ==> !CapturesKing(Played(d, ms), m)
  {
    hide KingsSafe, IsLegal, LegalRun, Inv, IsInitial, Abs;
    InitialKingsSafe(d);
    RunKeepsKingsSafe(d, ms);
    forall m | IsLegal(Abs(Played(d, ms)), m) ensures !CapturesKing(Played(d, ms), m) {
      LegalKeepsKingsSafe(Played(d, ms), m);
    }
  }
}
