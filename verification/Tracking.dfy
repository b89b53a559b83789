/** How the shared board of the search follows the boards of the game tree, left-over bits and all. */
module Tracking {
  import opened Geometry
  import opened Rules
  import opened Bytes
  import opened Boards
  import opened BoardFacts
  import opened UndoFacts
  import opened Runs
  import opened GameTree

  /** The same record up to undo information. */
  ghost predicate SameBoard(d: BoardData, e: BoardData) {
    e == d.(killed := e.killed, killedIdx := e.killedIdx)
  }

  /** The board e of the search stands for the board d of the game tree: up to left-over bits, or,
      when exactness is asked for, exactly. */
  ghost predicate Tracks(d: BoardData, e: BoardData, exact: bool) {
    Similar(d, e) && (exact ==> SameBoard(d, e))
  }

  /** No promotion is legal at any node down to the given depth. */
  ghost predicate NoPromotions(d: BoardData, depth: nat)
    decreases depth
  {
    (forall m :: m in Moves(d) ==> m.promo == NoPromo)
    && (depth > 0 ==> forall m :: m in Moves(d) ==> NoPromotions(Child(d, m), depth - 1))
  }

  /** The evaluation cannot see left-over bits. */
  ghost predicate Respects(eval: Evaluator) {
    forall d, e, n: nat | Similar(d, e) ::
      eval(d.slots, d.b0, d.player, n) == eval(e.slots, e.b0, e.player, n)
  }

  lemma {:induction false} NoPromotionsShallower(d: BoardData, n: nat, k: nat)
    requires NoPromotions(d, n) && k <= n
    ensures NoPromotions(d, k)
    decreases n
  {
    hide Moves, Child;
    if k > 0 {
      forall m | m in Moves(d) ensures NoPromotions(Child(d, m), k - 1) {
        NoPromotionsShallower(Child(d, m), n - 1, k - 1);
      }
    }
  }

  lemma ChildOfInv(d: BoardData, m: Move)
    requires Inv(d) && m in Moves(d)
    ensures Inv(Child(d, m)) && Abs(Child(d, m)) == Apply(Abs(d), m) && IsLegal(Abs(d), m)
  {
    hide Inv, IsPseudo, InCheck, CellsOf, Moved, DoMove;
    PlayRefines(d, m);
  }

  lemma RunStarts(p: Position, m: Move, ms: seq<Move>)
    requires IsLegal(p, m) && LegalRun(Apply(p, m), ms)
    ensures LegalRun(p, [m] + ms)
  {
    hide IsLegal, Apply;
    assert ([m] + ms)[1..] == ms;
  }

  /** No line of at most n legal moves contains a promotion. */
  ghost predicate NoPromotionIn(p: Position, n: nat) {
    forall ms: seq<Move>, i :: LegalRun(p, ms) && |ms| <= n && 0 <= i < |ms| ==> ms[i].promo == NoPromo
  }

  /** The condition on the nodes, said of the lines of play. */
  lemma {:induction false} NoPromotionsMeans(d: BoardData, depth: nat)
    requires Inv(d)
    ensures NoPromotions(d, depth) <==> NoPromotionIn(Abs(d), depth + 1)
    decreases depth
  {
    hide Inv, Moves, Child, Abs, IsLegal, Apply;
    if NoPromotions(d, depth) {
      forall ms: seq<Move>, i | LegalRun(Abs(d), ms) && |ms| <= depth + 1 && 0 <= i < |ms|
        ensures ms[i].promo == NoPromo
      {
        NoPromotionOn(d, depth, ms, i);
      }
    }
    if NoPromotionIn(Abs(d), depth + 1) {
      forall m | m in Moves(d) ensures m.promo == NoPromo && (depth > 0 ==> NoPromotions(Child(d, m), depth - 1)) {
        ChildOfInv(d, m);
        RunStarts(Abs(d), m, []);
        assert ([m] + [])[0].promo == NoPromo;
        if depth > 0 {
          NoPromotionAfter(Abs(d), m, depth);
          NoPromotionsMeans(Child(d, m), depth - 1);
        }
      }
    }
  }

  lemma NoPromotionAfter(p: Position, m: Move, n: nat)
    requires NoPromotionIn(p, n + 1) && IsLegal(p, m)
    ensures NoPromotionIn(Apply(p, m), n)
  {
    hide IsLegal, Apply;
    forall ms: seq<Move>, i | LegalRun(Apply(p, m), ms) && |ms| <= n && 0 <= i < |ms| ensures ms[i].promo == NoPromo {
      RunStarts(p, m, ms);
      assert ([m] + ms)[i + 1] == ms[i];
    }
  }

  lemma {:induction false} NoPromotionOn(d: BoardData, depth: nat, ms: seq<Move>, i: int)
    requires Inv(d) && NoPromotions(d, depth) && LegalRun(Abs(d), ms) && |ms| <= depth + 1 && 0 <= i < |ms|
    ensures ms[i].promo == NoPromo
    decreases depth
  {
    hide Inv, Child, IsLegal, Apply, Abs, LegalMoves;
    LegalIsMove(d, ms[0]);
    if i > 0 {
      ChildOfInv(d, ms[0]);
      NoPromotionOn(Child(d, ms[0]), depth - 1, ms[1..], i - 1);
    }
  }

  lemma LegalIsMove(d: BoardData, m: Move)
    requires Inv(d) && IsLegal(Abs(d), m)
    ensures m in Moves(d)
  {
    hide Inv, IsLegal, Abs;
  }

  lemma SimilarSymmetric(d: BoardData, e: BoardData)
    requires Similar(d, e)
    ensures Similar(e, d)
  {
    hide Inv, Abs;
  }

  lemma MovesOfSimilar(d: BoardData, e: BoardData)
    requires Similar(d, e)
    ensures Moves(d) == Moves(e) == LegalMoves(Abs(e))
  {
    hide LegalMoves, Abs;
  }

  lemma MovesArePseudo(d: BoardData, m: Move)
    requires Inv(d) && m in Moves(d)
    ensures IsPseudo(Abs(d).cells, Abs(d).player, m)
  {
    hide IsPseudo, InCheck, Abs, Inv;
  }

  /** Similar boards stay similar under every legal move. */
  lemma ChildSimilar(d: BoardData, e: BoardData, m: Move)
    requires Similar(d, e) && m in Moves(d)
    ensures Similar(Child(d, m), Child(e, m))
  {
    hide Inv, IsPseudo, CellsOf, Moved, Moves, Put, Rot, LastIndexOf;
    MovesOfSimilar(d, e);
    MovesArePseudo(d, m);
    PlayRefines(d, m);
    PlayRefines(e, m);
  }

  lemma ChildSame(d: BoardData, e: BoardData, m: Move)
    requires Sized(d) && Sized(e) && SameBoard(d, e)
    ensures Child(d, m) == Child(e, m)
  {
    hide MovedSlots, Moved64, LastIndexOf, PromoteByte;
  }

  /** Playing a move on both boards keeps them together. */
  lemma PlayTracks(d: BoardData, e: BoardData, m: Move, exact: bool)
    requires Tracks(d, e, exact) && m in Moves(d)
    ensures Tracks(Child(d, m), Child(e, m), exact)
  {
    hide Moves, Child, Inv;
    ChildSimilar(d, e, m);
    if exact { ChildSame(d, e, m); }
  }

  lemma FlipUndo(e: BoardData, m: Move)
    requires Sized(e)
    ensures UndoMove(Flip(e), m) == Flip(UndoMove(e, m))
  {
  }

  lemma FlipSimilar(d: BoardData, e: BoardData)
    requires Similar(d, e)
    ensures Similar(Flip(d), Flip(e))
  {
    hide CellsOf, WellFormedBoard, Rotated, LiveSlotsFit, LiveSlotsDistinct, Covered;
  }

  lemma FlipTwice(d: BoardData)
    ensures Flip(Flip(d)) == d
  {
  }

  lemma KeepsPlayer(d: BoardData, m: Move)
    requires Sized(d)
    ensures DoMove(d, m).player == d.player && UndoMove(d, m).player == d.player
  {
  }

  /** after is what the board looks like some time after playing m on e, with its undo record. */
  ghost predicate AfterPlay(e: BoardData, m: Move, after: BoardData) {
    Inv(e) && Similar(Child(e, m), after)
    && after.killed == DoMove(e, m).killed && after.killedIdx == DoMove(e, m).killedIdx
  }

  /** Undoing the move gives back a board similar to the one before it. */
  lemma PlayUndo(e: BoardData, m: Move, after: BoardData)
    requires AfterPlay(e, m, after) && IsPseudo(CellsOf(e.b0), e.player, m)
    ensures Similar(e, Flip(UndoMove(after, m)))
  {
    hide IsPseudo, CellsOf, DoMove, UndoMove, Inv, Movable;
    PseudoMovable(e, e.player, m);
    FlipSimilar(Child(e, m), after);
    FlipTwice(DoMove(e, m));
    UndoSimilar(e, m, Flip(after));
    FlipUndo(after, m);
    KeepsPlayer(e, m);
    KeepsPlayer(Flip(after), m);
  }

  /** Without a promotion, and with nothing changed in between, undo is exact. */
  lemma PlayUndoExact(e: BoardData, m: Move, after: BoardData)
    requires Inv(e) && IsPseudo(CellsOf(e.b0), e.player, m) && m.promo == NoPromo
    requires after == Child(e, m)
    ensures SameBoard(e, Flip(UndoMove(after, m)))
  {
    hide IsPseudo, CellsOf, DoMove, UndoMove, Inv, Movable;
    FlipUndo(DoMove(e, m), m);
    FlipTwice(UndoMove(DoMove(e, m), m));
    UndoIsExactIff(e, e.player, m);
  }

  /** Undoing a move on the shared board brings it back to the node it was played at. */
  lemma UndoTracks(d: BoardData, e: BoardData, m: Move, after: BoardData, exact: bool)
    requires Tracks(d, e, exact) && m in Moves(d) && (exact ==> m.promo == NoPromo)
    requires Tracks(Child(d, m), after, exact)
    requires after.killed == Child(e, m).killed && after.killedIdx == Child(e, m).killedIdx
    ensures Tracks(d, Flip(UndoMove(after, m)), exact)
  {
    hide IsPseudo, CellsOf, DoMove, UndoMove, Inv, Moves;
    MovesOfSimilar(d, e);
    MovesArePseudo(e, m);
    ChildSimilar(d, e, m);
    SimilarSymmetric(Child(d, m), Child(e, m));
    SimilarTransitive(Child(e, m), Child(d, m), after);
    PlayUndo(e, m, after);
    SimilarTransitive(d, e, Flip(UndoMove(after, m)));
    if exact {
      ChildSame(d, e, m);
      PlayUndoExact(e, m, after);
    }
  }

  /** Where the board is tracked exactly, or the evaluation cannot see the difference, the score on
      the shared board is the score in the game tree. */
  lemma SameScore(d: BoardData, e: BoardData, exact: bool, eval: Evaluator)
    requires Tracks(d, e, exact) && (exact || Respects(eval))
    ensures eval(e.slots, e.b0, e.player, |Moves(e)|) == Static(d, eval)
  {
    hide Inv, Moves;
    MovesOfSimilar(d, e);
  }

  // ---------------------------------------------------------------- evaluations of the position

  /** An evaluation of the decoded position. */
  function ByPosition(f: (Position, nat) -> Score): Evaluator {
    (slots: seq<Square>, b0: seq<bv8>, player: Color, n: nat) => PositionScore(f, b0, player, n)
  }

  function PositionScore(f: (Position, nat) -> Score, b0: seq<bv8>, player: Color, n: nat): Score {
    if |b0| == 64 then f(Position(CellsOf(b0), player), n) else 0.0
  }

  lemma ByPositionRespects(f: (Position, nat) -> Score)
    ensures Respects(ByPosition(f))
  {
    hide CellsOf, WellFormedBoard, Rotated, LiveSlotsFit, LiveSlotsDistinct, Covered;
  }

  /** For an evaluation that cannot see left-over bits, similar boards have the same minimax value
      to every depth. */
  lemma {:induction false} MinimaxOfSimilar(d: BoardData, e: BoardData, maxing: bool, depth: nat, eval: Evaluator)
    requires Similar(d, e) && Respects(eval)
    ensures Minimax(d, maxing, depth, eval) == Minimax(e, maxing, depth, eval)
    decreases depth
  {
    hide *;
    MinimaxNode(d, maxing, depth, eval);
    MinimaxNode(e, maxing, depth, eval);
    MovesOfSimilar(d, e);
    StaticOfSimilar(d, e, eval);
    if Moves(d) != {} && depth > 0 {
      forall m | m in Moves(d)
        ensures MoveValue(d, m, maxing, depth - 1, eval) == MoveValue(e, m, maxing, depth - 1, eval)
      {
        ChildSimilar(d, e, m);
        MinimaxOfSimilar(Child(d, m), Child(e, m), !maxing, depth - 1, eval);
        MoveValueIs(d, m, maxing, depth - 1, eval);
        MoveValueIs(e, m, maxing, depth - 1, eval);
      }
      BestAgrees(d, e, Moves(d), maxing, depth - 1, eval);
    }
  }

  lemma MoveValueIs(d: BoardData, m: Move, maxing: bool, depth: nat, eval: Evaluator)
    ensures MoveValue(d, m, maxing, depth, eval) == Minimax(Child(d, m), !maxing, depth, eval)
  {
    hide Minimax, Child;
  }

  lemma StaticOfSimilar(d: BoardData, e: BoardData, eval: Evaluator)
    requires Similar(d, e) && Respects(eval)
    ensures Static(d, eval) == Static(e, eval)
  {
    hide Inv, Moves;
    MovesOfSimilar(d, e);
  }
}
