/** Plain depth-limited minimax over board records, and what an alpha-beta result says about it. */
module GameTree {
  import opened Geometry
  import opened Rules
  import opened Boards

  /** The sentinel of the search: no score reaches it. */
  const DBL_MAX: real := 1.7976931348623157e308

  type Score = r: real | -DBL_MAX < r < DBL_MAX witness 0.0

  /** An evaluation reads the slots, the bytes of the board with any left-over bits, the side to
      move, and the number of its legal moves. */
  type Evaluator = (seq<Square>, seq<bv8>, Color, nat) -> Score

  /** The side to move prefers a to b, or does not care. */
  predicate NotWorse(maxing: bool, a: real, b: real) {
    if maxing then a >= b else a <= b
  }

  ghost predicate IsExtremum(maxing: bool, vs: set<Score>, v: Score) {
    v in vs && forall w :: w in vs ==> NotWorse(maxing, v, w)
  }

  lemma {:induction false} ExtremumExists(maxing: bool, vs: set<Score>) returns (x: Score)
    requires vs != {}
    ensures IsExtremum(maxing, vs, x)
    decreases |vs|
  {
    var v :| v in vs;
    if vs - {v} == {} {
      assert vs == {v};
      x := v;
    } else {
      var w := ExtremumExists(maxing, vs - {v});
      x := if NotWorse(maxing, v, w) then v else w;
      forall u | u in vs ensures NotWorse(maxing, x, u) {
        assert u == v || u in vs - {v};
      }
    }
  }

  ghost function Extremum(maxing: bool, vs: set<Score>): (v: Score)
    requires vs != {}
    ensures IsExtremum(maxing, vs, v)
  {
    assert exists x :: IsExtremum(maxing, vs, x) by { var x := ExtremumExists(maxing, vs); }
    var v :| IsExtremum(maxing, vs, v);
    v
  }

  // ---------------------------------------------------------------- the game

  ghost function Moves(d: BoardData): set<Move> {
    if Sized(d) then LegalMoves(Abs(d)) else {}
  }

  ghost function Child(d: BoardData, m: Move): (r: BoardData)
    ensures Sized(d) ==> Sized(r)
  {
    if Sized(d) then Flip(DoMove(d, m)) else d
  }

  ghost function Static(d: BoardData, eval: Evaluator): Score {
    eval(d.slots, d.b0, d.player, |Moves(d)|)
  }

  /** The value of a board searched to the given depth. */
  ghost function Minimax(d: BoardData, maxing: bool, depth: nat, eval: Evaluator): Score
    decreases depth
  {
    var ms := Moves(d);
    if ms == {} || depth == 0 then Static(d, eval) else Best(d, ms, maxing, depth - 1, eval)
  }

  /** The best value among some moves, each searched to the given depth. */
  ghost function Best(d: BoardData, ms: set<Move>, maxing: bool, depth: nat, eval: Evaluator): Score
    requires ms != {}
    decreases depth + 1, 0
  {
    var m :| m in ms;
    var vs := set m | m in ms :: Minimax(Child(d, m), !maxing, depth, eval);
    assert Minimax(Child(d, m), !maxing, depth, eval) in vs;
    Extremum(maxing, vs)
  }

  /** The value of one move for the side to move. */
  ghost function MoveValue(d: BoardData, m: Move, maxing: bool, depth: nat, eval: Evaluator): Score {
    Minimax(Child(d, m), !maxing, depth, eval)
  }

  /** Minimax, unfolded once. */
  lemma MinimaxNode(d: BoardData, maxing: bool, depth: nat, eval: Evaluator)
    ensures Moves(d) == {} || depth == 0 ==> Minimax(d, maxing, depth, eval) == Static(d, eval)
    ensures Moves(d) != {} && depth > 0 ==>
      Minimax(d, maxing, depth, eval) == Best(d, Moves(d), maxing, depth - 1, eval)
  {
    hide Moves, Best, Static;
  }

  lemma BestBounds(d: BoardData, ms: set<Move>, maxing: bool, depth: nat, eval: Evaluator)
    requires ms != {}
    ensures forall m :: m in ms ==>
      NotWorse(maxing, Best(d, ms, maxing, depth, eval), MoveValue(d, m, maxing, depth, eval))
    ensures exists m :: m in ms && MoveValue(d, m, maxing, depth, eval) == Best(d, ms, maxing, depth, eval)
  {
    hide Child, Minimax;
    var vs := set m | m in ms :: Minimax(Child(d, m), !maxing, depth, eval);
    assert forall m :: m in ms ==> Minimax(Child(d, m), !maxing, depth, eval) in vs;
  }

  /** A value that some move attains and no move beats is the best value. */
  lemma BestIs(d: BoardData, ms: set<Move>, maxing: bool, depth: nat, eval: Evaluator, best: Move)
    requires best in ms
    requires forall m :: m in ms ==>
      NotWorse(maxing, MoveValue(d, best, maxing, depth, eval), MoveValue(d, m, maxing, depth, eval))
    ensures Best(d, ms, maxing, depth, eval) == MoveValue(d, best, maxing, depth, eval)
  {
    hide Child, Minimax, Best, MoveValue;
    BestBounds(d, ms, maxing, depth, eval);
  }

  /** Two boards with the same moves, whose children have the same values, have the same best
      value. */
  lemma BestAgrees(d: BoardData, e: BoardData, ms: set<Move>, maxing: bool, depth: nat, eval: Evaluator)
    requires ms != {}
    requires forall m :: m in ms ==> MoveValue(d, m, maxing, depth, eval) == MoveValue(e, m, maxing, depth, eval)
    ensures Best(d, ms, maxing, depth, eval) == Best(e, ms, maxing, depth, eval)
  {
    hide MoveValue, Best;
    BestBounds(d, ms, maxing, depth, eval);
    var m :| m in ms && MoveValue(d, m, maxing, depth, eval) == Best(d, ms, maxing, depth, eval);
    BestIs(e, ms, maxing, depth, eval, m);
  }

  /** White can force a score of at least x: whatever Black does, White has moves so that the search
      ends, at this depth or where there is no move, on a board evaluated at x or more. */
  ghost predicate WhiteForces(d: BoardData, depth: nat, eval: Evaluator, x: real)
    requires Sized(d)
    decreases depth
  {
    var ms := LegalMoves(Abs(d));
    if ms == {} || depth == 0 then eval(d.slots, d.b0, d.player, |ms|) >= x
    else if d.player == White then exists m :: m in ms && WhiteForces(Flip(DoMove(d, m)), depth - 1, eval, x)
    else forall m :: m in ms ==> WhiteForces(Flip(DoMove(d, m)), depth - 1, eval, x)
  }

  /** The minimax value, with White as the maximising side, is the most that White can force. */
  lemma {:induction false} MinimaxIsForced(d: BoardData, depth: nat, eval: Evaluator, x: real)
    requires Sized(d)
    ensures Minimax(d, d.player == White, depth, eval) >= x <==> WhiteForces(d, depth, eval, x)
    decreases depth
  {
    hide *;
    ForcesNode(d, depth, eval, x);
    MinimaxNode(d, d.player == White, depth, eval);
    MovesAre(d, eval);
    if Moves(d) != {} && depth > 0 {
      BestBounds(d, Moves(d), d.player == White, depth - 1, eval);
      forall m | m in Moves(d)
        ensures MoveValue(d, m, d.player == White, depth - 1, eval) >= x
           <==> Sized(Child(d, m)) && WhiteForces(Child(d, m), depth - 1, eval, x)
      {
        PlayerPasses(d, m);
        MoveValueChild(d, m, d.player == White, depth - 1, eval);
        MinimaxIsForced(Child(d, m), depth - 1, eval, x);
      }
      BestAtLeast(d, depth, eval, x);
    }
  }

  lemma MoveValueChild(d: BoardData, m: Move, maxing: bool, depth: nat, eval: Evaluator)
    ensures MoveValue(d, m, maxing, depth, eval) == Minimax(Child(d, m), !maxing, depth, eval)
  {
    hide Minimax, Child;
  }

  lemma MovesAre(d: BoardData, eval: Evaluator)
    requires Sized(d)
    ensures Moves(d) == LegalMoves(Abs(d))
    ensures Static(d, eval) == eval(d.slots, d.b0, d.player, |Moves(d)|)
  {
    hide LegalMoves, Abs;
  }

  /** WhiteForces, unfolded once. */
  lemma ForcesNode(d: BoardData, depth: nat, eval: Evaluator, x: real)
    requires Sized(d)
    ensures Moves(d) == {} || depth == 0 ==> (WhiteForces(d, depth, eval, x) <==> Static(d, eval) >= x)
    ensures Moves(d) != {} && depth > 0 && d.player == White ==>
      (WhiteForces(d, depth, eval, x)
       <==> exists m :: m in Moves(d) && Sized(Child(d, m)) && WhiteForces(Child(d, m), depth - 1, eval, x))
    ensures Moves(d) != {} && depth > 0 && d.player != White ==>
      (WhiteForces(d, depth, eval, x)
       <==> forall m :: m in Moves(d) ==> Sized(Child(d, m)) && WhiteForces(Child(d, m), depth - 1, eval, x))
  {
    hide LegalMoves, Abs, DoMove, Flip;
    ChildrenSized(d);
  }

  lemma ChildrenSized(d: BoardData)
    requires Sized(d)
    ensures forall m :: Sized(Child(d, m)) && Child(d, m) == Flip(DoMove(d, m))
  {
    hide Moved64, MovedSlots, LastIndexOf;
  }

  lemma BestAtLeast(d: BoardData, depth: nat, eval: Evaluator, x: real)
    requires Moves(d) != {} && depth > 0
    ensures Best(d, Moves(d), d.player == White, depth - 1, eval) >= x <==>
      if d.player == White then exists m :: m in Moves(d) && MoveValue(d, m, true, depth - 1, eval) >= x
      else forall m :: m in Moves(d) ==> MoveValue(d, m, false, depth - 1, eval) >= x
  {
    hide Moves, MoveValue, Best;
    BestBounds(d, Moves(d), d.player == White, depth - 1, eval);
  }

  lemma PlayerPasses(d: BoardData, m: Move)
    requires Sized(d)
    ensures Sized(Child(d, m)) && (Child(d, m).player == White <==> d.player != White)
  {
    hide Moved64, MovedSlots, LastIndexOf;
  }

  /** r is the static score of a node at which a search to this depth ends. */
  ghost predicate LeafScore(d: BoardData, depth: nat, eval: Evaluator, r: real)
    decreases depth
  {
    if Moves(d) == {} || depth == 0 then r == Static(d, eval)
    else exists m :: m in Moves(d) && LeafScore(Child(d, m), depth - 1, eval, r)
  }

  /** r is such a score below one of the moves. */
  ghost predicate ChildScore(d: BoardData, depth: nat, eval: Evaluator, r: real) {
    exists m :: m in Moves(d) && LeafScore(Child(d, m), depth, eval, r)
  }

  lemma LeafScoreNode(d: BoardData, depth: nat, eval: Evaluator)
    ensures Moves(d) == {} || depth == 0 ==> LeafScore(d, depth, eval, Static(d, eval))
    ensures Moves(d) != {} && depth > 0 ==>
      forall r: real :: ChildScore(d, depth - 1, eval, r) ==> LeafScore(d, depth, eval, r)
  {
    hide Moves, Child, Static;
  }

  // ---------------------------------------------------------------- windows

  /** What a fail-soft result r says about the value v it was computed for: at most alpha, it is an
      upper bound; at least beta, a lower bound; in between, it is the value. */
  ghost predicate Window(r: real, v: real, alpha: real, beta: real) {
    (r <= alpha ==> v <= r) && (r >= beta ==> v >= r) && (alpha < r < beta ==> r == v)
  }
}
