/** The inductions behind alpha-beta: what is known after the first j moves of an ordering. */
module AlphaBeta {
  import opened Rules
  import opened Boards
  import opened GameTree

  /** An ordering of a set of moves: each of them once. */
  ghost predicate Lists(order: seq<Move>, ms: set<Move>) {
    |order| == |ms| && forall m :: m in ms <==> m in order
  }

  predicate StrictlyBetter(maxing: bool, a: real, b: real) {
    if maxing then a > b else a < b
  }

  function Better(maxing: bool, a: real, b: real): real {
    if NotWorse(maxing, a, b) then a else b
  }

  /** After j moves, `best` bounds their values, and if it lies inside the window (beyond `bound`)
      one of them attains it. */
  ghost predicate Searched(d: BoardData, order: seq<Move>, j: int, maxing: bool, depth: nat, eval: Evaluator,
                           bound: real, best: real) {
    0 <= j <= |order|
    && (forall k :: 0 <= k < j ==> NotWorse(maxing, best, MoveValue(d, order[k], maxing, depth, eval)))
    && (StrictlyBetter(maxing, best, bound) ==>
          exists k :: 0 <= k < j && MoveValue(d, order[k], maxing, depth, eval) == best)
  }

  /** One more move, searched with the bound raised to the best value so far. */
  lemma SearchedStep(d: BoardData, order: seq<Move>, j: int, maxing: bool, depth: nat, eval: Evaluator,
                     bound: real, best: real, alpha: real, beta: real, r: real)
    requires Searched(d, order, j, maxing, depth, eval, bound, best) && j < |order|
    requires if maxing then alpha == Better(true, bound, best) && r < beta
             else beta == Better(false, bound, best) && r > alpha
    requires Window(r, MoveValue(d, order[j], maxing, depth, eval), alpha, beta)
    ensures Searched(d, order, j + 1, maxing, depth, eval, bound, Better(maxing, best, r))
  {
    hide MoveValue;
  }

  /** A move that closes the window bounds the value of the node on its other side. */
  lemma CutoffWindow(d: BoardData, ms: set<Move>, m: Move, maxing: bool, depth: nat, eval: Evaluator,
                     alpha: real, beta: real, low: real, high: real, r: real)
    requires m in ms && low < high
    requires Window(r, MoveValue(d, m, maxing, depth, eval), alpha, beta)
    requires if maxing then r >= beta == high else r <= alpha == low
    ensures Window(r, Best(d, ms, maxing, depth, eval), low, high)
  {
    hide MoveValue, Best;
    BestBounds(d, ms, maxing, depth, eval);
  }

  /** When all moves have been searched the best value is a window result for the node. */
  lemma SearchedWindow(d: BoardData, order: seq<Move>, ms: set<Move>, maxing: bool, depth: nat, eval: Evaluator,
                       low: real, high: real, best: real)
    requires Lists(order, ms) && ms != {} && low < high
    requires Searched(d, order, |order|, maxing, depth, eval, if maxing then low else high, best)
    requires if maxing then best < high else best > low
    ensures Window(best, Best(d, ms, maxing, depth, eval), low, high)
  {
    hide MoveValue, Best;
    BestBounds(d, ms, maxing, depth, eval);
    var m :| m in ms && MoveValue(d, m, maxing, depth, eval) == Best(d, ms, maxing, depth, eval);
    var k :| 0 <= k < |order| && order[k] == m;
    assert NotWorse(maxing, best, MoveValue(d, order[k], maxing, depth, eval));
  }
}
