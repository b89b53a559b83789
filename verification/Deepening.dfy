/** Iterative deepening at the root, and what it publishes. */
module Deepening {
  import opened Rules
  import opened Bytes
  import opened Boards
  import opened UndoFacts
  import opened BoardClass
  import opened GameTree
  import opened AlphaBeta
  import opened Tracking
  import opened Reads
  import opened Search

  // ---------------------------------------------------------------- what is published

  /** m is one of the first j moves. */
  ghost predicate IsTried(order: seq<Move>, j: int, m: Move) {
    0 < j <= |order| && exists k :: 0 <= k < j && order[k] == m
  }

  /** m, of value v, is the first of the first j moves of the ordering that no other of them
      beats. All of their values are exact. */
  ghost predicate FirstBest(d: BoardData, order: seq<Move>, j: int, maxing: bool, depth: nat, eval: Evaluator,
                            m: Move, v: real) {
    0 < j <= |order|
    && (forall i :: 0 <= i < j ==> NotWorse(maxing, v, MoveValue(d, order[i], maxing, depth, eval)))
    && exists k :: 0 <= k < j && order[k] == m && MoveValue(d, order[k], maxing, depth, eval) == v
         && forall i :: 0 <= i < k ==> StrictlyBetter(maxing, v, MoveValue(d, order[i], maxing, depth, eval))
  }

  /** One write to best_move: the move, and why it was written. The final one of a round comes after
      all root moves. */
  datatype Publication =
    Publication(movement: Move, eval: Score, cutoff: nat, order: seq<MoveEval>, tried: nat, final: bool)

  /** In a round with this cutoff, scores on the shared board are those of the game tree. */
  ghost predicate CanTrust(d: BoardData, cutoff: nat, eval: Evaluator) {
    Trusted(eval, NoPromotions(d, cutoff + 1))
  }

  ghost predicate Sound(w: Publication, d: BoardData, maxing: bool, eval: Evaluator) {
    IsOrdering(w.order, d, !maxing, eval, CanTrust(d, w.cutoff, eval))
    && IsTried(MovesOf(w.order), w.tried, w.movement)
    && (w.final ==> w.tried == |w.order|)
    && (CanTrust(d, w.cutoff, eval) ==>
          FirstBest(d, MovesOf(w.order), w.tried, maxing, w.cutoff, eval, w.movement, w.eval))
  }

  /** A sound publication is a legal root move, whenever it was made. */
  lemma SoundIsLegal(w: Publication, d: BoardData, maxing: bool, eval: Evaluator)
    requires Sound(w, d, maxing, eval) && Sized(d)
    ensures IsLegal(Abs(d), w.movement)
  {
    hide IsLegal, FirstBest, IsOrdering, CanTrust, LegalMoves, Abs;
    var k :| 0 <= k < w.tried && MovesOf(w.order)[k] == w.movement;
    ChildIsMove(w.order, d, !maxing, eval, CanTrust(d, w.cutoff, eval), k);
  }

  /** The final publication of a round has the plain minimax value. */
  lemma FinalIsMinimax(w: Publication, d: BoardData, maxing: bool, eval: Evaluator)
    requires Sound(w, d, maxing, eval) && w.final && CanTrust(d, w.cutoff, eval)
    ensures w.eval == Minimax(d, maxing, w.cutoff + 1, eval)
  {
    hide Moves, MoveValue, Best, Minimax, IsSorted, Evaluated, CanTrust;
    var order, ms := MovesOf(w.order), Moves(d);
    OrderingSize(w.order, d, !maxing, eval, true);
    MinimaxNode(d, maxing, w.cutoff + 1, eval);
    assert w.movement in order;
    forall m | m in ms
      ensures NotWorse(maxing, MoveValue(d, w.movement, maxing, w.cutoff, eval),
                       MoveValue(d, m, maxing, w.cutoff, eval))
    {
      var i :| 0 <= i < |order| && order[i] == m;
    }
    BestIs(d, ms, maxing, w.cutoff, eval, w.movement);
  }

  /** The first root move. For Black the window may already be closed to its value. */
  lemma FirstMove(d: BoardData, order: seq<Move>, maxing: bool, depth: nat, eval: Evaluator, beta: real, r: Score)
    requires order != [] && (beta == DBL_MAX || beta == MoveValue(d, order[0], maxing, depth, eval))
    requires MoveWindow(r, d, order[0], maxing, depth, eval, -DBL_MAX, beta)
    ensures r == MoveValue(d, order[0], maxing, depth, eval)
    ensures FirstBest(d, order, 1, maxing, depth, eval, order[0], r)
  {
    hide MoveValue, LeafScore, Child;
  }

  /** One more root move, searched with the window closed to the best value so far. */
  lemma NextMove(d: BoardData, order: seq<Move>, j: int, maxing: bool, depth: nat, eval: Evaluator,
                 m: Move, v: real, r: Score)
    requires FirstBest(d, order, j, maxing, depth, eval, m, v) && j < |order|
    requires MoveWindow(r, d, order[j], maxing, depth, eval, if maxing then v else -DBL_MAX,
                        if maxing then DBL_MAX else v)
    ensures StrictlyBetter(maxing, r, v) ==> FirstBest(d, order, j + 1, maxing, depth, eval, order[j], r)
    ensures !StrictlyBetter(maxing, r, v) ==> FirstBest(d, order, j + 1, maxing, depth, eval, m, v)
  {
    hide MoveValue, LeafScore, Child;
  }

  lemma TriedMore(order: seq<Move>, j: int, m: Move)
    requires 0 <= j < |order|
    ensures IsTried(order, j + 1, order[j])
    ensures IsTried(order, j, m) ==> IsTried(order, j + 1, m)
  {
  }

  // ---------------------------------------------------------------- the log

  /** The atomic best_move, with the history of the writes to it. */
  class BestMove {
    var value: Move
    ghost var log: seq<Publication>
    ghost const initial: Move

    /** The value is the one of the last write, or the one it started with. */
    ghost predicate Latest()
      reads this
    {
      value == if log == [] then initial else log[|log| - 1].movement
    }

    constructor (m: Move)
      ensures value == m && log == [] && Latest()
    {
      value := m;
      log := [];
      initial := m;
    }

    method Write(m: Move, ghost w: Publication)
      requires w.movement == m
      modifies this
      ensures Latest() && log == old(log) + [w]
    {
      value := m;
      log := log + [w];
    }
  }

  /** What was written since then. */
  ghost function Written(was: seq<Publication>, log: seq<Publication>): seq<Publication> {
    if |was| <= |log| then log[|was|..] else []
  }

  /** The completed rounds: the final writes, in order. */
  ghost function Finals(ws: seq<Publication>): seq<Publication> {
    if ws == [] then []
    else Finals(ws[..|ws| - 1]) + if ws[|ws| - 1].final then [ws[|ws| - 1]] else []
  }

  /** Every write belongs to the round after the ones completed before it, and the rounds have the
      cutoffs 1, 3, 5, ... */
  ghost predicate Paced(ws: seq<Publication>) {
    forall i :: 0 <= i < |ws| ==> ws[i].cutoff == 2 * |Finals(ws[..i])| + 1
  }

  ghost predicate AllSound(ws: seq<Publication>, d: BoardData, maxing: bool, eval: Evaluator) {
    forall i :: 0 <= i < |ws| ==> Sound(ws[i], d, maxing, eval)
  }

  /** How many rounds were completed since then. */
  ghost function Completed(was: seq<Publication>, log: seq<Publication>): nat {
    |Finals(Written(was, log))|
  }

  /** The whole log since then, accounted for. */
  ghost predicate SearchLog(was: seq<Publication>, log: seq<Publication>, d: BoardData, maxing: bool, eval: Evaluator)
    ensures SearchLog(was, log, d, maxing, eval) ==> was <= log
  {
    was <= log && Paced(Written(was, log)) && AllSound(Written(was, log), d, maxing, eval)
  }

  lemma FinalsMore(ws: seq<Publication>, w: Publication)
    ensures Finals(ws + [w]) == Finals(ws) + if w.final then [w] else []
  {
    assert (ws + [w])[..|ws|] == ws;
  }

  lemma PacedMore(ws: seq<Publication>, w: Publication)
    requires Paced(ws) && w.cutoff == 2 * |Finals(ws)| + 1
    ensures Paced(ws + [w])
  {
    var more := ws + [w];
    forall i | 0 <= i < |more| ensures more[i].cutoff == 2 * |Finals(more[..i])| + 1 {
      assert more[..i] == ws[..i];
      if i == |ws| { assert ws[..i] == ws; }
    }
  }

  lemma NothingWritten(was: seq<Publication>, d: BoardData, maxing: bool, eval: Evaluator)
    ensures SearchLog(was, was, d, maxing, eval) && Completed(was, was) == 0
  {
  }

  lemma OneMoreWrite(was: seq<Publication>, log: seq<Publication>, w: Publication, d: BoardData, maxing: bool,
                     eval: Evaluator)
    requires SearchLog(was, log, d, maxing, eval) && Sound(w, d, maxing, eval)
    requires w.cutoff == 2 * Completed(was, log) + 1
    ensures SearchLog(was, log + [w], d, maxing, eval)
    ensures Completed(was, log + [w]) == Completed(was, log) + if w.final then 1 else 0
  {
    hide Sound, Finals, Paced;
    assert Written(was, log + [w]) == Written(was, log) + [w];
    FinalsMore(Written(was, log), w);
    PacedMore(Written(was, log), w);
  }

  lemma PacedFront(ws: seq<Publication>)
    requires Paced(ws) && ws != []
    ensures Paced(ws[..|ws| - 1]) && ws[|ws| - 1].cutoff == 2 * |Finals(ws[..|ws| - 1])| + 1
  {
    hide Finals;
    var front := ws[..|ws| - 1];
    forall i | 0 <= i < |front| ensures front[i].cutoff == 2 * |Finals(front[..i])| + 1 {
      assert front[..i] == ws[..i] && front[i] == ws[i];
    }
  }

  lemma {:induction false} FinalsPaced(ws: seq<Publication>, k: nat)
    requires Paced(ws) && k < |Finals(ws)|
    ensures Finals(ws)[k].cutoff == 2 * k + 1 && Finals(ws)[k].final && Finals(ws)[k] in ws
    decreases |ws|
  {
    hide Paced;
    var front := ws[..|ws| - 1];
    PacedFront(ws);
    if k < |Finals(front)| { FinalsPaced(front, k); }
  }

  /** Cutoffs never decrease along the log, and none is beyond the round after the completed ones. */
  lemma {:induction false} CutoffsGrow(ws: seq<Publication>, i: nat, j: nat)
    requires Paced(ws) && i <= j < |ws|
    ensures ws[i].cutoff <= ws[j].cutoff <= 2 * |Finals(ws)| + 1
    ensures ws[i].final && i < j ==> ws[i].cutoff < ws[j].cutoff
  {
    FinalsGrow(ws, i, j);
    FinalsGrow(ws, j, |ws|);
    assert ws[..|ws|] == ws;
    if i < j {
      FinalsGrow(ws, i + 1, j);
      assert ws[..i + 1] == ws[..i] + [ws[i]];
      FinalsMore(ws[..i], ws[i]);
    }
  }

  lemma {:induction false} FinalsGrow(ws: seq<Publication>, i: nat, j: nat)
    requires i <= j <= |ws|
    ensures |Finals(ws[..i])| <= |Finals(ws[..j])|
    decreases j
  {
    if i < j {
      FinalsGrow(ws, i, j - 1);
      assert ws[..j] == ws[..j - 1] + [ws[j - 1]];
      FinalsMore(ws[..j - 1], ws[j - 1]);
    }
  }

  /** The k-th completed round searched to depth 2k+1 below each root move, and ended with the first
      move of its ordering that attains the plain minimax value, and with that value. */
  ghost predicate Deepened(rounds: seq<Publication>, d: BoardData, maxing: bool, eval: Evaluator) {
    forall k :: 0 <= k < |rounds| ==>
      rounds[k].final && rounds[k].cutoff == 2 * k + 1 && Sound(rounds[k], d, maxing, eval)
      && (CanTrust(d, 2 * k + 1, eval) ==> rounds[k].eval == Minimax(d, maxing, 2 * k + 2, eval))
  }

  lemma RoundsAreMinimax(was: seq<Publication>, log: seq<Publication>, d: BoardData, maxing: bool, eval: Evaluator)
    requires SearchLog(was, log, d, maxing, eval)
    ensures Deepened(Finals(Written(was, log)), d, maxing, eval)
  {
    hide Sound, Minimax, Finals, Paced, CanTrust;
    var ws := Written(was, log);
    var rounds := Finals(ws);
    forall k | 0 <= k < |rounds|
      ensures rounds[k].final && rounds[k].cutoff == 2 * k + 1 && Sound(rounds[k], d, maxing, eval)
      ensures CanTrust(d, 2 * k + 1, eval) ==> rounds[k].eval == Minimax(d, maxing, 2 * k + 2, eval)
    {
      FinalsPaced(ws, k);
      var i :| 0 <= i < |ws| && ws[i] == rounds[k];
      if CanTrust(d, 2 * k + 1, eval) { FinalIsMinimax(rounds[k], d, maxing, eval); }
    }
  }

  // ---------------------------------------------------------------- one round

  /** The local variables of a round after j root moves: the best move and its value, and the bound
      of the window, which starts at Black's probe and then is the best value itself. */
  ghost predicate RootState(d: BoardData, order: seq<Move>, j: int, maxing: bool, cutoff: nat, eval: Evaluator,
                            trusted: bool, movement: Move, optimum: real, bound: real) {
    0 <= j <= |order|
    && (if maxing then -DBL_MAX <= bound == optimum < DBL_MAX
        else -DBL_MAX < bound < DBL_MAX && (j > 0 ==> bound <= optimum))
    && (j == 0 ==> optimum == if maxing then -DBL_MAX else DBL_MAX)
    && (j == 0 && !maxing && trusted && order != [] ==> bound == MoveValue(d, order[0], maxing, cutoff, eval))
    && (j > 0 ==> -DBL_MAX < optimum < DBL_MAX && IsTried(order, j, movement))
    && (j > 0 && trusted ==> bound == optimum && FirstBest(d, order, j, maxing, cutoff, eval, movement, optimum))
  }

  /** The result of one more root move, searched under the bound. */
  lemma RootStep(d: BoardData, order: seq<Move>, j: int, maxing: bool, cutoff: nat, eval: Evaluator, trusted: bool,
                 movement: Move, optimum: real, bound: real, r: Score)
    requires RootState(d, order, j, maxing, cutoff, eval, trusted, movement, optimum, bound) && j < |order|
    requires trusted ==>
      MoveWindow(r, d, order[j], maxing, cutoff, eval, if maxing then bound else -DBL_MAX,
                 if maxing then DBL_MAX else bound)
    ensures var better := StrictlyBetter(maxing, r, optimum);
      (j == 0 ==> better)
      && RootState(d, order, j + 1, maxing, cutoff, eval, trusted, if better then order[j] else movement,
                   if better then r else optimum, Better(maxing, bound, r))
  {
    hide MoveWindow, MoveValue, FirstBest, IsTried;
    TriedMore(order, j, movement);
    if trusted {
      if j == 0 {
        FirstMove(d, order, maxing, cutoff, eval, if maxing then DBL_MAX else bound, r);
      } else {
        NextMove(d, order, j, maxing, cutoff, eval, movement, optimum, r);
      }
    }
  }

  lemma SoundIs(w: Publication, d: BoardData, maxing: bool, eval: Evaluator, exact: bool, bound: real)
    requires exact == NoPromotions(d, w.cutoff + 1)
    requires IsOrdering(w.order, d, !maxing, eval, Trusted(eval, exact))
    requires w.tried > 0 && (w.final ==> w.tried == |w.order|)
    requires RootState(d, MovesOf(w.order), w.tried, maxing, w.cutoff, eval, Trusted(eval, exact), w.movement, w.eval,
                       bound)
    ensures Sound(w, d, maxing, eval)
  {
    hide IsOrdering, FirstBest, IsTried, Trusted, NoPromotions, MovesOf;
  }

  /** best_move = optimum.movement */
  method Announce(ghost was: seq<Publication>, best: BestMove, m: Move, ghost w: Publication, ghost d: BoardData,
                  ghost maxing: bool, ghost eval: Evaluator, ghost exact: bool, ghost bound: real)
    requires SearchLog(was, best.log, d, maxing, eval) && w.movement == m
    requires w.cutoff == 2 * Completed(was, best.log) + 1
    requires exact == NoPromotions(d, w.cutoff + 1)
    requires IsOrdering(w.order, d, !maxing, eval, Trusted(eval, exact))
    requires w.tried > 0 && (w.final ==> w.tried == |w.order|)
    requires RootState(d, MovesOf(w.order), w.tried, maxing, w.cutoff, eval, Trusted(eval, exact), m, w.eval, bound)
    modifies best
    ensures best.Latest() && best.log == old(best.log) + [w]
    ensures SearchLog(was, best.log, d, maxing, eval)
    ensures Completed(was, best.log) == old(Completed(was, best.log)) + if w.final then 1 else 0
  {
    hide Sound, SearchLog, Completed, RootState, IsOrdering, Trusted, NoPromotions, MovesOf;
    SoundIs(w, d, maxing, eval, exact, bound);
    OneMoreWrite(was, best.log, w, d, maxing, eval);
    best.Write(m, w);
  }

  /** The written move is the first best of the first t root moves of its round. */
  ghost predicate Stands(w: Publication, d: BoardData, maxing: bool, eval: Evaluator, cutoff: nat, t: nat) {
    w.cutoff == cutoff && IsTried(MovesOf(w.order), t, w.movement)
    && (CanTrust(d, cutoff, eval) ==> FirstBest(d, MovesOf(w.order), t, maxing, cutoff, eval, w.movement, w.eval))
  }

  /** After t root moves of a round: nothing is written if t is 0, and otherwise what was written
      last stands over all of them. */
  ghost predicate Standing(before: seq<Publication>, after: seq<Publication>, d: BoardData, maxing: bool,
                           eval: Evaluator, cutoff: nat, t: nat) {
    if t == 0 then before == after
    else before < after && Stands(after[|after| - 1], d, maxing, eval, cutoff, t)
  }

  /** The last write is the round's best move so far. */
  ghost predicate Shown(log: seq<Publication>, order: seq<MoveEval>, cutoff: nat, movement: Move, optimum: real) {
    log != [] && var w := log[|log| - 1];
    w.order == order && w.cutoff == cutoff && w.movement == movement && w.eval == optimum
  }

  lemma ShownNow(log: seq<Publication>, w: Publication)
    ensures Shown(log + [w], w.order, w.cutoff, w.movement, w.eval)
  {
  }

  lemma StandsNow(before: seq<Publication>, log: seq<Publication>, order: seq<MoveEval>, d: BoardData, maxing: bool,
                  eval: Evaluator, exact: bool, cutoff: nat, j: nat, movement: Move, optimum: real, bound: real)
    requires exact == NoPromotions(d, cutoff + 1)
    requires RootState(d, MovesOf(order), j, maxing, cutoff, eval, Trusted(eval, exact), movement, optimum, bound)
    requires if j == 0 then log == before else before < log && Shown(log, order, cutoff, movement, optimum)
    ensures Standing(before, log, d, maxing, eval, cutoff, j)
  {
    hide FirstBest, IsTried, MovesOf, NoPromotions, Trusted, MoveValue;
  }

  /** What a round promises: it writes nothing but sound moves, exactly one of them final if it is
      completed; what it wrote last stands over all root moves that it has searched; and it is
      completed unless it is cancelled or there is no move, which cannot happen before the first t
      root moves are searched, or at all, if the flag lasts long enough. */
  ghost predicate RoundDone(was: seq<Publication>, before: seq<Publication>, after: seq<Publication>,
                            d: BoardData, maxing: bool, eval: Evaluator, cutoff: nat, completed: bool,
                            tried: nat, budget: nat, left: nat) {
    SearchLog(was, after, d, maxing, eval) && before <= after
    && Completed(was, after) == Completed(was, before) + (if completed then 1 else 0)
    && budget - RoundReads(d, cutoff) <= left <= budget
    && (!completed ==> left == 0 || Moves(d) == {})
    && tried <= |Moves(d)| && Standing(before, after, d, maxing, eval, cutoff, tried)
    && (completed ==> tried == |Moves(d)| && before < after && after[|after| - 1].final)
    && (tried < |Moves(d)| ==> budget <= TriedReads(d, cutoff, tried + 1, maxing))
    && (Moves(d) == {} ==> before == after)
  }

  /** The log during a round that is not completed yet. */
  ghost predicate RoundLog(was: seq<Publication>, before: seq<Publication>, log: seq<Publication>,
                           d: BoardData, maxing: bool, eval: Evaluator, j: int) {
    SearchLog(was, log, d, maxing, eval) && before <= log && Completed(was, log) == Completed(was, before)
    && (j > 0 ==> before < log)
  }

  lemma PlainRoot(d: BoardData, exact: bool, cutoff: nat)
    requires exact == NoPromotions(d, cutoff + 1)
    ensures Plain(d, exact, cutoff + 1)
  {
    hide NoPromotions;
  }

  lemma RootReads(d: BoardData, cutoff: nat, maxing: bool)
    ensures var n, each := |Moves(d)|, 2 + ChildReads(d, cutoff);
      RoundReads(d, cutoff) == n + Times(n, each) + each + 1
      && TriedReads(d, cutoff, 1, maxing) == n + if maxing then each else 2 * each
  {
    hide Moves, ChildReads;
    TimesStep(|Moves(d)|, 2 + ChildReads(d, cutoff));
    TimesStep(1, 2 + ChildReads(d, cutoff));
    TimesStep(0, 2 + ChildReads(d, cutoff));
  }

  lemma TriedReadsIs(d: BoardData, cutoff: nat, t: nat, maxing: bool)
    ensures var each := 2 + ChildReads(d, cutoff);
      TriedReads(d, cutoff, t, maxing) == |Moves(d)| + Times(t, each) + if maxing then 0 else each
  {
    hide Moves, ChildReads;
    TimesStep(t, 2 + ChildReads(d, cutoff));
  }

  lemma NotTried(log: seq<Publication>, d: BoardData, maxing: bool, eval: Evaluator, cutoff: nat)
    ensures Standing(log, log, d, maxing, eval, cutoff, 0)
  {
  }

  lemma RoundStarts(was: seq<Publication>, log: seq<Publication>, d: BoardData, maxing: bool, eval: Evaluator)
    requires SearchLog(was, log, d, maxing, eval)
    ensures RoundLog(was, log, log, d, maxing, eval, 0)
  {
    hide SearchLog, Completed;
  }

  lemma RoundIs(was: seq<Publication>, before: seq<Publication>, log: seq<Publication>, d: BoardData, maxing: bool,
                eval: Evaluator, j: int)
    requires RoundLog(was, before, log, d, maxing, eval, j)
    ensures SearchLog(was, log, d, maxing, eval) && before <= log && Completed(was, log) == Completed(was, before)
    ensures j > 0 ==> before < log
  {
    hide SearchLog, Completed;
  }

  lemma RoundGoesOn(was: seq<Publication>, before: seq<Publication>, log: seq<Publication>, d: BoardData,
                    maxing: bool, eval: Evaluator, j: int)
    requires SearchLog(was, log, d, maxing, eval) && before < log && Completed(was, log) == Completed(was, before)
    ensures RoundLog(was, before, log, d, maxing, eval, j + 1)
  {
    hide SearchLog, Completed;
  }

  lemma RootStarts(d: BoardData, order: seq<Move>, maxing: bool, cutoff: nat, eval: Evaluator, trusted: bool,
                   movement: Move, optimum: real, bound: real)
    requires order != [] && optimum == if maxing then -DBL_MAX else DBL_MAX
    requires if maxing then bound == -DBL_MAX else -DBL_MAX < bound < DBL_MAX
    requires !maxing && trusted ==> bound == MoveValue(d, order[0], maxing, cutoff, eval)
    ensures RootState(d, order, 0, maxing, cutoff, eval, trusted, movement, optimum, bound)
  {
    hide MoveValue, FirstBest, IsTried;
  }

  lemma RootValue(d: BoardData, order: seq<Move>, j: int, maxing: bool, cutoff: nat, eval: Evaluator, trusted: bool,
                  movement: Move, optimum: real, bound: real)
    requires RootState(d, order, j, maxing, cutoff, eval, trusted, movement, optimum, bound) && j > 0
    ensures -DBL_MAX < optimum < DBL_MAX
  {
    hide MoveValue, FirstBest, IsTried;
  }

  /** The end of a round, after all root moves: optimum.movement is written once more unless the
      flag has turned false. */
  method EndRound(flag: SearchFlag, best: BestMove, legalMoves: seq<MoveEval>, movement: Move, optimum: real,
                  cutoff: nat, ghost d: BoardData, ghost maxing: bool, ghost eval: Evaluator, ghost exact: bool,
                  ghost bound: real, ghost was: seq<Publication>, ghost before: seq<Publication>)
    returns (completed: bool)
    requires legalMoves != [] && IsOrdering(legalMoves, d, !maxing, eval, Trusted(eval, exact))
    requires exact == NoPromotions(d, cutoff + 1) && cutoff == 2 * Completed(was, before) + 1 && best.Latest()
    requires RoundLog(was, before, best.log, d, maxing, eval, |legalMoves|)
    requires Shown(best.log, legalMoves, cutoff, movement, optimum)
    requires RootState(d, MovesOf(legalMoves), |legalMoves|, maxing, cutoff, eval, Trusted(eval, exact), movement,
                       optimum, bound)
    modifies flag, best
    ensures best.Latest() && SearchLog(was, best.log, d, maxing, eval) && before <= best.log
    ensures Completed(was, best.log) == Completed(was, before) + if completed then 1 else 0
    ensures Standing(before, best.log, d, maxing, eval, cutoff, |legalMoves|)
    ensures completed ==> before < best.log && best.log[|best.log| - 1].final
    ensures old(flag.budget) - 1 <= flag.budget <= old(flag.budget) && (!completed ==> flag.budget == 0)
  {
    hide Moves, Trusted, IsOrdering, NoPromotions, MovesOf, RootState, RoundLog, SearchLog, Completed, BestMove.Latest,
      Shown, Standing;
    ghost var n, order, trusted := |legalMoves|, MovesOf(legalMoves), Trusted(eval, exact);
    RoundIs(was, before, best.log, d, maxing, eval, n);
    StandsNow(before, best.log, legalMoves, d, maxing, eval, exact, cutoff, n, movement, optimum, bound);
    var search := flag.Read();
    if !search { return false; }
    RootValue(d, order, n, maxing, cutoff, eval, trusted, movement, optimum, bound);
    ghost var w := Publication(movement, optimum, cutoff, legalMoves, n, true);
    ShownNow(best.log, w);
    Announce(was, best, movement, w, d, maxing, eval, exact, bound);
    StandsNow(before, best.log, legalMoves, d, maxing, eval, exact, cutoff, n, movement, optimum, bound);
    return true;
  }

  /** The loop of search_move for White over the root moves. */
  method WhiteMoves(b: Board, flag: SearchFlag, best: BestMove, eval: Evaluator, cutoff: nat,
                    legalMoves: seq<MoveEval>, ghost d: BoardData, ghost exact: bool, ghost was: seq<Publication>)
    returns (completed: bool, ghost tried: nat)
    requires b.Valid() && Tracks(d, b.Data(), exact) && exact == NoPromotions(d, cutoff + 1)
    requires SearchLog(was, best.log, d, true, eval) && best.Latest() && cutoff == 2 * Completed(was, best.log) + 1
    requires legalMoves != [] && IsOrdering(legalMoves, d, false, eval, Trusted(eval, exact))
    modifies b.Repr(), flag, best
    ensures b.Valid() && Tracks(d, b.Data(), exact) && best.Latest()
    ensures SearchLog(was, best.log, d, true, eval) && old(best.log) <= best.log
    ensures Completed(was, best.log) == old(Completed(was, best.log)) + if completed then 1 else 0
    ensures old(flag.budget) - Times(|legalMoves|, 2 + ChildReads(d, cutoff)) - 1 <= flag.budget <= old(flag.budget)
    ensures !completed ==> flag.budget == 0
    ensures tried <= |legalMoves| && Standing(old(best.log), best.log, d, true, eval, cutoff, tried)
    ensures tried < |legalMoves| ==> old(flag.budget) <= Times(tried + 1, 2 + ChildReads(d, cutoff))
    ensures completed ==>
      tried == |legalMoves| && old(best.log) < best.log && best.log[|best.log| - 1].final
  {
    hide Inv, Moves, Tracks, Trusted, Plain, IsOrdering, NoPromotions, MoveWindow, MovesOf, RootState, RoundLog,
      SearchLog, Completed, BestMove.Latest, NodeReads, ChildReads, Times, Child, MoveValue,
      Shown, Standing;
    assert flag !in b.Repr() && best !in b.Repr();
    ghost var before, trusted, order := best.log, Trusted(eval, exact), MovesOf(legalMoves);
    ghost var each: nat := 2 + ChildReads(d, cutoff);
    TimesStep(0, each);
    tried := 0;
    PlainRoot(d, exact, cutoff);
    var alpha, beta := -DBL_MAX, DBL_MAX;
    var optimum := -DBL_MAX;
    var movement: Move := *;
    RoundStarts(was, before, d, true, eval);
    RootStarts(d, order, true, cutoff, eval, trusted, movement, optimum, alpha);
    for j := 0 to |legalMoves|
      invariant b.Valid() && Tracks(d, b.Data(), exact) && best.Latest()
      invariant RoundLog(was, before, best.log, d, true, eval, j)
      invariant old(flag.budget) - Times(j, each) <= flag.budget <= old(flag.budget)
      invariant tried == j && (j == 0 ==> best.log == before)
      invariant j > 0 ==> Shown(best.log, legalMoves, cutoff, movement, optimum)
      invariant -DBL_MAX <= alpha < DBL_MAX
      invariant RootState(d, order, j, true, cutoff, eval, trusted, movement, optimum, alpha)
    {
      ChildIsMove(legalMoves, d, false, eval, trusted, j);
      ChildBound(d, legalMoves[j].movement, cutoff);
      TimesStep(j, each);
      TimesGrow(j + 1, |legalMoves|, each);
      RoundIs(was, before, best.log, d, true, eval, j);
      StandsNow(before, best.log, legalMoves, d, true, eval, exact, cutoff, j, movement, optimum, alpha);
      var r := MoveAndEval(b, legalMoves[j].movement, 0, cutoff, alpha, beta, eval, true, flag, d, exact);
      var search := flag.Read();
      if !search { return false, tried; }
      RootStep(d, order, j, true, cutoff, eval, trusted, movement, optimum, alpha, r);
      alpha := if alpha < r then r else alpha;
      if optimum < r {
        optimum := r;
        movement := legalMoves[j].movement;
        ghost var w := Publication(movement, r, cutoff, legalMoves, j + 1, false);
        ShownNow(best.log, w);
        Announce(was, best, movement, w, d, true, eval, exact, alpha);
      }
      tried := j + 1;
      RoundGoesOn(was, before, best.log, d, true, eval, j);
    }
    completed := EndRound(flag, best, legalMoves, movement, optimum, cutoff, d, true, eval, exact, alpha, was, before);
  }

  /** One round of search_move for White. */
  method WhiteRound(b: Board, flag: SearchFlag, best: BestMove, eval: Evaluator, cutoff: nat,
                    ghost d: BoardData, ghost exact: bool, ghost was: seq<Publication>)
    returns (completed: bool, ghost tried: nat)
    requires b.Valid() && Tracks(d, b.Data(), exact) && exact == NoPromotions(d, cutoff + 1)
    requires SearchLog(was, best.log, d, true, eval) && best.Latest() && cutoff == 2 * Completed(was, best.log) + 1
    modifies b.Repr(), flag, best
    ensures b.Valid() && Tracks(d, b.Data(), exact) && best.Latest()
    ensures RoundDone(was, old(best.log), best.log, d, true, eval, cutoff, completed, tried,
                      old(flag.budget), flag.budget)
  {
    hide Inv, Moves, Tracks, Trusted, Plain, IsOrdering, NoPromotions, MoveWindow, MovesOf, SearchLog, Completed,
      BestMove.Latest, NodeReads, ChildReads, Times, RoundReads, TriedReads, Child, FirstBest,
      Standing;
    assert flag !in b.Repr() && best !in b.Repr();
    ghost var trusted := Trusted(eval, exact);
    PlainRoot(d, exact, cutoff);
    RootReads(d, cutoff, true);
    tried := 0;
    NotTried(best.log, d, true, eval, cutoff);
    var legalMoves := OrderChildren(b, flag, false, eval, d, exact, cutoff + 1);
    if legalMoves == [] {
      if flag.budget > 0 { OrderingSize(legalMoves, d, false, eval, trusted); }
      return false, 0;
    }
    OrderingSize(legalMoves, d, false, eval, trusted);
    completed, tried := WhiteMoves(b, flag, best, eval, cutoff, legalMoves, d, exact, was);
    TriedReadsIs(d, cutoff, tried + 1, true);
  }

  /** The same loop for Black. */
  method BlackMoves(b: Board, flag: SearchFlag, best: BestMove, eval: Evaluator, cutoff: nat,
                    legalMoves: seq<MoveEval>, probe: Score,
                    ghost d: BoardData, ghost exact: bool, ghost was: seq<Publication>)
    returns (completed: bool, ghost tried: nat)
    requires b.Valid() && Tracks(d, b.Data(), exact) && exact == NoPromotions(d, cutoff + 1)
    requires SearchLog(was, best.log, d, false, eval) && best.Latest() && cutoff == 2 * Completed(was, best.log) + 1
    requires legalMoves != [] && IsOrdering(legalMoves, d, true, eval, Trusted(eval, exact))
    requires Trusted(eval, exact) ==> probe == MoveValue(d, legalMoves[0].movement, false, cutoff, eval)
    modifies b.Repr(), flag, best
    ensures b.Valid() && Tracks(d, b.Data(), exact) && best.Latest()
    ensures SearchLog(was, best.log, d, false, eval) && old(best.log) <= best.log
    ensures Completed(was, best.log) == old(Completed(was, best.log)) + if completed then 1 else 0
    ensures old(flag.budget) - Times(|legalMoves|, 2 + ChildReads(d, cutoff)) - 1 <= flag.budget <= old(flag.budget)
    ensures !completed ==> flag.budget == 0
    ensures tried <= |legalMoves| && Standing(old(best.log), best.log, d, false, eval, cutoff, tried)
    ensures tried < |legalMoves| ==> old(flag.budget) <= Times(tried + 1, 2 + ChildReads(d, cutoff))
    ensures completed ==>
      tried == |legalMoves| && old(best.log) < best.log && best.log[|best.log| - 1].final
  {
    hide Inv, Moves, Tracks, Trusted, Plain, IsOrdering, NoPromotions, MoveWindow, MovesOf, RootState, RoundLog,
      SearchLog, Completed, BestMove.Latest, NodeReads, ChildReads, Times, Child, MoveValue,
      Shown, Standing;
    assert flag !in b.Repr() && best !in b.Repr();
    ghost var before, trusted, order := best.log, Trusted(eval, exact), MovesOf(legalMoves);
    ghost var each: nat := 2 + ChildReads(d, cutoff);
    TimesStep(0, each);
    tried := 0;
    PlainRoot(d, exact, cutoff);
    var alpha, beta := -DBL_MAX, probe;
    var optimum := DBL_MAX;
    var movement: Move := *;
    RoundStarts(was, before, d, false, eval);
    RootStarts(d, order, false, cutoff, eval, trusted, movement, optimum, beta);
    for j := 0 to |legalMoves|
      invariant b.Valid() && Tracks(d, b.Data(), exact) && best.Latest()
      invariant RoundLog(was, before, best.log, d, false, eval, j)
      invariant old(flag.budget) - Times(j, each) <= flag.budget <= old(flag.budget)
      invariant tried == j && (j == 0 ==> best.log == before)
      invariant j > 0 ==> Shown(best.log, legalMoves, cutoff, movement, optimum)
      invariant -DBL_MAX < beta < DBL_MAX
      invariant RootState(d, order, j, false, cutoff, eval, trusted, movement, optimum, beta)
    {
      ChildIsMove(legalMoves, d, true, eval, trusted, j);
      ChildBound(d, legalMoves[j].movement, cutoff);
      TimesStep(j, each);
      TimesGrow(j + 1, |legalMoves|, each);
      RoundIs(was, before, best.log, d, false, eval, j);
      StandsNow(before, best.log, legalMoves, d, false, eval, exact, cutoff, j, movement, optimum, beta);
      var r := MoveAndEval(b, legalMoves[j].movement, 0, cutoff, alpha, beta, eval, false, flag, d, exact);
      var search := flag.Read();
      if !search { return false, tried; }
      RootStep(d, order, j, false, cutoff, eval, trusted, movement, optimum, beta, r);
      beta := if r < beta then r else beta;
      if optimum > r {
        optimum := r;
        movement := legalMoves[j].movement;
        ghost var w := Publication(movement, r, cutoff, legalMoves, j + 1, false);
        ShownNow(best.log, w);
        Announce(was, best, movement, w, d, false, eval, exact, beta);
      }
      tried := j + 1;
      RoundGoesOn(was, before, best.log, d, false, eval, j);
    }
    completed := EndRound(flag, best, legalMoves, movement, optimum, cutoff, d, false, eval, exact, beta, was, before);
  }

  /** One round of search_move for Black: the first move is searched twice, the second time with
      the window already closed to its value. */
  method BlackRound(b: Board, flag: SearchFlag, best: BestMove, eval: Evaluator, cutoff: nat,
                    ghost d: BoardData, ghost exact: bool, ghost was: seq<Publication>)
    returns (completed: bool, ghost tried: nat)
    requires b.Valid() && Tracks(d, b.Data(), exact) && exact == NoPromotions(d, cutoff + 1)
    requires SearchLog(was, best.log, d, false, eval) && best.Latest() && cutoff == 2 * Completed(was, best.log) + 1
    modifies b.Repr(), flag, best
    ensures b.Valid() && Tracks(d, b.Data(), exact) && best.Latest()
    ensures RoundDone(was, old(best.log), best.log, d, false, eval, cutoff, completed, tried,
                      old(flag.budget), flag.budget)
  {
    hide Inv, Moves, Tracks, Trusted, Plain, IsOrdering, NoPromotions, MoveWindow, MovesOf, SearchLog, Completed,
      BestMove.Latest, NodeReads, ChildReads, Times, RoundReads, TriedReads, Child, FirstBest,
      Standing;
    assert flag !in b.Repr() && best !in b.Repr();
    ghost var trusted := Trusted(eval, exact);
    PlainRoot(d, exact, cutoff);
    RootReads(d, cutoff, false);
    tried := 0;
    NotTried(best.log, d, false, eval, cutoff);
    var legalMoves := OrderChildren(b, flag, true, eval, d, exact, cutoff + 1);
    if legalMoves == [] {
      if flag.budget > 0 { OrderingSize(legalMoves, d, true, eval, trusted); }
      return false, 0;
    }
    OrderingSize(legalMoves, d, true, eval, trusted);
    ChildIsMove(legalMoves, d, true, eval, trusted, 0);
    ChildBound(d, legalMoves[0].movement, cutoff);
    var probe := MoveAndEval(b, legalMoves[0].movement, 0, cutoff, -DBL_MAX, DBL_MAX, eval, false, flag, d, exact);
    var search := flag.Read();
    if !search { return false, 0; }
    if trusted { FirstMove(d, MovesOf(legalMoves), false, cutoff, eval, DBL_MAX, probe); }
    completed, tried := BlackMoves(b, flag, best, eval, cutoff, legalMoves, probe, d, exact, was);
    TriedReadsIs(d, cutoff, tried + 1, false);
  }

  // ---------------------------------------------------------------- all rounds

  lemma ShallowerTracks(d: BoardData, e: BoardData, n: nat, k: nat)
    requires Tracks(d, e, NoPromotions(d, k)) && k <= n
    ensures Tracks(d, e, NoPromotions(d, n))
  {
    hide Similar, SameBoard;
    if NoPromotions(d, n) { NoPromotionsShallower(d, n, k); }
  }

  lemma LatestIsLegal(best: BestMove, was: seq<Publication>, d: BoardData, maxing: bool, eval: Evaluator)
    requires SearchLog(was, best.log, d, maxing, eval) && best.Latest() && |was| < |best.log| && Sized(d)
    ensures IsLegal(Abs(d), best.value)
  {
    hide Sound, IsLegal, Abs, Paced;
    assert Written(was, best.log)[|best.log| - |was| - 1] == best.log[|best.log| - 1];
    SoundIsLegal(best.log[|best.log| - 1], d, maxing, eval);
  }

  lemma EnoughReads(d: BoardData, rounds: nat, budget: nat)
    requires budget <= RoundsReads(d, rounds + 1)
    ensures forall n: nat :: budget > RoundsReads(d, n) ==> rounds >= n
  {
    hide RoundsReads;
    forall n: nat | budget > RoundsReads(d, n) ensures rounds >= n {
      if n > rounds { RoundsReadsGrow(d, rounds + 1, n); }
    }
  }

  lemma NextRoundReads(d: BoardData, n: nat)
    ensures RoundsReads(d, n + 1) == RoundsReads(d, n) + 1 + RoundReads(d, 2 * n + 1)
    ensures RoundsReads(d, 0) == 0
  {
    hide RoundReads;
  }

  /** What best_move holds when the search returns: t root moves of the round after the completed
      ones were searched, and the last write stands over them; if t is 0 it is the one that ended
      the last completed round, if any. More than t moves are searched if the flag lasts. */
  ghost predicate LastStands(was: seq<Publication>, log: seq<Publication>, d: BoardData, maxing: bool,
                             eval: Evaluator, budget: nat, t: nat) {
    var n := Completed(was, log);
    t <= |Moves(d)|
    && (if t == 0 then log == was || (was < log && log[|log| - 1].final)
        else was < log && Stands(log[|log| - 1], d, maxing, eval, 2 * n + 1, t))
    && (t < |Moves(d)| ==> budget <= RoundsReads(d, n) + 1 + TriedReads(d, 2 * n + 1, t + 1, maxing))
  }

  /** What search_move promises, whatever the moment at which the flag turns false: everything it
      wrote is accounted for; the completed rounds are minimax; the last write is the best of all
      root moves searched in the round that was cancelled; n rounds are completed, and a move is
      written, if the flag lasts for the reads they need; and it only returns when it is cancelled
      or there is no legal move. */
  ghost predicate SearchDone(was: seq<Publication>, log: seq<Publication>, d: BoardData, maxing: bool,
                             eval: Evaluator, budget: nat, left: nat) {
    SearchLog(was, log, d, maxing, eval)
    && Deepened(Finals(Written(was, log)), d, maxing, eval)
    && (left == 0 || Moves(d) == {})
    && (Moves(d) == {} ==> log == was)
    && (Moves(d) != {} ==> forall n: nat :: budget > RoundsReads(d, n) ==> Completed(was, log) >= n)
    && (Moves(d) != {} && budget > 1 + TriedReads(d, 1, 1, maxing) ==> was < log)
    && exists t: nat :: LastStands(was, log, d, maxing, eval, budget, t)
  }

  /** One turn of the loop of search_move. */
  method Round(b: Board, flag: SearchFlag, best: BestMove, eval: Evaluator, cutoff: nat,
               ghost d: BoardData, ghost was: seq<Publication>)
    returns (completed: bool, ghost tried: nat)
    requires b.Valid() && Tracks(d, b.Data(), NoPromotions(d, cutoff + 1))
    requires SearchLog(was, best.log, d, d.player == White, eval) && best.Latest()
    requires cutoff == 2 * Completed(was, best.log) + 1
    modifies b.Repr(), flag, best
    ensures b.Valid() && Tracks(d, b.Data(), NoPromotions(d, cutoff + 1)) && best.Latest()
    ensures RoundDone(was, old(best.log), best.log, d, d.player == White, eval, cutoff, completed, tried,
                      old(flag.budget), flag.budget)
  {
    hide Inv, Moves, Abs, NoPromotions, SearchLog, Completed, BestMove.Latest, RoundDone, Tracks;
    SamePlayer(d, b.Data(), NoPromotions(d, cutoff + 1));
    if b.player == White {
      completed, tried := WhiteRound(b, flag, best, eval, cutoff, d, NoPromotions(d, cutoff + 1), was);
    } else {
      completed, tried := BlackRound(b, flag, best, eval, cutoff, d, NoPromotions(d, cutoff + 1), was);
    }
  }

  lemma SamePlayer(d: BoardData, e: BoardData, exact: bool)
    requires Tracks(d, e, exact)
    ensures d.player == e.player
  {
    hide Inv;
  }

  /** How the loop of search_move stands after some rounds, its next turn already decided. */
  ghost predicate SearchState(was: seq<Publication>, log: seq<Publication>, d: BoardData, maxing: bool,
                              eval: Evaluator, cutoff: nat, search: bool, budget: nat, left: nat) {
    SearchLog(was, log, d, maxing, eval)
    && cutoff == 2 * Completed(was, log) + 1
    && budget - RoundsReads(d, Completed(was, log)) - (if search then 1 else 0) <= left <= budget
    && (!search ==> left == 0)
    && (log == was || (was < log && log[|log| - 1].final))
    && (Moves(d) == {} ==> log == was)
  }

  lemma SearchStarts(was: seq<Publication>, d: BoardData, maxing: bool, eval: Evaluator, search: bool, budget: nat,
                     left: nat)
    requires search <==> budget > 0
    requires left == if search then budget - 1 else 0
    ensures SearchState(was, was, d, maxing, eval, 1, search, budget, left)
  {
    hide Moves, SearchLog, Completed, RoundReads;
    NothingWritten(was, d, maxing, eval);
    NextRoundReads(d, 0);
  }

  lemma SearchGoesOn(was: seq<Publication>, before: seq<Publication>, after: seq<Publication>, d: BoardData,
                     maxing: bool, eval: Evaluator, cutoff: nat, tried: nat, budget: nat, mid: nat, left: nat,
                     search: bool, now: nat)
    requires SearchState(was, before, d, maxing, eval, cutoff, true, budget, mid)
    requires RoundDone(was, before, after, d, maxing, eval, cutoff, true, tried, mid, left)
    requires search <==> left > 0
    requires now == if search then left - 1 else 0
    ensures SearchState(was, after, d, maxing, eval, cutoff + 2, search, budget, now)
  {
    hide Moves, SearchLog, Completed, RoundReads, RoundsReads, TriedReads;
    NextRoundReads(d, Completed(was, before));
  }

  lemma SearchEnds(was: seq<Publication>, before: seq<Publication>, after: seq<Publication>, d: BoardData,
                   maxing: bool, eval: Evaluator, cutoff: nat, tried: nat, budget: nat, mid: nat, left: nat)
    requires SearchState(was, before, d, maxing, eval, cutoff, true, budget, mid)
    requires RoundDone(was, before, after, d, maxing, eval, cutoff, false, tried, mid, left)
    ensures SearchDone(was, after, d, maxing, eval, budget, left)
  {
    hide Moves, SearchLog, Completed, RoundReads, RoundsReads, TriedReads, Deepened, Finals, Stands;
    NextRoundReads(d, Completed(was, before));
    RoundsAreMinimax(was, after, d, maxing, eval);
    if Moves(d) != {} { EnoughReads(d, Completed(was, after), budget); }
    if was == after {
      NothingWritten(was, d, maxing, eval);
      NextRoundReads(d, 0);
    }
    assert LastStands(was, after, d, maxing, eval, budget, tried);
  }

  lemma SearchStops(was: seq<Publication>, log: seq<Publication>, d: BoardData, maxing: bool, eval: Evaluator,
                    cutoff: nat, budget: nat)
    requires SearchState(was, log, d, maxing, eval, cutoff, false, budget, 0)
    ensures SearchDone(was, log, d, maxing, eval, budget, 0)
  {
    hide Moves, SearchLog, Completed, RoundReads, RoundsReads, TriedReads, Deepened, Finals, Stands;
    NextRoundReads(d, Completed(was, log));
    RoundsAreMinimax(was, log, d, maxing, eval);
    EnoughReads(d, Completed(was, log), budget);
    if was == log {
      NothingWritten(was, d, maxing, eval);
      NextRoundReads(d, 0);
    }
    assert LastStands(was, log, d, maxing, eval, budget, 0);
  }

  /** search_move. The board is back to where it was, exactly so if no promotion is legal within the
      depth of the last round. */
  method SearchMove(b: Board, flag: SearchFlag, best: BestMove, eval: Evaluator, ghost d: BoardData)
    requires b.Valid() && Inv(b.Data()) && d == b.Data() && best.Latest()
    modifies b.Repr(), flag, best
    ensures b.Valid() && best.Latest()
    ensures Tracks(d, b.Data(), NoPromotions(d, 2 * Completed(old(best.log), best.log) + 2))
    ensures SearchDone(old(best.log), best.log, d, d.player == White, eval, old(flag.budget), flag.budget)
    ensures |old(best.log)| < |best.log| ==> IsLegal(Abs(d), best.value)
  {
    hide IsLegal, Inv, Moves, Abs, Tracks, NoPromotions, SearchLog, Completed, BestMove.Latest, SearchState, SearchDone,
      RoundDone;
    assert flag !in b.Repr() && best !in b.Repr();
    ghost var was, maxing, budget := best.log, d.player == White, flag.budget;
    var cutoff := 1;
    TracksItself(d, NoPromotions(d, 2));
    var search := flag.Read();
    SearchStarts(was, d, maxing, eval, search, budget, flag.budget);
    while search
      invariant b.Valid() && best.Latest()
      invariant Tracks(d, b.Data(), NoPromotions(d, cutoff + 1))
      invariant SearchState(was, best.log, d, maxing, eval, cutoff, search, budget, flag.budget)
      decreases search, flag.budget
    {
      ghost var before, mid := best.log, flag.budget;
      StateFacts(was, before, d, maxing, eval, cutoff, search, budget, mid);
      ghost var tried: nat;
      var completed;
      completed, tried := Round(b, flag, best, eval, cutoff, d, was);
      DoneFacts(was, before, best.log, d, maxing, eval, cutoff, completed, tried, mid, flag.budget);
      if !completed {
        SearchEnds(was, before, best.log, d, maxing, eval, cutoff, tried, budget, mid, flag.budget);
        break;
      }
      ghost var left := flag.budget;
      ShallowerTracks(d, b.Data(), cutoff + 3, cutoff + 1);
      cutoff := cutoff + 2;
      search := flag.Read();
      SearchGoesOn(was, before, best.log, d, maxing, eval, cutoff - 2, tried, budget, mid, left,
                   search, flag.budget);
    }
    if !search {
      StateFacts(was, best.log, d, maxing, eval, cutoff, search, budget, flag.budget);
      SearchStops(was, best.log, d, maxing, eval, cutoff, budget);
    }
    SearchLogged(was, best.log, d, maxing, eval, budget, flag.budget);
    if |was| < |best.log| { LatestIsLegal(best, was, d, maxing, eval); }
  }

  lemma TracksItself(d: BoardData, exact: bool)
    requires Inv(d)
    ensures Tracks(d, d, exact)
  {
    hide Inv;
  }

  lemma StateFacts(was: seq<Publication>, log: seq<Publication>, d: BoardData, maxing: bool, eval: Evaluator,
                   cutoff: nat, search: bool, budget: nat, left: nat)
    requires SearchState(was, log, d, maxing, eval, cutoff, search, budget, left)
    ensures SearchLog(was, log, d, maxing, eval) && cutoff == 2 * Completed(was, log) + 1
    ensures !search ==> left == 0
  {
    hide Moves, SearchLog, Completed, RoundsReads;
  }

  lemma DoneFacts(was: seq<Publication>, before: seq<Publication>, after: seq<Publication>, d: BoardData,
                  maxing: bool, eval: Evaluator, cutoff: nat, completed: bool, tried: nat, budget: nat, left: nat)
    requires RoundDone(was, before, after, d, maxing, eval, cutoff, completed, tried, budget, left)
    ensures SearchLog(was, after, d, maxing, eval) && left <= budget
    ensures Completed(was, after) == Completed(was, before) + if completed then 1 else 0
  {
    hide Moves, SearchLog, Completed, RoundReads, TriedReads, Standing;
  }

  lemma SearchLogged(was: seq<Publication>, log: seq<Publication>, d: BoardData, maxing: bool, eval: Evaluator,
                     budget: nat, left: nat)
    requires SearchDone(was, log, d, maxing, eval, budget, left)
    ensures SearchLog(was, log, d, maxing, eval)
  {
    hide Moves, SearchLog, Completed, RoundsReads, TriedReads, Deepened, Finals;
  }

  lemma AllAreLegal(was: seq<Publication>, log: seq<Publication>, d: BoardData, maxing: bool, eval: Evaluator)
    requires SearchLog(was, log, d, maxing, eval) && Sized(d)
    ensures forall k :: |was| <= k < |log| ==> IsLegal(Abs(d), log[k].movement)
  {
    hide Sound, IsLegal, Abs, Paced;
    forall k | |was| <= k < |log| ensures IsLegal(Abs(d), log[k].movement) {
      assert Written(was, log)[k - |was|] == log[k];
      SoundIsLegal(log[k], d, maxing, eval);
    }
  }

  /** Engine::find_best_move: the search runs on a copy. The caller's board is not touched, and
      whatever is written is one of its legal moves. */
  method FindBestMove(b: Board, flag: SearchFlag, best: BestMove, eval: Evaluator)
    requires b.Valid() && Inv(b.Data()) && best.Latest()
    modifies flag, best
    ensures b.Valid() && best.Latest() && old(best.log) <= best.log
    ensures forall k :: |old(best.log)| <= k < |best.log| ==> IsLegal(Abs(b.Data()), best.log[k].movement)
    ensures SearchDone(old(best.log), best.log, b.Data(), b.player == White, eval, old(flag.budget), flag.budget)
  {
    hide IsLegal, CellsOf, Inv, SearchLog, SearchDone, Tracks;
    ghost var d := b.Data();
    var boardState := b.Copy();
    SearchMove(boardState, flag, best, eval, d);
    SearchLogged(old(best.log), best.log, d, d.player == White, eval, old(flag.budget), flag.budget);
    AllAreLegal(old(best.log), best.log, d, d.player == White, eval);
  }
}
