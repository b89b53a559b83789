/** The cancellable alpha-beta search on one shared mutable board. */
module Search {
  import opened Rules
  import opened Bytes
  import opened Boards
  import opened BoardClass
  import opened GameTree
  import opened AlphaBeta
  import opened Tracking
  import opened Reads

  /** The atomic search flag, seen from the search thread: true for some number of reads, then
      false until the search returns. */
  class SearchFlag {
    var budget: nat

    constructor (n: nat)
      ensures budget == n
    {
      budget := n;
    }

    method Read() returns (search: bool)
      modifies this
      ensures search <==> old(budget) > 0
      ensures budget == if old(budget) > 0 then old(budget) - 1 else 0
    {
      search := budget > 0;
      if search { budget := budget - 1; }
    }
  }

  datatype MoveEval = MoveEval(movement: Move, eval: Score)

  /** undo_last_move of the engine: it also gives the turn back. */
  method UndoLastMove(b: Board, m: Move)
    requires b.Valid()
    modifies b.Repr()
    ensures b.Valid() && b.Data() == Flip(UndoMove(old(b.Data()), m))
  {
    b.UnmakeMove(m);
    b.FlipPlayer();
  }

  // ---------------------------------------------------------------- ordering the children

  /** Where a score goes in a sorted list. */
  method Place(sorted: seq<MoveEval>, x: MoveEval, reverse: bool) returns (k: nat)
    requires IsSorted(sorted, reverse)
    ensures k <= |sorted|
    ensures forall i :: 0 <= i < k ==> NotWorse(!reverse, sorted[i].eval, x.eval)
    ensures forall i :: k <= i < |sorted| ==> NotWorse(!reverse, x.eval, sorted[i].eval)
  {
    k := 0;
    while k < |sorted| && NotWorse(!reverse, sorted[k].eval, x.eval)
      invariant 0 <= k <= |sorted|
      invariant forall i :: 0 <= i < k ==> NotWorse(!reverse, sorted[i].eval, x.eval)
    {
      k := k + 1;
    }
  }

  lemma InsertKeepsSorted(sorted: seq<MoveEval>, x: MoveEval, k: nat, reverse: bool)
    requires IsSorted(sorted, reverse) && k <= |sorted|
    requires forall i :: 0 <= i < k ==> NotWorse(!reverse, sorted[i].eval, x.eval)
    requires forall i :: k <= i < |sorted| ==> NotWorse(!reverse, x.eval, sorted[i].eval)
    ensures IsSorted(sorted[..k] + [x] + sorted[k..], reverse)
  {
    hide NotWorse;
    var r := sorted[..k] + [x] + sorted[k..];
    forall i, j | 0 <= i < j < |r| ensures NotWorse(!reverse, r[i].eval, r[j].eval) {
      assert i < k ==> r[i] == sorted[i];
      assert i > k ==> r[i] == sorted[i - 1];
      assert j < k ==> r[j] == sorted[j];
      assert j > k ==> r[j] == sorted[j - 1];
    }
  }

  lemma InsertAddsOne(sorted: seq<MoveEval>, x: MoveEval, k: nat)
    requires k <= |sorted|
    ensures multiset(sorted[..k] + [x] + sorted[k..]) == multiset(sorted) + multiset{x}
  {
    assert sorted == sorted[..k] + sorted[k..];
  }

  /** std::sort with one of the two comparators: some permutation in the order of the scores. */
  method SortByEval(arr: seq<MoveEval>, reverse: bool) returns (sorted: seq<MoveEval>)
    ensures multiset(sorted) == multiset(arr)
    ensures IsSorted(sorted, reverse)
  {
    hide NotWorse;
    sorted := [];
    for n := 0 to |arr|
      invariant multiset(sorted) == multiset(arr[..n])
      invariant IsSorted(sorted, reverse)
    {
      var k := Place(sorted, arr[n], reverse);
      InsertKeepsSorted(sorted, arr[n], k, reverse);
      InsertAddsOne(sorted, arr[n], k);
      sorted := sorted[..k] + [arr[n]] + sorted[k..];
      assert arr[..n + 1] == arr[..n] + [arr[n]];
    }
    assert arr[..|arr|] == arr;
  }

  ghost predicate IsSorted(arr: seq<MoveEval>, reverse: bool) {
    forall i, j :: 0 <= i < j < |arr| ==> NotWorse(!reverse, arr[i].eval, arr[j].eval)
  }

  function MovesOf(arr: seq<MoveEval>): (order: seq<Move>)
    ensures |order| == |arr|
    ensures forall k :: 0 <= k < |arr| ==> order[k] == arr[k].movement
  {
    seq(|arr|, k requires 0 <= k < |arr| => arr[k].movement)
  }

  /** Every move carries the static score of its child. */
  ghost predicate Evaluated(arr: seq<MoveEval>, d: BoardData, eval: Evaluator) {
    forall k :: 0 <= k < |arr| ==> arr[k].eval == Static(Child(d, arr[k].movement), eval)
  }

  /** What Order_Children returns when it is not cancelled: every legal move once, in the order of
      the scores; and where scores on the shared board can be trusted, they are the children's. */
  ghost predicate IsOrdering(arr: seq<MoveEval>, d: BoardData, reverse: bool, eval: Evaluator, trusted: bool) {
    Lists(MovesOf(arr), Moves(d)) && IsSorted(arr, reverse) && (trusted ==> Evaluated(arr, d, eval))
  }

  lemma SameMembers(a: seq<MoveEval>, b: seq<MoveEval>)
    requires multiset(a) == multiset(b)
    ensures |a| == |b| && forall x :: x in a <==> x in b
  {
    assert |multiset(a)| == |multiset(b)|;
    assert forall x :: x in a <==> x in multiset(a);
    assert forall x :: x in b <==> x in multiset(b);
  }

  lemma SameMoves(a: seq<MoveEval>, b: seq<MoveEval>, m: Move)
    requires (forall x :: x in a ==> x in b) && m in MovesOf(a)
    ensures m in MovesOf(b)
  {
    var k :| 0 <= k < |a| && MovesOf(a)[k] == m;
    assert a[k] in b;
    var j :| 0 <= j < |b| && b[j] == a[k];
    assert MovesOf(b)[j] == m;
  }

  /** Sorting a complete list of children gives an ordering. */
  lemma SortedIsOrdering(arr: seq<MoveEval>, sorted: seq<MoveEval>, d: BoardData, reverse: bool, eval: Evaluator,
                         trusted: bool)
    requires Lists(MovesOf(arr), Moves(d)) && (trusted ==> Evaluated(arr, d, eval))
    requires multiset(sorted) == multiset(arr) && IsSorted(sorted, reverse)
    ensures IsOrdering(sorted, d, reverse, eval, trusted)
  {
    hide Moves, Static, Child, IsSorted, MovesOf;
    SameMembers(arr, sorted);
    forall m: Move ensures m in MovesOf(arr) <==> m in MovesOf(sorted) {
      if m in MovesOf(arr) { SameMoves(arr, sorted, m); }
      if m in MovesOf(sorted) { SameMoves(sorted, arr, m); }
    }
    if trusted {
      forall k | 0 <= k < |sorted| ensures sorted[k].eval == Static(Child(d, sorted[k].movement), eval) {
        assert sorted[k] in arr;
        var j :| 0 <= j < |arr| && arr[j] == sorted[k];
      }
    }
  }

  /** Whether the scores read on the shared board are those of the game tree. */
  ghost predicate Trusted(eval: Evaluator, exact: bool) {
    exact || Respects(eval)
  }

  /** do_move, the static score, undo_last_move. */
  method EvalChild(b: Board, m: Move, eval: Evaluator, ghost d: BoardData, ghost exact: bool) returns (score: Score)
    requires b.Valid() && Tracks(d, b.Data(), exact) && m in Moves(d) && (exact ==> m.promo == NoPromo)
    modifies b.Repr()
    ensures b.Valid() && Tracks(d, b.Data(), exact)
    ensures Trusted(eval, exact) ==> score == Static(Child(d, m), eval)
  {
    hide Inv, Moves, Tracks, Static, Respects, Abs, Flip, DoMove, UndoMove;
    ghost var before := b.Data();
    TracksIsInv(d, before, exact);
    PlayTracks(d, before, m, exact);
    b.PlayMove(m);
    ChildIs(before, m);
    ghost var after := b.Data();
    TracksIsInv(Child(d, m), after, exact);
    var replies := b.GetLegalMoves();
    score := Evaluate(b, |replies|, eval, Child(d, m), exact);
    UndoTracks(d, before, m, after, exact);
    UndoLastMove(b, m);
  }

  lemma TracksIsInv(d: BoardData, e: BoardData, exact: bool)
    requires Tracks(d, e, exact)
    ensures Inv(d) && Inv(e) && Moves(d) == LegalMoves(Abs(e))
  {
    hide Inv, Abs, Moves;
    MovesOfSimilar(d, e);
  }

  lemma ChildIs(d: BoardData, m: Move)
    requires Sized(d)
    ensures Child(d, m) == Flip(DoMove(d, m))
  {
    hide Flip, DoMove;
  }

  lemma ScoreOn(d: BoardData, e: BoardData, exact: bool, eval: Evaluator)
    requires Tracks(d, e, exact) && Trusted(eval, exact)
    ensures eval(e.slots, e.b0, e.player, |LegalMoves(Abs(e))|) == Static(d, eval)
  {
    hide Inv, Abs, Moves, Static, Respects;
    MovesOfSimilar(d, e);
    SameScore(d, e, exact, eval);
  }

  lemma ListsMore(order: seq<Move>, ms: set<Move>, m: Move)
    requires Lists(order, ms) && m !in ms
    ensures Lists(order + [m], ms + {m})
  {
  }

  /** The children evaluated so far: the legal moves that are not still to do. */
  ghost predicate Scored(arr: seq<MoveEval>, legal: set<Move>, todo: set<Move>, d: BoardData, eval: Evaluator,
                         trusted: bool) {
    todo <= legal && Lists(MovesOf(arr), legal - todo) && (trusted ==> Evaluated(arr, d, eval))
  }

  lemma OneMoreChild(arr: seq<MoveEval>, legal: set<Move>, todo: set<Move>, d: BoardData, eval: Evaluator,
                     trusted: bool, m: Move, score: Score)
    requires Scored(arr, legal, todo, d, eval, trusted) && m in todo
    requires trusted ==> score == Static(Child(d, m), eval)
    ensures Scored(arr + [MoveEval(m, score)], legal, todo - {m}, d, eval, trusted)
    ensures |todo - {m}| == |todo| - 1
  {
    hide Static, Child, Lists;
    ListsMore(MovesOf(arr), legal - todo, m);
    assert legal - (todo - {m}) == legal - todo + {m};
    assert MovesOf(arr + [MoveEval(m, score)]) == MovesOf(arr) + [m];
  }

  lemma NoChildren(legal: set<Move>, d: BoardData, eval: Evaluator, trusted: bool)
    ensures Scored([], legal, legal, d, eval, trusted)
  {
  }

  /** The sorted list of all children. */
  method SortChildren(arr: seq<MoveEval>, reverse: bool, eval: Evaluator, ghost d: BoardData, ghost trusted: bool)
    returns (sorted: seq<MoveEval>)
    requires Scored(arr, Moves(d), {}, d, eval, trusted)
    ensures IsOrdering(sorted, d, reverse, eval, trusted)
  {
    hide Moves, Evaluated, Lists, IsSorted, MovesOf, IsOrdering;
    assert Moves(d) - {} == Moves(d);
    sorted := SortByEval(arr, reverse);
    SortedIsOrdering(arr, sorted, d, reverse, eval, trusted);
  }

  /** Exactness is only asked for where no promotion is legal. */
  ghost predicate Plain(d: BoardData, exact: bool, depth: nat) {
    exact ==> NoPromotions(d, depth)
  }

  lemma PlainMove(d: BoardData, exact: bool, depth: nat, m: Move)
    requires Plain(d, exact, depth) && m in Moves(d)
    ensures exact ==> m.promo == NoPromo
    ensures depth > 0 ==> Plain(Child(d, m), exact, depth - 1)
  {
    hide Moves, Child;
  }

  /** Node::Order_Children. A cancelled call returns no children at all. */
  method OrderChildren(b: Board, flag: SearchFlag, reverse: bool, eval: Evaluator,
                       ghost d: BoardData, ghost exact: bool, ghost depth: nat)
    returns (arr: seq<MoveEval>)
    requires b.Valid() && Tracks(d, b.Data(), exact) && Plain(d, exact, depth)
    modifies b.Repr(), flag
    ensures b.Valid() && Tracks(d, b.Data(), exact)
    ensures old(flag.budget) - |Moves(d)| <= flag.budget <= old(flag.budget)
    ensures IsOrdering(arr, d, reverse, eval, Trusted(eval, exact)) || (arr == [] && flag.budget == 0)
  {
    hide Inv, Abs, Moves, Tracks, Trusted, Plain, Scored, IsOrdering, Static, Child;
    assert flag !in b.Repr();
    TracksIsInv(d, b.Data(), exact);
    var legalMoves := b.GetLegalMoves();
    arr := [];
    var todo := legalMoves;
    NoChildren(legalMoves, d, eval, Trusted(eval, exact));
    while todo != {}
      invariant legalMoves == Moves(d) && todo <= legalMoves
      invariant b.Valid() && Tracks(d, b.Data(), exact)
      invariant old(flag.budget) - |legalMoves| + |todo| <= flag.budget <= old(flag.budget)
      invariant Scored(arr, legalMoves, todo, d, eval, Trusted(eval, exact))
      decreases |todo|
    {
      var search := flag.Read();
      if !search { return []; }
      var testMove :| testMove in todo;
      PlainMove(d, exact, depth, testMove);
      var score := EvalChild(b, testMove, eval, d, exact);
      OneMoreChild(arr, legalMoves, todo, d, eval, Trusted(eval, exact), testMove, score);
      arr := arr + [MoveEval(testMove, score)];
      todo := todo - {testMove};
    }
    arr := SortChildren(arr, reverse, eval, d, Trusted(eval, exact));
  }

  // ---------------------------------------------------------------- one node

  lemma ChildIsMove(arr: seq<MoveEval>, d: BoardData, reverse: bool, eval: Evaluator, trusted: bool, j: int)
    requires IsOrdering(arr, d, reverse, eval, trusted) && 0 <= j < |arr|
    ensures arr[j].movement in Moves(d)
  {
    hide Moves, IsSorted, Evaluated;
    assert MovesOf(arr)[j] in MovesOf(arr);
  }

  lemma OrderingSize(arr: seq<MoveEval>, d: BoardData, reverse: bool, eval: Evaluator, trusted: bool)
    requires IsOrdering(arr, d, reverse, eval, trusted)
    ensures |arr| == |Moves(d)| && (arr == [] <==> Moves(d) == {})
    ensures Lists(MovesOf(arr), Moves(d))
  {
    hide Moves, IsSorted, Evaluated;
  }

  /** White's children come in the order of falling scores, Black's in the order of rising ones,
      and each of them with the score of the board it leads to. */
  lemma OrderedByScore(arr: seq<MoveEval>, d: BoardData, reverse: bool, eval: Evaluator, i: int, j: int)
    requires IsOrdering(arr, d, reverse, eval, true) && 0 <= i < j < |arr| && Sized(d)
    ensures if reverse then arr[i].eval <= arr[j].eval else arr[i].eval >= arr[j].eval
    ensures arr[i].movement != arr[j].movement && IsLegal(Abs(d), arr[i].movement)
    ensures var e := Flip(DoMove(d, arr[i].movement));
      arr[i].eval == eval(e.slots, e.b0, e.player, |LegalMoves(Abs(e))|)
  {
    hide IsLegal, LegalMoves, Abs, DoMove, Flip;
    ChildIsMove(arr, d, reverse, eval, true, i);
    NoRepeats(MovesOf(arr), Moves(d), i, j);
  }

  lemma NoRepeats(order: seq<Move>, ms: set<Move>, i: int, j: int)
    requires Lists(order, ms) && 0 <= i < j < |order|
    ensures order[i] != order[j]
  {
    if order[i] == order[j] {
      var rest := order[..j] + order[j + 1..];
      SetOfSeq(rest);
      forall m | m in ms ensures m in rest {
        var k :| 0 <= k < |order| && order[k] == m;
        assert m == rest[if k == j then i else if k < j then k else k - 1];
      }
      CardinalityLe(ms, set m | m in rest);
    }
  }

  lemma {:induction false} SetOfSeq(s: seq<Move>)
    ensures |set m | m in s| <= |s|
  {
    if s != [] {
      var front := s[..|s| - 1];
      SetOfSeq(front);
      assert (set m | m in s) == (set m | m in front) + {s[|s| - 1]};
    }
  }

  lemma CardinalityLe(a: set<Move>, b: set<Move>)
    requires a <= b
    ensures |a| <= |b|
  {
    assert b == a + (b - a);
  }

  /** What the result of move_and_eval says about the move. */
  ghost predicate MoveWindow(r: real, d: BoardData, m: Move, maxing: bool, depth: nat, eval: Evaluator,
                             alpha: real, beta: real) {
    Window(r, MoveValue(d, m, maxing, depth, eval), alpha, beta) && LeafScore(Child(d, m), depth, eval, r)
  }

  lemma MoveScored(r: real, d: BoardData, m: Move, maxing: bool, depth: nat, eval: Evaluator, alpha: real, beta: real)
    requires MoveWindow(r, d, m, maxing, depth, eval, alpha, beta) && m in Moves(d)
    ensures ChildScore(d, depth, eval, r)
  {
    hide Moves, Child, LeafScore, MoveValue;
  }

  lemma MoveWindowIs(r: real, d: BoardData, m: Move, maxing: bool, depth: nat, eval: Evaluator, alpha: real, beta: real)
    ensures MoveWindow(r, d, m, maxing, depth, eval, alpha, beta)
       <==> Window(r, Minimax(Child(d, m), !maxing, depth, eval), alpha, beta)
            && LeafScore(Child(d, m), depth, eval, r)
  {
    hide Minimax, Child, LeafScore;
  }

  /** The undo record is not part of what is tracked. */
  lemma TracksRecord(d: BoardData, e: BoardData, exact: bool, killed: bv8, killedIdx: int)
    requires Tracks(d, e, exact) && -1 <= killedIdx < 12
    ensures Tracks(d, e.(killed := killed, killedIdx := killedIdx), exact)
  {
    hide CellsOf, WellFormedBoard, Rotated, LiveSlotsFit, LiveSlotsDistinct, Covered;
  }

  /** move_and_eval. The undo record is one slot that the search below overwrites, so it is saved
      after the move and put back before it is undone. */
  method MoveAndEval(b: Board, move: Move, i: nat, cutoff: nat, alpha: real, beta: real, eval: Evaluator,
                     toFindMin: bool, flag: SearchFlag, ghost d: BoardData, ghost exact: bool)
    returns (r: Score)
    requires b.Valid() && Tracks(d, b.Data(), exact) && move in Moves(d)
    requires i <= cutoff && Plain(d, exact, cutoff - i + 1) && -DBL_MAX <= alpha < beta <= DBL_MAX
    modifies b.Repr(), flag
    ensures b.Valid() && Tracks(d, b.Data(), exact)
    ensures old(flag.budget) - 1 - NodeReads(Child(d, move), cutoff - i) <= flag.budget <= old(flag.budget)
    ensures flag.budget > 0 && Trusted(eval, exact) ==>
      MoveWindow(r, d, move, toFindMin, cutoff - i, eval, alpha, beta)
    decreases cutoff - i, 2
  {
    hide Inv, Moves, Tracks, Trusted, Plain, Minimax, MoveWindow, Window, LeafScore, NodeReads, Child, Flip, DoMove,
      UndoMove;
    assert flag !in b.Repr();
    ghost var before := b.Data();
    var search := flag.Read();
    if !search { return 0.0; }
    PlainMove(d, exact, cutoff - i + 1, move);
    PlayTracks(d, before, move, exact);
    ChildIs(before, move);
    b.PlayMove(move);
    var killed, killedIdx := b.killed, b.killedIdx;
    if toFindMin {
      r := MinVal(b, alpha, beta, i, cutoff, flag, eval, Child(d, move), exact);
    } else {
      r := MaxVal(b, alpha, beta, i, cutoff, flag, eval, Child(d, move), exact);
    }
    MoveWindowIs(r, d, move, toFindMin, cutoff - i, eval, alpha, beta);
    ghost var searched := b.Data();
    b.killed := killed;
    b.killedIdx := killedIdx;
    TracksRecord(Child(d, move), searched, exact, killed, killedIdx);
    UndoTracks(d, before, move, b.Data(), exact);
    UndoLastMove(b, move);
  }

  /** The evaluation of a node with n legal moves. */
  method Evaluate(b: Board, n: nat, eval: Evaluator, ghost d: BoardData, ghost exact: bool) returns (r: Score)
    requires b.Valid() && Tracks(d, b.Data(), exact)
    ensures Trusted(eval, exact) && n == |Moves(d)| ==> r == Static(d, eval)
  {
    hide Inv, Abs, Moves, Tracks, Trusted, Static;
    TracksIsInv(d, b.Data(), exact);
    if Trusted(eval, exact) { ScoreOn(d, b.Data(), exact, eval); }
    r := eval(b.slots[..], b.board0[..], b.player, n);
  }

  /** MAX_VAL */
  method MaxVal(b: Board, alpha: real, beta: real, i: nat, cutoff: nat, flag: SearchFlag, eval: Evaluator,
                ghost d: BoardData, ghost exact: bool)
    returns (r: Score)
    requires b.Valid() && Tracks(d, b.Data(), exact)
    requires i <= cutoff && Plain(d, exact, cutoff - i) && -DBL_MAX <= alpha < beta <= DBL_MAX
    modifies b.Repr(), flag
    ensures b.Valid() && Tracks(d, b.Data(), exact)
    ensures old(flag.budget) - NodeReads(d, cutoff - i) <= flag.budget <= old(flag.budget)
    ensures flag.budget > 0 && Trusted(eval, exact) ==>
      Window(r, Minimax(d, true, cutoff - i, eval), alpha, beta) && LeafScore(d, cutoff - i, eval, r)
    decreases cutoff - i, 1
  {
    hide Inv, Moves, Tracks, Trusted, Plain, Minimax, NodeReads, ChildReads, Times, IsOrdering, Best, MovesOf, Lists,
      Static, Window, LeafScore, ChildScore;
    assert flag !in b.Repr();
    ghost var trusted := Trusted(eval, exact);
    NodeReadsIs(d, cutoff - i);
    LeafScoreNode(d, cutoff - i, eval);
    MinimaxNode(d, true, cutoff - i, eval);
    ExactWindow(Minimax(d, true, cutoff - i, eval), alpha, beta);
    var search := flag.Read();
    if !search { return 0.0; }
    var legalMoves := OrderChildren(b, flag, false, eval, d, exact, cutoff - i);
    if legalMoves == [] {
      if flag.budget > 0 { OrderingSize(legalMoves, d, false, eval, trusted); }
      r := Evaluate(b, 0, eval, d, exact);
      return;
    }
    OrderingSize(legalMoves, d, false, eval, trusted);
    if i == cutoff {
      r := Evaluate(b, |legalMoves|, eval, d, exact);
      return;
    }
    var _ := OrderChildren(b, flag, false, eval, d, exact, cutoff - i);
    search := flag.Read();
    if !search { return 0.0; }
    r := MaxChildren(b, legalMoves, alpha, beta, i, cutoff, flag, eval, d, exact);
  }

  /** The loop of MAX_VAL over the children. */
  method MaxChildren(b: Board, legalMoves: seq<MoveEval>, alpha: real, beta: real, i: nat, cutoff: nat,
                     flag: SearchFlag, eval: Evaluator, ghost d: BoardData, ghost exact: bool)
    returns (r: Score)
    requires b.Valid() && Tracks(d, b.Data(), exact)
    requires i < cutoff && Plain(d, exact, cutoff - i) && -DBL_MAX <= alpha < beta <= DBL_MAX
    requires legalMoves != [] && IsOrdering(legalMoves, d, false, eval, Trusted(eval, exact))
    modifies b.Repr(), flag
    ensures b.Valid() && Tracks(d, b.Data(), exact)
    ensures old(flag.budget) - Times(|Moves(d)|, 2 + ChildReads(d, cutoff - i - 1)) <= flag.budget <= old(flag.budget)
    ensures flag.budget > 0 && Trusted(eval, exact) ==>
      Window(r, Best(d, Moves(d), true, cutoff - i - 1, eval), alpha, beta)
      && ChildScore(d, cutoff - i - 1, eval, r)
    decreases cutoff - i, 0
  {
    hide Inv, Abs, Moves, Tracks, Trusted, Plain, MoveWindow, NodeReads, ChildReads, Times, Child, IsOrdering, Searched,
      Best, MovesOf, Lists, Window, LeafScore, ChildScore;
    assert flag !in b.Repr();
    ghost var depth, trusted := cutoff - i, Trusted(eval, exact);
    OrderingSize(legalMoves, d, false, eval, trusted);
    ghost var order, each := MovesOf(legalMoves), 2 + ChildReads(d, depth - 1);
    ghost var least := old(flag.budget) - Times(|legalMoves|, each);
    var maxmove := -DBL_MAX;
    var low := alpha;
    NothingSearched(d, order, true, depth - 1, eval, alpha, maxmove);
    for j := 0 to |legalMoves|
      invariant b.Valid() && Tracks(d, b.Data(), exact)
      invariant least + Times(|legalMoves| - j, each) <= flag.budget <= old(flag.budget)
      invariant low == Better(true, alpha, maxmove) && low < beta && -DBL_MAX <= maxmove < DBL_MAX
      invariant j == 0 ==> maxmove == -DBL_MAX
      invariant j > 0 ==> -DBL_MAX < maxmove && (trusted ==> ChildScore(d, depth - 1, eval, maxmove))
      invariant trusted ==> Searched(d, order, j, true, depth - 1, eval, alpha, maxmove)
    {
      ChildIsMove(legalMoves, d, false, eval, trusted, j);
      ChildBound(d, legalMoves[j].movement, depth - 1);
      TimesStep(|legalMoves| - j - 1, each);
      var r' := MoveAndEval(b, legalMoves[j].movement, i + 1, cutoff, low, beta, eval, true, flag, d, exact);
      var search := flag.Read();
      if !search { return 0.0; }
      if trusted { MoveScored(r', d, order[j], true, depth - 1, eval, low, beta); }
      if trusted { OneChild(d, order, j, true, depth - 1, eval, alpha, beta, maxmove, low, beta, r'); }
      low := if low < r' then r' else low;
      if low >= beta { return r'; }
      if maxmove < r' { maxmove := r'; }
    }
    if trusted { SearchedWindow(d, order, Moves(d), true, depth - 1, eval, alpha, beta, maxmove); }
    return maxmove;
  }

  /** MIN_VAL */
  method MinVal(b: Board, alpha: real, beta: real, i: nat, cutoff: nat, flag: SearchFlag, eval: Evaluator,
                ghost d: BoardData, ghost exact: bool)
    returns (r: Score)
    requires b.Valid() && Tracks(d, b.Data(), exact)
    requires i <= cutoff && Plain(d, exact, cutoff - i) && -DBL_MAX <= alpha < beta <= DBL_MAX
    modifies b.Repr(), flag
    ensures b.Valid() && Tracks(d, b.Data(), exact)
    ensures old(flag.budget) - NodeReads(d, cutoff - i) <= flag.budget <= old(flag.budget)
    ensures flag.budget > 0 && Trusted(eval, exact) ==>
      Window(r, Minimax(d, false, cutoff - i, eval), alpha, beta) && LeafScore(d, cutoff - i, eval, r)
    decreases cutoff - i, 1
  {
    hide Inv, Moves, Tracks, Trusted, Plain, Minimax, NodeReads, ChildReads, Times, IsOrdering, Best, MovesOf, Lists,
      Static, Window, LeafScore, ChildScore;
    assert flag !in b.Repr();
    ghost var trusted := Trusted(eval, exact);
    NodeReadsIs(d, cutoff - i);
    LeafScoreNode(d, cutoff - i, eval);
    MinimaxNode(d, false, cutoff - i, eval);
    ExactWindow(Minimax(d, false, cutoff - i, eval), alpha, beta);
    var search := flag.Read();
    if !search { return 0.0; }
    var legalMoves := OrderChildren(b, flag, true, eval, d, exact, cutoff - i);
    if legalMoves == [] {
      if flag.budget > 0 { OrderingSize(legalMoves, d, true, eval, trusted); }
      r := Evaluate(b, 0, eval, d, exact);
      return;
    }
    OrderingSize(legalMoves, d, true, eval, trusted);
    if i == cutoff {
      r := Evaluate(b, |legalMoves|, eval, d, exact);
      return;
    }
    var _ := OrderChildren(b, flag, true, eval, d, exact, cutoff - i);
    search := flag.Read();
    if !search { return 0.0; }
    r := MinChildren(b, legalMoves, alpha, beta, i, cutoff, flag, eval, d, exact);
  }

  /** The loop of MIN_VAL over the children. */
  method MinChildren(b: Board, legalMoves: seq<MoveEval>, alpha: real, beta: real, i: nat, cutoff: nat,
                     flag: SearchFlag, eval: Evaluator, ghost d: BoardData, ghost exact: bool)
    returns (r: Score)
    requires b.Valid() && Tracks(d, b.Data(), exact)
    requires i < cutoff && Plain(d, exact, cutoff - i) && -DBL_MAX <= alpha < beta <= DBL_MAX
    requires legalMoves != [] && IsOrdering(legalMoves, d, true, eval, Trusted(eval, exact))
    modifies b.Repr(), flag
    ensures b.Valid() && Tracks(d, b.Data(), exact)
    ensures old(flag.budget) - Times(|Moves(d)|, 2 + ChildReads(d, cutoff - i - 1)) <= flag.budget <= old(flag.budget)
    ensures flag.budget > 0 && Trusted(eval, exact) ==>
      Window(r, Best(d, Moves(d), false, cutoff - i - 1, eval), alpha, beta)
      && ChildScore(d, cutoff - i - 1, eval, r)
    decreases cutoff - i, 0
  {
    hide Inv, Abs, Moves, Tracks, Trusted, Plain, MoveWindow, NodeReads, ChildReads, Times, Child, IsOrdering, Searched,
      Best, MovesOf, Lists, Window, LeafScore, ChildScore;
    assert flag !in b.Repr();
    ghost var depth, trusted := cutoff - i, Trusted(eval, exact);
    OrderingSize(legalMoves, d, true, eval, trusted);
    ghost var order, each := MovesOf(legalMoves), 2 + ChildReads(d, depth - 1);
    ghost var least := old(flag.budget) - Times(|legalMoves|, each);
    var minmove := DBL_MAX;
    var high := beta;
    NothingSearched(d, order, false, depth - 1, eval, beta, minmove);
    for j := 0 to |legalMoves|
      invariant b.Valid() && Tracks(d, b.Data(), exact)
      invariant least + Times(|legalMoves| - j, each) <= flag.budget <= old(flag.budget)
      invariant high == Better(false, beta, minmove) && alpha < high && -DBL_MAX < minmove <= DBL_MAX
      invariant j == 0 ==> minmove == DBL_MAX
      invariant j > 0 ==> minmove < DBL_MAX && (trusted ==> ChildScore(d, depth - 1, eval, minmove))
      invariant trusted ==> Searched(d, order, j, false, depth - 1, eval, beta, minmove)
    {
      ChildIsMove(legalMoves, d, true, eval, trusted, j);
      ChildBound(d, legalMoves[j].movement, depth - 1);
      TimesStep(|legalMoves| - j - 1, each);
      var r' := MoveAndEval(b, legalMoves[j].movement, i + 1, cutoff, alpha, high, eval, false, flag, d, exact);
      var search := flag.Read();
      if !search { return 0.0; }
      if trusted { MoveScored(r', d, order[j], false, depth - 1, eval, alpha, high); }
      if trusted { OneChild(d, order, j, false, depth - 1, eval, alpha, beta, minmove, alpha, high, r'); }
      high := if r' < high then r' else high;
      if alpha >= high { return r'; }
      if minmove > r' { minmove := r'; }
    }
    if trusted { SearchedWindow(d, order, Moves(d), false, depth - 1, eval, alpha, beta, minmove); }
    return minmove;
  }

  lemma ExactWindow(v: real, alpha: real, beta: real)
    ensures Window(v, v, alpha, beta)
  {
  }

  lemma NothingSearched(d: BoardData, order: seq<Move>, maxing: bool, depth: nat, eval: Evaluator, bound: real,
                        best: real)
    requires NotWorse(maxing, bound, best)
    ensures Searched(d, order, 0, maxing, depth, eval, bound, best)
  {
  }

  /** One child more: it closes the window of the node, or the running best takes it in. */
  lemma OneChild(d: BoardData, order: seq<Move>, j: int, maxing: bool, depth: nat, eval: Evaluator,
                 low: real, high: real, best: real, alpha: real, beta: real, r: real)
    requires Searched(d, order, j, maxing, depth, eval, if maxing then low else high, best) && 0 <= j < |order|
    requires order[j] in Moves(d) && low < high
    requires if maxing then alpha == Better(true, low, best) && beta == high
             else beta == Better(false, high, best) && alpha == low
    requires MoveWindow(r, d, order[j], maxing, depth, eval, alpha, beta)
    ensures (if maxing then r >= beta else r <= alpha) ==> Window(r, Best(d, Moves(d), maxing, depth, eval), low, high)
    ensures (if maxing then r < beta else r > alpha) ==>
      Searched(d, order, j + 1, maxing, depth, eval, if maxing then low else high, Better(maxing, best, r))
  {
    hide Moves, Searched, MoveValue, Best, Window, LeafScore, Child;
    if (if maxing then r >= beta else r <= alpha) {
      CutoffWindow(d, Moves(d), order[j], maxing, depth, eval, alpha, beta, low, high, r);
    } else {
      SearchedStep(d, order, j, maxing, depth, eval, if maxing then low else high, best, alpha, beta, r);
    }
  }
}
