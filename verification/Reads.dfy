/** How many times a search reads its flag: bounds that do not depend on the window, the evaluation
    or the order of the moves. */
module Reads {
  import opened Rules
  import opened Boards
  import opened GameTree

  ghost function MaxOf(ns: set<nat>): (r: nat)
    ensures forall n :: n in ns ==> n <= r
    decreases |ns|
  {
    if ns == {} then 0
    else
      var n :| n in ns;
      var r := MaxOf(ns - {n});
      assert forall k :: k in ns ==> k == n || k in ns - {n};
      if n >= r then n else r
  }

  /** One node: its entry, one read for each child that is ordered, once more for the discarded
      second ordering and after it, and for each child the entry of move_and_eval, the child's own
      reads, and one read after it. */
  ghost function NodeReads(d: BoardData, depth: nat): nat
    decreases depth, 2
  {
    var n := |Moves(d)|;
    if n == 0 || depth == 0 then 1 + n else 2 + 2 * n + Times(n, 2 + ChildReads(d, depth - 1))
  }

  /** What the children need. */
  ghost function ChildCounts(d: BoardData, depth: nat): set<nat>
    decreases depth + 1, 0
  {
    set m | m in Moves(d) :: NodeReads(Child(d, m), depth)
  }

  /** The most that any child needs. */
  ghost function ChildReads(d: BoardData, depth: nat): nat
    decreases depth + 1, 1
  {
    MaxOf(ChildCounts(d, depth))
  }

  lemma ChildBound(d: BoardData, m: Move, depth: nat)
    requires m in Moves(d)
    ensures NodeReads(Child(d, m), depth) <= ChildReads(d, depth)
  {
    hide NodeReads, Child, Moves;
    assert NodeReads(Child(d, m), depth) in ChildCounts(d, depth);
  }

  lemma NodeReadsIs(d: BoardData, depth: nat)
    ensures NodeReads(d, depth) >= 1 + |Moves(d)|
    ensures |Moves(d)| == 0 || depth == 0 ==> NodeReads(d, depth) == 1 + |Moves(d)|
    ensures |Moves(d)| > 0 && depth > 0 ==>
      NodeReads(d, depth) == 2 + 2 * |Moves(d)| + Times(|Moves(d)|, 2 + ChildReads(d, depth - 1))
  {
    hide Moves, ChildReads;
  }

  /** j children at k reads each. */
  function Times(j: nat, k: nat): nat { j * k }

  lemma TimesGrow(i: nat, j: nat, k: nat)
    requires i <= j
    ensures Times(i, k) <= Times(j, k)
  {
  }

  lemma TimesStep(j: nat, k: nat)
    ensures Times(0, k) == 0 && Times(j + 1, k) == Times(j, k) + k
  {
  }

  // ---------------------------------------------------------------- at the root

  /** One round of iterative deepening, with Black's probe of the first move. */
  ghost function RoundReads(d: BoardData, cutoff: nat): nat {
    |Moves(d)| + Times(|Moves(d)| + 1, 2 + ChildReads(d, cutoff)) + 1
  }

  /** The part of a round up to the end of its first t root moves; Black searches the first one
      twice. */
  ghost function TriedReads(d: BoardData, cutoff: nat, t: nat, maxing: bool): nat {
    |Moves(d)| + Times(t + (if maxing then 0 else 1), 2 + ChildReads(d, cutoff))
  }

  /** The first n rounds, each with the read of the loop that starts it. */
  ghost function RoundsReads(d: BoardData, n: nat): nat {
    if n == 0 then 0 else RoundsReads(d, n - 1) + 1 + RoundReads(d, 2 * n - 1)
  }

  lemma {:induction false} RoundsReadsGrow(d: BoardData, k: nat, n: nat)
    requires k <= n
    ensures RoundsReads(d, k) <= RoundsReads(d, n)
  {
    hide RoundReads;
    if k < n { RoundsReadsGrow(d, k, n - 1); }
  }
}
