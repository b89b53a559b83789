/** The redundant board record and its two in-place updates, as functions on values. */
module Boards {
  import opened Geometry
  import opened Rules
  import opened Bytes

  datatype BoardData = BoardData(
    slots: seq<Square>,   // Black's six pieces, then White's: rook, rook, king, bishop, pawn, pawn
    b0: seq<bv8>, b90: seq<bv8>, b180: seq<bv8>, b270: seq<bv8>,
    player: Color,
    killed: bv8, killedIdx: int)

  ghost predicate Sized(d: BoardData) {
    |d.slots| == 12 && |d.b0| == 64 && |d.b90| == 64 && |d.b180| == 64 && |d.b270| == 64
    && -1 <= d.killedIdx < 12
  }

  // ---------------------------------------------------------------- one array

  function Put(b: seq<bv8>, s: Square, v: bv8): (r: seq<bv8>)
    requires |b| == 64
    ensures |r| == 64
  {
    b[Index(s) := v]
  }

  lemma PutAt(b: seq<bv8>, s: Square, v: bv8, u: Square)
    requires |b| == 64
    ensures Put(b, s, v)[Index(u)] == if u == s then v else b[Index(u)]
  {
    if Index(u) == Index(s) { IndexInjective(u, s); }
  }

  lemma CellsOfPut(b: seq<bv8>, s: Square, v: bv8)
    requires |b| == 64
    ensures CellsOf(Put(b, s, v)) == if v == 0 then CellsOf(b) - {s} else CellsOf(b)[s := Decode(v)]
  {
    var r := if v == 0 then CellsOf(b) - {s} else CellsOf(b)[s := Decode(v)];
    forall u: Square ensures u in CellsOf(Put(b, s, v)) <==> u in r
      ensures u in r ==> CellsOf(Put(b, s, v))[u] == r[u]
    {
      PutAt(b, s, v, u);
    }
  }

  lemma PutWellFormed(b: seq<bv8>, s: Square, v: bv8)
    requires WellFormedBoard(b) && WellFormed(v)
    ensures WellFormedBoard(Put(b, s, v))
  {
  }

  /** bt is the rotated image of b0. */
  ghost predicate Rotated(b0: seq<bv8>, bt: seq<bv8>, t: Turn) {
    |b0| == 64 && |bt| == 64 && forall s: Square :: bt[Index(Rot(t, s))] == b0[Index(s)]
  }

  lemma PutRotated(b0: seq<bv8>, bt: seq<bv8>, t: Turn, s: Square, v: bv8)
    requires Rotated(b0, bt, t)
    ensures Rotated(Put(b0, s, v), Put(bt, Rot(t, s), v), t)
  {
    forall u: Square ensures Put(bt, Rot(t, s), v)[Index(Rot(t, u))] == Put(b0, s, v)[Index(u)] {
      PutAt(b0, s, v, u);
      PutAt(bt, Rot(t, s), v, Rot(t, u));
      RotInverse(t, s);
      RotInverse(t, u);
    }
  }

  // ---------------------------------------------------------------- the record

  /** What the byte under slot i looks like: slots 2 and 8 are the kings, and pawns only stand in
      the slots that started with one. */
  ghost predicate SlotByte(i: int, b: bv8) {
    b != 0 && WellFormed(b)
    && Decode(b).color == (if i < 6 then Black else White)
    && (Decode(b).kind == King <==> i == 2 || i == 8)
    && (Decode(b).kind == Pawn ==> i == 4 || i == 5 || i == 10 || i == 11)
  }

  ghost predicate LiveSlotsFit(slots: seq<Square>, b0: seq<bv8>)
    requires |slots| == 12 && |b0| == 64
  {
    forall i :: 0 <= i < 12 && slots[i] != DEAD ==> Ring(slots[i]) && SlotByte(i, b0[Index(slots[i])])
  }

  ghost predicate LiveSlotsDistinct(slots: seq<Square>) {
    forall i, j :: 0 <= i < j < |slots| && slots[i] != DEAD ==> slots[i] != slots[j]
  }

  /** Every occupied square has a slot, and the square that stands for a captured piece is empty. */
  ghost predicate Covered(slots: seq<Square>, b0: seq<bv8>)
    requires |b0| == 64
  {
    b0[Index(DEAD)] == 0 && forall s: Square :: b0[Index(s)] != 0 ==> s in slots
  }

  /** The representation invariant. */
  ghost predicate Inv(d: BoardData)
    ensures Inv(d) ==> Sized(d)
  {
    Sized(d) && WellFormedBoard(d.b0)
    && Rotated(d.b0, d.b90, R90) && Rotated(d.b0, d.b180, R180) && Rotated(d.b0, d.b270, R270)
    && LiveSlotsFit(d.slots, d.b0) && LiveSlotsDistinct(d.slots) && Covered(d.slots, d.b0)
  }

  /** The simple form of a board: a partial map from squares to pieces, and the side to move. */
  ghost function Abs(d: BoardData): Position
    requires |d.b0| == 64
  {
    Position(CellsOf(d.b0), d.player)
  }

  // ---------------------------------------------------------------- _do_move

  function PromoteByte(b: bv8, promo: Promo): bv8 {
    match promo
    case NoPromo => b
    case ToRook => ColorPart(b) | ROOK
    case ToBishop => ColorPart(b) | BISHOP
  }

  function DemoteByte(b: bv8, promo: Promo): bv8 {
    match promo
    case NoPromo => b
    case ToRook => (ColorPart(b) ^ ROOK) | PAWN
    case ToBishop => (ColorPart(b) ^ BISHOP) | PAWN
  }

  /** What the scan does to one slot: a captured piece dies, then the mover moves. */
  function MovedSlot(s: Square, m: Move): Square {
    var afterCapture := if s == m.to then DEAD else s;
    if afterCapture == m.from then m.to else afterCapture
  }

  function MovedSlots(slots: seq<Square>, m: Move): (r: seq<Square>)
    ensures |r| == |slots|
  {
    seq(|slots|, i requires 0 <= i < |slots| => MovedSlot(slots[i], m))
  }

  function LastIndexOf(slots: seq<Square>, s: Square): (i: int)
    ensures -1 <= i < |slots|
    ensures i >= 0 ==> slots[i] == s
    ensures forall j :: i < j < |slots| ==> slots[j] != s
  {
    if slots == [] then -1
    else if slots[|slots| - 1] == s then |slots| - 1
    else LastIndexOf(slots[..|slots| - 1], s)
  }

  function FirstIndexOf(slots: seq<Square>, s: Square): (i: int)
    ensures -1 <= i < |slots|
    ensures i >= 0 ==> slots[i] == s && forall j :: 0 <= j < i ==> slots[j] != s
    ensures i < 0 ==> s !in slots
  {
    if slots == [] then -1
    else if slots[0] == s then 0
    else var i := FirstIndexOf(slots[1..], s); if i < 0 then -1 else i + 1
  }

  /** First the target square, then the square left behind. */
  function Moved64(b: seq<bv8>, from: Square, to: Square, piece: bv8): (r: seq<bv8>)
    requires |b| == 64
    ensures |r| == 64
  {
    Put(Put(b, to, piece), from, 0)
  }

  ghost function DoMove(d: BoardData, m: Move): (r: BoardData)
    requires Sized(d)
    ensures Sized(r)
  {
    var piece := PromoteByte(d.b0[Index(m.from)], m.promo);
    var victim := LastIndexOf(d.slots, m.to);
    BoardData(
      MovedSlots(d.slots, m),
      Moved64(d.b0, m.from, m.to, piece),
      Moved64(d.b90, Rot(R90, m.from), Rot(R90, m.to), piece),
      Moved64(d.b180, Rot(R180, m.from), Rot(R180, m.to), piece),
      Moved64(d.b270, Rot(R270, m.from), Rot(R270, m.to), piece),
      d.player,
      if victim < 0 then 0 else d.b0[Index(m.to)],
      victim)
  }

  ghost function Flip(d: BoardData): BoardData {
    d.(player := Opp(d.player))
  }

  // ---------------------------------------------------------------- _undo_last_move

  function RestoredSlots(slots: seq<Square>, m: Move, killedIdx: int): (r: seq<Square>)
    requires |slots| == 12 && -1 <= killedIdx < 12
    ensures |r| == 12
  {
    var i := FirstIndexOf(slots, m.to);
    var back := if i < 0 then slots else slots[i := m.from];
    if killedIdx < 0 then back else back[killedIdx := m.to]
  }

  function Restored64(b: seq<bv8>, from: Square, to: Square, piece: bv8, dead: bv8): (r: seq<bv8>)
    requires |b| == 64
    ensures |r| == 64
  {
    Put(Put(b, from, piece), to, dead)
  }

  ghost function UndoMove(d: BoardData, m: Move): (r: BoardData)
    requires Sized(d)
    ensures Sized(r)
  {
    var piece := DemoteByte(d.b0[Index(m.to)], m.promo);
    BoardData(
      RestoredSlots(d.slots, m, d.killedIdx),
      Restored64(d.b0, m.from, m.to, piece, d.killed),
      Restored64(d.b90, Rot(R90, m.from), Rot(R90, m.to), piece, d.killed),
      Restored64(d.b180, Rot(R180, m.from), Rot(R180, m.to), piece, d.killed),
      Restored64(d.b270, Rot(R270, m.from), Rot(R270, m.to), piece, d.killed),
      d.player,
      0,
      -1)
  }
}
