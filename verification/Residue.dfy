/** Boards without left-over bits. */
module Residue {
  import opened Geometry
  import opened Rules
  import opened Bytes
  import opened Boards
  import opened BoardFacts
  import opened UndoFacts
  import opened Initial
  import opened Runs

  function KindBit(k: Kind): bv8 {
    match k case Pawn => PAWN case Rook => ROOK case Bishop => BISHOP case King => KING
  }

  /** The one byte without left-over bits that stands for a piece. */
  function CleanByte(p: Piece): bv8 {
    ColorBits(p.color) | KindBit(p.kind)
  }

  ghost predicate Clean(b: seq<bv8>)
    requires |b| == 64
  {
    forall s: Square :: b[Index(s)] != 0 ==> b[Index(s)] == CleanByte(Decode(b[Index(s)]))
  }

  lemma CleanSame(a: seq<bv8>, b: seq<bv8>)
    requires |a| == 64 && |b| == 64 && CellsOf(a) == CellsOf(b) && Clean(a) && Clean(b)
    ensures a == b
  {
    hide CellsOf, CleanByte, Decode;
    forall s: Square ensures a[Index(s)] == b[Index(s)] {
      SameCellsAt(a, b, s);
    }
    Same64(a, b);
  }

  lemma RotatedSame(a: seq<bv8>, b: seq<bv8>, c: seq<bv8>, t: Turn)
    requires |a| == 64 && Rotated(a, b, t) && Rotated(a, c, t)
    ensures b == c
  {
    forall s: Square ensures b[Index(s)] == c[Index(s)] {
      RotInverse(t, s);
      assert b[Index(Rot(t, Rot(Inverse(t), s)))] == a[Index(Rot(Inverse(t), s))];
    }
    Same64(b, c);
  }

  /** Left-over bits are all that similar boards can differ in: without them, similar records are
      identical, undo information aside. */
  lemma SimilarCleanEqual(d: BoardData, e: BoardData)
    requires Similar(d, e) && Clean(d.b0) && Clean(e.b0)
    ensures e == d.(killed := e.killed, killedIdx := e.killedIdx)
  {
    hide CellsOf, Rotated, Clean, WellFormedBoard, LiveSlotsFit, LiveSlotsDistinct, Covered;
    CleanSame(d.b0, e.b0);
    RotatedSame(d.b0, d.b90, e.b90, R90);
    RotatedSame(d.b0, d.b180, e.b180, R180);
    RotatedSame(d.b0, d.b270, e.b270, R270);
  }

  lemma PromoteClean(b: bv8, promo: Promo)
    requires b != 0 && b == CleanByte(Decode(b))
    ensures PromoteByte(b, promo) == CleanByte(Decode(PromoteByte(b, promo)))
  {
  }

  lemma MoveKeepsClean(d: BoardData, c: Color, m: Move)
    requires Inv(d) && IsPseudo(CellsOf(d.b0), c, m) && Clean(d.b0)
    ensures Clean(DoMove(d, m).b0)
  {
    hide Inv, IsPseudo, CellsOf, Clean;
    PseudoMovable(d, c, m);
    MovableKeepsClean(d, m);
  }

  lemma MovableKeepsClean(d: BoardData, m: Move)
    requires Inv(d) && Movable(d, m) && Clean(d.b0)
    ensures Clean(DoMove(d, m).b0)
  {
    hide Inv, CellsOf, CleanByte, Decode, PromoteByte;
    MoverByte(d, m);
    var b := d.b0[Index(m.from)];
    PromoteClean(b, m.promo);
    forall s: Square | DoMove(d, m).b0[Index(s)] != 0
      ensures DoMove(d, m).b0[Index(s)] == CleanByte(Decode(DoMove(d, m).b0[Index(s)]))
    {
      Moved64At(d.b0, m.from, m.to, PromoteByte(b, m.promo), s);
    }
  }

  lemma MoverByte(d: BoardData, m: Move)
    requires Inv(d) && Movable(d, m)
    ensures d.b0[Index(m.from)] != 0
  {
    var i := MoverOf(d, m);
  }

  /** Undo leaves a clean board clean exactly when the move is no promotion. */
  lemma UndoCleanIff(d: BoardData, c: Color, m: Move)
    requires Inv(d) && IsPseudo(CellsOf(d.b0), c, m) && Clean(d.b0)
    ensures Clean(UndoMove(DoMove(d, m), m).b0) <==> m.promo == NoPromo
  {
    hide Inv, IsPseudo, CellsOf, DoMove, UndoMove, CleanByte, Decode, DemoteByte, PromoteByte;
    DoUndo(d, c, m);
    PseudoMovable(d, c, m);
    MoverByte(d, m);
    var b := d.b0[Index(m.from)];
    ReturnedNotClean(d, m);
    PutAt(d.b0, m.from, ReturnedByte(b, m.promo), m.from);
    if m.promo == NoPromo {
      forall s: Square { PutAt(d.b0, m.from, ReturnedByte(b, m.promo), s); }
    }
  }

  lemma ReturnedNotClean(d: BoardData, m: Move)
    requires Inv(d) && Movable(d, m)
    ensures var r := ReturnedByte(d.b0[Index(m.from)], m.promo);
      r != 0 && (m.promo == NoPromo ==> r == d.b0[Index(m.from)])
      && (m.promo != NoPromo ==> r != CleanByte(Decode(r)))
  {
    var i := MoverOf(d, m);
    ReturnedByteExact(d.b0[Index(m.from)], m.promo);
  }

  lemma InitialClean(b: seq<bv8>)
    requires InitialBytes(b)
    ensures Clean(b)
  {
    hide InitialByteAt, CleanByte, Decode;
    forall s: Square | b[Index(s)] != 0 ensures b[Index(s)] == CleanByte(Decode(b[Index(s)])) {
      InitialByteClean(Index(s));
    }
  }

  lemma InitialByteClean(i: int)
    requires InitialByteAt(i) != 0
    ensures InitialByteAt(i) == CleanByte(Decode(InitialByteAt(i)))
  {
  }

  lemma {:induction false} RunKeepsClean(d: BoardData, ms: seq<Move>)
    requires Inv(d) && PseudoRun(Abs(d), ms) && Clean(d.b0)
    ensures Clean(Played(d, ms).b0)
    decreases |ms|
  {
    hide Inv, IsPseudo, CellsOf, DoMove, Clean, Apply, Moved;
    if ms != [] {
      PlayRefines(d, ms[0]);
      MoveKeepsClean(d, d.player, ms[0]);
      RunKeepsClean(Flip(DoMove(d, ms[0])), ms[1..]);
    }
  }

  /** On a board that is only played on, never taken back on, the bytes are those of the position:
      two games that reach the same position with the same slots have identical records. */
  lemma GamesAreClean(d: BoardData, ms: seq<Move>, ns: seq<Move>)
    requires IsInitial(d) && PseudoRun(Abs(d), ms) && PseudoRun(Abs(d), ns)
    requires After(Abs(d), ms) == After(Abs(d), ns) && Played(d, ms).slots == Played(d, ns).slots
    ensures var e, f := Played(d, ms), Played(d, ns);
      f == e.(killed := f.killed, killedIdx := f.killedIdx)
  {
    hide Inv, CellsOf, Clean, InitialBytes, Rotated, PseudoRun, Abs;
    InitialInv(d);
    InitialClean(d.b0);
    RunRefines(d, ms);
    RunRefines(d, ns);
    RunKeepsClean(d, ms);
    RunKeepsClean(d, ns);
    SimilarCleanEqual(Played(d, ms), Played(d, ns));
  }
}
