/** The mutable board: piece slots and four rotated arrays, updated in place. */
module BoardClass {
  import opened Geometry
  import opened Rules
  import opened Bytes
  import opened Boards
  import opened UndoFacts
  import opened Generation
  import opened Initial
  import opened Legality

  /** memcpy of one of the arrays. */
  method CopyInto<T>(src: array<T>, tgt: array<T>)
    requires src.Length == tgt.Length && src != tgt
    modifies tgt
    ensures tgt[..] == src[..]
  {
    for i := 0 to src.Length
      invariant forall k :: 0 <= k < i ==> tgt[k] == src[k]
    {
      tgt[i] := src[i];
    }
  }

  /** rotate_board */
  method RotateBoard(src: array<bv8>, tgt: array<bv8>, transform: seq<int>, ghost t: Turn)
    requires src.Length == 64 && tgt.Length == 64 && src != tgt && IsTable(t, transform)
    modifies tgt
    ensures Rotated(src[..], tgt[..], t)
  {
    for i := 0 to 64
      invariant forall s: Square :: Index(s) < i ==> tgt[Index(Rot(t, s))] == src[Index(s)]
    {
      ghost var here := FromIndex(i);
      assert transform[Index(here)] == Index(Rot(t, here));
      forall s: Square | Index(s) < i ensures Index(Rot(t, s)) != Index(Rot(t, here)) {
        RotNotEqual(t, s, here);
        if Index(Rot(t, s)) == Index(Rot(t, here)) { IndexInjective(Rot(t, s), Rot(t, here)); }
      }
      tgt[transform[i]] := src[i];
      forall s: Square | Index(s) == i ensures s == here { IndexInjective(s, here); }
    }
  }

  class Board {
    const slots: array<Square>
    const board0: array<bv8>
    const board90: array<bv8>
    const board180: array<bv8>
    const board270: array<bv8>
    var player: Color
    var killed: bv8
    var killedIdx: int

    ghost predicate Valid()
      reads this
    {
      slots.Length == 12 && board0.Length == 64 && board90.Length == 64
      && board180.Length == 64 && board270.Length == 64
      && board0 != board90 && board0 != board180 && board0 != board270
      && board90 != board180 && board90 != board270 && board180 != board270
      && -1 <= killedIdx < 12
    }

    ghost function Repr(): set<object> {
      {this, slots, board0, board90, board180, board270}
    }

    ghost function Data(): (d: BoardData)
      reads this, slots, board0, board90, board180, board270
      requires Valid()
      ensures Sized(d)
    {
      BoardData(slots[..], board0[..], board90[..], board180[..], board270[..], player, killed, killedIdx)
    }

    /** Board::Board() */
    constructor ()
      ensures Valid() && fresh(Repr()) && IsInitial(Data())
    {
      slots := new Square[12](i requires 0 <= i < 12 => InitialSlots()[i]);
      board0 := new bv8[64](_ => 0);
      board90 := new bv8[64](_ => 0);
      board180 := new bv8[64](_ => 0);
      board270 := new bv8[64](_ => 0);
      player := White;
      killed := 0;
      killedIdx := -1;
      new;
      PlaceBlack();
      PlaceWhite();
      var cw90 := TableCw90();
      var cw180 := TableCw180();
      var acw90 := TableAcw90();
      RotateBoard(board0, board90, cw90, R90);
      RotateBoard(board0, board180, cw180, R180);
      RotateBoard(board0, board270, acw90, R270);
    }

    /** The first six of the twelve assignments of the constructor. */
    method PlaceBlack()
      requires Valid() && slots[..] == InitialSlots() && forall i :: 0 <= i < 64 ==> board0[i] == 0
      modifies board0
      ensures forall i :: 0 <= i < 64 ==>
        board0[i] == if InitialByteAt(i) & BLACK != 0 then InitialByteAt(i) else 0
    {
      InitialSlotIndices();
      board0[Index(slots[0])] := BLACK | ROOK;
      board0[Index(slots[1])] := BLACK | ROOK;
      board0[Index(slots[2])] := BLACK | KING;
      board0[Index(slots[3])] := BLACK | BISHOP;
      board0[Index(slots[4])] := BLACK | PAWN;
      board0[Index(slots[5])] := BLACK | PAWN;
    }

    /** The other six. */
    method PlaceWhite()
      requires Valid() && slots[..] == InitialSlots()
      requires forall i :: 0 <= i < 64 ==>
        board0[i] == if InitialByteAt(i) & BLACK != 0 then InitialByteAt(i) else 0
      modifies board0
      ensures forall i :: 0 <= i < 64 ==> board0[i] == InitialByteAt(i)
    {
      InitialSlotIndices();
      board0[Index(slots[6])] := WHITE | ROOK;
      board0[Index(slots[7])] := WHITE | ROOK;
      board0[Index(slots[8])] := WHITE | KING;
      board0[Index(slots[9])] := WHITE | BISHOP;
      board0[Index(slots[10])] := WHITE | PAWN;
      board0[Index(slots[11])] := WHITE | PAWN;
    }

    // ---------------------------------------------------------------- _do_move, _undo_last_move

    /** _do_move */
    method MakeMove(m: Move)
      requires Valid()
      modifies this, slots, board0, board90, board180, board270
      ensures Valid() && Data() == DoMove(old(Data()), m)
    {
      var piecetype := board0[Index(m.from)];
      killed := 0;
      killedIdx := -1;
      ScanForCapture(m);
      piecetype := PromoteByte(piecetype, m.promo);
      WriteAll(m.to, piecetype);
      WriteAll(m.from, 0);
    }

    /** The scan over the twelve slots. */
    method ScanForCapture(m: Move)
      requires Valid() && killed == 0 && killedIdx == -1
      modifies this`killed, this`killedIdx, slots
      ensures Valid()
      ensures slots[..] == MovedSlots(old(slots[..]), m)
      ensures killedIdx == LastIndexOf(old(slots[..]), m.to)
      ensures killed == if killedIdx < 0 then 0 else board0[Index(m.to)]
    {
      ghost var was := slots[..];
      for i := 0 to 12
        invariant -1 <= killedIdx < 12
        invariant forall k :: 0 <= k < i ==> slots[k] == MovedSlot(was[k], m)
        invariant forall k :: i <= k < 12 ==> slots[k] == was[k]
        invariant killedIdx == LastIndexOf(was[..i], m.to)
        invariant killed == if killedIdx < 0 then 0 else board0[Index(m.to)]
      {
        assert was[..i + 1][..i] == was[..i];
        if slots[i] == m.to {
          slots[i] := DEAD;
          killed := board0[Index(m.to)];
          killedIdx := i;
        }
        if slots[i] == m.from {
          slots[i] := m.to;
        }
      }
      assert was[..12] == was;
    }

    /** Writes one byte at the same place of the board in all four arrays. */
    method WriteAll(s: Square, v: bv8)
      requires Valid()
      modifies board0, board90, board180, board270
      ensures board0[..] == Put(old(board0[..]), s, v)
      ensures board90[..] == Put(old(board90[..]), Rot(R90, s), v)
      ensures board180[..] == Put(old(board180[..]), Rot(R180, s), v)
      ensures board270[..] == Put(old(board270[..]), Rot(R270, s), v)
    {
      var cw90 := TableCw90();
      var cw180 := TableCw180();
      var acw90 := TableAcw90();
      board0[Index(s)] := v;
      board90[cw90[Index(s)]] := v;
      board180[cw180[Index(s)]] := v;
      board270[acw90[Index(s)]] := v;
    }

    /** _undo_last_move */
    method UnmakeMove(m: Move)
      requires Valid()
      modifies this, slots, board0, board90, board180, board270
      ensures Valid() && Data() == UndoMove(old(Data()), m)
    {
      var piecetype := board0[Index(m.to)];
      var deadpiece := killed;
      killed := 0;
      RestoreSlots(m);
      piecetype := DemoteByte(piecetype, m.promo);
      WriteAll(m.from, piecetype);
      WriteAll(m.to, deadpiece);
    }

    /** The scan for the mover, and the captured piece's slot. */
    method RestoreSlots(m: Move)
      requires Valid()
      modifies this`killedIdx, slots
      ensures Valid() && killedIdx == -1
      ensures slots[..] == RestoredSlots(old(slots[..]), m, old(killedIdx))
    {
      ghost var was := slots[..];
      ghost var first := FirstIndexOf(was, m.to);
      for i := 0 to 12
        invariant slots[..] == was
        invariant first < 0 || i <= first
      {
        if slots[i] == m.to {
          assert i == first;
          slots[i] := m.from;
          break;
        }
      }
      assert slots[..] == if first < 0 then was else was[first := m.from];
      if killedIdx >= 0 {
        slots[killedIdx] := m.to;
        killedIdx := -1;
      }
    }

    method FlipPlayer()
      requires Valid()
      modifies this`player
      ensures Valid() && Data() == Flip(old(Data()))
    {
      player := Opp(player);
    }

    /** do_move */
    method PlayMove(m: Move)
      requires Valid()
      modifies this, slots, board0, board90, board180, board270
      ensures Valid() && Data() == Flip(DoMove(old(Data()), m))
    {
      MakeMove(m);
      FlipPlayer();
    }

    // ---------------------------------------------------------------- move generation

    /** _get_pseudolegal_moves_for_side */
    method SideMoves(c: Color) returns (moves: set<Move>)
      requires Valid() && Inv(Data())
      ensures ArePseudo(CellsOf(board0[..]), c, moves)
    {
      moves := SideMovesOf(c, slots[..], board0[..], board90[..], board180[..], board270[..], Data());
    }

    /** in_check */
    method IsInCheck() returns (check: bool)
      requires Valid() && Inv(Data())
      ensures check <==> InCheck(CellsOf(board0[..]), player)
    {
      hide InCheck, Attacked, CellsOf, Inv;
      check := InCheckOf(player, slots[..], board0[..], board90[..], board180[..], board270[..], Data());
    }

    /** copy */
    method Copy() returns (c: Board)
      requires Valid()
      ensures c.Valid() && fresh(c.Repr()) && c.Data() == Data()
    {
      c := new Board();
      CopyInto(slots, c.slots);
      CopyInto(board0, c.board0);
      CopyInto(board90, c.board90);
      CopyInto(board180, c.board180);
      CopyInto(board270, c.board270);
      c.player := player;
      c.killed := killed;
      c.killedIdx := killedIdx;
    }

    /** One round of the legality loop: do, look for check, undo. */
    method IsSafe(move: Move) returns (safe: bool)
      requires Valid() && Inv(Data()) && IsPseudo(CellsOf(board0[..]), player, move)
      modifies this, slots, board0, board90, board180, board270
      ensures Valid() && Similar(old(Data()), Data())
      ensures safe <==> !InCheck(Moved(old(CellsOf(board0[..])), move), player)
    {
      hide InCheck, CellsOf, Inv, IsPseudo, Moved, Similar;
      LegalityRound(Data(), Data(), move);
      MakeMove(move);
      var check := IsInCheck();
      safe := !check;
      UnmakeMove(move);
    }

    /** get_legal_moves */
    method GetLegalMoves() returns (legalMoves: set<Move>)
      requires Valid() && Inv(Data())
      ensures legalMoves == LegalMoves(Abs(Data()))
    {
      hide InCheck, CellsOf, Inv, IsPseudo, Moved, LegalMoves;
      var c := Copy();
      var pseudo := c.SideMoves(c.player);
      ghost var p := Abs(Data());
      legalMoves := {};
      var todo := pseudo;
      while todo != {}
        invariant todo <= pseudo && ArePseudo(p.cells, p.player, pseudo)
        invariant c.Valid() && fresh(c.Repr()) && Inv(c.Data()) && Abs(c.Data()) == p
        invariant forall m :: m in legalMoves <==> m in pseudo - todo && !InCheck(Moved(p.cells, m), p.player)
        decreases |todo|
      {
        var move :| move in todo;
        var safe := c.IsSafe(move);
        if safe { legalMoves := legalMoves + {move}; }
        todo := todo - {move};
      }
      Survivors(p, pseudo, legalMoves);
    }
  }
}
