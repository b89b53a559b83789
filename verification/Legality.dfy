/** Attack, check and the king slots. */
module Legality {
  import opened Geometry
  import opened Rules
  import opened RuleFacts
  import opened Bytes
  import opened Boards
  import opened BoardFacts
  import opened UndoFacts
  import opened Generation

  function KingSlot(c: Color): int {
    if c == White then 8 else 2
  }

  lemma NothingAttacksOffRing(cells: Cells, attacker: Color, s: Square)
    requires !Ring(s)
    ensures !Attacked(cells, attacker, s)
  {
    forall m: Move | IsPseudo(cells, attacker, m) ensures m.to != s {
      PseudoShape(cells, attacker, m);
    }
  }

  lemma KingOnlyInItsSlot(d: BoardData, c: Color, s: Square)
    requires Inv(d) && s in CellsOf(d.b0)
    ensures CellsOf(d.b0)[s] == Piece(c, King) <==> s == d.slots[KingSlot(c)]
  {
    var i := SlotOf(d, s);
  }

  lemma KingSlotHoldsKing(d: BoardData, c: Color)
    requires Inv(d) && d.slots[KingSlot(c)] != DEAD
    ensures d.slots[KingSlot(c)] in CellsOf(d.b0) && CellsOf(d.b0)[d.slots[KingSlot(c)]] == Piece(c, King)
  {
    hide WellFormedBoard, Rotated, LiveSlotsDistinct, Covered;
    assert SlotByte(KingSlot(c), d.b0[Index(d.slots[KingSlot(c)])]);
  }

  /** Looking at the king's slot decides check, also when the king has been captured. */
  lemma KingSlotDecidesCheck(d: BoardData, c: Color)
    requires Inv(d)
    ensures InCheck(CellsOf(d.b0), c) <==> Attacked(CellsOf(d.b0), Opp(c), d.slots[KingSlot(c)])
  {
    var cells, k := CellsOf(d.b0), d.slots[KingSlot(c)];
    if InCheck(cells, c) {
      var s: Square :| s in cells && cells[s] == Piece(c, King) && Attacked(cells, Opp(c), s);
      KingOnlyInItsSlot(d, c, s);
    }
    if k == DEAD { NothingAttacksOffRing(cells, Opp(c), k); } else { KingSlotHoldsKing(d, c); }
  }

  lemma ThreatFound(cells: Cells, attacker: Color, moves: set<Move>, s: Square, found: bool)
    requires ArePseudo(cells, attacker, moves)
    requires found <==> exists m :: m in moves && m.to == s
    ensures found <==> Attacked(cells, attacker, s)
  {
    if found {
      var m :| m in moves && m.to == s;
      assert IsPseudo(cells, attacker, m);
    }
  }

  /** The scan of _under_threat. */
  method AnyEndsOn(moves: set<Move>, s: Square) returns (found: bool)
    ensures found <==> exists m :: m in moves && m.to == s
  {
    var todo := moves;
    while todo != {}
      invariant todo <= moves
      invariant forall m :: m in moves && m !in todo ==> m.to != s
      decreases |todo|
    {
      var move :| move in todo;
      if move.to == s { return true; }
      todo := todo - {move};
    }
    return false;
  }

  /** _under_threat */
  method UnderThreatOf(attacker: Color, s: Square, slots: seq<Square>, b0: seq<bv8>, b90: seq<bv8>, b180: seq<bv8>,
                       b270: seq<bv8>, ghost d: BoardData)
    returns (threat: bool)
    requires Inv(d) && d.slots == slots && d.b0 == b0 && d.b90 == b90 && d.b180 == b180 && d.b270 == b270
    ensures threat <==> Attacked(CellsOf(b0), attacker, s)
  {
    hide IsPseudo, Attacked, CellsOf;
    var moves := SideMovesOf(attacker, slots, b0, b90, b180, b270, d);
    threat := AnyEndsOn(moves, s);
    ThreatFound(CellsOf(b0), attacker, moves, s, threat);
  }

  /** in_check */
  method InCheckOf(player: Color, slots: seq<Square>, b0: seq<bv8>, b90: seq<bv8>, b180: seq<bv8>,
                   b270: seq<bv8>, ghost d: BoardData)
    returns (check: bool)
    requires Inv(d) && d.slots == slots && d.b0 == b0 && d.b90 == b90 && d.b180 == b180 && d.b270 == b270
    ensures check <==> InCheck(CellsOf(b0), player)
  {
    hide Inv, InCheck, Attacked, CellsOf;
    var kingPos := slots[8];
    if player == Black {
      kingPos := slots[2];
    }
    KingSlotDecidesCheck(d, player);
    check := UnderThreatOf(Opp(player), kingPos, slots, b0, b90, b180, b270, d);
  }

  /** One round of the legality loop on a copy that may carry left-over bits. */
  lemma LegalityRound(d: BoardData, copy: BoardData, m: Move)
    requires Similar(d, copy) && IsPseudo(CellsOf(d.b0), d.player, m)
    ensures Inv(DoMove(copy, m)) && CellsOf(DoMove(copy, m).b0) == Moved(CellsOf(d.b0), m)
    ensures Similar(d, UndoMove(DoMove(copy, m), m))
  {
    StepRefines(copy, d.player, m);
    PseudoMovable(copy, d.player, m);
    UndoSimilar(copy, m, DoMove(copy, m));
  }

  /** The legal moves, given as the survivors of the pseudolegal ones. */
  lemma Survivors(p: Position, pseudo: set<Move>, legal: set<Move>)
    requires ArePseudo(p.cells, p.player, pseudo)
    requires forall m :: m in legal <==> m in pseudo && !InCheck(Moved(p.cells, m), p.player)
    ensures legal == LegalMoves(p)
  {
    forall m: Move ensures m in legal <==> m in LegalMoves(p) {
      assert m in pseudo <==> IsPseudo(p.cells, p.player, m);
    }
  }
}
