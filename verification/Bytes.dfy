/** Piece bytes: colour bits, kind bits, and what move generation reads from them. */
module Bytes {
  import opened Geometry
  import opened Rules

  const WHITE: bv8 := 0x40
  const BLACK: bv8 := 0x20
  const PAWN: bv8 := 0x02
  const ROOK: bv8 := 0x04
  const KING: bv8 := 0x08
  const BISHOP: bv8 := 0x10

  function ColorBits(c: Color): bv8 {
    if c == White then WHITE else BLACK
  }

  function ColorPart(b: bv8): bv8 {
    b & (WHITE | BLACK)
  }

  /** An empty square, or exactly one colour bit and at least one kind bit. */
  predicate WellFormed(b: bv8) {
    b == 0
    || ((ColorPart(b) == WHITE || ColorPart(b) == BLACK) && b & (PAWN | ROOK | KING | BISHOP) != 0)
  }

  /** The piece that move generation sees in a byte: PAWN is tested first, then ROOK, BISHOP and
      KING, so a left-over bit under a PAWN bit is invisible. */
  function Decode(b: bv8): Piece {
    Piece(if b & WHITE != 0 then White else Black,
          if b & PAWN != 0 then Pawn
          else if b & ROOK != 0 then Rook
          else if b & BISHOP != 0 then Bishop
          else King)
  }

  /** Do the two bytes share a colour? This is how the generators recognise an own piece. */
  lemma SharedColor(b: bv8, own: bv8)
    requires WellFormed(b) && WellFormed(own) && own != 0
    ensures b & ColorPart(own) != 0 <==> b != 0 && Decode(b).color == Decode(own).color
  {
  }

  ghost predicate WellFormedBoard(bytes: seq<bv8>) {
    |bytes| == 64 && forall i :: 0 <= i < 64 ==> WellFormed(bytes[i])
  }

  /** The position that a 64-byte board stands for. */
  function CellsOf(bytes: seq<bv8>): Cells
    requires |bytes| == 64
  {
    map s | s in AllSquares() && bytes[Index(s)] != 0 :: Decode(bytes[Index(s)])
  }

  lemma OwnTest(bytes: seq<bv8>, s: Square, p: Square)
    requires WellFormedBoard(bytes) && bytes[Index(p)] != 0
    ensures bytes[Index(s)] & ColorPart(bytes[Index(p)]) != 0
       <==> Owns(CellsOf(bytes), s, Decode(bytes[Index(p)]).color)
  {
    SharedColor(bytes[Index(s)], bytes[Index(p)]);
  }
}
