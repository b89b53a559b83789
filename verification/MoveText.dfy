/** Moves as 16-bit words and as text. */
module MoveText {
  import opened Geometry
  import opened Rules
  import opened Boards
  import opened Runs

  // ---------------------------------------------------------------- the packed word

  const PAWN_BISHOP: bv16 := 0x40
  const PAWN_ROOK: bv16 := 0x80

  function Pos(x: bv16, y: bv16): bv16 { (y << 3) | x }
  function GetX(p: bv16): bv16 { p & 7 }
  function GetY(p: bv16): bv16 { p >> 3 }
  function MovePromo(p0: bv16, p1: bv16, promo: bv16): bv16 { (p0 << 8) | p1 | promo }
  function GetP0(w: bv16): (p: bv16) ensures p < 64 { (w >> 8) & 0x3f }
  function GetP1(w: bv16): (p: bv16) ensures p < 64 { w & 0x3f }
  function GetPromo(w: bv16): bv16 { w & (PAWN_BISHOP | PAWN_ROOK) }

  predicate IsPromoBits(promo: bv16) { promo & !(PAWN_BISHOP | PAWN_ROOK) == 0 }

  predicate BothPromotions(promo: bv16) { promo == PAWN_BISHOP | PAWN_ROOK }

  /** The words that a move generator can produce: two unused bits are clear, and not both
      promotions are set. */
  predicate IsMoveWord(w: bv16) {
    w & 0xC000 == 0 && !BothPromotions(GetPromo(w))
  }

  /** The three fields do not overlap, and together they are the whole word. */
  lemma FieldsSeparate(p0: bv16, p1: bv16, promo: bv16)
    requires p0 < 64 && p1 < 64 && IsPromoBits(promo)
    ensures var w := MovePromo(p0, p1, promo);
      GetP0(w) == p0 && GetP1(w) == p1 && GetPromo(w) == promo && w & 0xC000 == 0
  {
  }

  lemma WordHasFields(w: bv16)
    ensures MovePromo(GetP0(w), GetP1(w), GetPromo(w)) == w <==> w & 0xC000 == 0
  {
  }

  // ---------------------------------------------------------------- text

  /** A C++ string: bytes. */
  type Text = seq<bv8>

  const CHAR_a: bv8 := 0x61
  const CHAR_b: bv8 := 0x62
  const CHAR_r: bv8 := 0x72
  const CHAR_1: bv8 := 0x31

  function PromoText(promo: bv16): Text {
    if promo & PAWN_BISHOP != 0 then [CHAR_b] else if promo & PAWN_ROOK != 0 then [CHAR_r] else []
  }

  function SquareText(p: bv16): (s: Text)
    requires p < 64
    ensures |s| == 2
  {
    [CHAR_a + (GetX(p) as bv8), CHAR_1 + (GetY(p) as bv8)]
  }

  /** move_to_str */
  function MoveToStr(w: bv16): (s: Text)
    ensures |s| >= 4
  {
    SquareText(GetP0(w)) + SquareText(GetP1(w)) + PromoText(GetPromo(w))
  }

  function Coordinates(cx: bv8, cy: bv8): bv16 {
    Pos((cx - CHAR_a) as bv16, (cy - CHAR_1) as bv16)
  }

  function PromoOf(s: Text): bv16 {
    if |s| > 4 then if s[4] == CHAR_r then PAWN_ROOK else PAWN_BISHOP else 0
  }

  /** str_to_move, on every string long enough to be indexed as it is. */
  function StrToMove(s: Text): bv16
    requires |s| >= 4
  {
    MovePromo(Coordinates(s[0], s[1]), Coordinates(s[2], s[3]), PromoOf(s))
  }

  lemma CoordinatesBack(p: bv16)
    requires p < 64
    ensures Coordinates(SquareText(p)[0], SquareText(p)[1]) == p
  {
  }

  lemma PromoBack(s: Text, promo: bv16)
    requires |s| == 4 && IsPromoBits(promo)
    ensures PromoOf(s + PromoText(promo)) == if BothPromotions(promo) then PAWN_BISHOP else promo
  {
  }

  /** What parsing makes of a printed word: the two unused bits are gone, and of two promotions
      only the bishop is left. */
  lemma WordParsed(w: bv16)
    ensures StrToMove(MoveToStr(w)) ==
      MovePromo(GetP0(w), GetP1(w), if BothPromotions(GetPromo(w)) then PAWN_BISHOP else GetPromo(w))
  {
    hide Coordinates, PromoOf, PromoText, SquareText, MovePromo, GetP0, GetP1, GetPromo, IsPromoBits, BothPromotions;
    var s := MoveToStr(w);
    WordHasFields(w);
    CoordinatesBack(GetP0(w));
    CoordinatesBack(GetP1(w));
    BothPromos(w);
    PromoBack(s[..4], GetPromo(w));
    assert s == s[..4] + PromoText(GetPromo(w));
  }

  /** Printing and parsing gives back a word exactly when it is a move word. */
  lemma WordRoundTrip(w: bv16)
    ensures StrToMove(MoveToStr(w)) == w <==> IsMoveWord(w)
  {
    hide MoveToStr, StrToMove, MovePromo, GetP0, GetP1, GetPromo, BothPromotions;
    WordParsed(w);
    WordHasFields(w);
    BothPromos(w);
  }

  lemma BothPromos(w: bv16)
    ensures BothPromotions(GetPromo(w)) ==> MovePromo(GetP0(w), GetP1(w), PAWN_BISHOP) != w
    ensures IsPromoBits(GetPromo(w))
  {
  }

  predicate IsSquareText(cx: bv8, cy: bv8) {
    CHAR_a <= cx < CHAR_a + 8 && CHAR_1 <= cy < CHAR_1 + 8
  }

  /** Coordinates of two squares from a1 to h8, then b or r for a promotion. */
  predicate IsMoveText(s: Text) {
    (|s| == 4 || (|s| == 5 && (s[4] == CHAR_b || s[4] == CHAR_r)))
    && IsSquareText(s[0], s[1]) && IsSquareText(s[2], s[3])
  }

  lemma CoordinatesForth(cx: bv8, cy: bv8)
    requires IsSquareText(cx, cy)
    ensures var p := Coordinates(cx, cy);
      p < 64 && SquareText(p) == [cx, cy]
  {
  }

  lemma PrintedSquare(p: bv16)
    requires p < 64
    ensures IsSquareText(SquareText(p)[0], SquareText(p)[1])
  {
  }

  lemma PromoForth(s: Text)
    requires |s| >= 4
    ensures IsPromoBits(PromoOf(s))
    ensures PromoText(PromoOf(s)) == s[4..] <==> |s| == 4 || (|s| == 5 && (s[4] == CHAR_b || s[4] == CHAR_r))
  {
    if |s| == 4 { assert s[4..] == []; }
    if |s| == 5 { assert s[4..] == [s[4]]; }
  }

  lemma PrintedIsMoveText(w: bv16)
    ensures IsMoveText(MoveToStr(w))
  {
    hide SquareText, IsSquareText;
    WordHasFields(w);
    PrintedSquare(GetP0(w));
    PrintedSquare(GetP1(w));
  }

  /** Parsing and printing gives back a text exactly when it is the text of a move. */
  lemma TextRoundTrip(s: Text)
    requires |s| >= 4
    ensures MoveToStr(StrToMove(s)) == s <==> IsMoveText(s)
  {
    hide Coordinates, PromoOf, PromoText, SquareText, MovePromo, GetP0, GetP1, GetPromo, IsSquareText, IsPromoBits;
    PrintedIsMoveText(StrToMove(s));
    if IsMoveText(s) {
      CoordinatesForth(s[0], s[1]);
      CoordinatesForth(s[2], s[3]);
      PromoForth(s);
      FieldsSeparate(Coordinates(s[0], s[1]), Coordinates(s[2], s[3]), PromoOf(s));
      assert s == s[..4] + s[4..];
    }
  }

  // ---------------------------------------------------------------- words and moves

  function Bits(n: int): bv16 {
    if n == 0 then 0 else if n == 1 then 1 else if n == 2 then 2 else if n == 3 then 3
    else if n == 4 then 4 else if n == 5 then 5 else if n == 6 then 6 else 7
  }

  function Value(b: bv16): (n: int)
    ensures 0 <= n < 8
  {
    if b == 0 then 0 else if b == 1 then 1 else if b == 2 then 2 else if b == 3 then 3
    else if b == 4 then 4 else if b == 5 then 5 else if b == 6 then 6 else 7
  }

  function PromoBits(promo: Promo): bv16 {
    match promo case NoPromo => 0 case ToRook => PAWN_ROOK case ToBishop => PAWN_BISHOP
  }

  function SquareBits(s: Square): bv16 { Pos(Bits(s.x), Bits(s.y)) }

  function SquareAt(p: bv16): Square { Sq(Value(GetX(p)), Value(GetY(p))) }

  /** The word of a move. */
  function Pack(m: Move): bv16 {
    MovePromo(SquareBits(m.from), SquareBits(m.to), PromoBits(m.promo))
  }

  /** The move that _do_move makes of a word. */
  function Unpack(w: bv16): Move {
    Move(SquareAt(GetP0(w)), SquareAt(GetP1(w)),
         if GetPromo(w) == PAWN_ROOK then ToRook else if GetPromo(w) == PAWN_BISHOP then ToBishop else NoPromo)
  }

  lemma BitsBack(x: int, y: int)
    requires 0 <= x < 8 && 0 <= y < 8
    ensures var p := Pos(Bits(x), Bits(y)); p < 64 && Value(GetX(p)) == x && Value(GetY(p)) == y
  {
  }

  /** Every move packs into a move word, and unpacks to itself. */
  lemma PackRoundTrip(m: Move)
    ensures Unpack(Pack(m)) == m && IsMoveWord(Pack(m))
  {
    hide MovePromo, GetP0, GetP1, GetPromo, Bits, Value, Pos, GetX, GetY;
    BitsBack(m.from.x, m.from.y);
    BitsBack(m.to.x, m.to.y);
    FieldsSeparate(SquareBits(m.from), SquareBits(m.to), PromoBits(m.promo));
  }

  lemma BitsAre(n: int)
    requires 0 <= n < 8
    ensures Bits(n) as int == n
  {
    if n == 0 {} else if n == 1 {} else if n == 2 {} else if n == 3 {}
    else if n == 4 {} else if n == 5 {} else if n == 6 {} else { assert n == 7; }
  }

  /** The layout of a word: from the lowest bit, three bits each for the column and row of the
      target, a bit for a bishop and a bit for a rook, and from bit 8 the column and row of the
      start. */
  lemma PackRule(m: Move)
    ensures Pack(m) == Bits(m.to.x) | (Bits(m.to.y) << 3)
                       | (match m.promo case NoPromo => 0 case ToBishop => 0x40 case ToRook => 0x80)
                       | (Bits(m.from.x) << 8) | (Bits(m.from.y) << 11)
    ensures Bits(m.from.x) as int == m.from.x && Bits(m.from.y) as int == m.from.y
    ensures Bits(m.to.x) as int == m.to.x && Bits(m.to.y) as int == m.to.y
  {
    hide Bits;
    BitsAre(m.from.x);
    BitsAre(m.from.y);
    BitsAre(m.to.x);
    BitsAre(m.to.y);
    ShiftedFields(Bits(m.from.x), Bits(m.from.y), Bits(m.to.x), Bits(m.to.y), PromoBits(m.promo));
  }

  lemma ShiftedFields(x0: bv16, y0: bv16, x1: bv16, y1: bv16, promo: bv16)
    ensures MovePromo(Pos(x0, y0), Pos(x1, y1), promo) == x1 | (y1 << 3) | promo | (x0 << 8) | (y0 << 11)
  {
  }

  // ---------------------------------------------------------------- text and moves

  lemma CoordinateChars(x: int, y: int)
    requires 0 <= x < 8 && 0 <= y < 8
    ensures var p := Pos(Bits(x), Bits(y));
      p < 64 && SquareText(p)[0] as int == 97 + x && SquareText(p)[1] as int == 49 + y
  {
    hide Bits;
    SmallBits(x);
    SmallBits(y);
    PosParts(Bits(x), Bits(y));
    CharPlus(x);
    CharPlus(y);
  }

  lemma SmallBits(n: int)
    requires 0 <= n < 8
    ensures Bits(n) < 8
  {
  }

  lemma PosParts(x: bv16, y: bv16)
    requires x < 8 && y < 8
    ensures Pos(x, y) < 64 && GetX(Pos(x, y)) == x && GetY(Pos(x, y)) == y
  {
  }

  lemma CharPlus(n: int)
    requires 0 <= n < 8
    ensures Bits(n) < 8 && (CHAR_a + (Bits(n) as bv8)) as int == 97 + n && (CHAR_1 + (Bits(n) as bv8)) as int == 49 + n
  {
    if n == 0 {} else if n == 1 {} else if n == 2 {} else if n == 3 {}
    else if n == 4 {} else if n == 5 {} else if n == 6 {} else { assert n == 7; }
  }

  /** A text says a move: the letter and digit of the start, the letter and digit of the target, a
      to h from 97 and 1 to 8 from 49, and then nothing, an r (114) or a b (98). */
  predicate Says(s: Text, m: Move) {
    |s| == (if m.promo == NoPromo then 4 else 5)
    && s[0] as int == 97 + m.from.x && s[1] as int == 49 + m.from.y
    && s[2] as int == 97 + m.to.x && s[3] as int == 49 + m.to.y
    && (m.promo == ToRook ==> s[4] as int == 114) && (m.promo == ToBishop ==> s[4] as int == 98)
  }

  lemma PromoChars(promo: Promo)
    ensures PromoText(PromoBits(promo)) ==
      (match promo case NoPromo => [] case ToRook => [0x72] case ToBishop => [0x62])
  {
  }

  /** A printed move says that move. */
  lemma SaidRule(m: Move)
    ensures Says(Said(m), m)
  {
    hide Bits, Pos, SquareText, MovePromo, GetP0, GetP1, GetPromo, PromoBits, PromoText;
    CoordinateChars(m.from.x, m.from.y);
    CoordinateChars(m.to.x, m.to.y);
    IsPromo(m.promo);
    FieldsSeparate(SquareBits(m.from), SquareBits(m.to), PromoBits(m.promo));
    PromoChars(m.promo);
  }

  lemma IsPromo(promo: Promo)
    ensures IsPromoBits(PromoBits(promo))
  {
  }

  lemma SameByte(a: bv8, b: bv8)
    requires a as int == b as int
    ensures a == b
  {
  }

  /** Every text that says a move is heard as that move. */
  lemma HeardRule(s: Text, m: Move)
    requires Says(s, m)
    ensures Heard(s) == m
  {
    hide Heard, Said;
    SaidRule(m);
    var said := Said(m);
    forall k | 0 <= k < |s| ensures s[k] == said[k] { SameByte(s[k], said[k]); }
    assert s == said;
    SaidIsHeard(m);
  }

  // ---------------------------------------------------------------- replay

  /** What one token of a position message says. */
  function Said(m: Move): Text { MoveToStr(Pack(m)) }

  function Heard(s: Text): Move
    requires |s| >= 4
  {
    Unpack(StrToMove(s))
  }

  lemma SaidIsHeard(m: Move)
    ensures Heard(Said(m)) == m
  {
    hide StrToMove, MoveToStr, Pack, Unpack, IsMoveWord;
    PackRoundTrip(m);
    WordRoundTrip(Pack(m));
  }

  /** on_position: only the last token matters, and only if there are more than three. */
  ghost function OnPosition(d: BoardData, toks: seq<Text>): (r: BoardData)
    requires Sized(d) && (|toks| > 3 ==> |toks[|toks| - 1]| >= 4)
    ensures Sized(r)
  {
    if |toks| > 3 then Flip(DoMove(d, Heard(toks[|toks| - 1]))) else d
  }

  /** The position messages of a game: the k-th one lists its first k moves after a header of
      three tokens. */
  ghost function Messages(header: seq<Text>, d: BoardData, ms: seq<Move>, k: nat): (r: BoardData)
    requires Sized(d) && |header| == 3 && k <= |ms|
    ensures Sized(r)
  {
    if k == 0 then d
    else OnPosition(Messages(header, d, ms, k - 1), header + seq(k, i requires 0 <= i < k => Said(ms[i])))
  }

  lemma {:induction false} PlayedLast(d: BoardData, ms: seq<Move>, m: Move)
    requires Sized(d)
    ensures Played(d, ms + [m]) == Flip(DoMove(Played(d, ms), m))
    decreases |ms|
  {
    hide DoMove;
    if ms == [] {
      assert ms + [m] == [m];
    } else {
      assert (ms + [m])[1..] == ms[1..] + [m];
      PlayedLast(Flip(DoMove(d, ms[0])), ms[1..], m);
    }
  }

  /** Telling a game move by move, as text, reproduces the identical board record. */
  lemma {:induction false} Replay(header: seq<Text>, d: BoardData, ms: seq<Move>, k: nat)
    requires Sized(d) && |header| == 3 && k <= |ms|
    ensures Messages(header, d, ms, k) == Played(d, ms[..k])
  {
    hide DoMove, Flip, Said, Heard;
    if k > 0 {
      Replay(header, d, ms, k - 1);
      SaidIsHeard(ms[k - 1]);
      PlayedLast(d, ms[..k - 1], ms[k - 1]);
      assert ms[..k] == ms[..k - 1] + [ms[k - 1]];
    }
  }
}
