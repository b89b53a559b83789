/** The 7x7 ring board inside an 8x8 index space, and the quarter turns of it. */
module Geometry {

  datatype Coord = Sq(x: int, y: int)

  /** A board index, split into its two three-bit fields: column and row. */
  type Square = s: Coord | 0 <= s.x < 8 && 0 <= s.y < 8 witness Sq(0, 0)

  /** Index (7,7), the slot value of a captured piece. It lies outside the ring. */
  const DEAD: Square := Sq(7, 7)

  /** pos(x, y): the packed board index. */
  function Index(s: Square): (i: int)
    ensures 0 <= i < 64
  {
    8 * s.y + s.x
  }

  /** getx and gety: the two fields of a packed board index. */
  function FromIndex(i: int): (s: Square)
    requires 0 <= i < 64
    ensures Index(s) == i
  {
    Sq(i % 8, i / 8)
  }

  lemma IndexInjective(s: Square, r: Square)
    requires Index(s) == Index(r)
    ensures s == r
  {
  }

  lemma IndexParts(s: Square)
    ensures s.x == Index(s) % 8 && s.y == Index(s) / 8
  {
  }

  /** The 7x7 board without its 3x3 hole. */
  predicate InRing(x: int, y: int) {
    0 <= x <= 6 && 0 <= y <= 6 && !(2 <= x <= 4 && 2 <= y <= 4)
  }

  predicate Ring(s: Coord) {
    InRing(s.x, s.y)
  }

  /** Quarter turns, named after the rotated board that each one produces. */
  datatype Turn = R0 | R90 | R180 | R270

  function Inverse(t: Turn): Turn {
    match t
    case R0 => R0
    case R90 => R270
    case R180 => R180
    case R270 => R90
  }

  function Next(t: Turn): Turn {
    match t
    case R0 => R90
    case R90 => R180
    case R180 => R270
    case R270 => R0
  }

  /** First b, then a. */
  function Compose(a: Turn, b: Turn): Turn {
    match a
    case R0 => b
    case R90 => Next(b)
    case R180 => Next(Next(b))
    case R270 => Next(Next(Next(b)))
  }

  /** The closed form of the rotation tables: the ring turns, every other index stays. */
  function Rot(t: Turn, s: Square): (r: Square)
    ensures Ring(r) <==> Ring(s)
  {
    if !Ring(s) then s
    else
      match t
      case R0 => s
      case R90 => Sq(s.y, 6 - s.x)
      case R180 => Sq(6 - s.x, 6 - s.y)
      case R270 => Sq(6 - s.y, s.x)
  }

  lemma RotCompose(a: Turn, b: Turn, s: Square)
    ensures Rot(a, Rot(b, s)) == Rot(Compose(a, b), s)
  {
  }

  lemma RotInverse(t: Turn, s: Square)
    ensures Rot(t, Rot(Inverse(t), s)) == s
    ensures Rot(Inverse(t), Rot(t, s)) == s
  {
  }

  /** A lookup table agrees with its closed form at all 64 indices. */
  ghost predicate IsTable(t: Turn, table: seq<int>) {
    |table| == 64 && forall s: Square :: table[Index(s)] == Index(Rot(t, s))
  }

  /** Row y of a table agrees with the closed form. */
  ghost predicate RowAgrees(t: Turn, y: int, row: seq<int>)
    requires 0 <= y < 8
  {
    |row| == 8 && forall x :: 0 <= x < 8 ==> row[x] == Index(Rot(t, Sq(x, y)))
  }

  /** Index(Rot(t, Sq(x, y))) as one number. */
  function Entry(t: Turn, x: int, y: int): int {
    if !InRing(x, y) then 8 * y + x
    else
      match t
      case R0 => 8 * y + x
      case R90 => 8 * (6 - x) + y
      case R180 => 8 * (6 - y) + (6 - x)
      case R270 => 8 * x + (6 - y)
  }

  method Row(ghost t: Turn, ghost y: int, a: int, b: int, c: int, d: int, e: int, f: int, g: int, h: int)
    returns (row: seq<int>)
    requires 0 <= y < 8
    requires a == Entry(t, 0, y) && b == Entry(t, 1, y) && c == Entry(t, 2, y) && d == Entry(t, 3, y)
    requires e == Entry(t, 4, y) && f == Entry(t, 5, y) && g == Entry(t, 6, y) && h == Entry(t, 7, y)
    ensures RowAgrees(t, y, row)
  {
    row := [a, b, c, d, e, f, g, h];
    forall x | 0 <= x < 8 ensures row[x] == Index(Rot(t, Sq(x, y))) {
      assert row[x] == Entry(t, x, y);
    }
  }

  /** Lays the eight rows of a table end to end. */
  method Table(ghost t: Turn, rows: seq<seq<int>>) returns (table: seq<int>)
    requires |rows| == 8 && forall y :: 0 <= y < 8 ==> RowAgrees(t, y, rows[y])
    ensures IsTable(t, table)
  {
    table := seq(64, i requires 0 <= i < 64 && |rows| == 8 && (forall y :: 0 <= y < 8 ==> |rows[y]| == 8) =>
      rows[i / 8][i % 8]);
    forall s: Square ensures table[Index(s)] == Index(Rot(t, s)) {
      assert RowAgrees(t, s.y, rows[s.y]);
      assert s == Sq(s.x, s.y);
      assert Index(s) / 8 == s.y && Index(s) % 8 == s.x;
    }
  }

  /** cw_90 */
  method TableCw90() returns (table: seq<int>)
    ensures IsTable(R90, table)
  {
    var r0 := Row(R90, 0, 48, 40, 32, 24, 16,  8,  0,  7);
    var r1 := Row(R90, 1, 49, 41, 33, 25, 17,  9,  1, 15);
    var r2 := Row(R90, 2, 50, 42, 18, 19, 20, 10,  2, 23);
    var r3 := Row(R90, 3, 51, 43, 26, 27, 28, 11,  3, 31);
    var r4 := Row(R90, 4, 52, 44, 34, 35, 36, 12,  4, 39);
    var r5 := Row(R90, 5, 53, 45, 37, 29, 21, 13,  5, 47);
    var r6 := Row(R90, 6, 54, 46, 38, 30, 22, 14,  6, 55);
    var r7 := Row(R90, 7, 56, 57, 58, 59, 60, 61, 62, 63);
    table := Table(R90, [r0, r1, r2, r3, r4, r5, r6, r7]);
  }

  /** acw_90 */
  method TableAcw90() returns (table: seq<int>)
    ensures IsTable(R270, table)
  {
    var r0 := Row(R270, 0, 6, 14, 22, 30, 38, 46, 54,  7);
    var r1 := Row(R270, 1, 5, 13, 21, 29, 37, 45, 53, 15);
    var r2 := Row(R270, 2, 4, 12, 18, 19, 20, 44, 52, 23);
    var r3 := Row(R270, 3, 3, 11, 26, 27, 28, 43, 51, 31);
    var r4 := Row(R270, 4, 2, 10, 34, 35, 36, 42, 50, 39);
    var r5 := Row(R270, 5, 1,  9, 17, 25, 33, 41, 49, 47);
    var r6 := Row(R270, 6, 0,  8, 16, 24, 32, 40, 48, 55);
    var r7 := Row(R270, 7, 56, 57, 58, 59, 60, 61, 62, 63);
    table := Table(R270, [r0, r1, r2, r3, r4, r5, r6, r7]);
  }

  /** cw_180 */
  method TableCw180() returns (table: seq<int>)
    ensures IsTable(R180, table)
  {
    var r0 := Row(R180, 0, 54, 53, 52, 51, 50, 49, 48,  7);
    var r1 := Row(R180, 1, 46, 45, 44, 43, 42, 41, 40, 15);
    var r2 := Row(R180, 2, 38, 37, 18, 19, 20, 33, 32, 23);
    var r3 := Row(R180, 3, 30, 29, 26, 27, 28, 25, 24, 31);
    var r4 := Row(R180, 4, 22, 21, 34, 35, 36, 17, 16, 39);
    var r5 := Row(R180, 5, 14, 13, 12, 11, 10,  9,  8, 47);
    var r6 := Row(R180, 6, 6,  5,  4,  3,  2,  1,  0, 55);
    var r7 := Row(R180, 7, 56, 57, 58, 59, 60, 61, 62, 63);
    table := Table(R180, [r0, r1, r2, r3, r4, r5, r6, r7]);
  }

  /** id */
  method TableId() returns (table: seq<int>)
    ensures IsTable(R0, table)
  {
    var r0 := Row(R0, 0, 0,  1,  2,  3,  4,  5,  6,  7);
    var r1 := Row(R0, 1, 8,  9, 10, 11, 12, 13, 14, 15);
    var r2 := Row(R0, 2, 16, 17, 18, 19, 20, 21, 22, 23);
    var r3 := Row(R0, 3, 24, 25, 26, 27, 28, 29, 30, 31);
    var r4 := Row(R0, 4, 32, 33, 34, 35, 36, 37, 38, 39);
    var r5 := Row(R0, 5, 40, 41, 42, 43, 44, 45, 46, 47);
    var r6 := Row(R0, 6, 48, 49, 50, 51, 52, 53, 54, 55);
    var r7 := Row(R0, 7, 56, 57, 58, 59, 60, 61, 62, 63);
    table := Table(R0, [r0, r1, r2, r3, r4, r5, r6, r7]);
  }
}
