/**
 * Squares of the 8x8 board, the eight ray directions, the knight and king
 * steps, and the `e2`-style coordinate text of src/board.py.
 * Row 0 is rank 8 (black's back rank) and column 0 is the a-file.
 */
module Geometry {
  import opened Wrappers
  import opened Text

  datatype Square = Square(row: int, col: int)

  predicate OnBoard(s: Square) {
    0 <= s.row < 8 && 0 <= s.col < 8
  }

  /** The eight ray directions; "Up" decreases the row (towards rank 8). */
  datatype Dir = Up | Down | Left | Right | UpLeft | UpRight | DownLeft | DownRight

  function DRow(d: Dir): int {
    match d
    case Up | UpLeft | UpRight => -1
    case Down | DownLeft | DownRight => 1
    case Left | Right => 0
  }

  function DCol(d: Dir): int {
    match d
    case Left | UpLeft | DownLeft => -1
    case Right | UpRight | DownRight => 1
    case Up | Down => 0
  }

  /** The rook directions in the order the source scans them: (0,1), (0,-1), (1,0), (-1,0). */
  const Orthogonal: seq<Dir> := [Right, Left, Down, Up]
  /** The bishop directions in the order the source scans them: (1,1), (1,-1), (-1,1), (-1,-1). */
  const Diagonal: seq<Dir> := [DownRight, DownLeft, UpRight, UpLeft]
  /** The queen directions: the rook ones followed by the bishop ones. */
  const AllDirections: seq<Dir> := Orthogonal + Diagonal

  /** The square `i` steps from `s` in direction `d`, i.e. (row + i*dr, col + i*dc). */
  function Step(s: Square, d: Dir, i: int): Square
  {
    match d
    case Up => Square(s.row - i, s.col)
    case Down => Square(s.row + i, s.col)
    case Left => Square(s.row, s.col - i)
    case Right => Square(s.row, s.col + i)
    case UpLeft => Square(s.row - i, s.col - i)
    case UpRight => Square(s.row - i, s.col + i)
    case DownLeft => Square(s.row + i, s.col - i)
    case DownRight => Square(s.row + i, s.col + i)
  }

  /** The number of steps along `d` that lead from `s` to `t`, when `t` lies on that line. */
  function RayIndex(s: Square, d: Dir, t: Square): (i: int)
    ensures Step(s, d, i) == t || !(exists k :: Step(s, d, k) == t)
  {
    match d
    case Up | UpLeft | UpRight => s.row - t.row
    case Down | DownLeft | DownRight => t.row - s.row
    case Left => s.col - t.col
    case Right => t.col - s.col
  }

  /** The step count that leads to a square along a ray is recovered by RayIndex. */
  lemma RayIndexStep(s: Square, d: Dir, i: int)
    ensures RayIndex(s, d, Step(s, d, i)) == i
  {
  }

  /** Taking one more step moves by exactly (dr, dc). */
  lemma StepSucc(s: Square, d: Dir, i: int)
    ensures Step(s, d, i + 1) == Square(Step(s, d, i).row + DRow(d), Step(s, d, i).col + DCol(d))
  {
  }

  /** From a square on the board, at most seven steps stay on the board. */
  lemma RayBound(s: Square, d: Dir, i: int)
    requires OnBoard(s) && OnBoard(Step(s, d, i)) && i >= 1
    ensures i <= 7
  {
  }

  /** Eight steps from a square of the board always leave it. */
  lemma RayLeavesBoard(s: Square, d: Dir)
    requires OnBoard(s)
    ensures !OnBoard(Step(s, d, 8))
  {
  }

  /** Every square between an on-board origin and an on-board square of its ray is on the board too. */
  lemma StepBetween(s: Square, d: Dir, i: int, j: int)
    requires OnBoard(s) && OnBoard(Step(s, d, i)) && 0 <= j <= i
    ensures OnBoard(Step(s, d, j)) && (j != 0 ==> Step(s, d, j) != s)
  {
  }

  /** Two rays from one square in different directions never meet again. */
  lemma RaysDisjoint(s: Square, d: Dir, i: int, e: Dir, k: int)
    requires 1 <= i && 1 <= k && d != e
    ensures Step(s, d, i) != Step(s, e, k)
  {
  }

  function Abs(x: int): nat {
    if x < 0 then -x else x
  }

  /** `t` is an L-shaped jump away from `s`: (+-1, +-2) or (+-2, +-1). */
  predicate KnightJump(s: Square, t: Square) {
    var dr, dc := Abs(t.row - s.row), Abs(t.col - s.col);
    (dr == 1 && dc == 2) || (dr == 2 && dc == 1)
  }

  /** `t` is one of the eight squares adjacent to `s`. */
  predicate KingStep(s: Square, t: Square) {
    s != t && Abs(t.row - s.row) <= 1 && Abs(t.col - s.col) <= 1
  }

  /** Colour parity of a square: squares of one colour share (row + col) % 2. */
  function Parity(s: Square): int
    requires OnBoard(s)
  {
    (s.row + s.col) % 2
  }

  /**
   * `ChessBoard._parse_pos`: `"e2"` is row 8 - 2 = 6, column 'e' - 'a' = 4.
   * The rank goes through `int`, so a decimal digit of any script is read by
   * its value, and the square's own text spells it with an ASCII digit.
   */
  function ParsePos(s: string): (r: Option<Square>)
    requires |s| == 2 ==> IsDecimal(s[1])
    ensures r.Some? <==> |s| == 2 && 'a' <= s[0] <= 'h' && 1 <= Decimal(s[1]).value <= 8
    ensures r.Some? ==> OnBoard(r.value) && ToAlgebraic(r.value) == [s[0], DigitChar(Decimal(s[1]).value)]
    ensures r.Some? && IsDigit(s[1]) ==> ToAlgebraic(r.value) == s
  {
    if |s| != 2 then None
    else
      var col := s[0] as int - 'a' as int;
      var row := 8 - Decimal(s[1]).value;
      if 0 <= row < 8 && 0 <= col < 8 then Some(Square(row, col)) else None
  }

  /** `ChessBoard._to_algebraic`: file letter then `str(8 - row)`; `chr` fails below code point 0. */
  function ToAlgebraic(s: Square): (a: string)
    requires 0 <= 'a' as int + s.col < 0xD800
    ensures OnBoard(s) ==> |a| == 2 && 'a' <= a[0] <= 'h' && '1' <= a[1] <= '8'
  {
    [('a' as int + s.col) as char] + IntToString(8 - s.row)
  }

  /** Parsing inverts printing on every square of the board. */
  lemma ParseToAlgebraic(s: Square)
    requires OnBoard(s)
    ensures ParsePos(ToAlgebraic(s)) == Some(s)
  {
  }

  /** A rank written with a non-ASCII decimal digit is read like its ASCII twin: ARABIC-INDIC two gives e2. */
  lemma ParsesNonAsciiRank()
    ensures ParsePos("e\U{0662}") == Some(Square(6, 4)) && ParsePos("e\U{0662}") == ParsePos("e2")
  {
  }

  /** Two board squares with the same coordinate text are the same square. */
  lemma ToAlgebraicInjective(s: Square, t: Square)
    requires OnBoard(s) && OnBoard(t) && ToAlgebraic(s) == ToAlgebraic(t)
    ensures s == t
  {
    ParseToAlgebraic(s);
    ParseToAlgebraic(t);
  }
}
