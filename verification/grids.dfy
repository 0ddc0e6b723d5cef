/**
 * The board abstraction shared by both representations in the source: an
 * 8x8 grid of optional pieces (None is an empty square), read through
 * `is_on_board` and `get_piece_at`, and the destination sets of the
 * pseudo-legal move rules stated independently of any scanning order.
 */
module Grids {
  import opened Wrappers
  import opened Geometry
  import opened Pieces

  predicate Is8x8<T>(g: seq<seq<T>>) {
    |g| == 8 && forall r :: 0 <= r < 8 ==> |g[r]| == 8
  }

  type Grid = g: seq<seq<Option<Piece>>> | Is8x8(g) witness seq(8, _ => seq(8, _ => None))

  /** The board interface the piece classes read: cells plus the en-passant target square. */
  datatype PieceBoard = PieceBoard(cells: Grid, enPassantTarget: Option<Square>)

  /** `get_piece_at`, with every square off the board reading as empty. */
  function PieceAt(g: Grid, s: Square): Option<Piece> {
    if OnBoard(s) then g[s.row][s.col] else None
  }

  predicate IsEmpty(g: Grid, s: Square) {
    PieceAt(g, s).None?
  }

  predicate Friendly(g: Grid, s: Square, c: Color) {
    PieceAt(g, s).Some? && PieceAt(g, s).value.color == c
  }

  predicate Enemy(g: Grid, s: Square, c: Color) {
    PieceAt(g, s).Some? && PieceAt(g, s).value.color != c
  }

  predicate HasPiece(g: Grid, s: Square, c: Color, k: Kind) {
    PieceAt(g, s).Some? && PieceAt(g, s).value.color == c && PieceAt(g, s).value.kind == k
  }

  function EmptyGrid(): (g: Grid)
    ensures forall s :: IsEmpty(g, s)
  {
    seq(8, _ => seq(8, _ => None))
  }

  /** The grid with square `s` set to `p` (`set_piece_at`). */
  function Place(g: Grid, s: Square, p: Option<Piece>): (h: Grid)
    requires OnBoard(s)
    ensures PieceAt(h, s) == p
    ensures forall t :: t != s ==> PieceAt(h, t) == PieceAt(g, t)
  {
    g[s.row := g[s.row][s.col := p]]
  }

  /**
   * A slider of `color` standing on `from` can reach the i-th square along `d`:
   * every square up to it is on the board, every square before it is empty,
   * and the square itself does not hold a piece of `color`.
   */
  predicate ReachableOnRay(g: Grid, from: Square, d: Dir, color: Color, i: int) {
    && 1 <= i
    && (forall j :: 1 <= j <= i ==> OnBoard(Step(from, d, j)))
    && (forall j :: 1 <= j < i ==> IsEmpty(g, Step(from, d, j)))
    && !Friendly(g, Step(from, d, i), color)
  }

  /** `t` is a destination of a slider of `color` on `from` moving along `d`. */
  predicate RayTarget(g: Grid, from: Square, d: Dir, color: Color, t: Square) {
    var i := RayIndex(from, d, t);
    Step(from, d, i) == t && ReachableOnRay(g, from, d, color, i)
  }

  /** `t` is a destination along one of the given directions. */
  predicate SlideTarget(g: Grid, from: Square, color: Color, dirs: seq<Dir>, t: Square) {
    exists d :: d in dirs && RayTarget(g, from, d, color, t)
  }

  /** `t` is a knight destination: an L-jump onto the board, not onto a piece of `color`. */
  predicate KnightTarget(g: Grid, from: Square, color: Color, t: Square) {
    OnBoard(t) && KnightJump(from, t) && !Friendly(g, t, color)
  }

  /** `t` is a one-square king destination: adjacent, on the board, not onto a piece of `color`. */
  predicate KingTarget(g: Grid, from: Square, color: Color, t: Square) {
    OnBoard(t) && KingStep(from, t) && !Friendly(g, t, color)
  }

  predicate NoDuplicates<T(==)>(s: seq<T>) {
    forall i, j :: 0 <= i < j < |s| ==> s[i] != s[j]
  }

  /**
   * What a ray destination is: a square on the board, other than the origin,
   * on the line through the origin, with every square strictly between them
   * empty and no piece of the mover's colour on it. A diagonal destination
   * keeps the origin's colour parity; an orthogonal one shares its row or column.
   */
  lemma RayTargetShape(g: Grid, from: Square, d: Dir, color: Color, t: Square)
    requires OnBoard(from) && RayTarget(g, from, d, color, t)
    ensures OnBoard(t) && t != from && !Friendly(g, t, color)
    ensures forall j :: 1 <= j < RayIndex(from, d, t) ==> IsEmpty(g, Step(from, d, j))
    ensures 1 <= RayIndex(from, d, t) <= 7
    ensures d in Diagonal ==> Parity(t) == Parity(from)
    ensures d in Orthogonal ==> t.row == from.row || t.col == from.col
  {
    var i := RayIndex(from, d, t);
    RayBound(from, d, i);
  }

  /**
   * A ray stops at the first occupied square: whatever stands there (an enemy,
   * which is included, or a friend, which is not), nothing beyond it is reached.
   */
  lemma RayStopsAtFirstPiece(g: Grid, from: Square, d: Dir, color: Color, i: int, k: int)
    requires 1 <= i < k && !IsEmpty(g, Step(from, d, i))
    ensures !ReachableOnRay(g, from, d, color, k)
  {
  }
}
