/**
 * The concrete positions of tests/test_knight.py, test_bishop.py,
 * test_rook.py, test_queen.py, test_king.py and test_pawn.py, stated on the
 * destination predicates that the generators are proved against.
 */
module PieceScenarios {
  import opened Wrappers
  import opened Geometry
  import opened Pieces
  import opened Grids
  import opened PawnMoves
  import opened Sliding

  const D5 := Square(3, 3)
  const WhiteRook := Piece(White, Rook, false)
  const BlackRook := Piece(Black, Rook, false)

  /** An otherwise empty board with `p` on `s`. */
  function Lone(s: Square, p: Piece): Grid
    requires OnBoard(s)
  {
    Place(EmptyGrid(), s, Some(p))
  }

  lemma KnightFromCenter()
    ensures forall t :: KnightTarget(Lone(D5, Piece(White, Knight, false)), D5, White, t) <==>
      t in {Square(1, 2), Square(1, 4), Square(2, 1), Square(2, 5), Square(4, 1), Square(4, 5), Square(5, 2), Square(5, 4)}
  {
  }

  lemma KnightFromCorner()
    ensures forall t :: KnightTarget(Lone(Square(7, 7), Piece(White, Knight, false)), Square(7, 7), White, t) <==>
      t in {Square(5, 6), Square(6, 5)}
  {
  }

  lemma KnightBlockedByFriendly()
    ensures forall t :: KnightTarget(Place(Lone(D5, Piece(White, Knight, false)), Square(1, 2), Some(WhiteRook)), D5, White, t) <==>
      t in {Square(1, 4), Square(2, 1), Square(2, 5), Square(4, 1), Square(4, 5), Square(5, 2), Square(5, 4)}
  {
  }

  lemma KingFromCenter()
    ensures forall t :: KingTarget(Lone(D5, Piece(White, King, false)), D5, White, t) <==>
      t in {Square(2, 2), Square(2, 3), Square(2, 4), Square(3, 2), Square(3, 4), Square(4, 2), Square(4, 3), Square(4, 4)}
  {
  }

  /** From e1 on an empty board only five squares remain, and no castling square is among them. */
  lemma KingOnE1()
    ensures forall t :: KingTarget(Lone(Square(7, 4), Piece(White, King, false)), Square(7, 4), White, t) <==>
      t in {Square(6, 3), Square(6, 4), Square(6, 5), Square(7, 3), Square(7, 5)}
  {
  }

  /** The squares along `d` from `from` up to `n` steps. */
  lemma SlideTargetOn(g: Grid, from: Square, color: Color, dirs: seq<Dir>, t: Square)
    requires OnBoard(from) && SlideTarget(g, from, color, dirs, t)
    ensures exists d, i :: d in dirs && 1 <= i <= 7 && t == Step(from, d, i) && ReachableOnRay(g, from, d, color, i)
  {
    var d :| d in dirs && RayTarget(g, from, d, color, t);
    RayTargetShape(g, from, d, color, t);
  }

  /** On a board whose only piece is on `from`, every on-board square along a ray is reached. */
  lemma OpenRayTarget(g: Grid, from: Square, color: Color, d: Dir, i: int)
    requires OnBoard(from) && forall s :: s != from ==> IsEmpty(g, s)
    requires 1 <= i && OnBoard(Step(from, d, i))
    ensures RayTarget(g, from, d, color, Step(from, d, i))
  {
    RayIndexStep(from, d, i);
    forall j | 1 <= j <= i
      ensures OnBoard(Step(from, d, j)) && IsEmpty(g, Step(from, d, j))
    {
      StepBetween(from, d, i, j);
    }
  }

  /** On a board whose only piece is on `from`, the slide targets are the on-board squares of the rays. */
  lemma OpenSlideTarget(g: Grid, from: Square, color: Color, dirs: seq<Dir>, t: Square)
    requires OnBoard(from) && forall s :: s != from ==> IsEmpty(g, s)
    ensures SlideTarget(g, from, color, dirs, t) <==>
      exists d, i :: d in dirs && 1 <= i && OnBoard(Step(from, d, i)) && t == Step(from, d, i)
  {
    if SlideTarget(g, from, color, dirs, t) {
      SlideTargetOn(g, from, color, dirs, t);
    }
    if exists d, i :: d in dirs && 1 <= i && OnBoard(Step(from, d, i)) && t == Step(from, d, i) {
      var d, i :| d in dirs && 1 <= i && OnBoard(Step(from, d, i)) && t == Step(from, d, i);
      OpenRayTarget(g, from, color, d, i);
    }
  }

  const BishopFromD5 := {Square(0, 0), Square(1, 1), Square(2, 2), Square(4, 4), Square(5, 5), Square(6, 6), Square(7, 7),
                         Square(0, 6), Square(1, 5), Square(2, 4), Square(4, 2), Square(5, 1), Square(6, 0)}

  /** The squares on the diagonals through d5 (the geometry of the bishop test). */
  lemma DiagonalsFromD5(t: Square)
    ensures (exists d, i :: d in Diagonal && 1 <= i && OnBoard(Step(D5, d, i)) && t == Step(D5, d, i)) <==> t in BishopFromD5
  {
    if t in BishopFromD5 {
      if t.row < 3 && t.col < 3 {
        assert t == Step(D5, UpLeft, 3 - t.row);
      } else if t.row < 3 {
        assert t == Step(D5, UpRight, 3 - t.row);
      } else if t.col < 3 {
        assert t == Step(D5, DownLeft, t.row - 3);
      } else {
        assert t == Step(D5, DownRight, t.row - 3);
      }
    }
  }

  const RookFromD5 := {Square(3, 0), Square(3, 1), Square(3, 2), Square(3, 4), Square(3, 5), Square(3, 6), Square(3, 7),
                       Square(0, 3), Square(1, 3), Square(2, 3), Square(4, 3), Square(5, 3), Square(6, 3), Square(7, 3)}

  /** The squares on the rank and file through d5 (the geometry of the rook test). */
  lemma LinesFromD5(t: Square)
    ensures (exists d, i :: d in Orthogonal && 1 <= i && OnBoard(Step(D5, d, i)) && t == Step(D5, d, i)) <==> t in RookFromD5
  {
    if t in RookFromD5 {
      if t.row < 3 {
        assert t == Step(D5, Up, 3 - t.row);
      } else if t.row > 3 {
        assert t == Step(D5, Down, t.row - 3);
      } else if t.col < 3 {
        assert t == Step(D5, Left, 3 - t.col);
      } else {
        assert t == Step(D5, Right, t.col - 3);
      }
    }
  }

  lemma BishopEmptyBoard()
    ensures forall t :: SlideTarget(Lone(D5, Piece(White, Bishop, false)), D5, White, Diagonal, t) <==> t in BishopFromD5
  {
    forall t ensures SlideTarget(Lone(D5, Piece(White, Bishop, false)), D5, White, Diagonal, t) <==> t in BishopFromD5 {
      OpenSlideTarget(Lone(D5, Piece(White, Bishop, false)), D5, White, Diagonal, t);
      DiagonalsFromD5(t);
    }
  }

  lemma RookEmptyBoard()
    ensures forall t :: SlideTarget(Lone(D5, WhiteRook), D5, White, Orthogonal, t) <==> t in RookFromD5
  {
    forall t ensures SlideTarget(Lone(D5, WhiteRook), D5, White, Orthogonal, t) <==> t in RookFromD5 {
      OpenSlideTarget(Lone(D5, WhiteRook), D5, White, Orthogonal, t);
      LinesFromD5(t);
    }
  }

  /** The queen on an empty board reaches exactly the rook's and the bishop's squares. */
  lemma QueenEmptyBoard()
    ensures forall t :: (SlideTarget(Lone(D5, Piece(White, Queen, false)), D5, White, Orthogonal, t) ||
                         SlideTarget(Lone(D5, Piece(White, Queen, false)), D5, White, Diagonal, t)) <==>
      t in RookFromD5 + BishopFromD5
  {
    var g := Lone(D5, Piece(White, Queen, false));
    forall t ensures (SlideTarget(g, D5, White, Orthogonal, t) || SlideTarget(g, D5, White, Diagonal, t)) <==>
      t in RookFromD5 + BishopFromD5
    {
      OpenSlideTarget(g, D5, White, Orthogonal, t);
      OpenSlideTarget(g, D5, White, Diagonal, t);
      LinesFromD5(t);
      DiagonalsFromD5(t);
    }
  }

  /**
   * A ray whose first `n` squares are empty and whose next square is off the
   * board or occupied: its targets are the first `len` squares of the ray,
   * `len` counting the blocking square only when it holds an enemy.
   */
  lemma BlockedRay(g: Grid, from: Square, d: Dir, color: Color, n: nat, len: nat, squares: seq<Square>)
    requires forall j :: 1 <= j <= n ==> OnBoard(Step(from, d, j)) && IsEmpty(g, Step(from, d, j))
    requires !OnBoard(Step(from, d, n + 1)) || !IsEmpty(g, Step(from, d, n + 1))
    requires len == if OnBoard(Step(from, d, n + 1)) && Enemy(g, Step(from, d, n + 1), color) then n + 1 else n
    requires squares == RaySquares(from, d, len)
    ensures forall t :: RayTarget(g, from, d, color, t) <==> t in squares
  {
    RayReach(g, from, d, color, n, len);
    RaySquaresTargets(g, from, d, color, squares);
  }

  /** The board of the bishop blocker test: a white bishop on d5, a black rook on b7, a white rook on f3. */
  function BishopBlockers(): Grid {
    Place(Place(Lone(D5, Piece(White, Bishop, false)), Square(1, 1), Some(BlackRook)), Square(5, 5), Some(WhiteRook))
  }

  const BishopBlockedTargets := {Square(2, 2), Square(1, 1), Square(4, 4), Square(0, 6), Square(1, 5), Square(2, 4),
                                 Square(4, 2), Square(5, 1), Square(6, 0)}

  /** The enemy on b7 is taken and ends that ray; the friend on f3 ends its ray before it. */
  lemma BishopWithBlockers()
    ensures forall t :: SlideTarget(BishopBlockers(), D5, White, Diagonal, t) <==> t in BishopBlockedTargets
  {
    var g := BishopBlockers();
    BlockedRay(g, D5, DownRight, White, 1, 1, [Square(4, 4)]);
    BlockedRay(g, D5, DownLeft, White, 3, 3, [Square(4, 2), Square(5, 1), Square(6, 0)]);
    BlockedRay(g, D5, UpRight, White, 3, 3, [Square(2, 4), Square(1, 5), Square(0, 6)]);
    BlockedRay(g, D5, UpLeft, White, 1, 2, [Square(2, 2), Square(1, 1)]);
    forall t ensures SlideTarget(g, D5, White, Diagonal, t) <==> t in BishopBlockedTargets {
      if t in BishopBlockedTargets {
        var d := if t.row > 3 then (if t.col > 3 then DownRight else DownLeft) else (if t.col > 3 then UpRight else UpLeft);
        assert d in Diagonal && RayTarget(g, D5, d, White, t);
      }
    }
  }

  /** The board of the rook blocker test: a white rook on d5, a black rook on d7, a white rook on g5. */
  function RookBlockers(): Grid {
    Place(Place(Lone(D5, WhiteRook), Square(1, 3), Some(BlackRook)), Square(3, 6), Some(WhiteRook))
  }

  const RookBlockedTargets := {Square(2, 3), Square(1, 3), Square(4, 3), Square(5, 3), Square(6, 3), Square(7, 3),
                               Square(3, 0), Square(3, 1), Square(3, 2), Square(3, 4), Square(3, 5)}

  /** The enemy on d7 is taken and ends that ray; the friend on g5 ends its ray before it. */
  lemma RookWithBlockers()
    ensures forall t :: SlideTarget(RookBlockers(), D5, White, Orthogonal, t) <==> t in RookBlockedTargets
  {
    var g := RookBlockers();
    BlockedRay(g, D5, Right, White, 2, 2, [Square(3, 4), Square(3, 5)]);
    BlockedRay(g, D5, Left, White, 3, 3, [Square(3, 2), Square(3, 1), Square(3, 0)]);
    BlockedRay(g, D5, Down, White, 4, 4, [Square(4, 3), Square(5, 3), Square(6, 3), Square(7, 3)]);
    BlockedRay(g, D5, Up, White, 1, 2, [Square(2, 3), Square(1, 3)]);
    forall t ensures SlideTarget(g, D5, White, Orthogonal, t) <==> t in RookBlockedTargets {
      if t in RookBlockedTargets {
        var d := if t.row < 3 then Up else if t.row > 3 then Down else if t.col < 3 then Left else Right;
        assert d in Orthogonal && RayTarget(g, D5, d, White, t);
      }
    }
  }

  /** An otherwise empty board holding a pawn on `s`, with no en-passant target. */
  function PawnBoard(s: Square, p: Piece): PieceBoard
    requires OnBoard(s)
  {
    PieceBoard(Lone(s, p), None)
  }

  lemma WhitePawnInitialMove()
    ensures forall t :: PawnTarget(PawnBoard(Square(6, 4), Piece(White, Pawn, false)), Piece(White, Pawn, false), Square(6, 4), t) <==>
      t in {Square(5, 4), Square(4, 4)}
  {
  }

  lemma BlackPawnInitialMove()
    ensures forall t :: PawnTarget(PawnBoard(Square(1, 4), Piece(Black, Pawn, false)), Piece(Black, Pawn, false), Square(1, 4), t) <==>
      t in {Square(2, 4), Square(3, 4)}
  {
  }

  /** A piece straight ahead blocks both the single and the double step. */
  lemma WhitePawnBlocked()
    ensures forall t :: !PawnTarget(PieceBoard(Place(Lone(Square(6, 4), Piece(White, Pawn, false)), Square(5, 4), Some(BlackRook)), None),
                                    Piece(White, Pawn, false), Square(6, 4), t)
  {
  }

  lemma WhitePawnCapture()
    ensures forall t :: PawnTarget(PieceBoard(Place(Place(Place(Lone(Square(3, 4), Piece(White, Pawn, true)),
                                                                Square(2, 3), Some(BlackRook)),
                                                          Square(2, 5), Some(BlackRook)),
                                                    Square(2, 4), Some(WhiteRook)), None),
                                   Piece(White, Pawn, true), Square(3, 4), t) <==>
      t in {Square(2, 3), Square(2, 5)}
  {
  }

  /** After a black double step d7-d5 the white pawn on e5 may take on d6 en passant. */
  lemma WhitePawnEnPassant()
    ensures forall t :: PawnTarget(PieceBoard(Place(Lone(Square(3, 4), Piece(White, Pawn, true)), Square(3, 3), Some(Piece(Black, Pawn, true))),
                                              Some(Square(2, 3))),
                                   Piece(White, Pawn, true), Square(3, 4), t) <==>
      t in {Square(2, 4), Square(2, 3)}
  {
  }
}
