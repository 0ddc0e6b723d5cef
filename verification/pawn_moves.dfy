/**
 * src/pieces/pawn.py: one step forward onto an empty square, a second step
 * for a pawn that has not moved when both squares are empty, diagonal
 * captures of enemy pieces, and the diagonal onto the en-passant target.
 * Promotion is left to the board.
 */
module PawnMoves {
  import opened Wrappers
  import opened Geometry
  import opened Pieces
  import opened Grids

  /** White advances towards row 0, black towards row 7. */
  function Forward(c: Color): int {
    if c == White then -1 else 1
  }

  /** `t` is a pseudo-legal destination of `pawn` standing on `from`. */
  predicate PawnTarget(board: PieceBoard, pawn: Piece, from: Square, t: Square) {
    var g := board.cells;
    var dir := Forward(pawn.color);
    var one := Square(from.row + dir, from.col);
    || (t == one && OnBoard(one) && IsEmpty(g, one))
    || (t == Square(from.row + 2 * dir, from.col) && !pawn.hasMoved
        && OnBoard(one) && IsEmpty(g, one) && OnBoard(t) && IsEmpty(g, t))
    || (t.row == from.row + dir && Abs(t.col - from.col) == 1 && OnBoard(t)
        && (Enemy(g, t, pawn.color) || board.enPassantTarget == Some(t)))
  }

  method GetMoves(piece: Piece, board: PieceBoard, position: Square) returns (moves: seq<Square>)
    ensures forall t :: t in moves <==> PawnTarget(board, piece, position, t)
    ensures forall t :: t in moves ==> OnBoard(t) && t.row - position.row in {Forward(piece.color), 2 * Forward(piece.color)}
    ensures forall t :: t in moves && Friendly(board.cells, t, piece.color) ==> board.enPassantTarget == Some(t)
    ensures |moves| <= 6
  {
    var row, col := position.row, position.col;
    var g := board.cells;
    moves := [];
    var direction := if piece.color == White then -1 else 1;

    var oneStepFwd := Square(row + direction, col);
    if OnBoard(oneStepFwd) && g[oneStepFwd.row][oneStepFwd.col].None? {
      moves := moves + [oneStepFwd];
      if !piece.hasMoved {
        var twoStepsFwd := Square(row + 2 * direction, col);
        if OnBoard(twoStepsFwd) && g[twoStepsFwd.row][twoStepsFwd.col].None? {
          moves := moves + [twoStepsFwd];
        }
      }
    }
    ghost var forwardMoves := moves;

    var captureMoves := [Square(row + direction, col - 1), Square(row + direction, col + 1)];
    for k := 0 to 2
      invariant forall t :: t in moves <==> (t in forwardMoves ||
        (t in captureMoves[..k] && OnBoard(t) && (Enemy(g, t, piece.color) || board.enPassantTarget == Some(t))))
      invariant |moves| <= 2 + 2 * k
    {
      var move := captureMoves[k];
      if OnBoard(move) {
        var targetPiece := g[move.row][move.col];
        if targetPiece.Some? && targetPiece.value.color != piece.color {
          moves := moves + [move];
        }
        if Some(move) == board.enPassantTarget {
          moves := moves + [move];
        }
      }
      assert captureMoves[..k + 1] == captureMoves[..k] + [move];
    }
    assert captureMoves[..2] == captureMoves;
  }
}
