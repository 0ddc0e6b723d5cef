/** src/pieces/bishop.py: the four diagonal rays. */
module BishopMoves {
  import opened Geometry
  import opened Pieces
  import opened Grids
  import opened Sliding

  method GetMoves(piece: Piece, board: PieceBoard, position: Square) returns (moves: seq<Square>)
    requires OnBoard(position)
    ensures forall t :: t in moves <==> SlideTarget(board.cells, position, piece.color, Diagonal, t)
    ensures forall t :: t in moves ==> OnBoard(t) && t != position && Parity(t) == Parity(position)
    ensures NoDuplicates(moves)
  {
    moves := CastRays(board, position, piece.color, Diagonal);
    forall t | t in moves ensures Parity(t) == Parity(position) {
      var d :| d in Diagonal && RayTarget(board.cells, position, d, piece.color, t);
      RayTargetShape(board.cells, position, d, piece.color, t);
    }
  }
}

/** src/pieces/rook.py: the four orthogonal rays. */
module RookMoves {
  import opened Geometry
  import opened Pieces
  import opened Grids
  import opened Sliding

  method GetMoves(piece: Piece, board: PieceBoard, position: Square) returns (moves: seq<Square>)
    requires OnBoard(position)
    ensures forall t :: t in moves <==> SlideTarget(board.cells, position, piece.color, Orthogonal, t)
    ensures forall t :: t in moves ==> OnBoard(t) && t != position && (t.row == position.row || t.col == position.col)
    ensures NoDuplicates(moves)
  {
    moves := CastRays(board, position, piece.color, Orthogonal);
    forall t | t in moves ensures t.row == position.row || t.col == position.col {
      var d :| d in Orthogonal && RayTarget(board.cells, position, d, piece.color, t);
      RayTargetShape(board.cells, position, d, piece.color, t);
    }
  }
}

/** src/pieces/queen.py: the rook rays followed by the bishop rays. */
module QueenMoves {
  import opened Geometry
  import opened Pieces
  import opened Grids
  import opened Sliding

  method GetMoves(piece: Piece, board: PieceBoard, position: Square) returns (moves: seq<Square>)
    requires OnBoard(position)
    ensures forall t :: t in moves <==>
      SlideTarget(board.cells, position, piece.color, Orthogonal, t) || SlideTarget(board.cells, position, piece.color, Diagonal, t)
    ensures forall t :: t in moves ==> OnBoard(t) && t != position && !Friendly(board.cells, t, piece.color)
    ensures NoDuplicates(moves)
  {
    moves := CastRays(board, position, piece.color, AllDirections);
  }
}

/** src/pieces/knight.py: the eight L-jumps that stay on the board and do not land on a friend. */
module KnightMoves {
  import opened Geometry
  import opened Pieces
  import opened Grids

  method GetMoves(piece: Piece, board: PieceBoard, position: Square) returns (moves: seq<Square>)
    ensures forall t :: t in moves <==> KnightTarget(board.cells, position, piece.color, t)
    ensures NoDuplicates(moves) && |moves| <= 8
  {
    var row, col := position.row, position.col;
    var potentialMoves := [
      Square(row - 2, col + 1), Square(row - 2, col - 1),
      Square(row - 1, col + 2), Square(row - 1, col - 2),
      Square(row + 1, col + 2), Square(row + 1, col - 2),
      Square(row + 2, col + 1), Square(row + 2, col - 1)
    ];
    moves := [];
    for k := 0 to 8
      invariant forall t :: t in moves <==> t in potentialMoves[..k] && OnBoard(t) && !Friendly(board.cells, t, piece.color)
      invariant NoDuplicates(moves) && |moves| <= k
    {
      var t := potentialMoves[k];
      assert t !in potentialMoves[..k];
      if 0 <= t.row < 8 && 0 <= t.col < 8 {
        var targetPiece := board.cells[t.row][t.col];
        if targetPiece.None? || targetPiece.value.color != piece.color {
          moves := moves + [t];
        }
      }
      assert potentialMoves[..k + 1] == potentialMoves[..k] + [t];
    }
    assert potentialMoves[..8] == potentialMoves;
    assert forall t :: KnightJump(position, t) <==> t in potentialMoves;
  }
}

/** src/pieces/king.py: the eight neighbours that stay on the board and do not hold a friend; no castling. */
module KingMoves {
  import opened Geometry
  import opened Pieces
  import opened Grids

  method GetMoves(piece: Piece, board: PieceBoard, position: Square) returns (moves: seq<Square>)
    ensures forall t :: t in moves <==> KingTarget(board.cells, position, piece.color, t)
    ensures forall t :: t in moves ==> t != position && Abs(t.col - position.col) <= 1
    ensures NoDuplicates(moves) && |moves| <= 8
  {
    var row, col := position.row, position.col;
    var potentialMoves := [
      Square(row - 1, col - 1), Square(row - 1, col), Square(row - 1, col + 1),
      Square(row, col - 1), Square(row, col + 1),
      Square(row + 1, col - 1), Square(row + 1, col), Square(row + 1, col + 1)
    ];
    moves := [];
    for k := 0 to 8
      invariant forall t :: t in moves <==> t in potentialMoves[..k] && OnBoard(t) && !Friendly(board.cells, t, piece.color)
      invariant NoDuplicates(moves) && |moves| <= k
    {
      var t := potentialMoves[k];
      assert t !in potentialMoves[..k];
      if OnBoard(t) {
        var targetPiece := board.cells[t.row][t.col];
        if targetPiece.None? || targetPiece.value.color != piece.color {
          moves := moves + [t];
        }
      }
      assert potentialMoves[..k + 1] == potentialMoves[..k] + [t];
    }
    assert potentialMoves[..8] == potentialMoves;
    assert forall t :: KingStep(position, t) <==> t in potentialMoves;
  }
}
