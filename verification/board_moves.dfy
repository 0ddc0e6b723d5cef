/**
 * Pseudo-legal move generation of src/board.py (`_generate_pseudo_legal_moves`,
 * `_get_moves_for_piece` and the `_get_*_moves` helpers): the destinations of
 * each kind stated on the decoded grid, reusing the rules of the piece
 * classes, and the generating loops over the character grid.
 */
module BoardMoves {
  import opened Wrappers
  import opened Text
  import opened Geometry
  import opened Pieces
  import opened Grids
  import opened Sliding
  import opened PawnMoves
  import opened BoardState
  import opened Attacks

  /** The row from which a pawn of colour `c` may advance two squares. */
  function StartRow(c: Color): int {
    if c == White then 6 else 1
  }

  /**
   * `_get_pawn_moves`: the pawn rule of src/pieces/pawn.py, with "has not moved"
   * read off the grid as "stands on its start row".
   */
  predicate BoardPawnTarget(p: Position, from: Square, color: Color, t: Square) {
    PawnTarget(PieceBoard(Decode(p.board), p.enPassant), Piece(color, Pawn, from.row != StartRow(color)), from, t)
  }

  /**
   * The castling part of `_get_king_moves`: the side is not in check, holds the
   * right, the squares between king and destination (and the knight's square
   * on the queen side) are empty, and the king's square, the square it crosses
   * and its destination are not attacked.
   */
  ghost predicate CastleTarget(p: Position, from: Square, color: Color, t: Square) {
    && !InCheck(Decode(p.board), color)
    && (|| (t == Square(from.row, from.col + 2) && KingsideCastle(p, from, color))
        || (t == Square(from.row, from.col - 2) && QueensideCastle(p, from, color)))
  }

  /** Kingside castling is open: the right is held, f and g are empty, and e, f, g are not attacked. */
  ghost predicate KingsideCastle(p: Position, from: Square, color: Color) {
    var g := Decode(p.board);
    var opp := Opponent(color);
    var r, c := from.row, from.col;
    && RightsOf(p.castling, color).kingside
    && IsEmpty(g, Square(r, c + 1)) && IsEmpty(g, Square(r, c + 2))
    && !Attacked(g, from, opp) && !Attacked(g, Square(r, c + 1), opp) && !Attacked(g, Square(r, c + 2), opp)
  }

  /** Queenside castling is open: the right is held, d, c and b are empty, and e, d, c are not attacked. */
  ghost predicate QueensideCastle(p: Position, from: Square, color: Color) {
    var g := Decode(p.board);
    var opp := Opponent(color);
    var r, c := from.row, from.col;
    && RightsOf(p.castling, color).queenside
    && IsEmpty(g, Square(r, c - 1)) && IsEmpty(g, Square(r, c - 2)) && IsEmpty(g, Square(r, c - 3))
    && !Attacked(g, from, opp) && !Attacked(g, Square(r, c - 1), opp) && !Attacked(g, Square(r, c - 2), opp)
  }

  /** The colour `get_piece_color` gives an occupied square. */
  function ColorOfChar(ch: char): Color {
    if IsUpper(ch) then White else Black
  }

  /** `_get_moves_for_piece`: the destinations of the piece on `from`, chosen by its lower-case letter. */
  ghost predicate PieceTarget(p: Position, from: Square, t: Square)
    requires OnBoard(from)
  {
    var ch := CharAt(p.board, from);
    var color := ColorOfChar(ch);
    var g := Decode(p.board);
    var kind := Lower(ch);
    if kind == 'p' then BoardPawnTarget(p, from, color, t)
    else if kind == 'n' then KnightTarget(g, from, color, t)
    else if kind == 'k' then KingTarget(g, from, color, t) || CastleTarget(p, from, color, t)
    else if kind == 'r' then SlideTarget(g, from, color, Orthogonal, t)
    else if kind == 'b' then SlideTarget(g, from, color, Diagonal, t)
    else if kind == 'q' then SlideTarget(g, from, color, AllDirections, t)
    else false
  }

  /** A move of a piece of the side to move to one of its destinations. */
  ghost predicate PseudoLegal(p: Position, m: Move) {
    OnBoard(m.from) && PieceColor(CharAt(p.board, m.from)) == Some(p.turn) && PieceTarget(p, m.from, m.to)
  }

  /** `_get_pawn_moves`. */
  method GetPawnMoves(p: Position, pos: Square) returns (moves: seq<Move>)
    requires ValidChars(p.board) && OnBoard(pos) && CharAt(p.board, pos) != '.'
    ensures forall m :: m in moves <==> m.from == pos && BoardPawnTarget(p, pos, ColorOfChar(CharAt(p.board, pos)), m.to)
  {
    ghost var g := Decode(p.board);
    var b := p.board;
    var r, c := pos.row, pos.col;
    moves := [];
    var color := PieceColor(b[r][c]).value;
    var direction := if color == White then -1 else 1;
    ghost var pawn := Piece(color, Pawn, r != StartRow(color));

    moves := PawnAdvances(p.board, pos, color);
    ghost var forward := moves;

    var offsets := [-1, 1];
    for k := 0 to 2
      invariant forall m :: m in moves <==> (m in forward ||
        (m.from == pos && m.to.row == r + direction && ((k >= 1 && m.to.col == c - 1) || (k == 2 && m.to.col == c + 1)) &&
         OnBoard(m.to) && (Enemy(g, m.to, color) || p.enPassant == Some(m.to))))
    {
      var dc := offsets[k];
      if 0 <= c + dc < 8 && 0 <= r + direction < 8 {
        var targetPos := Square(r + direction, c + dc);
        var targetPiece := b[targetPos.row][targetPos.col];
        ColorReading(b, targetPos, color);
        if targetPiece != '.' && PieceColor(targetPiece) != Some(color) {
          moves := moves + [Move(pos, targetPos)];
        }
        if Some(targetPos) == p.enPassant {
          moves := moves + [Move(pos, targetPos)];
        }
      }
    }
    PawnMovesSplit(p, pos, pawn, forward, moves);
  }

  /** The first half of `_get_pawn_moves`: one step forward, then a second from the start row. */
  method PawnAdvances(b: CharGrid, pos: Square, color: Color) returns (moves: seq<Move>)
    requires ValidChars(b) && OnBoard(pos)
    ensures forall m :: m in moves <==> m.from == pos && PawnAdvance(Decode(b), Piece(color, Pawn, pos.row != StartRow(color)), pos, m.to)
  {
    var r, c := pos.row, pos.col;
    var direction := if color == White then -1 else 1;
    var startRow := if color == White then 6 else 1;
    moves := [];
    if 0 <= r + direction < 8 && b[r + direction][c] == '.' {
      EmptyReading(b, Square(r + direction, c));
      moves := moves + [Move(pos, Square(r + direction, c))];
      if r == startRow && b[r + 2 * direction][c] == '.' {
        EmptyReading(b, Square(r + 2 * direction, c));
        moves := moves + [Move(pos, Square(r + 2 * direction, c))];
      }
    }
    if 0 <= r + direction < 8 {
      EmptyReading(b, Square(r + direction, c));
    }
  }

  /** The one- and two-square advances of the pawn rule. */
  predicate PawnAdvance(g: Grid, pawn: Piece, from: Square, t: Square) {
    var one := Square(from.row + Forward(pawn.color), from.col);
    || (t == one && OnBoard(one) && IsEmpty(g, one))
    || (t == Square(from.row + 2 * Forward(pawn.color), from.col) && !pawn.hasMoved
        && OnBoard(one) && IsEmpty(g, one) && OnBoard(t) && IsEmpty(g, t))
  }

  /** The advances followed by the two diagonals are the whole pawn rule. */
  lemma PawnMovesSplit(p: Position, pos: Square, pawn: Piece, forward: seq<Move>, moves: seq<Move>)
    requires pawn.kind == Pawn && pawn.hasMoved == (pos.row != StartRow(pawn.color))
    requires forall m :: m in forward <==> m.from == pos && PawnAdvance(Decode(p.board), pawn, pos, m.to)
    requires forall m :: m in moves <==> (m in forward ||
      (m.from == pos && m.to.row == pos.row + Forward(pawn.color) && (m.to.col == pos.col - 1 || m.to.col == pos.col + 1) && OnBoard(m.to) &&
       (Enemy(Decode(p.board), m.to, pawn.color) || p.enPassant == Some(m.to))))
    ensures forall m :: m in moves <==> m.from == pos && BoardPawnTarget(p, pos, pawn.color, m.to)
  {
  }

  /** `_get_knight_moves`: the eight jumps in the order of `KnightOffsets`. */
  method GetKnightMoves(p: Position, pos: Square) returns (moves: seq<Move>)
    requires ValidChars(p.board) && OnBoard(pos) && CharAt(p.board, pos) != '.'
    ensures forall m :: m in moves <==> m.from == pos && KnightTarget(Decode(p.board), pos, ColorOfChar(CharAt(p.board, pos)), m.to)
  {
    ghost var g := Decode(p.board);
    var b := p.board;
    var r, c := pos.row, pos.col;
    moves := [];
    var color := PieceColor(b[r][c]).value;
    for k := 0 to 8
      invariant forall m :: m in moves <==> (m.from == pos && KnightTarget(g, pos, color, m.to) &&
        exists j :: 0 <= j < k && m.to == Square(r + KnightOffsets[j].0, c + KnightOffsets[j].1))
    {
      var nr, nc := r + KnightOffsets[k].0, c + KnightOffsets[k].1;
      if 0 <= nr < 8 && 0 <= nc < 8 {
        var targetPiece := b[nr][nc];
        ColorReading(b, Square(nr, nc), color);
        if PieceColor(targetPiece) != Some(color) {
          moves := moves + [Move(pos, Square(nr, nc))];
        }
      }
    }
    forall m: Move | m.from == pos && KnightTarget(g, pos, color, m.to) ensures m in moves {
      KnightJumpIsOffset(pos, m.to);
    }
  }

  /** The one-square steps of `_get_king_moves`, scanned by `dr` then `dc` over -1, 0, 1. */
  method KingSteps(p: Position, pos: Square, color: Color) returns (moves: seq<Move>)
    requires ValidChars(p.board) && OnBoard(pos)
    ensures forall m :: m in moves <==> m.from == pos && KingTarget(Decode(p.board), pos, color, m.to)
  {
    ghost var g := Decode(p.board);
    var b := p.board;
    var r, c := pos.row, pos.col;
    moves := [];
    for a := 0 to 3
      invariant forall m :: m in moves <==> m.from == pos && KingTarget(g, pos, color, m.to) && m.to.row - r + 1 < a
    {
      var dr := a - 1;
      for e := 0 to 3
        invariant forall m :: m in moves <==> (m.from == pos && KingTarget(g, pos, color, m.to) &&
          (m.to.row - r + 1 < a || (m.to.row - r == dr && m.to.col - c + 1 < e)))
      {
        var dc := e - 1;
        if dr == 0 && dc == 0 {
          continue;
        }
        var nr, nc := r + dr, c + dc;
        if 0 <= nr < 8 && 0 <= nc < 8 {
          ColorReading(b, Square(nr, nc), color);
          if PieceColor(b[nr][nc]) != Some(color) {
            moves := moves + [Move(pos, Square(nr, nc))];
          }
        }
      }
    }
  }

  /** `_get_king_moves`: the adjacent squares, then the two castling moves. */
  method GetKingMoves(p: Position, pos: Square) returns (moves: seq<Move>)
    requires ValidPosition(p) && OnBoard(pos) && Lower(CharAt(p.board, pos)) == 'k'
    ensures forall m :: m in moves <==> (m.from == pos &&
      (KingTarget(Decode(p.board), pos, ColorOfChar(CharAt(p.board, pos)), m.to) ||
       CastleTarget(p, pos, ColorOfChar(CharAt(p.board, pos)), m.to)))
  {
    var b := p.board;
    var r, c := pos.row, pos.col;
    var color := PieceColor(b[r][c]).value;
    moves := KingSteps(p, pos, color);
    assert b[r][c] == SymbolOf(color, King);
    var opponent := if color == White then Black else White;
    var inCheck := IsInCheck(b, color);
    ghost var steps := moves;
    if !inCheck {
      var kingside := TryKingside(p, pos, color, opponent);
      var queenside := TryQueenside(p, pos, color, opponent);
      moves := moves + kingside + queenside;
      KingMovesJoin(p, pos, color, steps, kingside, queenside);
    } else {
      forall t ensures !CastleTarget(p, pos, color, t) { }
    }
  }

  /** The adjacent steps followed by whichever castling moves are open are all the king's moves. */
  lemma KingMovesJoin(p: Position, pos: Square, color: Color, steps: seq<Move>, kingside: seq<Move>, queenside: seq<Move>)
    requires !InCheck(Decode(p.board), color)
    requires forall m :: m in steps <==> m.from == pos && KingTarget(Decode(p.board), pos, color, m.to)
    requires kingside == if KingsideCastle(p, pos, color) then [Move(pos, Square(pos.row, pos.col + 2))] else []
    requires queenside == if QueensideCastle(p, pos, color) then [Move(pos, Square(pos.row, pos.col - 2))] else []
    ensures forall m :: m in steps + kingside + queenside <==>
      (m.from == pos && (KingTarget(Decode(p.board), pos, color, m.to) || CastleTarget(p, pos, color, m.to)))
  {
    var g := Decode(p.board);
    forall m ensures m in steps + kingside + queenside <==> (m.from == pos && (KingTarget(g, pos, color, m.to) || CastleTarget(p, pos, color, m.to))) {
      if m in kingside {
        assert m.to == Square(pos.row, pos.col + 2) && KingsideCastle(p, pos, color);
      } else if m in queenside {
        assert m.to == Square(pos.row, pos.col - 2) && QueensideCastle(p, pos, color);
      } else if m.to == Square(pos.row, pos.col + 2) {
        assert !KingTarget(g, pos, color, m.to);
      } else if m.to == Square(pos.row, pos.col - 2) {
        assert !KingTarget(g, pos, color, m.to);
      } else {
        assert !CastleTarget(p, pos, color, m.to);
      }
    }
  }

  /** The kingside branch of `_get_king_moves`: the move two squares right when that castling is open. */
  method TryKingside(p: Position, pos: Square, color: Color, opponent: Color) returns (moves: seq<Move>)
    requires ValidChars(p.board) && OnBoard(pos) && opponent == Opponent(color)
    requires RightsOf(p.castling, color).kingside ==> pos.col == 4
    ensures moves == if KingsideCastle(p, pos, color) then [Move(pos, Square(pos.row, pos.col + 2))] else []
  {
    var b := p.board;
    var r, c := pos.row, pos.col;
    moves := [];
    if RightsOf(p.castling, color).kingside {
      EmptyReading(b, Square(r, c + 1));
      EmptyReading(b, Square(r, c + 2));
      if b[r][c + 1] == '.' && b[r][c + 2] == '.' {
        var a0 := IsSquareAttacked(b, pos, opponent);
        if !a0 {
          var a1 := IsSquareAttacked(b, Square(r, c + 1), opponent);
          if !a1 {
            var a2 := IsSquareAttacked(b, Square(r, c + 2), opponent);
            if !a2 {
              moves := [Move(pos, Square(r, c + 2))];
            }
          }
        }
      }
    }
  }

  /** The queenside branch of `_get_king_moves`: the move two squares left when that castling is open. */
  method TryQueenside(p: Position, pos: Square, color: Color, opponent: Color) returns (moves: seq<Move>)
    requires ValidChars(p.board) && OnBoard(pos) && opponent == Opponent(color)
    requires RightsOf(p.castling, color).queenside ==> pos.col == 4
    ensures moves == if QueensideCastle(p, pos, color) then [Move(pos, Square(pos.row, pos.col - 2))] else []
  {
    var b := p.board;
    var r, c := pos.row, pos.col;
    moves := [];
    if RightsOf(p.castling, color).queenside {
      EmptyReading(b, Square(r, c - 1));
      EmptyReading(b, Square(r, c - 2));
      EmptyReading(b, Square(r, c - 3));
      if b[r][c - 1] == '.' && b[r][c - 2] == '.' && b[r][c - 3] == '.' {
        var a0 := IsSquareAttacked(b, pos, opponent);
        if !a0 {
          var a1 := IsSquareAttacked(b, Square(r, c - 1), opponent);
          if !a1 {
            var a2 := IsSquareAttacked(b, Square(r, c - 2), opponent);
            if !a2 {
              moves := [Move(pos, Square(r, c - 2))];
            }
          }
        }
      }
    }
  }

  /** One direction of `_get_sliding_moves`: `for i in range(1, 8)` until the edge or a piece. */
  method SlideRay(p: Position, pos: Square, color: Color, d: Dir) returns (moves: seq<Move>)
    requires ValidChars(p.board) && OnBoard(pos)
    ensures forall m :: m in moves <==> m.from == pos && RayTarget(Decode(p.board), pos, d, color, m.to)
  {
    var b := p.board;
    moves := [];
    for i := 1 to 8
      invariant |moves| == i - 1 && forall j :: 0 <= j < i - 1 ==> moves[j] == Move(pos, Step(pos, d, j + 1))
      invariant forall j :: 1 <= j < i ==> OnBoard(Step(pos, d, j)) && CharAt(b, Step(pos, d, j)) == '.'
    {
      var t := Step(pos, d, i);
      if !OnBoard(t) {
        BlockedRayMoves(b, pos, d, color, i - 1, moves);
        return;
      }
      var targetPiece := b[t.row][t.col];
      if targetPiece == '.' {
        moves := moves + [Move(pos, t)];
      } else if PieceColor(targetPiece) != Some(color) {
        moves := moves + [Move(pos, t)];
        BlockedRayMoves(b, pos, d, color, i - 1, moves);
        return;
      } else {
        BlockedRayMoves(b, pos, d, color, i - 1, moves);
        return;
      }
    }
    RayLeavesBoard(pos, d);
    BlockedRayMoves(b, pos, d, color, 7, moves);
  }

  /**
   * The moves collected along a ray that stopped after `n` empty squares, with
   * the capture of the blocker when it is an enemy, are all the ray's moves.
   */
  lemma BlockedRayMoves(b: CharGrid, pos: Square, d: Dir, color: Color, n: nat, moves: seq<Move>)
    requires ValidChars(b)
    requires forall j :: 0 <= j < |moves| ==> moves[j] == Move(pos, Step(pos, d, j + 1))
    requires forall j :: 1 <= j <= n ==> OnBoard(Step(pos, d, j)) && CharAt(b, Step(pos, d, j)) == '.'
    requires !OnBoard(Step(pos, d, n + 1)) || CharAt(b, Step(pos, d, n + 1)) != '.'
    requires |moves| == if OnBoard(Step(pos, d, n + 1)) && PieceColor(CharAt(b, Step(pos, d, n + 1))) != Some(color) then n + 1 else n
    ensures forall m :: m in moves <==> m.from == pos && RayTarget(Decode(b), pos, d, color, m.to)
  {
    var g := Decode(b);
    forall j | 1 <= j <= n ensures OnBoard(Step(pos, d, j)) && IsEmpty(g, Step(pos, d, j)) {
      EmptyReading(b, Step(pos, d, j));
    }
    if OnBoard(Step(pos, d, n + 1)) {
      EmptyReading(b, Step(pos, d, n + 1));
      ColorReading(b, Step(pos, d, n + 1), color);
    }
    RayReach(g, pos, d, color, n, |moves|);
    RayMoves(g, pos, d, color, moves);
  }

  /** Moves to the first `|moves|` squares of a ray whose reach is exactly that long are the ray's moves. */
  lemma RayMoves(g: Grid, pos: Square, d: Dir, color: Color, moves: seq<Move>)
    requires forall j :: 0 <= j < |moves| ==> moves[j] == Move(pos, Step(pos, d, j + 1))
    requires forall j :: ReachableOnRay(g, pos, d, color, j) <==> 1 <= j <= |moves|
    ensures forall m :: m in moves <==> m.from == pos && RayTarget(g, pos, d, color, m.to)
  {
    var ray := seq(|moves|, j requires 0 <= j < |moves| => moves[j].to);
    SquaresOfRay(pos, d, ray);
    RaySquaresTargets(g, pos, d, color, ray);
    MovesOfSquares(pos, ray, moves);
  }

  /** The moves from `from` to each square of `squares`, in order, are exactly the moves to those squares. */
  lemma MovesOfSquares(from: Square, squares: seq<Square>, moves: seq<Move>)
    requires |moves| == |squares| && forall j :: 0 <= j < |squares| ==> moves[j] == Move(from, squares[j])
    ensures forall m :: m in moves <==> m.from == from && m.to in squares
  {
    forall m | m in moves ensures m.from == from && m.to in squares {
      var j :| 0 <= j < |moves| && moves[j] == m;
    }
    forall m: Move | m.from == from && m.to in squares ensures m in moves {
      var j :| 0 <= j < |squares| && squares[j] == m.to;
      assert moves[j] == m;
    }
  }

  /** `_get_sliding_moves(pos, directions)`. */
  method GetSlidingMoves(p: Position, pos: Square, directions: seq<Dir>) returns (moves: seq<Move>)
    requires ValidChars(p.board) && OnBoard(pos) && CharAt(p.board, pos) != '.'
    ensures forall m :: m in moves <==> (m.from == pos &&
      SlideTarget(Decode(p.board), pos, ColorOfChar(CharAt(p.board, pos)), directions, m.to))
  {
    ghost var g := Decode(p.board);
    var color := PieceColor(p.board[pos.row][pos.col]).value;
    moves := [];
    for k := 0 to |directions|
      invariant forall m :: m in moves <==> (m.from == pos &&
        exists e :: e in directions[..k] && RayTarget(g, pos, e, color, m.to))
    {
      var ray := SlideRay(p, pos, color, directions[k]);
      assert directions[..k + 1] == directions[..k] + [directions[k]];
      moves := moves + ray;
    }
    assert directions[..|directions|] == directions;
  }

  /** `_get_moves_for_piece(pos)`. */
  method GetMovesForPiece(p: Position, pos: Square) returns (moves: seq<Move>)
    requires ValidPosition(p) && OnBoard(pos) && CharAt(p.board, pos) != '.'
    ensures forall m :: m in moves <==> m.from == pos && PieceTarget(p, pos, m.to)
  {
    var pieceType := Lower(p.board[pos.row][pos.col]);
    if pieceType == 'p' {
      moves := GetPawnMoves(p, pos);
    } else if pieceType == 'n' {
      moves := GetKnightMoves(p, pos);
    } else if pieceType == 'k' {
      moves := GetKingMoves(p, pos);
    } else if pieceType == 'r' {
      moves := GetSlidingMoves(p, pos, [Right, Left, Down, Up]);
      assert Orthogonal == [Right, Left, Down, Up];
    } else if pieceType == 'b' {
      moves := GetSlidingMoves(p, pos, [DownRight, DownLeft, UpRight, UpLeft]);
      assert Diagonal == [DownRight, DownLeft, UpRight, UpLeft];
    } else if pieceType == 'q' {
      moves := GetSlidingMoves(p, pos, [Right, Left, Down, Up, DownRight, DownLeft, UpRight, UpLeft]);
      assert AllDirections == [Right, Left, Down, Up, DownRight, DownLeft, UpRight, UpLeft];
    } else {
      moves := [];
    }
  }

  /** `_generate_pseudo_legal_moves`: the moves of every piece of the side to move, in row-major order. */
  method GeneratePseudoLegalMoves(p: Position) returns (moves: seq<Move>)
    requires ValidPosition(p)
    ensures forall m :: m in moves <==> PseudoLegal(p, m)
  {
    ghost var wanted := iset m | PseudoLegal(p, m);
    moves := [];
    for r := 0 to 8
      invariant forall m :: m in moves <==> m in wanted && m.from.row < r
    {
      for c := 0 to 8
        invariant forall m :: m in moves <==> m in wanted && (m.from.row < r || (m.from.row == r && m.from.col < c))
      {
        var piece := p.board[r][c];
        if PieceColor(piece) == Some(p.turn) {
          var pieceMoves := GetMovesForPiece(p, Square(r, c));
          PieceMovesWanted(p, Square(r, c), pieceMoves);
          ScanStep(moves, pieceMoves, wanted, r, c);
          moves := moves + pieceMoves;
        } else {
          ScanStep(moves, [], wanted, r, c);
        }
      }
    }
  }

  /** The moves generated for a piece of the side to move are the pseudo-legal moves from its square. */
  lemma PieceMovesWanted(p: Position, pos: Square, pieceMoves: seq<Move>)
    requires OnBoard(pos) && PieceColor(CharAt(p.board, pos)) == Some(p.turn)
    requires forall m :: m in pieceMoves <==> m.from == pos && PieceTarget(p, pos, m.to)
    ensures forall m :: m in pieceMoves <==> m in (iset m | PseudoLegal(p, m)) && m.from == pos
  {
  }

  /**
   * One square of the row-major scan: appending the moves found on square
   * (r, c) extends the moves of the squares before it to the moves of the
   * squares up to it.
   */
  lemma ScanStep(moves: seq<Move>, found: seq<Move>, wanted: iset<Move>, r: int, c: int)
    requires forall m :: m in moves <==> m in wanted && (m.from.row < r || (m.from.row == r && m.from.col < c))
    requires forall m :: m in found <==> m in wanted && m.from == Square(r, c)
    ensures forall m :: m in moves + found <==> m in wanted && (m.from.row < r || (m.from.row == r && m.from.col < c + 1))
  {
  }
}
