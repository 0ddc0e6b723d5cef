/**
 * `ChessBoard.has_insufficient_material` of src/board.py: with only kings and
 * at most one minor piece, or only kings and bishops all standing on squares of
 * one colour, no mate is possible.
 */
module Material {
  import opened Text
  import opened Geometry
  import opened BoardState

  /** A square holding something other than a king: what the first scan collects. */
  predicate NonKing(b: CharGrid, s: Square) {
    OnBoard(s) && CharAt(b, s) != '.' && Lower(CharAt(b, s)) != 'k'
  }

  /** A square holding a bishop of either colour: what the last scan collects. */
  predicate BishopAt(b: CharGrid, s: Square) {
    OnBoard(s) && Lower(CharAt(b, s)) == 'b'
  }

  /** A square that a row-by-row scan stopped at row `r`, column `c` has already visited. */
  predicate Scanned(s: Square, r: int, c: int) {
    OnBoard(s) && 8 * s.row + s.col < 8 * r + c
  }

  /**
   * The position is a draw by material: no queen, rook or pawn is left, and
   * either at most one piece besides the kings remains, or every piece besides
   * the kings is a bishop and they all stand on squares of one colour.
   */
  ghost predicate InsufficientMaterial(b: CharGrid) {
    (forall s :: NonKing(b, s) ==> Lower(CharAt(b, s)) !in "qrp") &&
    ((forall s, t :: NonKing(b, s) && NonKing(b, t) ==> s == t) ||
     ((forall s :: NonKing(b, s) ==> Lower(CharAt(b, s)) == 'b') &&
      (forall s, t :: NonKing(b, s) && NonKing(b, t) ==> Parity(s) == Parity(t))))
  }

  /** The first scan: every non-king symbol in row-major order, with (ghost) the square it came from. */
  method CollectPieces(b: CharGrid) returns (pieces: seq<char>, ghost squares: seq<Square>)
    ensures Collected(b, pieces, squares)
  {
    pieces, squares := [], [];
    for r := 0 to 8
      invariant |pieces| == |squares|
      invariant forall i :: 0 <= i < |squares| ==> NonKing(b, squares[i]) && pieces[i] == CharAt(b, squares[i])
      invariant forall i :: 0 <= i < |squares| ==> Scanned(squares[i], r, 0)
      invariant forall i, j :: 0 <= i < j < |squares| ==> squares[i] != squares[j]
      invariant forall s :: NonKing(b, s) && Scanned(s, r, 0) ==> s in squares
    {
      for c := 0 to 8
        invariant |pieces| == |squares|
        invariant forall i :: 0 <= i < |squares| ==> NonKing(b, squares[i]) && pieces[i] == CharAt(b, squares[i])
        invariant forall i :: 0 <= i < |squares| ==> Scanned(squares[i], r, c)
        invariant forall i, j :: 0 <= i < j < |squares| ==> squares[i] != squares[j]
        invariant forall s :: NonKing(b, s) && Scanned(s, r, c) ==> s in squares
      {
        var piece := b[r][c];
        if piece != '.' && Lower(piece) != 'k' {
          pieces := pieces + [piece];
          squares := squares + [Square(r, c)];
        }
      }
    }
  }

  /** The last scan: the squares of all bishops, in row-major order. */
  method BishopSquares(b: CharGrid) returns (positions: seq<Square>)
    ensures forall i :: 0 <= i < |positions| ==> BishopAt(b, positions[i])
    ensures forall s :: BishopAt(b, s) ==> s in positions
  {
    positions := [];
    for r := 0 to 8
      invariant forall i :: 0 <= i < |positions| ==> BishopAt(b, positions[i])
      invariant forall s :: BishopAt(b, s) && Scanned(s, r, 0) ==> s in positions
    {
      for c := 0 to 8
        invariant forall i :: 0 <= i < |positions| ==> BishopAt(b, positions[i])
        invariant forall s :: BishopAt(b, s) && Scanned(s, r, c) ==> s in positions
      {
        if Lower(b[r][c]) == 'b' {
          positions := positions + [Square(r, c)];
        }
      }
    }
  }

  /** What the first scan returns: every non-king symbol, each from its own square. */
  ghost predicate Collected(b: CharGrid, pieces: seq<char>, squares: seq<Square>) {
    && |pieces| == |squares|
    && (forall i :: 0 <= i < |squares| ==> NonKing(b, squares[i]) && pieces[i] == CharAt(b, squares[i]))
    && (forall i, j :: 0 <= i < j < |squares| ==> squares[i] != squares[j])
    && (forall s :: NonKing(b, s) ==> s in squares)
  }

  /** `has_insufficient_material`. */
  method HasInsufficientMaterial(b: CharGrid) returns (draw: bool)
    ensures draw == InsufficientMaterial(b)
  {
    ghost var squares;
    var pieces;
    pieces, squares := CollectPieces(b);
    for i := 0 to |pieces|
      invariant forall j :: 0 <= j < i ==> Lower(pieces[j]) !in "qrp"
    {
      if Lower(pieces[i]) in "qrp" {
        HeavyPieceNotDrawn(b, squares[i]);
        return false;
      }
    }
    NoHeavyPiece(b, pieces, squares);
    if |pieces| <= 1 {
      AtMostOnePiece(b, pieces, squares);
      return true;
    }
    if |pieces| == 2 && Lower(pieces[0]) == 'n' && Lower(pieces[1]) == 'n' {
      KnightAndAnotherPieceNotDrawn(b, squares[0], squares[1]);
      return false;
    }
    var bishopCount := 0;
    for i := 0 to |pieces|
      invariant bishopCount <= i
      invariant bishopCount == i <==> forall j :: 0 <= j < i ==> Lower(pieces[j]) == 'b'
    {
      if Lower(pieces[i]) == 'b' {
        bishopCount := bishopCount + 1;
      }
    }
    if bishopCount == |pieces| {
      OnlyBishops(b, pieces, squares);
      var bishopPositions := BishopSquares(b);
      assert squares[0] in bishopPositions;
      var firstColor := (bishopPositions[0].row + bishopPositions[0].col) % 2;
      for i := 1 to |bishopPositions|
        invariant forall j :: 0 <= j < i ==> Parity(bishopPositions[j]) == firstColor
      {
        var color := (bishopPositions[i].row + bishopPositions[i].col) % 2;
        if color != firstColor {
          OppositeBishopsNotDrawn(b, bishopPositions[0], bishopPositions[i]);
          return false;
        }
      }
      BishopsOfOneColourDraw(b, bishopPositions, firstColor);
      return true;
    }
    var k :| 0 <= k < |pieces| && Lower(pieces[k]) != 'b';
    MinorPiecesNotDrawn(b, squares[0], squares[1], squares[k]);
    return false;
  }

  /** A queen, rook or pawn on the board rules the draw out. */
  lemma HeavyPieceNotDrawn(b: CharGrid, s: Square)
    requires NonKing(b, s) && Lower(CharAt(b, s)) in "qrp"
    ensures !InsufficientMaterial(b)
  {
  }

  /** When no collected symbol is a queen, rook or pawn, no square holds one. */
  lemma NoHeavyPiece(b: CharGrid, pieces: seq<char>, squares: seq<Square>)
    requires Collected(b, pieces, squares)
    requires forall j :: 0 <= j < |pieces| ==> Lower(pieces[j]) !in "qrp"
    ensures forall s :: NonKing(b, s) ==> Lower(CharAt(b, s)) !in "qrp"
  {
    forall s | NonKing(b, s) ensures Lower(CharAt(b, s)) !in "qrp" {
      var i :| 0 <= i < |squares| && squares[i] == s;
    }
  }

  /** At most one collected symbol means at most one square besides the kings is occupied. */
  lemma AtMostOnePiece(b: CharGrid, pieces: seq<char>, squares: seq<Square>)
    requires Collected(b, pieces, squares) && |pieces| <= 1
    requires forall s :: NonKing(b, s) ==> Lower(CharAt(b, s)) !in "qrp"
    ensures InsufficientMaterial(b)
  {
    forall s, t | NonKing(b, s) && NonKing(b, t) ensures s == t {
      var i :| 0 <= i < |squares| && squares[i] == s;
      var j :| 0 <= j < |squares| && squares[j] == t;
    }
  }

  /** When every collected symbol is a bishop, every square besides the kings holds a bishop. */
  lemma OnlyBishops(b: CharGrid, pieces: seq<char>, squares: seq<Square>)
    requires Collected(b, pieces, squares)
    requires forall j :: 0 <= j < |pieces| ==> Lower(pieces[j]) == 'b'
    ensures forall s :: NonKing(b, s) ==> BishopAt(b, s)
  {
    forall s | NonKing(b, s) ensures BishopAt(b, s) {
      var i :| 0 <= i < |squares| && squares[i] == s;
    }
  }

  /** Bishops alone, all on squares of one colour, cannot mate. */
  lemma BishopsOfOneColourDraw(b: CharGrid, bishopPositions: seq<Square>, color: int)
    requires forall s :: NonKing(b, s) ==> BishopAt(b, s)
    requires forall s :: BishopAt(b, s) ==> s in bishopPositions
    requires forall j :: 0 <= j < |bishopPositions| ==> OnBoard(bishopPositions[j]) && Parity(bishopPositions[j]) == color
    ensures InsufficientMaterial(b)
  {
    forall s, t | NonKing(b, s) && NonKing(b, t) ensures Parity(s) == Parity(t) {
      var i :| 0 <= i < |bishopPositions| && bishopPositions[i] == s;
      var j :| 0 <= j < |bishopPositions| && bishopPositions[j] == t;
    }
  }

  /** Two pieces besides the kings, one of them not a bishop, are not counted as a draw. */
  lemma MinorPiecesNotDrawn(b: CharGrid, s: Square, t: Square, u: Square)
    requires NonKing(b, s) && NonKing(b, t) && s != t
    requires NonKing(b, u) && Lower(CharAt(b, u)) != 'b'
    ensures !InsufficientMaterial(b)
  {
  }

  /** Kings alone, or kings and a single knight or bishop, cannot mate. */
  lemma SingleMinorPieceDraws(b: CharGrid, s: Square)
    requires forall t :: NonKing(b, t) ==> t == s
    requires NonKing(b, s) ==> Lower(CharAt(b, s)) in "nb"
    ensures InsufficientMaterial(b)
  {
  }

  /** Two knights, or a knight beside any other minor piece, are not counted as a draw. */
  lemma KnightAndAnotherPieceNotDrawn(b: CharGrid, s: Square, t: Square)
    requires NonKing(b, s) && NonKing(b, t) && s != t
    requires Lower(CharAt(b, s)) == 'n'
    ensures !InsufficientMaterial(b)
  {
  }

  /** Bishops on squares of both colours are not counted as a draw. */
  lemma OppositeBishopsNotDrawn(b: CharGrid, s: Square, t: Square)
    requires BishopAt(b, s) && BishopAt(b, t) && Parity(s) != Parity(t)
    ensures !InsufficientMaterial(b)
  {
    assert NonKing(b, s) && NonKing(b, t);
  }
}
