/**
 * The state of the `ChessBoard` of src/board.py as a value: the 8x8 grid of
 * characters ('.' for an empty square, upper case for white, lower case for
 * black), the side to move, the castling-rights dictionary, the en-passant
 * target and the two move counters; and the reading of the character grid as
 * the shared grid of optional pieces.
 */
module BoardState {
  import opened Wrappers
  import opened Text
  import opened Geometry
  import opened Pieces
  import opened Grids

  type CharGrid = b: seq<seq<char>> | Is8x8(b) witness seq(8, _ => seq(8, _ => '.'))

  /** Every square holds '.' or one of the twelve piece symbols. */
  predicate ValidChars(b: CharGrid) {
    forall r, c :: 0 <= r < 8 && 0 <= c < 8 ==> IsSquareChar(b[r][c])
  }

  function CharAt(b: CharGrid, s: Square): char
    requires OnBoard(s)
  {
    b[s.row][s.col]
  }

  /** `get_piece_color`: no colour for '.', white for an upper-case symbol, black otherwise. */
  function PieceColor(ch: char): (r: Option<Color>)
    ensures r.None? <==> ch == '.'
    ensures IsPieceChar(ch) ==> r == Some(PieceOfChar(ch).value.color)
  {
    if ch == '.' then None else if IsUpper(ch) then Some(White) else Some(Black)
  }

  /** The character grid read as a grid of pieces. */
  function Decode(b: CharGrid): (g: Grid)
    ensures forall s :: OnBoard(s) ==> PieceAt(g, s) == PieceOfChar(b[s.row][s.col])
  {
    seq(8, r requires 0 <= r < 8 => seq(8, c requires 0 <= c < 8 => PieceOfChar(b[r][c])))
  }

  /** '.' is exactly an empty square of the decoded grid. */
  lemma EmptyReading(b: CharGrid, s: Square)
    requires ValidChars(b) && OnBoard(s)
    ensures CharAt(b, s) == '.' <==> IsEmpty(Decode(b), s)
  {
    assert IsSquareChar(b[s.row][s.col]);
  }

  /** `get_piece_color` gives the colour of the decoded piece. */
  lemma ColorReading(b: CharGrid, s: Square, c: Color)
    requires ValidChars(b) && OnBoard(s)
    ensures PieceColor(CharAt(b, s)) == Some(c) <==> Friendly(Decode(b), s, c)
    ensures (CharAt(b, s) != '.' && PieceColor(CharAt(b, s)) != Some(c)) <==> Enemy(Decode(b), s, c)
  {
    assert IsSquareChar(b[s.row][s.col]);
  }

  /** Comparing a square with a symbol tests the colour and kind of the decoded piece. */
  lemma SymbolReading(b: CharGrid, s: Square, c: Color, k: Kind)
    requires OnBoard(s)
    ensures CharAt(b, s) == SymbolOf(c, k) <==> HasPiece(Decode(b), s, c, k)
  {
    CharMatchesSymbol(CharAt(b, s), c, k);
  }

  /** The lower-case letter of an occupied square names the kind of the piece on it. */
  lemma KindReading(b: CharGrid, s: Square)
    requires ValidChars(b) && OnBoard(s) && CharAt(b, s) != '.'
    ensures PieceAt(Decode(b), s).Some?
    ensures Lower(CharAt(b, s)) == KindLetter(PieceAt(Decode(b), s).value.kind)
  {
    assert IsSquareChar(b[s.row][s.col]);
  }

  /** `castling_rights[color]`: the king-side and queen-side flags of one colour. */
  datatype SideRights = SideRights(kingside: bool, queenside: bool)

  datatype CastlingRights = CastlingRights(white: SideRights, black: SideRights)

  function RightsOf(cr: CastlingRights, c: Color): SideRights {
    if c == White then cr.white else cr.black
  }

  /** A move as the pair of its origin and destination squares. */
  datatype Move = Move(from: Square, to: Square)

  /** All fields of a `ChessBoard` except its move history. */
  datatype Position = Position(
    board: CharGrid,
    turn: Color,
    castling: CastlingRights,
    enPassant: Option<Square>,
    halfmove: nat,
    fullmove: nat)

  /** `ChessBoard.__init__`: the standard starting position, white to move, every right held. */
  function Initial(): (p: Position)
    ensures p.turn == White && p.enPassant.None? && p.halfmove == 0 && p.fullmove == 1
  {
    Position(
      ["rnbqkbnr", "pppppppp", "........", "........", "........", "........", "PPPPPPPP", "RNBQKBNR"],
      White,
      CastlingRights(SideRights(true, true), SideRights(true, true)),
      None, 0, 1)
  }

  /**
   * While a colour holds a castling right, each king of that colour stands on
   * the e-file, so the castling code's reads two and three files away stay on
   * the board.
   */
  predicate KingsHome(p: Position) {
    forall c, r, col ::
      (0 <= r < 8 && 0 <= col < 8 && p.board[r][col] == SymbolOf(c, King) &&
       (RightsOf(p.castling, c).kingside || RightsOf(p.castling, c).queenside)) ==> col == 4
  }

  /** The states a `ChessBoard` passes through: well-formed grid, kings home while rights last, en-passant target on the board. */
  predicate ValidPosition(p: Position) {
    && ValidChars(p.board)
    && KingsHome(p)
    && (p.enPassant.Some? ==> OnBoard(p.enPassant.value))
  }

  lemma InitialValid()
    ensures ValidPosition(Initial())
  {
  }
}
