/**
 * The piece record of src/pieces/pieces.py: a colour ('w' or 'b'), a kind
 * and the `has_moved` flag, together with the one-letter symbols that the
 * subclasses assign and that src/board.py stores in its character grid.
 */
module Pieces {
  import opened Wrappers
  import opened Text

  datatype Color = White | Black

  function Opponent(c: Color): Color {
    if c == White then Black else White
  }

  datatype Kind = Pawn | Knight | Bishop | Rook | Queen | King

  datatype Piece = Piece(color: Color, kind: Kind, hasMoved: bool)

  /** The colour codes `WHITE, BLACK = 'w', 'b'`. */
  function ColorCode(c: Color): string {
    if c == White then "w" else "b"
  }

  datatype PieceError = InvalidColor

  /**
   * `Piece.__init__`: any colour other than 'w' or 'b' raises ValueError;
   * otherwise the colour is stored as given and the piece has not moved.
   */
  function NewPiece(color: string, kind: Kind): (r: Result<Piece, PieceError>)
    ensures r.Ok? <==> color == "w" || color == "b"
    ensures r.Ok? ==> ColorCode(r.value.color) == color && r.value.kind == kind && !r.value.hasMoved
    ensures r.Err? ==> r.error == InvalidColor
  {
    if color == "w" then Ok(Piece(White, kind, false))
    else if color == "b" then Ok(Piece(Black, kind, false))
    else Err(InvalidColor)
  }

  /** The lower-case letter of a kind: p, n, b, r, q, k. */
  function KindLetter(k: Kind): (ch: char)
    ensures IsLower(ch)
  {
    match k
    case Pawn => 'p'
    case Knight => 'n'
    case Bishop => 'b'
    case Rook => 'r'
    case Queen => 'q'
    case King => 'k'
  }

  /** The symbol a piece of this colour and kind carries: upper case for white, lower case for black. */
  function SymbolOf(c: Color, k: Kind): (ch: char)
    ensures Lower(ch) == KindLetter(k)
    ensures IsUpper(ch) <==> c == White
  {
    if c == White then Upper(KindLetter(k)) else KindLetter(k)
  }

  function Symbol(p: Piece): char {
    SymbolOf(p.color, p.kind)
  }

  /** The characters a square of the src/board.py grid may hold: '.' or a piece symbol. */
  predicate IsPieceChar(ch: char) {
    ch in "PNBRQKpnbrqk"
  }

  predicate IsSquareChar(ch: char) {
    ch == '.' || IsPieceChar(ch)
  }

  /**
   * Reads a grid character as a piece of the shared record: colour by case (as
   * `get_piece_color` does), kind by the lower-case letter. The grid does not
   * record whether a piece has moved, so the flag is false.
   */
  function PieceOfChar(ch: char): (r: Option<Piece>)
    ensures r.Some? <==> IsPieceChar(ch)
    ensures r.Some? ==> Symbol(r.value) == ch && !r.value.hasMoved
  {
    if !IsPieceChar(ch) then None
    else
      var color := if IsUpper(ch) then White else Black;
      var l := Lower(ch);
      var kind :=
        if l == 'p' then Pawn else if l == 'n' then Knight else if l == 'b' then Bishop
        else if l == 'r' then Rook else if l == 'q' then Queen else King;
      Some(Piece(color, kind, false))
  }

  /** Distinct colour/kind pairs have distinct symbols. */
  lemma SymbolInjective(c: Color, k: Kind, c': Color, k': Kind)
    requires SymbolOf(c, k) == SymbolOf(c', k')
    ensures c == c' && k == k'
  {
  }

  /** Reading a symbol back gives the colour and kind that produced it. */
  lemma SymbolRoundTrip(c: Color, k: Kind)
    ensures PieceOfChar(SymbolOf(c, k)) == Some(Piece(c, k, false))
  {
  }

  /** A grid character equals a given symbol exactly when it reads as that colour and kind. */
  lemma CharMatchesSymbol(ch: char, c: Color, k: Kind)
    ensures ch == SymbolOf(c, k) <==>
      (PieceOfChar(ch).Some? && PieceOfChar(ch).value.color == c && PieceOfChar(ch).value.kind == k)
  {
    if PieceOfChar(ch).Some? {
      var p := PieceOfChar(ch).value;
      if p.color == c && p.kind == k {
        assert Symbol(p) == ch;
      } else if ch == SymbolOf(c, k) {
        SymbolInjective(p.color, p.kind, c, k);
      }
    }
  }
}
