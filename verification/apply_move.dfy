/**
 * `ChessBoard._make_move_on_board` of src/board.py as a function from one
 * position to the next: the clocks, the en-passant target, the removal of a
 * pawn taken en passant, the castling rook, the move itself, promotion, the
 * castling rights and the turn, in the order the source applies them.
 */
module MoveExecution {
  import opened Wrappers
  import opened Text
  import opened Geometry
  import opened Pieces
  import opened Grids
  import opened BoardState

  /** `self.board[s.row][s.col] = ch`. */
  function SetCell(b: CharGrid, s: Square, ch: char): (b': CharGrid)
    requires OnBoard(s)
    ensures b'[s.row][s.col] == ch
    ensures forall r, c :: 0 <= r < 8 && 0 <= c < 8 && (r != s.row || c != s.col) ==> b'[r][c] == b[r][c]
  {
    b[s.row := b[s.row][s.col := ch]]
  }

  /** The character of the moving piece. */
  function MovedChar(p: Position, m: Move): char
    requires OnBoard(m.from)
  {
    CharAt(p.board, m.from)
  }

  /** A king moving two files: the castling branch of `_make_move_on_board` (its step 3.3). */
  predicate IsCastling(p: Position, m: Move)
    requires OnBoard(m.from)
  {
    Lower(MovedChar(p, m)) == 'k' && Abs(m.from.col - m.to.col) == 2
  }

  /** A pawn landing on the previous en-passant target with an empty destination: the en-passant branch of `_make_move_on_board` (its step 3.2). */
  predicate IsEnPassantCapture(p: Position, m: Move)
    requires OnBoard(m.from) && OnBoard(m.to)
  {
    Lower(MovedChar(p, m)) == 'p' && p.enPassant == Some(m.to) && CharAt(p.board, m.to) == '.'
  }

  /** A pawn arriving on the first or last row. */
  predicate IsPromotion(p: Position, m: Move)
    requires OnBoard(m.from)
  {
    Lower(MovedChar(p, m)) == 'p' && (m.to.row == 0 || m.to.row == 7)
  }

  /**
   * The moves `_make_move_on_board` can carry out without indexing outside the
   * grid: both squares on the board, and for a two-file king move the rook
   * square beyond the destination (king side) or two files before it (queen
   * side) on the board too.
   */
  predicate MoveInRange(p: Position, m: Move) {
    && OnBoard(m.from) && OnBoard(m.to)
    && (IsCastling(p, m) ==> (if m.to.col > m.from.col then m.to.col + 1 < 8 else 2 <= m.to.col))
  }

  /** The castling rook jumps over the king: from beyond the destination to the square the king crossed. */
  function MoveCastlingRook(b: CharGrid, m: Move): CharGrid
    requires OnBoard(m.from) && OnBoard(m.to) && Abs(m.from.col - m.to.col) == 2
    requires if m.to.col > m.from.col then m.to.col + 1 < 8 else 2 <= m.to.col
  {
    SetCell(SetCell(b, RookTo(m), b[RookFrom(m).row][RookFrom(m).col]), RookFrom(m), '.')
  }

  /** The letter a pawn promotes to: the requested one when it names a queen, rook, bishop or knight, else a queen. */
  function PromotionLetter(promo: Option<char>): (ch: char)
    ensures Lower(ch) in "qrbn"
  {
    if promo.Some? && Lower(promo.value) in "qrbn" then promo.value else 'q'
  }

  /** The kind of piece a promotion produces. */
  function PromotionKind(promo: Option<char>): (k: Kind)
    ensures k != Pawn && k != King
  {
    var l := Lower(PromotionLetter(promo));
    if l == 'r' then Rook else if l == 'b' then Bishop else if l == 'n' then Knight else Queen
  }

  /** The promoted piece's character: upper case on white's move, lower case on black's. */
  function PromotedChar(turn: Color, promo: Option<char>): char {
    var ch := PromotionLetter(promo);
    if turn == White then Upper(ch) else Lower(ch)
  }

  /** The promoted character is the symbol of the mover's colour and the requested kind. */
  lemma PromotedCharIsSymbol(turn: Color, promo: Option<char>)
    ensures PromotedChar(turn, promo) == SymbolOf(turn, PromotionKind(promo))
  {
    var ch := PromotionLetter(promo);
    assert Lower(ch) in "qrbn";
  }

  /** Step 5 of `_make_move_on_board`: a king move drops both rights of the mover, a rook leaving its corner drops that side's. */
  function UpdateRights(cr: CastlingRights, color: Color, moved: char, from: Square): CastlingRights {
    if Lower(moved) == 'k' then
      if color == White then cr.(white := SideRights(false, false)) else cr.(black := SideRights(false, false))
    else if Lower(moved) == 'r' then
      if from == Square(7, 0) && color == White then cr.(white := cr.white.(queenside := false))
      else if from == Square(7, 7) && color == White then cr.(white := cr.white.(kingside := false))
      else if from == Square(0, 0) && color == Black then cr.(black := cr.black.(queenside := false))
      else if from == Square(0, 7) && color == Black then cr.(black := cr.black.(kingside := false))
      else cr
    else cr
  }

  /** The square of the pawn taken en passant: beside the origin, on the destination's file. */
  function Victim(m: Move): Square {
    Square(m.from.row, m.to.col)
  }

  /** Where the castling rook stands before the move: beyond the king's destination, or two files before it. */
  function RookFrom(m: Move): Square {
    if m.to.col > m.from.col then Square(m.to.row, m.to.col + 1) else Square(m.to.row, m.to.col - 2)
  }

  /** Where the castling rook lands: on the square the king crossed. */
  function RookTo(m: Move): Square {
    if m.to.col > m.from.col then Square(m.to.row, m.to.col - 1) else Square(m.to.row, m.to.col + 1)
  }

  /** The grid after the en-passant branch of `_make_move_on_board`: the pawn taken en passant removed. */
  function AfterEnPassant(p: Position, m: Move): CharGrid
    requires MoveInRange(p, m)
  {
    if IsEnPassantCapture(p, m) then SetCell(p.board, Victim(m), '.') else p.board
  }

  /** The grid after the castling branch of `_make_move_on_board`: the castling rook moved. */
  function AfterCastling(p: Position, m: Move): CharGrid
    requires MoveInRange(p, m)
  {
    var b := AfterEnPassant(p, m);
    if IsCastling(p, m) then MoveCastlingRook(b, m) else b
  }

  /** The grid after the main move of `_make_move_on_board` (its step 4): the piece on the destination, the origin empty, promotion applied. */
  function BoardAfter(p: Position, m: Move, promo: Option<char>): CharGrid
    requires MoveInRange(p, m)
  {
    var b := SetCell(SetCell(AfterCastling(p, m), m.to, MovedChar(p, m)), m.from, '.');
    if IsPromotion(p, m) then SetCell(b, m.to, PromotedChar(p.turn, promo)) else b
  }

  /** `_make_move_on_board(move, promotion_piece)` applied to a copy of the position. */
  function ApplyMove(p: Position, m: Move, promo: Option<char>): Position
    requires MoveInRange(p, m)
  {
    var moved := MovedChar(p, m);
    var pawn := Lower(moved) == 'p';
    Position(
      BoardAfter(p, m, promo),
      Opponent(p.turn),
      UpdateRights(p.castling, p.turn, moved, m.from),
      if pawn && Abs(m.from.row - m.to.row) == 2 then Some(Square((m.from.row + m.to.row) / 2, m.from.col)) else None,
      if CharAt(p.board, m.to) != '.' || pawn then 0 else p.halfmove + 1,
      if p.turn == Black then p.fullmove + 1 else p.fullmove)
  }

  /**
   * Where each square's character after a move comes from: it is empty, the
   * promoted piece on the destination, the moved piece on the destination, the
   * castling rook on the square the king crossed, or what stood there before.
   */
  lemma CellOrigin(p: Position, m: Move, promo: Option<char>, s: Square)
    requires MoveInRange(p, m) && OnBoard(s)
    ensures var ch := CharAt(BoardAfter(p, m, promo), s);
      || ch == '.'
      || (s == m.to && IsPromotion(p, m) && ch == PromotedChar(p.turn, promo))
      || (s == m.to && ch == MovedChar(p, m))
      || (IsCastling(p, m) && s == RookTo(m) && ch == CharAt(p.board, RookFrom(m)))
      || ch == CharAt(p.board, s)
  {
    if IsCastling(p, m) && s == RookTo(m) && s != m.to && s != m.from {
      assert !IsEnPassantCapture(p, m);
    }
  }

  /** Every right held in `a` is held in `b`. */
  predicate RightsWithin(a: CastlingRights, b: CastlingRights) {
    && (a.white.kingside ==> b.white.kingside) && (a.white.queenside ==> b.white.queenside)
    && (a.black.kingside ==> b.black.kingside) && (a.black.queenside ==> b.black.queenside)
  }

  /** The corner a rook of colour `c` starts on for the given side. */
  function RookCorner(c: Color, kingside: bool): Square {
    Square(if c == White then 7 else 0, if kingside then 7 else 0)
  }

  /**
   * Castling rights after a move: a right of colour `c` survives exactly when
   * it was held, and the move was not a king move of `c` on `c`'s turn, nor a
   * rook of `c` leaving that side's corner on `c`'s turn.
   */
  lemma RightsAfterMove(p: Position, m: Move, promo: Option<char>, c: Color)
    requires MoveInRange(p, m)
    ensures var before, after := RightsOf(p.castling, c), RightsOf(ApplyMove(p, m, promo).castling, c);
      var moved := Lower(MovedChar(p, m));
      && (after.kingside <==> before.kingside && !(c == p.turn && (moved == 'k' || (moved == 'r' && m.from == RookCorner(c, true)))))
      && (after.queenside <==> before.queenside && !(c == p.turn && (moved == 'k' || (moved == 'r' && m.from == RookCorner(c, false)))))
  {
  }

  /** Castling rights never come back: the rights after a move are among those before it. */
  lemma RightsOnlyShrink(p: Position, m: Move, promo: Option<char>)
    requires MoveInRange(p, m)
    ensures RightsWithin(ApplyMove(p, m, promo).castling, p.castling)
  {
    RightsAfterMove(p, m, promo, White);
    RightsAfterMove(p, m, promo, Black);
  }

  /**
   * The fifty-move counter: zero after a capture or a pawn move, one more than
   * before after any other move.
   */
  lemma HalfmoveClock(p: Position, m: Move, promo: Option<char>)
    requires ValidChars(p.board) && MoveInRange(p, m)
    ensures var g := Decode(p.board);
      var reset := !IsEmpty(g, m.to) || (PieceAt(g, m.from).Some? && PieceAt(g, m.from).value.kind == Pawn);
      ApplyMove(p, m, promo).halfmove == if reset then 0 else p.halfmove + 1
  {
    EmptyReading(p.board, m.to);
    EmptyReading(p.board, m.from);
    assert IsSquareChar(p.board[m.from.row][m.from.col]);
  }

  /** The side to move alternates. */
  lemma TurnFlips(p: Position, m: Move, promo: Option<char>)
    requires MoveInRange(p, m)
    ensures ApplyMove(p, m, promo).turn == Opponent(p.turn) && ApplyMove(p, m, promo).turn != p.turn
  {
  }

  /** The move number goes up by one after a black move and stays after a white one. */
  lemma FullmoveClock(p: Position, m: Move, promo: Option<char>)
    requires MoveInRange(p, m)
    ensures ApplyMove(p, m, promo).fullmove == p.fullmove + (if p.turn == Black then 1 else 0)
  {
  }

  /** A white move and the black reply together advance the move number by exactly one; a black move and the white reply leave one increment too. */
  lemma FullmoveAfterTwoPlies(p: Position, m1: Move, m2: Move, promo1: Option<char>, promo2: Option<char>)
    requires MoveInRange(p, m1) && MoveInRange(ApplyMove(p, m1, promo1), m2)
    ensures var q := ApplyMove(ApplyMove(p, m1, promo1), m2, promo2);
      q.fullmove == p.fullmove + 1 && q.turn == p.turn
  {
  }

  /**
   * The en-passant target after a move is set exactly when a pawn advanced two
   * rows, and it is then the square the pawn passed over.
   */
  lemma EnPassantTargetSet(p: Position, m: Move, promo: Option<char>)
    requires MoveInRange(p, m)
    ensures var q := ApplyMove(p, m, promo);
      && (q.enPassant.Some? <==> Lower(MovedChar(p, m)) == 'p' && Abs(m.from.row - m.to.row) == 2)
      && (q.enPassant.Some? ==>
            var t := q.enPassant.value;
            OnBoard(t) && t.col == m.from.col && Abs(t.row - m.from.row) == 1 && Abs(t.row - m.to.row) == 1)
  {
  }

  /** The square of a move's result, relative to the squares it is built from. */
  function After(p: Position, m: Move, promo: Option<char>, s: Square): char
    requires MoveInRange(p, m) && OnBoard(s)
  {
    CharAt(ApplyMove(p, m, promo).board, s)
  }

  /**
   * An ordinary move (not en passant, not castling, not a promotion): the
   * moving piece stands on the destination, whatever stood there is gone, the
   * origin is empty and no other square changes.
   */
  lemma OrdinaryMoveEffect(p: Position, m: Move, promo: Option<char>, s: Square)
    requires MoveInRange(p, m) && OnBoard(s)
    requires !IsEnPassantCapture(p, m) && !IsCastling(p, m) && !IsPromotion(p, m)
    ensures After(p, m, promo, s) == if s == m.from then '.' else if s == m.to then MovedChar(p, m) else CharAt(p.board, s)
  {
  }

  /**
   * En passant: the pawn lands on the target square and the pawn beside its
   * origin, on the destination's file, is removed.
   */
  lemma EnPassantEffect(p: Position, m: Move, promo: Option<char>, s: Square)
    requires MoveInRange(p, m) && OnBoard(s)
    requires IsEnPassantCapture(p, m) && !IsPromotion(p, m) && m.from.row != m.to.row
    ensures var victim := Square(m.from.row, m.to.col);
      After(p, m, promo, s) ==
        if s == m.from || s == victim then '.' else if s == m.to then MovedChar(p, m) else CharAt(p.board, s)
  {
  }

  /**
   * Castling on the king side: the king lands two files over, the rook from
   * the square beyond it lands on the square the king crossed, and the king's
   * origin and the rook's origin are empty.
   */
  lemma KingsideCastlingEffect(p: Position, m: Move, promo: Option<char>, s: Square)
    requires MoveInRange(p, m) && OnBoard(s)
    requires IsCastling(p, m) && m.to.col > m.from.col && m.from.row == m.to.row
    ensures var rookFrom, rookTo := Square(m.to.row, m.to.col + 1), Square(m.to.row, m.to.col - 1);
      After(p, m, promo, s) ==
        if s == m.from || s == rookFrom then '.'
        else if s == m.to then MovedChar(p, m)
        else if s == rookTo then CharAt(p.board, rookFrom)
        else CharAt(p.board, s)
  {
  }

  /**
   * Castling on the queen side: the king lands two files over, the rook from
   * the corner two files beyond it lands on the square the king crossed.
   */
  lemma QueensideCastlingEffect(p: Position, m: Move, promo: Option<char>, s: Square)
    requires MoveInRange(p, m) && OnBoard(s)
    requires IsCastling(p, m) && m.to.col < m.from.col && m.from.row == m.to.row
    ensures var rookFrom, rookTo := Square(m.to.row, m.to.col - 2), Square(m.to.row, m.to.col + 1);
      After(p, m, promo, s) ==
        if s == m.from || s == rookFrom then '.'
        else if s == m.to then MovedChar(p, m)
        else if s == rookTo then CharAt(p.board, rookFrom)
        else CharAt(p.board, s)
  {
  }

  /**
   * Promotion: a pawn reaching the first or last row becomes a piece of the
   * mover's colour and of the requested kind (a queen when the request is
   * missing or names no queen, rook, bishop or knight).
   */
  lemma PromotionEffect(p: Position, m: Move, promo: Option<char>)
    requires MoveInRange(p, m) && IsPromotion(p, m)
    ensures After(p, m, promo, m.to) == SymbolOf(p.turn, PromotionKind(promo))
    ensures PieceAt(Decode(ApplyMove(p, m, promo).board), m.to) == Some(Piece(p.turn, PromotionKind(promo), false))
  {
    PromotedCharIsSymbol(p.turn, promo);
    SymbolRoundTrip(p.turn, PromotionKind(promo));
  }
}
