/**
 * The `ChessBoard` object of src/board.py: its fields, its constructor, the
 * in-place `_make_move_on_board` and the checked `make_move`. The read-only
 * methods (`get_legal_moves`, `is_game_over`, `is_in_check`,
 * `get_position_hash`, `has_insufficient_material`) are stated on the value
 * `State()` of the object.
 */
module Board {
  import opened Wrappers
  import opened Text
  import opened Geometry
  import opened Pieces
  import opened Grids
  import opened BoardState
  import opened Attacks
  import opened BoardMoves
  import opened MoveExecution
  import opened Legality

  /**
   * An entry of `move_history`: the snapshot `_make_move_on_board` records
   * before it changes anything, or the text `make_move` appends afterwards.
   */
  datatype HistoryEntry =
    | Snapshot(move: Move, pieceMoved: char, pieceCaptured: char, enPassant: Option<Square>,
               castling: CastlingRights, halfmove: nat)
    | MoveText(text: string)

  /** The snapshot of position `p` for move `m`. */
  function SnapshotOf(p: Position, m: Move): HistoryEntry
    requires OnBoard(m.from) && OnBoard(m.to)
  {
    Snapshot(m, CharAt(p.board, m.from), CharAt(p.board, m.to), p.enPassant, p.castling, p.halfmove)
  }

  /** The two coordinates of a move string: `move_str[:2]` and `move_str[2:4]`. */
  function ParseMove(s: string): (r: Option<Move>)
    requires |s| >= 4 ==> IsDecimal(s[1]) && IsDecimal(s[3])
    ensures r.Some? ==> OnBoard(r.value.from) && OnBoard(r.value.to)
    ensures r.Some? ==>
      && |s| >= 4
      && ToAlgebraic(r.value.from) == [s[0], DigitChar(Decimal(s[1]).value)]
      && ToAlgebraic(r.value.to) == [s[2], DigitChar(Decimal(s[3]).value)]
    ensures r.Some? && IsDigit(s[1]) && IsDigit(s[3]) ==> ToAlgebraic(r.value.from) == s[..2] && ToAlgebraic(r.value.to) == s[2..4]
    ensures |s| >= 4 && 'a' <= s[0] <= 'h' && '1' <= s[1] <= '8' && 'a' <= s[2] <= 'h' && '1' <= s[3] <= '8' ==> r.Some?
  {
    if |s| < 4 then None
    else
      var from, to := ParsePos(s[..2]), ParsePos(s[2..4]);
      if from.None? || to.None? then None else Some(Move(from.value, to.value))
  }

  /** `"e\U{0662}e\U{0664}"`, written with ARABIC-INDIC digits, parses as the move e2e4. */
  lemma ParsesNonAsciiMove()
    ensures ParseMove("e\U{0662}e\U{0664}") == Some(Move(Square(6, 4), Square(4, 4))) == ParseMove("e2e4")
  {
    assert "e\U{0662}e\U{0664}"[..2] == "e\U{0662}" && "e\U{0662}e\U{0664}"[2..4] == "e\U{0664}";
    assert "e2e4"[..2] == "e2" && "e2e4"[2..4] == "e4";
  }

  /** `move_str[4] if len(move_str) == 5 else None`. */
  function PromotionOf(s: string): Option<char> {
    if |s| == 5 then Some(s[4]) else None
  }

  /**
   * `make_move` accepts the string: at least four characters, both coordinates
   * on the board, a piece of the side to move on the origin, and the move legal.
   */
  ghost predicate Accepted(p: Position, s: string)
    requires |s| >= 4 ==> IsDecimal(s[1]) && IsDecimal(s[3])
  {
    var m := ParseMove(s);
    && m.Some?
    && PieceColor(CharAt(p.board, m.value.from)) == Some(p.turn)
    && LegalMove(p, m.value)
  }

  /** A string `make_move` can be given without `int()` failing on a rank character: both are decimal digits of some script. */
  predicate WellFormedMoveText(s: string) {
    |s| >= 4 ==> IsDecimal(s[1]) && IsDecimal(s[3])
  }

  /** With the legal moves listed, acceptance is a membership test. */
  lemma AcceptedByLegalList(p: Position, s: string, legal: seq<Move>)
    requires WellFormedMoveText(s)
    requires forall m :: m in legal <==> LegalMove(p, m)
    ensures Accepted(p, s) <==>
      ParseMove(s).Some? && PieceColor(CharAt(p.board, ParseMove(s).value.from)) == Some(p.turn) && ParseMove(s).value in legal
  {
  }

  /** The position `make_move` leaves: the accepted move applied, or the position unchanged. */
  ghost function AfterMakeMove(p: Position, s: string): (q: Position)
    requires ValidPosition(p) && WellFormedMoveText(s)
    ensures ValidPosition(q)
  {
    if Accepted(p, s) then
      var m := ParseMove(s).value;
      ApplyPreservesValid(p, m, PromotionOf(s));
      ApplyMove(p, m, PromotionOf(s))
    else p
  }

  /** An accepted string applies its move, and the result is well formed. */
  lemma AfterAccepted(p: Position, s: string, m: Move, promo: Option<char>)
    requires ValidPosition(p) && WellFormedMoveText(s) && Accepted(p, s)
    requires ParseMove(s) == Some(m) && promo == PromotionOf(s)
    ensures AfterMakeMove(p, s) == ApplyMove(p, m, promo)
    ensures ValidPosition(ApplyMove(p, m, promo))
  {
  }

  /** After an accepted move the side that made it is not in check, whatever piece a promotion asked for. */
  lemma AcceptedLeavesMoverOutOfCheck(p: Position, s: string)
    requires ValidPosition(p) && WellFormedMoveText(s) && Accepted(p, s)
    ensures !InCheck(Decode(AfterMakeMove(p, s).board), p.turn)
  {
    LegalMoveLeavesNoCheck(p, ParseMove(s).value, PromotionOf(s));
  }

  /** A rejected string leaves the position as it was. */
  lemma AfterRejected(p: Position, s: string)
    requires ValidPosition(p) && WellFormedMoveText(s) && !Accepted(p, s)
    ensures AfterMakeMove(p, s) == p
  {
  }

  lemma AppendTwo<T>(s: seq<T>, x: T, y: T)
    ensures s + [x] + [y] == s + [x, y]
  {
  }

  /** The position after `make_move` on each string in turn. */
  ghost function Play(p: Position, moves: seq<string>): (q: Position)
    requires ValidPosition(p) && forall i :: 0 <= i < |moves| ==> WellFormedMoveText(moves[i])
    ensures ValidPosition(q)
    decreases |moves|
  {
    if moves == [] then p else Play(AfterMakeMove(p, moves[0]), moves[1..])
  }

  /** One more `make_move` call after a sequence of them. */
  lemma {:induction false} PlayStep(p: Position, moves: seq<string>, s: string)
    requires ValidPosition(p) && forall i :: 0 <= i < |moves| ==> WellFormedMoveText(moves[i])
    requires WellFormedMoveText(s)
    ensures Play(p, moves + [s]) == AfterMakeMove(Play(p, moves), s)
    decreases |moves|
  {
    if moves == [] {
      assert Play(AfterMakeMove(p, s), []) == AfterMakeMove(p, s);
    } else {
      assert (moves + [s])[1..] == moves[1..] + [s];
      PlayStep(AfterMakeMove(p, moves[0]), moves[1..], s);
    }
  }

  /**
   * Over any sequence of `make_move` calls, castling rights only ever go from
   * held to lost, the move number never goes down, and the position stays well formed.
   */
  lemma {:induction false} RightsNeverReturn(p: Position, moves: seq<string>)
    requires ValidPosition(p) && forall i :: 0 <= i < |moves| ==> WellFormedMoveText(moves[i])
    ensures RightsWithin(Play(p, moves).castling, p.castling)
    ensures Play(p, moves).fullmove >= p.fullmove
    decreases |moves|
  {
    if moves != [] {
      var q := AfterMakeMove(p, moves[0]);
      if Accepted(p, moves[0]) {
        RightsOnlyShrink(p, ParseMove(moves[0]).value, PromotionOf(moves[0]));
      }
      RightsNeverReturn(q, moves[1..]);
    }
  }

  class ChessBoard {
    var board: CharGrid
    var turn: Color
    var castlingRights: CastlingRights
    var enPassantTarget: Option<Square>
    var halfmoveClock: nat
    var fullmoveNumber: nat
    var moveHistory: seq<HistoryEntry>

    /** Every field but the history, as a value. */
    function State(): Position
      reads this
    {
      Position(board, turn, castlingRights, enPassantTarget, halfmoveClock, fullmoveNumber)
    }

    predicate Valid()
      reads this
    {
      ValidPosition(State())
    }

    /** `__init__`: the standard starting position with an empty history. */
    constructor ()
      ensures Valid() && State() == Initial() && moveHistory == []
    {
      board := ["rnbqkbnr", "pppppppp", "........", "........", "........", "........", "PPPPPPPP", "RNBQKBNR"];
      turn := White;
      castlingRights := CastlingRights(SideRights(true, true), SideRights(true, true));
      enPassantTarget := None;
      halfmoveClock := 0;
      fullmoveNumber := 1;
      moveHistory := [];
      InitialValid();
    }

    /**
     * `_make_move_on_board`: records the snapshot, then updates the clocks, the
     * en-passant target, the grid, the castling rights and the turn in place.
     */
    method MakeMoveOnBoard(m: Move, promo: Option<char>)
      requires MoveInRange(State(), m)
      modifies this
      ensures State() == ApplyMove(old(State()), m, promo)
      ensures moveHistory == old(moveHistory) + [SnapshotOf(old(State()), m)]
    {
      ghost var p := State();
      var pieceMoved := board[m.from.row][m.from.col];
      var pieceCaptured := board[m.to.row][m.to.col];
      moveHistory := moveHistory + [Snapshot(m, pieceMoved, pieceCaptured, enPassantTarget, castlingRights, halfmoveClock)];

      if pieceCaptured != '.' || Lower(pieceMoved) == 'p' {
        halfmoveClock := 0;
      } else {
        halfmoveClock := halfmoveClock + 1;
      }
      if turn == Black {
        fullmoveNumber := fullmoveNumber + 1;
      }
      var currentEnPassantTarget := enPassantTarget;
      enPassantTarget := None;
      SpecialMoves(p, m, pieceMoved, pieceCaptured, currentEnPassantTarget);
      PlacePiece(p, m, pieceMoved, promo);
      UpdateRightsAndTurn(m, pieceMoved);
    }

    /** Step 3 of `_make_move_on_board`: the new en-passant target, the pawn taken en passant, the castling rook. */
    method SpecialMoves(ghost p: Position, m: Move, pieceMoved: char, pieceCaptured: char, currentEnPassantTarget: Option<Square>)
      requires MoveInRange(p, m) && board == p.board && enPassantTarget.None?
      requires pieceMoved == MovedChar(p, m) && pieceCaptured == CharAt(p.board, m.to) && currentEnPassantTarget == p.enPassant
      modifies this
      ensures board == AfterCastling(p, m) && enPassantTarget == ApplyMove(p, m, None).enPassant
      ensures turn == old(turn) && castlingRights == old(castlingRights) && halfmoveClock == old(halfmoveClock)
      ensures fullmoveNumber == old(fullmoveNumber) && moveHistory == old(moveHistory)
    {
      var fromR, fromC, toR, toC := m.from.row, m.from.col, m.to.row, m.to.col;
      if Lower(pieceMoved) == 'p' && Abs(fromR - toR) == 2 {
        enPassantTarget := Some(Square((fromR + toR) / 2, fromC));
      }
      if Lower(pieceMoved) == 'p' && Some(m.to) == currentEnPassantTarget && pieceCaptured == '.' {
        board := SetCell(board, Square(fromR, toC), '.');
      }
      assert board == AfterEnPassant(p, m);
      if Lower(pieceMoved) == 'k' && Abs(fromC - toC) == 2 {
        if toC > fromC {
          board := SetCell(board, Square(toR, toC - 1), board[toR][toC + 1]);
          board := SetCell(board, Square(toR, toC + 1), '.');
        } else {
          board := SetCell(board, Square(toR, toC + 1), board[toR][toC - 2]);
          board := SetCell(board, Square(toR, toC - 2), '.');
        }
      }
    }

    /** Step 4 of `_make_move_on_board`: the piece onto the destination, the origin emptied, promotion. */
    method PlacePiece(ghost p: Position, m: Move, pieceMoved: char, promo: Option<char>)
      requires MoveInRange(p, m) && board == AfterCastling(p, m) && pieceMoved == MovedChar(p, m) && turn == p.turn
      modifies this
      ensures board == BoardAfter(p, m, promo)
      ensures turn == old(turn) && castlingRights == old(castlingRights) && halfmoveClock == old(halfmoveClock)
      ensures fullmoveNumber == old(fullmoveNumber) && moveHistory == old(moveHistory) && enPassantTarget == old(enPassantTarget)
    {
      board := SetCell(board, m.to, pieceMoved);
      board := SetCell(board, m.from, '.');
      if Lower(pieceMoved) == 'p' && (m.to.row == 0 || m.to.row == 7) {
        var promoChar := if promo.Some? && Lower(promo.value) in "qrbn" then promo.value else 'q';
        board := SetCell(board, m.to, if turn == White then Upper(promoChar) else Lower(promoChar));
      }
    }

    /** Step 5 of `_make_move_on_board`: the castling rights of the mover, then the turn. */
    method UpdateRightsAndTurn(m: Move, pieceMoved: char)
      modifies this
      ensures castlingRights == UpdateRights(old(castlingRights), old(turn), pieceMoved, m.from)
      ensures turn == Opponent(old(turn))
      ensures board == old(board) && halfmoveClock == old(halfmoveClock) && fullmoveNumber == old(fullmoveNumber)
      ensures moveHistory == old(moveHistory) && enPassantTarget == old(enPassantTarget)
    {
      var color := turn;
      if Lower(pieceMoved) == 'k' {
        if color == White {
          castlingRights := castlingRights.(white := SideRights(false, false));
        } else {
          castlingRights := castlingRights.(black := SideRights(false, false));
        }
      } else if Lower(pieceMoved) == 'r' {
        if m.from == Square(7, 0) && color == White {
          castlingRights := castlingRights.(white := castlingRights.white.(queenside := false));
        } else if m.from == Square(7, 7) && color == White {
          castlingRights := castlingRights.(white := castlingRights.white.(kingside := false));
        } else if m.from == Square(0, 0) && color == Black {
          castlingRights := castlingRights.(black := castlingRights.black.(queenside := false));
        } else if m.from == Square(0, 7) && color == Black {
          castlingRights := castlingRights.(black := castlingRights.black.(kingside := false));
        }
      }
      turn := if turn == White then Black else White;
    }

    /**
     * `make_move(move_str)`: parses the coordinates, checks the piece's colour
     * and the legality of the move, and only then makes it and records the text.
     * A rejected string leaves every field as it was.
     */
    method MakeMove(moveStr: string) returns (ok: bool)
      requires Valid() && WellFormedMoveText(moveStr)
      modifies this
      ensures Valid()
      ensures ok <==> Accepted(old(State()), moveStr)
      ensures State() == AfterMakeMove(old(State()), moveStr)
      ensures ok ==> !InCheck(Decode(board), old(turn))
      ensures moveHistory == old(moveHistory) +
        if ok then [SnapshotOf(old(State()), ParseMove(moveStr).value), MoveText(moveStr)] else []
    {
      var move := ValidateMove(moveStr);
      if move.None? {
        AfterRejected(State(), moveStr);
        return false;
      }
      var promotionPiece := if |moveStr| == 5 then Some(moveStr[4]) else None;
      AfterAccepted(State(), moveStr, move.value, promotionPiece);
      AcceptedLeavesMoverOutOfCheck(State(), moveStr);
      MakeMoveOnBoard(move.value, promotionPiece);
      AppendTwo(old(moveHistory), SnapshotOf(old(State()), move.value), MoveText(moveStr));
      moveHistory := moveHistory + [MoveText(moveStr)];
      return true;
    }

    /** The checks of `make_move` before it changes anything: the parsed move when all of them pass. */
    method ValidateMove(moveStr: string) returns (move: Option<Move>)
      requires Valid() && WellFormedMoveText(moveStr)
      ensures move.Some? <==> Accepted(State(), moveStr)
      ensures move.Some? ==> move == ParseMove(moveStr) && MoveInRange(State(), move.value)
    {
      if |moveStr| < 4 {
        return None;
      }
      var fromPos := ParsePos(moveStr[..2]);
      var toPos := ParsePos(moveStr[2..4]);
      if fromPos.None? || toPos.None? {
        return None;
      }
      var from, to := fromPos.value, toPos.value;
      var pieceToMove := board[from.row][from.col];
      if PieceColor(pieceToMove) != Some(turn) {
        return None;
      }
      var legalMoves := GetLegalMoves(State());
      AcceptedByLegalList(State(), moveStr, legalMoves);
      if Move(from, to) !in legalMoves {
        return None;
      }
      return Some(Move(from, to));
    }
  }
}
