/**
 * `get_legal_moves` and `is_game_over` of src/board.py: a pseudo-legal move is
 * legal when, applied to a copy of the position, it leaves the mover's king
 * unattacked; the game is over when no legal move is left or the fifty-move
 * counter has reached one hundred half-moves.
 */
module Legality {
  import opened Wrappers
  import opened Text
  import opened Geometry
  import opened Pieces
  import opened Grids
  import opened BoardState
  import opened Attacks
  import opened BoardMoves
  import opened MoveExecution

  /** A king letter is the symbol of the colour its case gives. */
  lemma KingLetter(ch: char)
    requires Lower(ch) == 'k'
    ensures ch == SymbolOf(ColorOfChar(ch), King)
  {
  }

  /**
   * A pseudo-legal move of a well-formed position can be carried out: both
   * squares are on the board and a two-file king move is a castling from the
   * e-file along the back row, so the rook squares exist.
   */
  lemma PseudoLegalInRange(p: Position, m: Move)
    requires ValidPosition(p) && PseudoLegal(p, m)
    ensures MoveInRange(p, m)
    ensures IsCastling(p, m) ==> m.from.col == 4 && m.from.row == m.to.row && CastleTarget(p, m.from, p.turn, m.to)
  {
    var ch := CharAt(p.board, m.from);
    var color := ColorOfChar(ch);
    var g := Decode(p.board);
    var k := Lower(ch);
    if k == 'k' {
      if !KingTarget(g, m.from, color, m.to) {
        KingLetter(ch);
        assert p.board[m.from.row][m.from.col] == SymbolOf(color, King);
      }
    } else if k == 'r' {
      var d :| d in Orthogonal && RayTarget(g, m.from, d, color, m.to);
      RayTargetShape(g, m.from, d, color, m.to);
    } else if k == 'b' {
      var d :| d in Diagonal && RayTarget(g, m.from, d, color, m.to);
      RayTargetShape(g, m.from, d, color, m.to);
    } else if k == 'q' {
      var d :| d in AllDirections && RayTarget(g, m.from, d, color, m.to);
      RayTargetShape(g, m.from, d, color, m.to);
    }
  }

  /** Writing '.' or a piece symbol keeps every square readable. */
  lemma SymbolIsPieceChar(c: Color, k: Kind)
    ensures IsPieceChar(SymbolOf(c, k))
  {
    SymbolRoundTrip(c, k);
  }

  /**
   * A pseudo-legal move keeps a position well formed: every square still holds
   * '.' or a piece symbol, every king of a side that still holds a castling
   * right is still on the e-file, and the new en-passant target is on the board.
   */
  lemma ApplyPreservesValid(p: Position, m: Move, promo: Option<char>)
    requires ValidPosition(p) && PseudoLegal(p, m)
    ensures MoveInRange(p, m) && ValidPosition(ApplyMove(p, m, promo))
  {
    PseudoLegalInRange(p, m);
    var q := ApplyMove(p, m, promo);
    PromotedCharIsSymbol(p.turn, promo);
    SymbolIsPieceChar(p.turn, PromotionKind(promo));
    forall r, c | 0 <= r < 8 && 0 <= c < 8 ensures IsSquareChar(q.board[r][c]) {
      CellOrigin(p, m, promo, Square(r, c));
    }
    forall c, r, col | 0 <= r < 8 && 0 <= col < 8 && q.board[r][col] == SymbolOf(c, King) &&
        (RightsOf(q.castling, c).kingside || RightsOf(q.castling, c).queenside)
      ensures col == 4
    {
      KingStaysHome(p, m, promo, c, Square(r, col));
    }
  }

  /** One square of `ApplyPreservesValid`: a king of a side holding a right after the move stands on the e-file. */
  lemma KingStaysHome(p: Position, m: Move, promo: Option<char>, c: Color, s: Square)
    requires ValidPosition(p) && PseudoLegal(p, m) && MoveInRange(p, m) && OnBoard(s)
    requires CharAt(BoardAfter(p, m, promo), s) == SymbolOf(c, King)
    requires RightsOf(ApplyMove(p, m, promo).castling, c).kingside || RightsOf(ApplyMove(p, m, promo).castling, c).queenside
    ensures s.col == 4
  {
    PseudoLegalInRange(p, m);
    RightsAfterMove(p, m, promo, c);
    CellOrigin(p, m, promo, s);
    var ch := CharAt(BoardAfter(p, m, promo), s);
    PromotedCharIsSymbol(p.turn, promo);
    if s == m.to && IsPromotion(p, m) && ch == PromotedChar(p.turn, promo) {
      SymbolInjective(c, King, p.turn, PromotionKind(promo));
    } else if s == m.to && ch == MovedChar(p, m) {
      assert Lower(ch) == 'k';
    } else if !(IsCastling(p, m) && s == RookTo(m)) {
      assert p.board[s.row][s.col] == SymbolOf(c, King);
    }
  }

  /**
   * A move `get_legal_moves` returns: pseudo-legal, and on a copy of the
   * position with the move made (without a promotion choice) the mover is not
   * in check.
   */
  ghost predicate LegalMove(p: Position, m: Move) {
    PseudoLegal(p, m) && MoveInRange(p, m) && !InCheck(Decode(ApplyMove(p, m, None).board), p.turn)
  }

  /** A pseudo-legal move is legal exactly when the check test on the copy fails. */
  lemma LegalByCheck(p: Position, m: Move, check: bool)
    requires PseudoLegal(p, m) && MoveInRange(p, m)
    requires check == InCheck(Decode(ApplyMove(p, m, None).board), p.turn)
    ensures LegalMove(p, m) <==> !check
  {
  }

  /**
   * The check test runs on a copy promoted to a queen, while `make_move` then
   * promotes to the requested piece. The choice makes no difference to the
   * mover's check: the two grids differ only on the destination, where both
   * hold a piece of the mover that is not a king.
   */
  lemma PromotionChoiceKeepsCheck(p: Position, m: Move, promo: Option<char>)
    requires MoveInRange(p, m)
    ensures InCheck(Decode(ApplyMove(p, m, promo).board), p.turn) <==> InCheck(Decode(ApplyMove(p, m, None).board), p.turn)
  {
    if IsPromotion(p, m) {
      var g1, g2 := Decode(ApplyMove(p, m, promo).board), Decode(ApplyMove(p, m, None).board);
      PromotionEffect(p, m, promo);
      PromotionEffect(p, m, None);
      forall s | s != m.to ensures PieceAt(g1, s) == PieceAt(g2, s) {
        if OnBoard(s) {
          assert ApplyMove(p, m, promo).board[s.row][s.col] == ApplyMove(p, m, None).board[s.row][s.col];
        }
      }
      InCheckDependsOn(g1, g2, p.turn);
    }
  }

  /** A legal move leaves the mover out of check, whichever promotion piece is then chosen. */
  lemma LegalMoveLeavesNoCheck(p: Position, m: Move, promo: Option<char>)
    requires LegalMove(p, m)
    ensures !InCheck(Decode(ApplyMove(p, m, promo).board), p.turn)
  {
    PromotionChoiceKeepsCheck(p, m, promo);
  }

  /** One step of a filtering loop: the kept elements of a prefix, extended by one element. */
  lemma FilterStep<T>(kept: seq<T>, all: seq<T>, k: nat, keep: bool, wanted: iset<T>)
    requires k < |all|
    requires forall m :: m in kept <==> m in all[..k] && m in wanted
    requires keep <==> all[k] in wanted
    ensures forall m :: m in (if keep then kept + [all[k]] else kept) <==> m in all[..k + 1] && m in wanted
  {
    assert all[..k + 1] == all[..k] + [all[k]];
  }

  /** `get_legal_moves`: the pseudo-legal moves, filtered by trying each on a copy. */
  method GetLegalMoves(p: Position) returns (legal: seq<Move>)
    requires ValidPosition(p)
    ensures forall m :: m in legal <==> LegalMove(p, m)
  {
    ghost var wanted := iset m | LegalMove(p, m);
    legal := [];
    var pseudoLegalMoves := GeneratePseudoLegalMoves(p);
    for k := 0 to |pseudoLegalMoves|
      invariant forall m :: m in legal <==> m in pseudoLegalMoves[..k] && m in wanted
    {
      var move := pseudoLegalMoves[k];
      ApplyPreservesValid(p, move, None);
      var tempBoard := ApplyMove(p, move, None);
      var check := IsInCheck(tempBoard.board, p.turn);
      LegalByCheck(p, move, check);
      FilterStep(legal, pseudoLegalMoves, k, !check, wanted);
      if !check {
        legal := legal + [move];
      }
    }
    assert pseudoLegalMoves[..|pseudoLegalMoves|] == pseudoLegalMoves;
  }

  /** The status strings of `is_game_over` and `Game.check_game_over`. */
  datatype Status = Ongoing | Checkmate | Stalemate | Draw50Moves | DrawRepetition

  /**
   * `is_game_over`: without a legal move, checkmate when in check and stalemate
   * otherwise; with one, a draw once the half-move counter reaches 100.
   */
  ghost function BoardStatus(p: Position): Status {
    if NoLegalMove(p) then
      if InCheck(Decode(p.board), p.turn) then Checkmate else Stalemate
    else if p.halfmove >= 100 then Draw50Moves
    else Ongoing
  }

  /** The side to move has no legal move. */
  ghost predicate NoLegalMove(p: Position) {
    forall m :: !LegalMove(p, m)
  }

  method IsGameOver(p: Position) returns (status: Status)
    requires ValidPosition(p)
    ensures status == BoardStatus(p)
  {
    var legal := GetLegalMoves(p);
    if |legal| == 0 {
      var check := IsInCheck(p.board, p.turn);
      if check {
        return Checkmate;
      }
      return Stalemate;
    }
    assert LegalMove(p, legal[0]);
    if p.halfmove >= 100 {
      return Draw50Moves;
    }
    return Ongoing;
  }

  /**
   * What each status means: the game is over by mate or stalemate exactly when
   * no legal move is left, by the fifty-move rule exactly when a legal move is
   * left and the counter is at least 100, and the board never reports a
   * repetition.
   */
  lemma StatusMeaning(p: Position)
    ensures BoardStatus(p) == Checkmate <==> NoLegalMove(p) && InCheck(Decode(p.board), p.turn)
    ensures BoardStatus(p) == Stalemate <==> NoLegalMove(p) && !InCheck(Decode(p.board), p.turn)
    ensures BoardStatus(p) == Draw50Moves <==> !NoLegalMove(p) && p.halfmove >= 100
    ensures BoardStatus(p) == Ongoing <==> !NoLegalMove(p) && p.halfmove < 100
    ensures BoardStatus(p) != DrawRepetition
  {
  }
}
