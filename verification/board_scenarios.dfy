/**
 * The move executions of tests/test_board.py, stated on `ApplyMove`: the
 * opening double step and both white castlings from the starting position
 * with the squares between king and rook cleared.
 */
module BoardScenarios {
  import opened Wrappers
  import opened Geometry
  import opened Pieces
  import opened BoardState
  import opened MoveExecution

  /** e2e4 from the start: the pawn stands on e4, e2 is empty, e3 is the en-passant target and black is to move. */
  lemma OpeningDoubleStep()
    ensures MoveInRange(Initial(), Move(Square(6, 4), Square(4, 4)))
    ensures var q := ApplyMove(Initial(), Move(Square(6, 4), Square(4, 4)), None);
      && q.board[4] == "....P..."
      && q.board[6] == "PPPP.PPP"
      && q.turn == Black
      && q.enPassant == Some(Square(5, 4))
      && q.halfmove == 0 && q.fullmove == 1
      && q.castling == Initial().castling
  {
    var p, m := Initial(), Move(Square(6, 4), Square(4, 4));
    var q := ApplyMove(p, m, None);
    assert q.board[4] == "....P...";
    assert q.board[6] == "PPPP.PPP";
  }

  /** The starting position with the first rank replaced by `rank`. */
  function WithWhiteRank(rank: string): (p: Position)
    requires |rank| == 8
    ensures p.board[7] == rank && p.turn == White
  {
    var b := Initial().board[7 := rank];
    Initial().(board := b)
  }

  /** e1g1 with f1 and g1 cleared: king on g1, rook on f1, both white rights gone. */
  lemma WhiteShortCastling()
    ensures MoveInRange(WithWhiteRank("RNBQK..R"), Move(Square(7, 4), Square(7, 6)))
    ensures var q := ApplyMove(WithWhiteRank("RNBQK..R"), Move(Square(7, 4), Square(7, 6)), None);
      q.board[7] == "RNBQ.RK." && q.castling.white == SideRights(false, false) && q.castling.black == SideRights(true, true)
  {
    var p, m := WithWhiteRank("RNBQK..R"), Move(Square(7, 4), Square(7, 6));
    assert IsCastling(p, m) && !IsEnPassantCapture(p, m) && !IsPromotion(p, m);
    assert ApplyMove(p, m, None).board[7] == "RNBQ.RK.";
  }

  /** e1c1 with b1, c1 and d1 cleared: king on c1, rook on d1, both white rights gone. */
  lemma WhiteLongCastling()
    ensures MoveInRange(WithWhiteRank("R...KBNR"), Move(Square(7, 4), Square(7, 2)))
    ensures var q := ApplyMove(WithWhiteRank("R...KBNR"), Move(Square(7, 4), Square(7, 2)), None);
      q.board[7] == "..KR.BNR" && q.castling.white == SideRights(false, false) && q.castling.black == SideRights(true, true)
  {
    var p, m := WithWhiteRank("R...KBNR"), Move(Square(7, 4), Square(7, 2));
    assert IsCastling(p, m) && !IsEnPassantCapture(p, m) && !IsPromotion(p, m);
    assert ApplyMove(p, m, None).board[7] == "..KR.BNR";
  }
}
