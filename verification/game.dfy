/**
 * The `Game` object of src/game.py: a board, a counter of position
 * fingerprints for threefold repetition, and the game's status.
 */
module GameRules {
  import opened Geometry
  import opened BoardState
  import opened Legality
  import opened Fingerprint
  import opened Board

  /** A `collections.Counter` lookup: a fingerprint never recorded counts 0. */
  function CountOf(history: map<string, nat>, h: string): nat {
    if h in history then history[h] else 0
  }

  /** `position_history[h] += 1`. */
  function Bump(history: map<string, nat>, h: string): (r: map<string, nat>)
    ensures h in r
  {
    history[h := CountOf(history, h) + 1]
  }

  /** `if position_history[h] > 0: position_history[h] -= 1`. */
  function Unbump(history: map<string, nat>, h: string): map<string, nat> {
    if CountOf(history, h) > 0 then history[h := CountOf(history, h) - 1] else history
  }

  /** Recording a fingerprint raises its count by one and leaves every other count alone. */
  lemma BumpCounts(history: map<string, nat>, h: string, k: string)
    ensures CountOf(Bump(history, h), k) == CountOf(history, k) + (if k == h then 1 else 0)
  {
  }

  /** Taking a fingerprint back lowers its count by one unless it is already 0, and leaves every other count alone. */
  lemma UnbumpCounts(history: map<string, nat>, h: string, k: string)
    ensures CountOf(Unbump(history, h), k) ==
      if k == h && CountOf(history, h) > 0 then CountOf(history, k) - 1 else CountOf(history, k)
  {
  }

  /** Taking back the fingerprint just recorded restores every count. */
  lemma UnbumpAfterBump(history: map<string, nat>, h: string)
    ensures forall k :: CountOf(Unbump(Bump(history, h), h), k) == CountOf(history, k)
  {
    forall k ensures CountOf(Unbump(Bump(history, h), h), k) == CountOf(history, k) {
      BumpCounts(history, h, k);
      UnbumpCounts(Bump(history, h), h, k);
    }
  }

  /**
   * Counting a position leaves the count of every position that differs from
   * it in placement, side to move, castling rights or en-passant target alone,
   * and raises that of every position differing only in its move counters.
   */
  lemma BumpPosition(history: map<string, nat>, p: Position, q: Position)
    requires ValidPosition(p) && ValidPosition(q)
    ensures CountOf(Bump(history, PositionHash(p)), PositionHash(q)) ==
      CountOf(history, PositionHash(q)) +
      (if p.board == q.board && p.turn == q.turn && p.castling == q.castling && p.enPassant == q.enPassant then 1 else 0)
  {
    HashIdentifiesPosition(p, q);
    BumpCounts(history, PositionHash(p), PositionHash(q));
  }

  /**
   * `check_game_over`: the board's own verdict (checkmate, stalemate, the
   * fifty-move draw) comes first; otherwise a position seen three times is a
   * draw by repetition.
   */
  ghost function GameStatus(p: Position, history: map<string, nat>): Status
    requires ValidPosition(p)
  {
    var boardStatus := BoardStatus(p);
    if boardStatus != Ongoing then boardStatus
    else if CountOf(history, PositionHash(p)) >= 3 then DrawRepetition
    else Ongoing
  }

  /**
   * What the game status means in terms of the position: mate and stalemate
   * when no legal move is left, the fifty-move draw once the counter reaches
   * 100, repetition only when neither holds and the fingerprint was seen at
   * least three times, and an ongoing game otherwise.
   */
  lemma GameStatusMeaning(p: Position, history: map<string, nat>)
    requires ValidPosition(p)
    ensures GameStatus(p, history) == Checkmate <==> NoLegalMove(p) && InCheckOf(p)
    ensures GameStatus(p, history) == Stalemate <==> NoLegalMove(p) && !InCheckOf(p)
    ensures GameStatus(p, history) == Draw50Moves <==> !NoLegalMove(p) && p.halfmove >= 100
    ensures GameStatus(p, history) == DrawRepetition <==>
      !NoLegalMove(p) && p.halfmove < 100 && CountOf(history, PositionHash(p)) >= 3
    ensures GameStatus(p, history) == Ongoing <==>
      !NoLegalMove(p) && p.halfmove < 100 && CountOf(history, PositionHash(p)) < 3
  {
    StatusMeaning(p);
  }

  /** The side to move is in check. */
  ghost predicate InCheckOf(p: Position) {
    Attacks.InCheck(Decode(p.board), p.turn)
  }

  class Game {
    var board: ChessBoard
    var positionHistory: map<string, nat>
    var status: Status

    predicate Valid()
      reads this, board
    {
      board.Valid()
    }

    /** The fingerprint of the board's current position. */
    function CurrentHash(): string
      reads this, board
      requires Valid()
    {
      PositionHash(board.State())
    }

    /** `__init__`: a fresh board, the starting position counted once, the game ongoing. */
    constructor ()
      ensures Valid() && fresh(board)
      ensures board.State() == Initial() && board.moveHistory == []
      ensures positionHistory == map[PositionHash(Initial()) := 1]
      ensures status == Ongoing
    {
      board := new ChessBoard();
      positionHistory := map[];
      status := Ongoing;
      new;
      UpdateHistory();
    }

    /** `_update_history`: counts the current position once more. */
    method UpdateHistory()
      requires Valid()
      modifies this
      ensures board == old(board) && status == old(status)
      ensures positionHistory == Bump(old(positionHistory), CurrentHash())
    {
      var posHash := PositionHash(board.State());
      positionHistory := positionHistory[posHash := CountOf(positionHistory, posHash) + 1];
    }

    /**
     * `make_move`: a move the board rejects changes nothing here; an accepted
     * one counts the new position and recomputes the status.
     */
    method MakeMove(moveStr: string) returns (success: bool)
      requires Valid() && WellFormedMoveText(moveStr)
      modifies this, board
      ensures Valid() && board == old(board)
      ensures success <==> Accepted(old(board.State()), moveStr)
      ensures board.State() == AfterMakeMove(old(board.State()), moveStr)
      ensures success ==> !Attacks.InCheck(Decode(board.board), old(board.turn))
      ensures board.moveHistory == old(board.moveHistory) +
        if success then [SnapshotOf(old(board.State()), ParseMove(moveStr).value), MoveText(moveStr)] else []
      ensures success ==> positionHistory == Bump(old(positionHistory), CurrentHash())
      ensures success ==> status == GameStatus(board.State(), positionHistory)
      ensures !success ==> board.State() == old(board.State()) && positionHistory == old(positionHistory) && status == old(status)
    {
      success := board.MakeMove(moveStr);
      if success {
        UpdateHistory();
        var _ := CheckGameOver();
      }
    }

    /**
     * `undo_move`: takes the current position's count back by one when it is
     * positive. The board itself is not rolled back (see README).
     */
    method UndoMove()
      requires Valid()
      modifies this
      ensures board == old(board) && status == old(status)
      ensures positionHistory == Unbump(old(positionHistory), CurrentHash())
    {
      var currentHash := PositionHash(board.State());
      if CountOf(positionHistory, currentHash) > 0 {
        positionHistory := positionHistory[currentHash := CountOf(positionHistory, currentHash) - 1];
      }
    }

    /** `check_game_over`: stores and returns the game status. */
    method CheckGameOver() returns (result: Status)
      requires Valid()
      modifies this
      ensures board == old(board) && positionHistory == old(positionHistory)
      ensures result == status == GameStatus(board.State(), positionHistory)
    {
      var boardStatus := IsGameOver(board.State());
      if boardStatus != Ongoing {
        status := boardStatus;
        return status;
      }
      var currentHash := PositionHash(board.State());
      if CountOf(positionHistory, currentHash) >= 3 {
        status := DrawRepetition;
        return status;
      }
      status := Ongoing;
      return status;
    }
  }
}
