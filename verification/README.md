# TerminalChess rules engine in Dafny

This project models the rules engine of TerminalChess, a terminal chess game:

- the `ChessBoard` of `src/board.py`:
  - a character grid (`'.'` for an empty square, upper case for white, lower case for black);
  - the side to move, the castling-rights dictionary, the en-passant target, the two move counters and the move history;
  - attack detection, check, pseudo-legal and legal move generation, and the in-place move execution;
  - the checked `make_move`, the game-over verdict, the position fingerprint, and the insufficient-material test;
- the `Game` of `src/game.py`:
  - it counts position fingerprints for threefold repetition;
  - it derives the game status;
- the piece classes of `src/pieces/`, whose destination rules are shared with the board's generators;
- `_board_to_fen` of `src/stockfish_engine.py`, which writes a board as the FEN-like line handed to the engine.

Layout:

- `ChessBoard` and `Game` are Dafny classes whose fields the methods update in place.
- The board's read-only methods take the board's state as a `Position` value (`ChessBoard.State()`).
- Move generation and `_make_move_on_board` are proved against specification functions and predicates:
  - `PseudoLegal`, `LegalMove` and `Attacked` say what the generators compute;
  - `ApplyMove` says what a move does to the position;
  - `BoardStatus`, `GameStatus`, `PositionHash` and `InsufficientMaterial` give the verdicts and the fingerprint.
- Lemmas state the rules those functions and predicates obey:
  - what each kind of move does to the grid;
  - that castling rights only shrink;
  - how the move counters and the en-passant target behave;
  - that the fingerprint identifies a position up to its counters;
  - what each game status means;
  - that a FEN rank expands back to its squares.

Where the code and its documentation disagree, the model follows the code:

- `Game.undo_move` calls `ChessBoard.undo_move`, which the board does not define.
- `has_insufficient_material` is never consulted by `is_game_over` or `check_game_over`.
- Castling rights survive the capture of a rook on its corner.

## Model

| member | source | states |
|---|---|---|
| Text.NatToString | src/stockfish_engine.py:65 | `str(n)` of a count: one or more digits, one digit exactly below 10, no leading zero |
| Text.NatToStringRoundTrip | src/stockfish_engine.py:65 | reading the digits of `str(n)` back gives `n` |
| Text.IntToString | src/stockfish_engine.py:77 | `str(n)` of a counter: digits, preceded by '-' when negative, and the digits read back give the magnitude of `n` |
| Text.Decimal | src/board.py:71 | `int(ch)` of one character: a value exactly for the characters in one of the 68 runs of decimal digits, and then that character's place in its run (so the ASCII digits keep their own value) |
| Text.DecimalRunsApart | src/board.py:71 | the runs of decimal digits are disjoint and increasing, so every digit has a single value |
| Text.Lower | src/board.py:460 | ASCII `str.lower`: upper-case letters move down by 32, every other character is unchanged |
| Text.Upper | src/board.py:388 | ASCII `str.upper`: lower-case letters move up by 32, every other character is unchanged |
| Geometry.ParsePos | src/board.py:68-73 | a coordinate parses exactly when it has two characters, a file 'a'..'h' and a rank whose decimal value is 1..8 in any script; the square is on the board and writes back to the same text with the rank as an ASCII digit, so an ASCII coordinate writes back unchanged |
| Geometry.ParsesNonAsciiRank | src/board.py:71 | the coordinate e followed by the ARABIC-INDIC digit two parses as e2 |
| Geometry.ToAlgebraic | src/board.py:75-80 | a board square is written as a file letter 'a'..'h' and a rank digit '1'..'8' |
| Geometry.ParseToAlgebraic | src/board.py:68-80 | parsing the text of a board square gives that square back |
| Geometry.ToAlgebraicInjective | src/board.py:75-80 | distinct board squares have distinct coordinate texts |
| Pieces.NewPiece | src/pieces/pieces.py:15-20 | a colour other than 'w' or 'b' is an error; otherwise the piece keeps the colour and kind and has not moved |
| Pieces.SymbolOf | src/pieces/knight.py:10 | a symbol's lower-case letter names the kind, and the symbol is upper case exactly for white |
| Pieces.PieceOfChar | src/board.py:62-66 | a character reads as a piece exactly when it is one of the twelve symbols, and that piece's symbol is the character |
| Pieces.SymbolRoundTrip | src/pieces/bishop.py:10 | reading a piece's symbol gives back its colour and kind |
| Pieces.SymbolInjective | src/pieces/rook.py:10 | different colours or kinds have different symbols |
| Grids.RayTargetShape | src/pieces/bishop.py:17-34 | a ray destination is on the board, is not the origin and holds no friend; every square before it on the ray is empty; a diagonal destination keeps the origin's square colour; an orthogonal one shares its row or column |
| Grids.RayStopsAtFirstPiece | src/pieces/rook.py:27-34 | nothing beyond the first occupied square of a ray is reachable |
| Sliding.CastRay | src/pieces/rook.py:18-34 | the walk along one direction returns consecutive squares, exactly those reachable on that ray, stopping at the edge, before a friend, or on the first enemy |
| Sliding.CastRays | src/pieces/queen.py:20-37 | the destinations are exactly the ray targets along the given directions; each is on the board, not the origin, not a friend; no duplicates when the directions are distinct |
| PawnMoves.GetMoves | src/pieces/pawn.py:17-51 | the destinations are exactly: one step forward onto an empty square; two steps for an unmoved pawn over two empty squares; a diagonal onto an enemy or onto the en-passant target. Each lies one or two rows forward, a friend appears only as the en-passant target, and there are at most 6 entries |
| BishopMoves.GetMoves | src/pieces/bishop.py:12-36 | the destinations are exactly the diagonal ray targets, all on squares of the bishop's colour, without duplicates |
| RookMoves.GetMoves | src/pieces/rook.py:12-36 | the destinations are exactly the orthogonal ray targets, all on the rook's row or column, without duplicates |
| QueenMoves.GetMoves | src/pieces/queen.py:12-39 | the destinations are exactly the rook targets and the bishop targets, none holding a friend, without duplicates |
| KnightMoves.GetMoves | src/pieces/knight.py:12-31 | the destinations are exactly the L-jumps onto the board not holding a friend; at most 8, without duplicates |
| KingMoves.GetMoves | src/pieces/king.py:17-39 | the destinations are exactly the adjacent board squares not holding a friend, never two files away (no castling), at most 8, without duplicates |
| PieceScenarios.KnightFromCenter | tests/test_knight.py:6-13 | a lone white knight on d5 reaches exactly the eight expected squares |
| PieceScenarios.KnightFromCorner | tests/test_knight.py:15-19 | a knight on h1 reaches exactly g3 and f2 |
| PieceScenarios.KnightBlockedByFriendly | tests/test_knight.py:21-31 | a friendly rook removes exactly its square from the knight's destinations |
| PieceScenarios.KingFromCenter | tests/test_king.py:6-14 | a lone king on d5 reaches exactly its eight neighbours |
| PieceScenarios.KingOnE1 | tests/test_king.py:16-22 | a king on e1 reaches exactly its five neighbours, with no castling square |
| PieceScenarios.BishopEmptyBoard | tests/test_bishop.py:6-13 | a lone bishop on d5 reaches exactly the 13 diagonal squares |
| PieceScenarios.RookEmptyBoard | tests/test_rook.py:6-15 | a lone rook on d5 reaches exactly the 14 squares of its row and column |
| PieceScenarios.QueenEmptyBoard | tests/test_queen.py:6-16 | a lone queen on d5 reaches exactly the rook squares and the bishop squares |
| PieceScenarios.WhitePawnInitialMove | tests/test_pawn.py:6-10 | an unmoved white pawn on e2 reaches exactly e3 and e4 |
| PieceScenarios.WhitePawnBlocked | tests/test_pawn.py:12-18 | a white pawn on e2 with a piece on e3 has no destination |
| PieceScenarios.WhitePawnCapture | tests/test_pawn.py:20-31 | a moved pawn on e5 facing a friend on e6 and enemies on d6 and f6 reaches exactly d6 and f6 |
| PieceScenarios.BlackPawnInitialMove | tests/test_pawn.py:33-37 | an unmoved black pawn on e7 reaches exactly e6 and e5 |
| PieceScenarios.WhitePawnEnPassant | tests/test_pawn.py:39-64 | with the en-passant target on d6, a white pawn on e5 reaches exactly e6 and d6 |
| PieceScenarios.BlockedRay | src/pieces/rook.py:24-34 | a ray whose first n squares are empty reaches exactly those squares, plus the next one when it holds an enemy |
| PieceScenarios.BishopWithBlockers | tests/test_bishop.py:15-27 | a bishop on d5 with an enemy rook on b7 and a friendly rook on f3 reaches exactly the nine listed squares, b7 included and f3 excluded |
| PieceScenarios.RookWithBlockers | tests/test_rook.py:17-34 | a rook on d5 with an enemy rook on d7 and a friendly rook on g5 reaches exactly the eleven listed squares, d7 included and g5 excluded |
| BoardScenarios.OpeningDoubleStep | tests/test_board.py:14-16 | e2e4 from the start leaves the pawn on e4 and e2 empty, sets e3 as the en-passant target and gives black the move |
| BoardScenarios.WhiteShortCastling | tests/test_board.py:21-28 | with f1 and g1 cleared, e1g1 puts the king on g1 and the rook on f1 and clears both white rights |
| BoardScenarios.WhiteLongCastling | tests/test_board.py:30-38 | with b1, c1 and d1 cleared, e1c1 puts the king on c1 and the rook on d1 and clears both white rights |
| BoardState.PieceColor | src/board.py:62-66 | '.' has no colour, and a piece symbol has the colour of the piece it names |
| BoardState.Decode | src/board.py:82-84 | each square of the decoded grid holds the piece its character names |
| BoardState.Initial | src/board.py:11-33 | the starting position: white to move, no en-passant target, clocks 0 and 1 |
| BoardState.InitialValid | src/board.py:15-29 | the starting grid holds only '.' and piece symbols, and both kings stand on the e-file |
| Attacks.PawnAttacked | src/board.py:90-95 | true exactly when a pawn of the attacking colour stands diagonally behind the square, as seen from that pawn's advance |
| Attacks.KnightAttacked | src/board.py:98-102 | true exactly when an attacking knight is one L-jump away |
| Attacks.RayAttacked | src/board.py:111-132 | true exactly when the first occupied square along one direction holds an attacking slider of the right kind or a queen, or holds the attacking king right next to the square |
| Attacks.IsSquareAttacked | src/board.py:86-133 | true exactly when the square is attacked by a pawn, a knight, a rook or queen along a line, a bishop or queen along a diagonal, or an adjacent king |
| Attacks.AdjacentKingAttacks | src/board.py:118 | a king attacks every square next to it |
| Attacks.FirstKingFrom | src/board.py:146-151 | the king found is the first one in row-major order; none is found only when there is none |
| Attacks.IsInCheck | src/board.py:135-156 | true exactly when the first king of the colour in row-major order exists and is attacked by the other colour |
| Attacks.InCheckHasKing | src/board.py:153-156 | a side in check has a king, and that king is attacked |
| Attacks.NoKingNoCheck | src/board.py:153 | a side without a king is never in check |
| Attacks.AttackedDependsOnAttacker | src/board.py:86-133 | grids that agree on the empty squares and on the attacker's pieces give the attacker the same attacks |
| Attacks.FirstKingAgrees | src/board.py:146-151 | grids with a colour's kings on the same squares find the same first king |
| Attacks.InCheckDependsOn | src/board.py:135-156 | whether a colour is in check depends only on the empty squares, the opponent's pieces and that colour's kings |
| BoardMoves.GetPawnMoves | src/board.py:201-221 | the moves are exactly those from the square to a pawn destination, with "has not moved" read as "stands on the start row" |
| BoardMoves.PawnAdvances | src/board.py:208-211 | the moves are exactly the one- and two-step advances onto empty squares |
| BoardMoves.GetKnightMoves | src/board.py:223-233 | the moves are exactly those onto knight destinations |
| BoardMoves.KingSteps | src/board.py:240-246 | the moves are exactly those onto adjacent board squares not holding a friend |
| BoardMoves.TryKingside | src/board.py:251-256 | the one kingside castling move, exactly when the right is held, f and g are empty, and e, f and g are not attacked; otherwise none |
| BoardMoves.TryQueenside | src/board.py:258-263 | the one queenside castling move, exactly when the right is held, d, c and b are empty, and e, d and c are not attacked; otherwise none |
| BoardMoves.GetKingMoves | src/board.py:235-264 | the moves are exactly the king steps plus the castling moves, the castling moves offered only when the side is not in check |
| BoardMoves.SlideRay | src/board.py:271-283 | the moves are exactly those onto the ray targets of one direction |
| BoardMoves.GetSlidingMoves | src/board.py:266-284 | the moves are exactly those onto the ray targets of the given directions |
| BoardMoves.GetMovesForPiece | src/board.py:190-199 | the moves are exactly those onto the destinations of the piece's kind, chosen by its lower-case letter |
| BoardMoves.GeneratePseudoLegalMoves | src/board.py:181-188 | the moves are exactly the pseudo-legal ones: a piece of the side to move going to one of its destinations |
| MoveExecution.SetCell | src/board.py:370 | one square is overwritten and every other square is unchanged |
| MoveExecution.PromotionLetter | src/board.py:387 | the promotion letter is always a queen, rook, bishop or knight letter |
| MoveExecution.PromotionKind | src/board.py:385-388 | a promotion never produces a pawn or a king |
| MoveExecution.PromotedCharIsSymbol | src/board.py:388 | the promoted character is the symbol of the mover's colour and the requested kind |
| MoveExecution.CellOrigin | src/board.py:366-388 | after a move, every square holds '.', the promoted piece or the moved piece on the destination, the castling rook on the square the king crossed, or what it held before |
| MoveExecution.RightsAfterMove | src/board.py:392-401 | a right of a colour survives exactly when it was held and the move was neither a king move nor a move of the rook from that side's corner by that colour |
| MoveExecution.RightsOnlyShrink | src/board.py:392-401 | no castling right is ever regained by a move |
| MoveExecution.HalfmoveClock | src/board.py:349-352 | the fifty-move counter is 0 after a capture or a pawn move, and one more than before after any other move |
| MoveExecution.TurnFlips | src/board.py:403 | the side to move alternates |
| MoveExecution.FullmoveClock | src/board.py:354-355 | the move number goes up by one after a black move and stays after a white one |
| MoveExecution.FullmoveAfterTwoPlies | src/board.py:354-355 | two moves in a row advance the move number by exactly one and return the turn |
| MoveExecution.EnPassantTargetSet | src/board.py:357-364 | an en-passant target is set exactly after a two-row pawn move; it is then the square on the pawn's file that the pawn passed over |
| MoveExecution.OrdinaryMoveEffect | src/board.py:382-383 | a plain move puts the piece on the destination, empties the origin and changes nothing else |
| MoveExecution.EnPassantEffect | src/board.py:367-370 | en passant also empties the square beside the origin on the destination's file |
| MoveExecution.KingsideCastlingEffect | src/board.py:373-376 | kingside castling moves the rook from beyond the king's destination onto the square the king crossed |
| MoveExecution.QueensideCastlingEffect | src/board.py:377-379 | queenside castling moves the rook from two files beyond the destination onto the square the king crossed |
| MoveExecution.PromotionEffect | src/board.py:385-388 | a pawn reaching the last row becomes a piece of the mover's colour and of the requested kind, a queen by default |
| Legality.PseudoLegalInRange | src/board.py:373-379 | a pseudo-legal move stays inside the grid; a two-file king move is a castling from the e-file along its row |
| Legality.ApplyPreservesValid | src/board.py:326-403 | a pseudo-legal move keeps the grid readable, keeps kings that hold rights on the e-file, and leaves the en-passant target on the board |
| Legality.KingStaysHome | src/board.py:393-395 | after a move, a king whose side still holds a castling right stands on the e-file |
| Legality.LegalByCheck | src/board.py:173-177 | a pseudo-legal move is legal exactly when the mover is not in check on the copy after it |
| Legality.PromotionChoiceKeepsCheck | src/board.py:173-177 | whether the mover is in check after a move is the same for the queen promotion of the copy and for any requested promotion piece |
| Legality.LegalMoveLeavesNoCheck | src/board.py:173-177 | a legal move leaves the mover out of check whichever promotion piece is then chosen |
| Legality.GetLegalMoves | src/board.py:158-179 | the moves are exactly the legal ones: pseudo-legal, and not leaving the mover in check |
| Legality.IsGameOver | src/board.py:405-425 | the board status, where no legal move means checkmate in check and stalemate otherwise, and a counter of 100 or more means the fifty-move draw |
| Legality.StatusMeaning | src/board.py:418-425 | each status holds exactly under its condition, and the board never reports repetition |
| Fingerprint.CastlingText | src/board.py:438-443 | the castling field has one to four letters and no space, and contains K, Q, k, q exactly for the held rights |
| Fingerprint.EnPassantText | src/board.py:445 | the en-passant field has no space and is '-' exactly when there is no target |
| Fingerprint.FlattenIndex | src/board.py:435 | the flattened grid puts row r, column c at position 8r + c |
| Fingerprint.HashIdentifiesPosition | src/board.py:427-448 | two positions have the same fingerprint exactly when their grids, sides to move, castling rights and en-passant targets agree |
| Material.CollectPieces | src/board.py:456-461 | the collected symbols are every non-king piece, each from its own square |
| Material.BishopSquares | src/board.py:482-486 | the collected squares are exactly the bishop squares |
| Material.HasInsufficientMaterial | src/board.py:450-498 | true exactly when no queen, rook or pawn is left and either at most one other piece remains or all others are bishops on squares of one colour |
| Material.SingleMinorPieceDraws | src/board.py:470-471 | kings alone, or with one knight or bishop, are a draw |
| Material.KnightAndAnotherPieceNotDrawn | src/board.py:475-476 | a knight beside any second piece other than a king is not a draw; in particular two knights are not |
| Material.OppositeBishopsNotDrawn | src/board.py:489-494 | bishops on both square colours are not a draw |
| Material.MinorPiecesNotDrawn | src/board.py:497-498 | two or more pieces besides the kings, one not a bishop, are not a draw |
| Material.HeavyPieceNotDrawn | src/board.py:464-466 | a queen, rook or pawn rules the draw out |
| Board.ParseMove | src/board.py:299-309 | a move string parses when it has at least four characters and two valid coordinates; each square writes back to its coordinate with the rank as an ASCII digit, and to the first four characters themselves when those ranks are ASCII |
| Board.ParsesNonAsciiMove | src/board.py:299-309 | the move text written with ARABIC-INDIC rank digits parses as the same move as e2e4 |
| Board.AcceptedByLegalList | src/board.py:311-320 | the string is accepted exactly when it parses, the origin holds a piece of the side to move, and the move is in the legal list |
| Board.AfterAccepted | src/board.py:322 | an accepted string leads to the position the move produces |
| Board.AfterRejected | src/board.py:299-320 | a rejected string leaves the position unchanged |
| Board.AcceptedLeavesMoverOutOfCheck | src/board.py:316-322 | after an accepted string, the side that moved is not in check, with the promotion piece the string asked for |
| Board.PlayStep | src/board.py:286-324 | playing one more string after a sequence is `make_move` on the position the sequence reached |
| Board.RightsNeverReturn | src/board.py:392-401 | over any sequence of `make_move` calls, castling rights only shrink and the move number never decreases |
| Board.ChessBoard.constructor | src/board.py:11-33 | the starting position with an empty history |
| Board.ChessBoard.MakeMoveOnBoard | src/board.py:326-403 | the snapshot is appended to the history, and the new state is the position the move produces |
| Board.ChessBoard.SpecialMoves | src/board.py:357-379 | the grid after en passant and castling, with the new en-passant target |
| Board.ChessBoard.PlacePiece | src/board.py:382-388 | the grid with the piece moved and a promotion applied |
| Board.ChessBoard.UpdateRightsAndTurn | src/board.py:392-403 | the castling rights after the move, and the other side to move |
| Board.ChessBoard.ValidateMove | src/board.py:299-320 | a move is returned exactly when the string is accepted, and it is the parsed move |
| Board.ChessBoard.MakeMove | src/board.py:286-324 | returns true exactly when the string is accepted; the state becomes the position after the move, or stays unchanged; on success the side that moved is not in check, and the snapshot and the string are appended to the history |
| Fen.LeadingEmpty | src/stockfish_engine.py:61-69 | the count of empty squares before the first piece of a rank |
| Fen.BoardToFen | src/stockfish_engine.py:58-77 | the line is the placement, side to move, castling text, en-passant field and the two counters, separated by spaces |
| Fen.ScanRank | src/stockfish_engine.py:61-69 | the inner loop appends exactly the rank's text |
| Fen.RankRoundTrip | src/stockfish_engine.py:61-69 | expanding each digit of a rank's text back into empty squares gives the rank's squares |
| Fen.RankDigitsApart | src/stockfish_engine.py:61-69 | a rank's text never has two digits in a row, because every run of empty squares is written as one count |
| Fen.RankWidth | src/stockfish_engine.py:61-69 | every rank's text describes exactly 8 squares |
| Fen.PlacementSlashes | src/stockfish_engine.py:70 | the placement field has exactly 7 '/' separators |
| Fen.EnPassantFieldIsCoordinate | src/stockfish_engine.py:73-76 | the engine's en-passant field is the board's coordinate text of the target |
| GameRules.Bump | src/game.py:19 | recording a fingerprint gives it an entry |
| GameRules.BumpCounts | src/game.py:16-19 | recording raises that fingerprint's count by one and leaves every other count alone |
| GameRules.UnbumpCounts | src/game.py:36-38 | taking a fingerprint back lowers its count by one unless it is 0, and leaves every other count alone |
| GameRules.UnbumpAfterBump | src/game.py:31-38 | taking back the fingerprint just recorded restores every count |
| GameRules.BumpPosition | src/game.py:16-19 | counting a position raises exactly the count shared by the positions equal to it up to the move counters |
| GameRules.GameStatusMeaning | src/game.py:44-61 | mate and stalemate when no legal move is left; the fifty-move draw when a move is left and the counter is at least 100; repetition when neither holds and the count is at least 3; ongoing otherwise |
| GameRules.Game.constructor | src/game.py:9-14 | a fresh board in the starting position, its fingerprint counted once, status ongoing |
| GameRules.Game.UpdateHistory | src/game.py:16-19 | the current fingerprint is counted once more, and nothing else changes |
| GameRules.Game.MakeMove | src/game.py:21-29 | success exactly when the board accepts the string; then the side that moved is not in check, the board's history gains the snapshot and the move text, the new position is counted and the status recomputed; otherwise nothing changes, the board's history included |
| GameRules.Game.UndoMove | src/game.py:31-38 | the current fingerprint's count goes down by one when it is positive |
| GameRules.Game.CheckGameOver | src/game.py:44-61 | stores and returns the game status: the board's verdict first, then repetition, else ongoing |

## Left out

- Rendering, localisation, the terminal user interface, `ChessBoard.__str__` and all printing are left out: they are I/O.
- The Stockfish engine process is left out: its opening, closing and queries are foreign calls. Only `_board_to_fen` is modelled.
- `ChessBoard.get_piece_at` has no member of its own: it is the grid read `CharAt`, and `Decode` for the piece classes.
- Chess960 and the other game front ends are not part of this model.
- The whole-game tests are not stated as concrete lemmas: scholar's mate, castling and en passant through `make_move`, and the repetition and fifty-move games. Each would need the legality of every move along the line to be worked out square by square. The rules they exercise are proved in general instead (`Legality.StatusMeaning`, `GameRules.GameStatusMeaning`, the castling and en-passant effect lemmas, `MoveExecution.HalfmoveClock`), and `BoardScenarios` states the move executions of the board tests.
- GameRules.Game.UndoMove: models only the fingerprint counter. Its last line calls `self.board.undo_move()`, which `ChessBoard` does not define (`src/board.py` has no such method), so in the source the call raises after the counter has changed. The model stops before that call, and the board is not rolled back.
- `has_insufficient_material` is modelled but is not part of any status, because neither `is_game_over` nor `check_game_over` calls it.
- Castling rights are not cleared when a rook is captured on its corner, as in the source.
- Geometry.ParsePos: requires the rank character of a two-character text to be a decimal digit of some script, because `int()` raises a `ValueError` on any other character and the exception is not modelled. Every decimal digit `int()` reads is accepted and read by its value (`Text.Decimal`, the Unicode 15.0 digits of Python 3.12; a Python with a different Unicode version may accept a slightly different set).
- Board.ChessBoard.MakeMove: requires the same of both coordinates (`WellFormedMoveText`), for the same reason; so do `Board.ParseMove`, `Board.ChessBoard.ValidateMove` and `GameRules.Game.MakeMove`.
- `ChessBoard.Valid` holds more than the source states: every king of a side that still holds a castling right stands on the e-file. This holds in the starting position and is preserved by every accepted move. It is what keeps the castling code's reads two and three files away from the king inside the grid.
- Board.ChessBoard.MakeMoveOnBoard: requires that the move and, for a two-file king move, its rook squares lie inside the grid. Python's negative indices would otherwise wrap around.
- Fen.BoardToFen: requires the en-passant target to be on the board.
- Fen.BoardToFen: the side to move and the castling text are taken as given strings, because the source copies `color_to_move` and `str(castling_rights)` verbatim.
- `str.lower`, `str.upper` and `str.isupper` are modelled for ASCII letters only, which is all the grid holds.
- A piece read from the character grid carries `hasMoved == false`, because the grid does not record it. The board's pawn rule uses the start row instead, as `_get_pawn_moves` does.
- `_get_pawn_moves` may list an en-passant capture twice. The generator contracts are stated as sets (`m in moves <==> ...`), so the duplicate is allowed and not described.
- Lists are modelled as sequences, and the board's `move_history` as a sequence of snapshot and text entries.
- The moves-list results are specified by membership, not by the order the source builds them in. The order is kept by the loops but is not stated.
- Helper methods split out of long source functions, each proved against the same specification as its parent:
  - `PawnAdvances`, `KingSteps`, `TryKingside`, `TryQueenside` and `SlideRay` in move generation;
  - `SpecialMoves`, `PlacePiece` and `UpdateRightsAndTurn` in move execution;
  - `ValidateMove` in `make_move`;
  - `CollectPieces` and `BishopSquares` in the material test;
  - `ScanRank` in `_board_to_fen`.
- The read-only board queries `get_legal_moves`, `is_game_over`, `is_in_check`, `get_position_hash` and `has_insufficient_material` are methods or functions over the state value `ChessBoard.State()`, not over the object.
