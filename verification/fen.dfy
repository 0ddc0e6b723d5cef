/**
 * `_board_to_fen` of src/stockfish_engine.py: the board handed to the engine
 * written as a FEN-like line. The placement field lists rows 0 to 7, each
 * rank as piece symbols with every run of empty squares written as its length,
 * the ranks separated by '/'; the side to move and the castling text are copied
 * verbatim, then the en-passant square and the two counters follow.
 */
module Fen {
  import opened Wrappers
  import opened Text
  import opened Geometry
  import opened Pieces
  import opened Grids

  /**
   * The engine-facing board `_board_to_fen` reads: `get_piece_at`,
   * `color_to_move`, `castling_rights` (used only through `str`),
   * `en_passant_target` and the two counters.
   */
  datatype EngineBoard = EngineBoard(
    cells: Grid,
    colorToMove: string,
    castlingText: string,
    enPassant: Option<Square>,
    halfmove: int,
    fullmove: int)

  /** The number of empty squares at the start of a rank. */
  function LeadingEmpty(row: seq<Option<Piece>>): (k: nat)
    ensures k <= |row|
    ensures forall j :: 0 <= j < k ==> row[j].None?
    ensures k < |row| ==> row[k].Some?
    decreases |row|
  {
    if row == [] || row[0].Some? then 0 else 1 + LeadingEmpty(row[1..])
  }

  /** One rank of the placement field: symbols, with each maximal run of empty squares written as its length. */
  function Rank(row: seq<Option<Piece>>): string
    decreases |row|
  {
    if row == [] then ""
    else if row[0].Some? then [Symbol(row[0].value)] + Rank(row[1..])
    else
      var k := LeadingEmpty(row);
      NatToString(k) + Rank(row[k..])
  }

  /** The first `n` ranks of the placement field, each but the last followed by '/'. */
  function RanksUpTo(g: Grid, n: nat): string
    requires n <= 8
  {
    if n == 0 then "" else RanksUpTo(g, n - 1) + Rank(g[n - 1]) + (if n - 1 < 7 then "/" else "")
  }

  function Placement(g: Grid): string {
    RanksUpTo(g, 8)
  }

  /** The en-passant field: '-', or the file letter and `8 - row`. */
  function EnPassantField(ep: Option<Square>): string
    requires ep.Some? ==> OnBoard(ep.value)
  {
    if ep.None? then "-" else ["abcdefgh"[ep.value.col]] + IntToString(8 - ep.value.row)
  }

  /** The whole line: six space-separated fields. */
  function FenText(b: EngineBoard): string
    requires b.enPassant.Some? ==> OnBoard(b.enPassant.value)
  {
    Placement(b.cells) + " " + b.colorToMove + " " + b.castlingText + " " + EnPassantField(b.enPassant)
      + " " + IntToString(b.halfmove) + " " + IntToString(b.fullmove)
  }

  /** `_board_to_fen`: the nested scan with a running count of empty squares. */
  method BoardToFen(b: EngineBoard) returns (fen: string)
    requires b.enPassant.Some? ==> OnBoard(b.enPassant.value)
    ensures fen == FenText(b)
  {
    var piecesFen := "";
    for r := 0 to 8
      invariant piecesFen == RanksUpTo(b.cells, r)
    {
      piecesFen := ScanRank(b.cells, r, piecesFen);
      if r < 7 {
        piecesFen := piecesFen + "/";
      }
    }
    var activeColor := b.colorToMove;
    var castlingFen := b.castlingText;
    var enPassantFen := "-";
    if b.enPassant.Some? {
      var row, col := b.enPassant.value.row, b.enPassant.value.col;
      enPassantFen := ["abcdefgh"[col]] + IntToString(8 - row);
    }
    fen := piecesFen + " " + activeColor + " " + castlingFen + " " + enPassantFen
      + " " + IntToString(b.halfmove) + " " + IntToString(b.fullmove);
  }

  /** The inner loop of `_board_to_fen`: appends rank `r` to the text built so far. */
  method ScanRank(g: Grid, r: int, piecesFen: string) returns (out: string)
    requires 0 <= r < 8
    ensures out == piecesFen + Rank(g[r])
  {
    ghost var row := g[r];
    out := piecesFen;
    var emptyCount := 0;
    for c := 0 to 8
      invariant emptyCount <= c
      invariant out == piecesFen + Rank(row[..c - emptyCount])
      invariant c - emptyCount == 0 || row[c - emptyCount - 1].Some?
      invariant forall j :: c - emptyCount <= j < c ==> row[j].None?
    {
      var piece := PieceAt(g, Square(r, c));
      if piece.Some? {
        RankPieceStep(row, c, emptyCount);
        if emptyCount > 0 {
          out := out + NatToString(emptyCount);
        }
        emptyCount := 0;
        out := out + [Symbol(piece.value)];
      } else {
        emptyCount := emptyCount + 1;
      }
    }
    RankFlush(row, emptyCount);
    if emptyCount > 0 {
      out := out + NatToString(emptyCount);
    }
  }

  /** A rank that is empty or ends with a piece encodes separately from whatever follows it. */
  lemma {:induction false} RankAppend(a: seq<Option<Piece>>, b: seq<Option<Piece>>)
    requires a == [] || a[|a| - 1].Some?
    ensures Rank(a + b) == Rank(a) + Rank(b)
    decreases |a|
  {
    if a == [] {
      assert a + b == b;
    } else if a[0].Some? {
      assert (a + b)[1..] == a[1..] + b;
      RankAppend(a[1..], b);
    } else {
      var k := LeadingEmpty(a);
      LeadingEmptyAppend(a, b);
      assert (a + b)[k..] == a[k..] + b;
      RankAppend(a[k..], b);
    }
  }

  /** A run of empty squares followed by a piece is counted up to that piece. */
  lemma {:induction false} LeadingEmptyAppend(a: seq<Option<Piece>>, b: seq<Option<Piece>>)
    requires a != [] && a[|a| - 1].Some?
    ensures LeadingEmpty(a + b) == LeadingEmpty(a)
    decreases |a|
  {
    if a[0].None? {
      assert (a + b)[1..] == a[1..] + b;
      LeadingEmptyAppend(a[1..], b);
    }
  }

  /** A non-empty run of empty squares alone is written as its length. */
  lemma RunRank(run: seq<Option<Piece>>)
    requires run != [] && forall j :: 0 <= j < |run| ==> run[j].None?
    ensures Rank(run) == NatToString(|run|)
  {
    assert LeadingEmpty(run) == |run|;
    assert run[|run|..] == [];
  }

  /** A run of empty squares, then a piece: the run's length, then the symbol. */
  lemma RunThenPiece(run: seq<Option<Piece>>, x: Option<Piece>)
    requires x.Some? && forall j :: 0 <= j < |run| ==> run[j].None?
    ensures Rank(run + [x]) == (if |run| > 0 then NatToString(|run|) else "") + [Symbol(x.value)]
  {
    var tail := run + [x];
    assert Rank([x]) == [Symbol(x.value)] + Rank([]);
    if run == [] {
      assert tail == [x];
    } else {
      LeadingEmptyAppend(tail, []);
      assert tail + [] == tail;
      assert LeadingEmpty(tail) == |run|;
      assert tail[|run|..] == [x];
    }
  }

  /** A finished prefix, a run of empty squares and a piece encode one after another. */
  lemma RankJoin(head: seq<Option<Piece>>, run: seq<Option<Piece>>, x: Option<Piece>)
    requires head == [] || head[|head| - 1].Some?
    requires x.Some? && forall j :: 0 <= j < |run| ==> run[j].None?
    ensures Rank(head + (run + [x])) == Rank(head) + (if |run| > 0 then NatToString(|run|) else "") + [Symbol(x.value)]
  {
    RankAppend(head, run + [x]);
    RunThenPiece(run, x);
  }

  /** A prefix through index `j`, cut at `i`. */
  lemma SliceSplit<T>(s: seq<T>, i: int, j: int)
    requires 0 <= i <= j < |s|
    ensures s[..j + 1] == s[..i] + (s[i..j] + [s[j]])
  {
  }

  /** One step of the scan at a piece: the pending run, then the piece's symbol. */
  lemma RankPieceStep(row: seq<Option<Piece>>, c: int, e: int)
    requires 0 <= e <= c < |row| && row[c].Some?
    requires c - e == 0 || row[c - e - 1].Some?
    requires forall j :: c - e <= j < c ==> row[j].None?
    ensures Rank(row[..c + 1]) == Rank(row[..c - e]) + (if e > 0 then NatToString(e) else "") + [Symbol(row[c].value)]
  {
    SliceSplit(row, c - e, c);
    RankJoin(row[..c - e], row[c - e..c], row[c]);
  }

  /** The end of a rank: the pending run, if any, closes it. */
  lemma RankFlush(row: seq<Option<Piece>>, e: int)
    requires 0 <= e <= |row|
    requires |row| - e == 0 || row[|row| - e - 1].Some?
    requires forall j :: |row| - e <= j < |row| ==> row[j].None?
    ensures Rank(row) == Rank(row[..|row| - e]) + (if e > 0 then NatToString(e) else "")
  {
    var run := row[|row| - e..];
    assert row == row[..|row| - e] + run;
    RankAppend(row[..|row| - e], run);
    if e > 0 {
      RunRank(run);
    } else {
      assert run == [];
    }
  }

  /** A piece symbol is a letter: neither a digit nor the rank separator. */
  lemma SymbolIsLetter(p: Piece)
    ensures IsUpper(Symbol(p)) || IsLower(Symbol(p))
    ensures !IsDigit(Symbol(p)) && Symbol(p) != '/'
  {
  }

  /** The squares of a rank as the symbols standing on them. */
  function SymbolsOf(row: seq<Option<Piece>>): (s: seq<Option<char>>)
    ensures |s| == |row|
  {
    seq(|row|, i requires 0 <= i < |row| => if row[i].Some? then Some(Symbol(row[i].value)) else None)
  }

  /** Reading a rank back: a digit stands for that many empty squares, a letter for itself. */
  function Expand(t: string): seq<Option<char>>
    decreases |t|
  {
    if t == [] then []
    else (if IsDigit(t[0]) then seq(DigitValue(t[0]), _ => None) else [Some(t[0])]) + Expand(t[1..])
  }

  /** The number of squares a rank text covers: digit values plus letters. */
  function Width(t: string): nat
    decreases |t|
  {
    if t == [] then 0 else (if IsDigit(t[0]) then DigitValue(t[0]) else 1) + Width(t[1..])
  }

  lemma {:induction false} ExpandLength(t: string)
    ensures |Expand(t)| == Width(t)
    decreases |t|
  {
    if t != [] {
      ExpandLength(t[1..]);
    }
  }

  lemma {:induction false} ExpandAppend(x: string, y: string)
    ensures Expand(x + y) == Expand(x) + Expand(y)
    decreases |x|
  {
    if x == [] {
      assert x + y == y;
    } else {
      assert (x + y)[0] == x[0];
      assert (x + y)[1..] == x[1..] + y;
      ExpandAppend(x[1..], y);
    }
  }

  /** No two digits stand side by side. */
  predicate NoAdjacentDigits(t: string) {
    forall i :: 0 <= i < |t| - 1 ==> !(IsDigit(t[i]) && IsDigit(t[i + 1]))
  }

  /** A rank of at most nine squares reads back as the symbols on its squares. */
  lemma {:induction false} RankRoundTrip(row: seq<Option<Piece>>)
    requires |row| <= 9
    ensures Expand(Rank(row)) == SymbolsOf(row)
    decreases |row|
  {
    if row == [] {
    } else if row[0].Some? {
      var sym := Symbol(row[0].value);
      SymbolIsLetter(row[0].value);
      RankRoundTrip(row[1..]);
      ExpandAppend([sym], Rank(row[1..]));
      assert Expand([sym]) == [Some(sym)] + Expand([]);
      assert SymbolsOf(row) == [Some(sym)] + SymbolsOf(row[1..]);
    } else {
      var k := LeadingEmpty(row);
      var d := DigitChar(k);
      assert NatToString(k) == [d];
      RankRoundTrip(row[k..]);
      ExpandAppend([d], Rank(row[k..]));
      assert Expand([d]) == seq(k, _ => None) + Expand([]);
      assert SymbolsOf(row) == seq(k, _ => None) + SymbolsOf(row[k..]);
    }
  }

  /**
   * A rank text of at most nine squares never has two digits in a row: each
   * run of empty squares is flushed as one digit, and only before a piece or
   * at the end of the rank.
   */
  lemma {:induction false} RankDigitsApart(row: seq<Option<Piece>>)
    requires |row| <= 9
    ensures NoAdjacentDigits(Rank(row))
    ensures row != [] && row[0].Some? ==> !IsDigit(Rank(row)[0])
    decreases |row|
  {
    if row == [] {
    } else if row[0].Some? {
      SymbolIsLetter(row[0].value);
      RankDigitsApart(row[1..]);
      JoinDigitsApart(Symbol(row[0].value), Rank(row[1..]));
    } else {
      var k := LeadingEmpty(row);
      assert NatToString(k) == [DigitChar(k)];
      RankDigitsApart(row[k..]);
      JoinDigitsApart(DigitChar(k), Rank(row[k..]));
    }
  }

  /** A character in front of a text with no adjacent digits adds none unless both are digits. */
  lemma JoinDigitsApart(ch: char, t: string)
    requires NoAdjacentDigits(t)
    requires t != [] && IsDigit(ch) ==> !IsDigit(t[0])
    ensures NoAdjacentDigits([ch] + t)
  {
    var u := [ch] + t;
    forall i | 0 <= i < |u| - 1 ensures !(IsDigit(u[i]) && IsDigit(u[i + 1])) {
      if i > 0 {
        assert u[i] == t[i - 1] && u[i + 1] == t[i];
      }
    }
  }

  /** Every rank text of a board covers exactly eight squares. */
  lemma RankWidth(g: Grid, r: int)
    requires 0 <= r < 8
    ensures Width(Rank(g[r])) == 8
  {
    RankRoundTrip(g[r]);
    ExpandLength(Rank(g[r]));
  }

  /** The number of times `ch` occurs in `s`. */
  function Occurrences(s: string, ch: char): nat
    decreases |s|
  {
    if s == [] then 0 else (if s[0] == ch then 1 else 0) + Occurrences(s[1..], ch)
  }

  lemma {:induction false} OccurrencesAppend(x: string, y: string, ch: char)
    ensures Occurrences(x + y, ch) == Occurrences(x, ch) + Occurrences(y, ch)
    decreases |x|
  {
    if x == [] {
      assert x + y == y;
    } else {
      assert (x + y)[0] == x[0];
      assert (x + y)[1..] == x[1..] + y;
      OccurrencesAppend(x[1..], y, ch);
    }
  }

  /** A rank text holds no '/'. */
  lemma {:induction false} RankHasNoSlash(row: seq<Option<Piece>>)
    ensures Occurrences(Rank(row), '/') == 0
    decreases |row|
  {
    if row == [] {
    } else if row[0].Some? {
      SymbolIsLetter(row[0].value);
      RankHasNoSlash(row[1..]);
      OccurrencesAppend([Symbol(row[0].value)], Rank(row[1..]), '/');
    } else {
      var k := LeadingEmpty(row);
      RankHasNoSlash(row[k..]);
      OccurrencesAppend(NatToString(k), Rank(row[k..]), '/');
      DigitsHaveNoSlash(NatToString(k));
    }
  }

  lemma {:induction false} DigitsHaveNoSlash(s: string)
    requires AllDigits(s)
    ensures Occurrences(s, '/') == 0
    decreases |s|
  {
    if s != [] {
      DigitsHaveNoSlash(s[1..]);
    }
  }

  /** The first `n` ranks hold one '/' after each rank but the last. */
  lemma {:induction false} SlashesUpTo(g: Grid, n: nat)
    requires n <= 8
    ensures Occurrences(RanksUpTo(g, n), '/') == if n == 8 then 7 else n
  {
    if n > 0 {
      SlashesUpTo(g, n - 1);
      RankHasNoSlash(g[n - 1]);
      var sep := if n - 1 < 7 then "/" else "";
      OccurrencesAppend(RanksUpTo(g, n - 1), Rank(g[n - 1]), '/');
      OccurrencesAppend(RanksUpTo(g, n - 1) + Rank(g[n - 1]), sep, '/');
      assert Occurrences(sep, '/') == (if n - 1 < 7 then 1 else 0) by {
        if n - 1 < 7 {
          assert sep[1..] == [];
        }
      }
    }
  }

  /** The placement field separates its eight ranks with exactly seven '/'. */
  lemma PlacementSlashes(g: Grid)
    ensures Occurrences(Placement(g), '/') == 7
  {
    SlashesUpTo(g, 8);
  }

  /** The en-passant field is the board's own coordinate notation for the target. */
  lemma EnPassantFieldIsCoordinate(s: Square)
    requires OnBoard(s)
    ensures EnPassantField(Some(s)) == ToAlgebraic(s)
  {
    assert "abcdefgh"[s.col] == ('a' as int + s.col) as char by {
      assert "abcdefgh"[0] == 'a' && "abcdefgh"[1] == 'b' && "abcdefgh"[2] == 'c' && "abcdefgh"[3] == 'd';
      assert "abcdefgh"[4] == 'e' && "abcdefgh"[5] == 'f' && "abcdefgh"[6] == 'g' && "abcdefgh"[7] == 'h';
    }
  }
}
