/**
 * `ChessBoard.get_position_hash` of src/board.py: the 64 grid characters, the
 * first letter of the side to move, the held castling rights as "KQkq" letters
 * ('-' when none) and the en-passant square, separated by spaces. The move
 * counters are not part of it.
 */
module Fingerprint {
  import opened Wrappers
  import opened Text
  import opened Geometry
  import opened Pieces
  import opened BoardState

  /** `"".join("".join(row) for row in rows)`. */
  function Flatten(rows: seq<seq<char>>): string {
    if rows == [] then [] else Flatten(rows[..|rows| - 1]) + rows[|rows| - 1]
  }

  /** Flattening rows of eight characters puts row `r`, column `c` at position `8 * r + c`. */
  lemma {:induction false} FlattenIndex(rows: seq<seq<char>>)
    requires forall r :: 0 <= r < |rows| ==> |rows[r]| == 8
    ensures |Flatten(rows)| == 8 * |rows|
    ensures forall r, c :: 0 <= r < |rows| && 0 <= c < 8 ==> Flatten(rows)[8 * r + c] == rows[r][c]
    decreases |rows|
  {
    if rows != [] {
      var init := rows[..|rows| - 1];
      FlattenIndex(init);
      forall r, c | 0 <= r < |rows| && 0 <= c < 8 ensures Flatten(rows)[8 * r + c] == rows[r][c] {
        if r < |rows| - 1 {
          assert rows[r] == init[r];
        }
      }
    }
  }

  /** The castling field: a letter per held right, in the order K, Q, k, q, or '-' when none is held. */
  function CastlingText(cr: CastlingRights): (t: string)
    ensures 1 <= |t| <= 4 && ' ' !in t
    ensures ('K' in t <==> cr.white.kingside) && ('Q' in t <==> cr.white.queenside)
    ensures ('k' in t <==> cr.black.kingside) && ('q' in t <==> cr.black.queenside)
  {
    var t := (if cr.white.kingside then "K" else "") + (if cr.white.queenside then "Q" else "")
      + (if cr.black.kingside then "k" else "") + (if cr.black.queenside then "q" else "");
    if t == "" then "-" else t
  }

  /** The en-passant field: the target in coordinate notation, or '-'. */
  function EnPassantText(ep: Option<Square>): (t: string)
    requires ep.Some? ==> OnBoard(ep.value)
    ensures ' ' !in t && (ep.None? <==> t == "-")
  {
    if ep.Some? then ToAlgebraic(ep.value) else "-"
  }

  /** `self.turn[0]`: 'w' or 'b'. */
  function TurnLetter(c: Color): char {
    if c == White then 'w' else 'b'
  }

  /** `get_position_hash()`. */
  function PositionHash(p: Position): string
    requires p.enPassant.Some? ==> OnBoard(p.enPassant.value)
  {
    Flatten(p.board) + " " + [TurnLetter(p.turn)] + " " + CastlingText(p.castling) + " " + EnPassantText(p.enPassant)
  }

  /** Concatenations whose first parts have the same length split into equal parts. */
  lemma SplitAt(a: string, b: string, c: string, d: string)
    requires |a| == |c| && a + b == c + d
    ensures a == c && b == d
  {
    assert a == (a + b)[..|a|];
    assert c == (c + d)[..|c|];
    assert b == (a + b)[|a|..];
    assert d == (c + d)[|c|..];
  }

  /** When the first word is the shorter, the longer one has the separating space inside it. */
  lemma SpaceInside(a: string, b: string, c: string, d: string)
    requires |a| < |c| && a + " " + b == c + " " + d
    ensures ' ' in c
  {
    assert c[|a|] == (c + " " + d)[|a|] == (a + " " + b)[|a|];
  }

  /** Two space-free words joined by a space split back into the same words. */
  lemma SplitAtSpace(a: string, b: string, c: string, d: string)
    requires ' ' !in a && ' ' !in c && a + " " + b == c + " " + d
    ensures a == c && b == d
  {
    if |a| < |c| {
      SpaceInside(a, b, c, d);
    } else if |c| < |a| {
      SpaceInside(c, d, a, b);
    }
    assert a + (" " + b) == a + " " + b;
    assert c + (" " + d) == c + " " + d;
    SplitAt(a, " " + b, c, " " + d);
    assert b == (" " + b)[1..] && d == (" " + d)[1..];
  }

  /** Two grids with the same flattening are the same grid. */
  lemma FlattenInjective(b: CharGrid, b': CharGrid)
    requires Flatten(b) == Flatten(b')
    ensures b == b'
  {
    FlattenIndex(b);
    FlattenIndex(b');
    forall r | 0 <= r < 8 ensures b[r] == b'[r] {
      assert forall c :: 0 <= c < 8 ==> b[r][c] == Flatten(b)[8 * r + c];
      assert forall c :: 0 <= c < 8 ==> b'[r][c] == Flatten(b')[8 * r + c];
    }
  }

  /** The castling field determines the castling rights. */
  lemma CastlingTextInjective(cr: CastlingRights, cr': CastlingRights)
    requires CastlingText(cr) == CastlingText(cr')
    ensures cr == cr'
  {
  }

  /** The en-passant field determines the en-passant target. */
  lemma EnPassantTextInjective(ep: Option<Square>, ep': Option<Square>)
    requires ep.Some? ==> OnBoard(ep.value)
    requires ep'.Some? ==> OnBoard(ep'.value)
    requires EnPassantText(ep) == EnPassantText(ep')
    ensures ep == ep'
  {
    if ep.Some? && ep'.Some? {
      ToAlgebraicInjective(ep.value, ep'.value);
    }
  }

  /** The fingerprint cut at its separators: the 64 grid characters, then the remaining fields. */
  lemma HashShape(p: Position)
    requires p.enPassant.Some? ==> OnBoard(p.enPassant.value)
    ensures |Flatten(p.board)| == 64
    ensures PositionHash(p) == Flatten(p.board) + FieldsText(p.turn, p.castling, p.enPassant)
  {
    FlattenIndex(p.board);
  }

  /** The fields after the grid: a space, the side to move, a space, the castling field, a space, the en-passant field. */
  function FieldsText(c: Color, cr: CastlingRights, ep: Option<Square>): string
    requires ep.Some? ==> OnBoard(ep.value)
  {
    [' ', TurnLetter(c), ' '] + (CastlingText(cr) + (" " + EnPassantText(ep)))
  }

  /** The field texts split back into the side-to-move letter, the castling field and the en-passant field. */
  lemma SplitFields(x: char, t: string, e: string, x': char, t': string, e': string)
    requires ' ' !in t && ' ' !in t'
    requires [' ', x, ' '] + (t + (" " + e)) == [' ', x', ' '] + (t' + (" " + e'))
    ensures x == x' && t == t' && e == e'
  {
    SplitAt([' ', x, ' '], t + (" " + e), [' ', x', ' '], t' + (" " + e'));
    assert x == [' ', x, ' '][1] && x' == [' ', x', ' '][1];
    assert t + " " + e == t + (" " + e) && t' + " " + e' == t' + (" " + e');
    SplitAtSpace(t, e, t', e');
  }

  /** Equal field texts give equal sides to move, castling rights and en-passant targets. */
  lemma FieldsDetermined(c: Color, cr: CastlingRights, ep: Option<Square>, c': Color, cr': CastlingRights, ep': Option<Square>)
    requires ep.Some? ==> OnBoard(ep.value)
    requires ep'.Some? ==> OnBoard(ep'.value)
    requires FieldsText(c, cr, ep) == FieldsText(c', cr', ep')
    ensures c == c' && cr == cr' && ep == ep'
  {
    SplitFields(TurnLetter(c), CastlingText(cr), EnPassantText(ep), TurnLetter(c'), CastlingText(cr'), EnPassantText(ep'));
    CastlingTextInjective(cr, cr');
    EnPassantTextInjective(ep, ep');
  }

  /**
   * The fingerprint identifies a position up to its move counters: two
   * positions share it exactly when their grids, sides to move, castling rights
   * and en-passant targets agree.
   */
  lemma HashIdentifiesPosition(p: Position, q: Position)
    requires p.enPassant.Some? ==> OnBoard(p.enPassant.value)
    requires q.enPassant.Some? ==> OnBoard(q.enPassant.value)
    ensures PositionHash(p) == PositionHash(q) <==>
      p.board == q.board && p.turn == q.turn && p.castling == q.castling && p.enPassant == q.enPassant
  {
    if PositionHash(p) == PositionHash(q) {
      HashShape(p);
      HashShape(q);
      SplitAt(Flatten(p.board), FieldsText(p.turn, p.castling, p.enPassant), Flatten(q.board), FieldsText(q.turn, q.castling, q.enPassant));
      FlattenInjective(p.board, q.board);
      FieldsDetermined(p.turn, p.castling, p.enPassant, q.turn, q.castling, q.enPassant);
    }
  }
}
