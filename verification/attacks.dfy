/**
 * `_is_square_attacked` and `is_in_check` of src/board.py: which squares a
 * colour attacks, stated on the decoded grid, and the scanning methods that
 * decide it on the character grid.
 */
module Attacks {
  import opened Wrappers
  import opened Geometry
  import opened Pieces
  import opened Grids
  import opened BoardState

  /** The i-th square along `d` is the first occupied one, every square up to it being on the board. */
  predicate FirstOnRay(g: Grid, from: Square, d: Dir, i: int) {
    && 1 <= i
    && (forall j :: 1 <= j <= i ==> OnBoard(Step(from, d, j)))
    && (forall j :: 1 <= j < i ==> IsEmpty(g, Step(from, d, j)))
    && !IsEmpty(g, Step(from, d, i))
  }

  /** A ray has at most one first occupied square. */
  lemma FirstOnRayUnique(g: Grid, from: Square, d: Dir, i: int, k: int)
    requires FirstOnRay(g, from, d, i) && FirstOnRay(g, from, d, k)
    ensures i == k
  {
  }

  /**
   * Along `d` the first occupied square holds a `c` slider of kind `slider`
   * (rook on a line, bishop on a diagonal), a `c` queen, or, right next to
   * the square, the `c` king.
   */
  ghost predicate RayAttack(g: Grid, pos: Square, d: Dir, c: Color, slider: Kind) {
    exists i :: FirstOnRay(g, pos, d, i) &&
      (HasPiece(g, Step(pos, d, i), c, slider) || HasPiece(g, Step(pos, d, i), c, Queen) ||
       (i == 1 && HasPiece(g, Step(pos, d, i), c, King)))
  }

  /** A `c` pawn stands one row behind `pos`, as seen from its own advance, on an adjacent file. */
  predicate PawnAttack(g: Grid, pos: Square, c: Color) {
    var r := pos.row + (if c == White then 1 else -1);
    HasPiece(g, Square(r, pos.col - 1), c, Pawn) || HasPiece(g, Square(r, pos.col + 1), c, Pawn)
  }

  ghost predicate KnightAttack(g: Grid, pos: Square, c: Color) {
    exists s :: KnightJump(pos, s) && HasPiece(g, s, c, Knight)
  }

  /** `pos` is attacked by colour `c`. */
  ghost predicate Attacked(g: Grid, pos: Square, c: Color) {
    || PawnAttack(g, pos, c)
    || KnightAttack(g, pos, c)
    || (exists d :: d in Orthogonal && RayAttack(g, pos, d, c, Rook))
    || (exists d :: d in Diagonal && RayAttack(g, pos, d, c, Bishop))
  }

  /** A king attacks every square next to it: it is the first piece on the ray towards that square. */
  lemma AdjacentKingAttacks(g: Grid, pos: Square, s: Square, c: Color)
    requires OnBoard(pos) && OnBoard(s) && KingStep(pos, s) && HasPiece(g, s, c, King)
    ensures Attacked(g, pos, c)
  {
    var d :=
      if s.row < pos.row then (if s.col < pos.col then UpLeft else if s.col > pos.col then UpRight else Up)
      else if s.row > pos.row then (if s.col < pos.col then DownLeft else if s.col > pos.col then DownRight else Down)
      else if s.col < pos.col then Left else Right;
    assert Step(pos, d, 1) == s;
    assert FirstOnRay(g, pos, d, 1);
    if d in Orthogonal {
      assert RayAttack(g, pos, d, c, Rook);
    } else {
      assert d in Diagonal && RayAttack(g, pos, d, c, Bishop);
    }
  }

  /**
   * The first `n` squares along `d` are on the board and empty and the next one
   * is off the board or occupied: that next one is the ray's only first occupied square.
   */
  lemma FirstOnRayAt(g: Grid, from: Square, d: Dir, n: nat)
    requires forall j :: 1 <= j <= n ==> OnBoard(Step(from, d, j)) && IsEmpty(g, Step(from, d, j))
    requires !OnBoard(Step(from, d, n + 1)) || !IsEmpty(g, Step(from, d, n + 1))
    ensures forall k :: FirstOnRay(g, from, d, k) <==> k == n + 1 && OnBoard(Step(from, d, n + 1))
  {
    forall k | FirstOnRay(g, from, d, k) ensures k == n + 1 {
    }
  }

  /** A ray whose first occupied square is the (n+1)-th is an attack exactly when that square holds an attacker. */
  lemma RayAttackAt(g: Grid, pos: Square, d: Dir, c: Color, slider: Kind, n: nat)
    requires forall j :: 1 <= j <= n ==> OnBoard(Step(pos, d, j)) && IsEmpty(g, Step(pos, d, j))
    requires OnBoard(Step(pos, d, n + 1)) && !IsEmpty(g, Step(pos, d, n + 1))
    ensures RayAttack(g, pos, d, c, slider) <==>
      var t := Step(pos, d, n + 1);
      HasPiece(g, t, c, slider) || HasPiece(g, t, c, Queen) || (n == 0 && HasPiece(g, t, c, King))
  {
    FirstOnRayAt(g, pos, d, n);
  }

  /** A ray that reaches the edge of the board before any piece is no attack. */
  lemma RayAttackClear(g: Grid, pos: Square, d: Dir, c: Color, slider: Kind, n: nat)
    requires forall j :: 1 <= j <= n ==> OnBoard(Step(pos, d, j)) && IsEmpty(g, Step(pos, d, j))
    requires !OnBoard(Step(pos, d, n + 1))
    ensures !RayAttack(g, pos, d, c, slider)
  {
    FirstOnRayAt(g, pos, d, n);
  }

  /** One ray of `_is_square_attacked`: `for i in range(1, 8)`, stopping at the edge or the first piece. */
  method RayAttacked(b: CharGrid, pos: Square, d: Dir, c: Color, slider: Kind) returns (hit: bool)
    requires ValidChars(b) && OnBoard(pos)
    ensures hit == RayAttack(Decode(b), pos, d, c, slider)
  {
    ghost var g := Decode(b);
    var sliderChar, queenChar, kingChar := SymbolOf(c, slider), SymbolOf(c, Queen), SymbolOf(c, King);
    for i := 1 to 8
      invariant forall j :: 1 <= j < i ==> OnBoard(Step(pos, d, j)) && IsEmpty(g, Step(pos, d, j))
    {
      var t := Step(pos, d, i);
      if !OnBoard(t) {
        RayAttackClear(g, pos, d, c, slider, i - 1);
        return false;
      }
      var piece := b[t.row][t.col];
      EmptyReading(b, t);
      if piece != '.' {
        RayAttackAt(g, pos, d, c, slider, i - 1);
        SymbolReading(b, t, c, slider);
        SymbolReading(b, t, c, Queen);
        SymbolReading(b, t, c, King);
        return piece == sliderChar || piece == queenChar || (i == 1 && piece == kingChar);
      }
    }
    RayLeavesBoard(pos, d);
    RayAttackClear(g, pos, d, c, slider, 7);
    return false;
  }

  /** The knight offsets in the order src/board.py tries them. */
  const KnightOffsets: seq<(int, int)> := [(2, 1), (2, -1), (-2, 1), (-2, -1), (1, 2), (1, -2), (-1, 2), (-1, -2)]

  lemma KnightJumpIsOffset(pos: Square, s: Square)
    requires KnightJump(pos, s)
    ensures exists k :: 0 <= k < 8 && s == Square(pos.row + KnightOffsets[k].0, pos.col + KnightOffsets[k].1)
  {
    var dr, dc := s.row - pos.row, s.col - pos.col;
    var k :=
      if dr == 2 then (if dc == 1 then 0 else 1)
      else if dr == -2 then (if dc == 1 then 2 else 3)
      else if dr == 1 then (if dc == 2 then 4 else 5)
      else if dc == 2 then 6 else 7;
    assert s == Square(pos.row + KnightOffsets[k].0, pos.col + KnightOffsets[k].1);
  }

  /** The pawn test of `_is_square_attacked`: the two squares a `c` pawn would attack `pos` from. */
  method PawnAttacked(b: CharGrid, pos: Square, attackerColor: Color) returns (hit: bool)
    requires OnBoard(pos)
    ensures hit == PawnAttack(Decode(b), pos, attackerColor)
  {
    var r, c := pos.row, pos.col;
    var pawnChar := if attackerColor == White then 'P' else 'p';
    var pawnDir := if attackerColor == White then 1 else -1;
    assert pawnChar == SymbolOf(attackerColor, Pawn);
    if 0 <= r + pawnDir < 8 {
      if 0 <= c - 1 < 8 {
        SymbolReading(b, Square(r + pawnDir, c - 1), attackerColor, Pawn);
        if b[r + pawnDir][c - 1] == pawnChar {
          return true;
        }
      }
      if 0 <= c + 1 < 8 {
        SymbolReading(b, Square(r + pawnDir, c + 1), attackerColor, Pawn);
        if b[r + pawnDir][c + 1] == pawnChar {
          return true;
        }
      }
    }
    return false;
  }

  /** The knight loop of `_is_square_attacked` over the eight jumps. */
  method KnightAttacked(b: CharGrid, pos: Square, attackerColor: Color) returns (hit: bool)
    requires OnBoard(pos)
    ensures hit == KnightAttack(Decode(b), pos, attackerColor)
  {
    ghost var g := Decode(b);
    var r, c := pos.row, pos.col;
    var knightChar := if attackerColor == White then 'N' else 'n';
    assert knightChar == SymbolOf(attackerColor, Knight);
    for k := 0 to 8
      invariant forall j :: 0 <= j < k ==>
        !HasPiece(g, Square(r + KnightOffsets[j].0, c + KnightOffsets[j].1), attackerColor, Knight)
    {
      var nr, nc := r + KnightOffsets[k].0, c + KnightOffsets[k].1;
      if 0 <= nr < 8 && 0 <= nc < 8 {
        SymbolReading(b, Square(nr, nc), attackerColor, Knight);
        if b[nr][nc] == knightChar {
          assert KnightJump(pos, Square(nr, nc));
          return true;
        }
      }
    }
    forall s | KnightJump(pos, s) ensures !HasPiece(g, s, attackerColor, Knight) {
      KnightJumpIsOffset(pos, s);
    }
    return false;
  }

  /** `_is_square_attacked(pos, attacker_color)`: pawns, knights, then the four lines and the four diagonals. */
  method IsSquareAttacked(b: CharGrid, pos: Square, attackerColor: Color) returns (attacked: bool)
    requires ValidChars(b) && OnBoard(pos)
    ensures attacked == Attacked(Decode(b), pos, attackerColor)
  {
    ghost var g := Decode(b);
    attacked := PawnAttacked(b, pos, attackerColor);
    if attacked {
      return;
    }
    attacked := KnightAttacked(b, pos, attackerColor);
    if attacked {
      return;
    }
    for k := 0 to 4
      invariant forall e :: e in Orthogonal[..k] ==> !RayAttack(g, pos, e, attackerColor, Rook)
    {
      var hit := RayAttacked(b, pos, Orthogonal[k], attackerColor, Rook);
      if hit {
        return true;
      }
      assert Orthogonal[..k + 1] == Orthogonal[..k] + [Orthogonal[k]];
    }
    assert Orthogonal[..4] == Orthogonal;

    for k := 0 to 4
      invariant forall e :: e in Diagonal[..k] ==> !RayAttack(g, pos, e, attackerColor, Bishop)
    {
      var hit := RayAttacked(b, pos, Diagonal[k], attackerColor, Bishop);
      if hit {
        return true;
      }
      assert Diagonal[..k + 1] == Diagonal[..k] + [Diagonal[k]];
    }
    assert Diagonal[..4] == Diagonal;
    return false;
  }

  /** The position of a square in the row-major order of src/board.py's double loops. */
  function IndexOf(s: Square): int {
    8 * s.row + s.col
  }

  /** The first square in row-major order, from index `k` on, holding a `c` king. */
  function FirstKingFrom(g: Grid, c: Color, k: nat): (r: Option<Square>)
    requires k <= 64
    ensures r.Some? ==> OnBoard(r.value) && HasPiece(g, r.value, c, King) && k <= IndexOf(r.value)
    ensures r.Some? ==> forall s :: OnBoard(s) && k <= IndexOf(s) < IndexOf(r.value) ==> !HasPiece(g, s, c, King)
    ensures r.None? ==> forall s :: OnBoard(s) && k <= IndexOf(s) ==> !HasPiece(g, s, c, King)
    decreases 64 - k
  {
    if k == 64 then None
    else
      var here := Square(k / 8, k % 8);
      assert forall s :: OnBoard(s) && IndexOf(s) == k ==> s == here;
      if HasPiece(g, here, c, King) then Some(here) else FirstKingFrom(g, c, k + 1)
  }

  /** The `c` king that `is_in_check` finds: the first in row-major order. */
  function FirstKing(g: Grid, c: Color): Option<Square> {
    FirstKingFrom(g, c, 0)
  }

  /**
   * `is_in_check(color)`: the first `color` king found is attacked by the other
   * colour; with no such king, no check.
   */
  ghost predicate InCheck(g: Grid, c: Color) {
    match FirstKing(g, c)
    case None => false
    case Some(s) => Attacked(g, s, Opponent(c))
  }

  /** Check needs a king: a side in check has a king, and that king is attacked. */
  lemma InCheckHasKing(g: Grid, c: Color)
    requires InCheck(g, c)
    ensures exists s :: OnBoard(s) && HasPiece(g, s, c, King) && Attacked(g, s, Opponent(c))
  {
    var s := FirstKing(g, c).value;
    assert OnBoard(s) && HasPiece(g, s, c, King);
  }

  /** `is_in_check` reports no check for a side without a king. */
  lemma NoKingNoCheck(g: Grid, c: Color)
    requires forall s :: OnBoard(s) ==> !HasPiece(g, s, c, King)
    ensures !InCheck(g, c)
  {
  }

  /** The first `c` king in row-major order, found on `k` with none before it, is the one `FirstKing` names. */
  lemma FirstKingIs(g: Grid, c: Color, k: Square)
    requires OnBoard(k) && HasPiece(g, k, c, King)
    requires forall s :: OnBoard(s) && IndexOf(s) < IndexOf(k) ==> !HasPiece(g, s, c, King)
    ensures FirstKing(g, c) == Some(k)
  {
    var r := FirstKing(g, c);
    var f := r.value;
    assert IndexOf(f) <= IndexOf(k);
    assert IndexOf(k) <= IndexOf(f);
    IndexOfInjective(f, k);
  }

  /** Distinct squares of the board have distinct row-major positions. */
  lemma IndexOfInjective(s: Square, t: Square)
    requires OnBoard(s) && OnBoard(t) && IndexOf(s) == IndexOf(t)
    ensures s == t
  {
  }

  /**
   * Attacks by `o` depend only on which squares are empty and on where `o`'s
   * pieces stand: two grids that agree on both give `o` the same attacks.
   */
  lemma AttackedDependsOnAttacker(g1: Grid, g2: Grid, pos: Square, o: Color)
    requires forall s :: IsEmpty(g1, s) <==> IsEmpty(g2, s)
    requires forall s, k :: HasPiece(g1, s, o, k) <==> HasPiece(g2, s, o, k)
    ensures Attacked(g1, pos, o) <==> Attacked(g2, pos, o)
  {
    forall d, i ensures FirstOnRay(g1, pos, d, i) <==> FirstOnRay(g2, pos, d, i) {
    }
    forall d, slider ensures RayAttack(g1, pos, d, o, slider) <==> RayAttack(g2, pos, d, o, slider) {
    }
  }

  /** Two grids with their `c` kings on the same squares find the same first `c` king. */
  lemma {:induction false} FirstKingAgrees(g1: Grid, g2: Grid, c: Color, k: nat)
    requires k <= 64
    requires forall s :: HasPiece(g1, s, c, King) <==> HasPiece(g2, s, c, King)
    ensures FirstKingFrom(g1, c, k) == FirstKingFrom(g2, c, k)
    decreases 64 - k
  {
    if k < 64 {
      FirstKingAgrees(g1, g2, c, k + 1);
    }
  }

  /**
   * Whether `c` is in check depends only on the empty squares, on where the
   * opponent's pieces stand and on where `c`'s kings stand: the other pieces
   * of `c` block rays the same way whatever their kind.
   */
  lemma InCheckDependsOn(g1: Grid, g2: Grid, c: Color)
    requires forall s :: IsEmpty(g1, s) <==> IsEmpty(g2, s)
    requires forall s, k :: HasPiece(g1, s, Opponent(c), k) <==> HasPiece(g2, s, Opponent(c), k)
    requires forall s :: HasPiece(g1, s, c, King) <==> HasPiece(g2, s, c, King)
    ensures InCheck(g1, c) <==> InCheck(g2, c)
  {
    FirstKingAgrees(g1, g2, c, 0);
    if FirstKing(g1, c).Some? {
      AttackedDependsOnAttacker(g1, g2, FirstKing(g1, c).value, Opponent(c));
    }
  }

  /** `is_in_check(color)` on the character grid. */
  method IsInCheck(b: CharGrid, color: Color) returns (check: bool)
    requires ValidChars(b)
    ensures check == InCheck(Decode(b), color)
  {
    ghost var g := Decode(b);
    var kingChar := if color == White then 'K' else 'k';
    assert kingChar == SymbolOf(color, King);
    var kingPos: Option<Square> := None;
    for r := 0 to 8
      invariant kingPos.None?
      invariant forall s :: OnBoard(s) && IndexOf(s) < 8 * r ==> !HasPiece(g, s, color, King)
    {
      for c := 0 to 8
        invariant kingPos.None?
        invariant forall s :: OnBoard(s) && IndexOf(s) < 8 * r + c ==> !HasPiece(g, s, color, King)
      {
        SymbolReading(b, Square(r, c), color, King);
        if b[r][c] == kingChar {
          FirstKingIs(g, color, Square(r, c));
          kingPos := Some(Square(r, c));
          break;
        }
      }
      if kingPos.Some? {
        break;
      }
    }
    if kingPos.None? {
      return false;
    }
    var opponentColor := if color == White then Black else White;
    check := IsSquareAttacked(b, kingPos.value, opponentColor);
  }
}
