/**
 * The ray loop that src/pieces/bishop.py, rook.py and queen.py each run:
 * for every direction, step a cursor until it leaves the board, collecting
 * empty squares, collecting the first enemy square and stopping there, and
 * stopping before a friendly square.
 */
module Sliding {
  import opened Wrappers
  import opened Geometry
  import opened Pieces
  import opened Grids

  /** The squares `Step(from, d, 1)`, ..., `Step(from, d, n)` in order. */
  function RaySquares(from: Square, d: Dir, n: nat): (s: seq<Square>)
    ensures |s| == n && forall j :: 0 <= j < n ==> s[j] == Step(from, d, j + 1)
  {
    seq(n, j requires 0 <= j < n => Step(from, d, j + 1))
  }

  /**
   * One `while True` ray of a sliding piece: the result is the run of
   * consecutive squares along `d` up to the first blocker, and holds exactly
   * the ray's destinations.
   */
  method CastRay(g: Grid, position: Square, color: Color, d: Dir) returns (ray: seq<Square>)
    requires OnBoard(position)
    ensures ray == RaySquares(position, d, |ray|)
    ensures forall j :: ReachableOnRay(g, position, d, color, j) <==> 1 <= j <= |ray|
  {
    ray := [];
    var currentRow, currentCol := position.row, position.col;
    ghost var i := 0;
    while true
      invariant 0 <= i <= 7
      invariant Square(currentRow, currentCol) == Step(position, d, i) && OnBoard(Step(position, d, i))
      invariant forall j :: 1 <= j <= i ==> OnBoard(Step(position, d, j)) && IsEmpty(g, Step(position, d, j))
      invariant |ray| == i && forall j :: 0 <= j < i ==> ray[j] == Step(position, d, j + 1)
      decreases 7 - i
    {
      StepSucc(position, d, i);
      currentRow := currentRow + DRow(d);
      currentCol := currentCol + DCol(d);
      var pos := Square(currentRow, currentCol);
      if !OnBoard(pos) {
        break;
      }
      RayBound(position, d, i + 1);
      var target := g[pos.row][pos.col];
      if target.None? {
        ray := ray + [pos];
        i := i + 1;
      } else if target.value.color != color {
        ray := ray + [pos];
        break;
      } else {
        break;
      }
    }
    RayReach(g, position, d, color, i, |ray|);
    SquaresOfRay(position, d, ray);
  }

  /** A run of squares that are the successive steps along `d` is the ray's prefix of that length. */
  lemma SquaresOfRay(from: Square, d: Dir, ray: seq<Square>)
    requires forall j :: 0 <= j < |ray| ==> ray[j] == Step(from, d, j + 1)
    ensures ray == RaySquares(from, d, |ray|)
  {
  }

  /** `RayExtent` stated with the resulting number of destinations. */
  lemma RayReach(g: Grid, from: Square, d: Dir, color: Color, n: nat, len: nat)
    requires forall j :: 1 <= j <= n ==> OnBoard(Step(from, d, j)) && IsEmpty(g, Step(from, d, j))
    requires !OnBoard(Step(from, d, n + 1)) || !IsEmpty(g, Step(from, d, n + 1))
    requires len == if OnBoard(Step(from, d, n + 1)) && Enemy(g, Step(from, d, n + 1), color) then n + 1 else n
    ensures forall j :: ReachableOnRay(g, from, d, color, j) <==> 1 <= j <= len
  {
    RayExtent(g, from, d, color, n);
  }

  /**
   * The reach of a ray whose first `n` squares are on the board and empty and
   * whose next square is off the board or occupied: those `n` squares, plus the
   * next one exactly when it holds an enemy.
   */
  lemma RayExtent(g: Grid, from: Square, d: Dir, color: Color, n: nat)
    requires forall j :: 1 <= j <= n ==> OnBoard(Step(from, d, j)) && IsEmpty(g, Step(from, d, j))
    requires !OnBoard(Step(from, d, n + 1)) || !IsEmpty(g, Step(from, d, n + 1))
    ensures forall j :: ReachableOnRay(g, from, d, color, j) <==>
      1 <= j <= n || (j == n + 1 && OnBoard(Step(from, d, n + 1)) && Enemy(g, Step(from, d, n + 1), color))
  {
    forall j | j > n + 1 ensures !ReachableOnRay(g, from, d, color, j) {
      if OnBoard(Step(from, d, n + 1)) {
        RayStopsAtFirstPiece(g, from, d, color, n + 1, j);
      }
    }
  }

  /** A run of ray squares holds exactly the ray's destinations when its length is the reach. */
  lemma RaySquaresTargets(g: Grid, position: Square, d: Dir, color: Color, ray: seq<Square>)
    requires ray == RaySquares(position, d, |ray|)
    requires forall j :: ReachableOnRay(g, position, d, color, j) <==> 1 <= j <= |ray|
    ensures forall t :: t in ray <==> RayTarget(g, position, d, color, t)
  {
    forall t | t in ray ensures RayTarget(g, position, d, color, t) {
      var j :| 0 <= j < |ray| && t == ray[j];
      RayIndexStep(position, d, j + 1);
    }
    forall t | RayTarget(g, position, d, color, t) ensures t in ray {
      var i := RayIndex(position, d, t);
      assert ray[i - 1] == t;
    }
  }

  /** Squares on two different rays from one origin never coincide, so appending a new ray adds no repeat. */
  lemma AppendRayNoDuplicates(g: Grid, color: Color, position: Square, moves: seq<Square>, ray: seq<Square>, d: Dir, done: seq<Dir>)
    requires NoDuplicates(moves) && d !in done
    requires forall t :: t in moves ==> exists e :: e in done && RayTarget(g, position, e, color, t)
    requires ray == RaySquares(position, d, |ray|)
    ensures NoDuplicates(moves + ray)
  {
    forall a, b | 0 <= a < |moves| && 0 <= b < |ray| ensures moves[a] != ray[b] {
      assert moves[a] in moves;
      var e :| e in done && RayTarget(g, position, e, color, moves[a]);
      RaysDisjoint(position, e, RayIndex(position, e, moves[a]), d, b + 1);
    }
    forall a, b | 0 <= a < b < |ray| ensures ray[a] != ray[b] {
      RayIndexStep(position, d, a + 1);
      RayIndexStep(position, d, b + 1);
    }
  }

  /** All rays of a sliding piece, concatenated in the order of `directions`. */
  method CastRays(board: PieceBoard, position: Square, color: Color, directions: seq<Dir>)
    returns (moves: seq<Square>)
    requires OnBoard(position)
    ensures forall t :: t in moves <==> SlideTarget(board.cells, position, color, directions, t)
    ensures forall t :: t in moves ==> OnBoard(t) && t != position && !Friendly(board.cells, t, color)
    ensures NoDuplicates(directions) ==> NoDuplicates(moves)
  {
    var g := board.cells;
    moves := [];
    for k := 0 to |directions|
      invariant forall t :: t in moves <==> exists e :: e in directions[..k] && RayTarget(g, position, e, color, t)
      invariant NoDuplicates(directions) ==> NoDuplicates(moves)
    {
      var d := directions[k];
      var ray := CastRay(g, position, color, d);
      RaySquaresTargets(g, position, d, color, ray);
      if NoDuplicates(directions) {
        assert d !in directions[..k];
        AppendRayNoDuplicates(g, color, position, moves, ray, d, directions[..k]);
      }
      assert directions[..k + 1] == directions[..k] + [d];
      moves := moves + ray;
    }
    assert directions[..|directions|] == directions;
    forall t | t in moves ensures OnBoard(t) && t != position && !Friendly(g, t, color) {
      var e :| e in directions && RayTarget(g, position, e, color, t);
      RayTargetShape(g, position, e, color, t);
    }
  }
}
