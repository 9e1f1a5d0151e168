/**
 * The sliding 8-puzzle of level 1 (frontend/src/components/PuzzleBoard.jsx): a
 * 3×3 board held row by row in a list of nine cells, one of them empty. A click
 * on a cell next to the empty one slides that tile into the gap.
 */
module PuzzleBoard {

  datatype Cell = Empty | Tile(number: int)

  /** The fixed start position (the board is never shuffled). */
  const Start: seq<Cell> := [Tile(8), Tile(6), Tile(4), Tile(3), Empty, Tile(1), Tile(2), Tile(7), Tile(5)]

  /** The solved position: 1 to 8 in reading order, the gap last. */
  const Goal: seq<Cell> := [Tile(1), Tile(2), Tile(3), Tile(4), Tile(5), Tile(6), Tile(7), Tile(8), Empty]

  function Abs(x: int): nat {
    if x < 0 then -x else x
  }

  /** JavaScript's `%`, which keeps the sign of the dividend. */
  function JsRemainder(a: int, b: int): int
    requires b > 0
  {
    if a >= 0 then a % b else -((-a) % b)
  }

  /** `tiles.indexOf(null)`: the first empty cell, or -1. */
  function IndexOfEmpty(tiles: seq<Cell>): (r: int)
    ensures -1 <= r < |tiles|
    ensures r == -1 <==> Empty !in tiles
    ensures r >= 0 ==> tiles[r] == Empty && forall j :: 0 <= j < r ==> tiles[j] != Empty
  {
    if tiles == [] then -1
    else if tiles[0] == Empty then 0
    else
      var r := IndexOfEmpty(tiles[1..]);
      if r == -1 then -1 else r + 1
  }

  /**
   * The test of `moveTile`: same row (`Math.floor(i / 3)`, which is Dafny's `/` for a
   * positive divisor) and one apart, or same column (`i % 3`, JavaScript's
   * remainder) and three apart.
   */
  predicate IsAdjacent(index: int, emptyIndex: int) {
    (index / 3 == emptyIndex / 3 && Abs(index - emptyIndex) == 1) ||
    (JsRemainder(index, 3) == JsRemainder(emptyIndex, 3) && Abs(index - emptyIndex) == 3)
  }

  /** On the board, the rule means the two cells share a side: grid distance one. */
  lemma IsAdjacentIsGridNeighbour(index: int, emptyIndex: int)
    requires 0 <= index < 9 && 0 <= emptyIndex < 9
    ensures IsAdjacent(index, emptyIndex) <==>
      Abs(index / 3 - emptyIndex / 3) + Abs(index % 3 - emptyIndex % 3) == 1
  {
  }

  /**
   * The cells after `moveTile(index)`: a cell next to the gap trades places with it,
   * any other click leaves the cells as they were.
   */
  function Moved(tiles: seq<Cell>, index: int): seq<Cell>
    requires |tiles| == 9 && 0 <= index < 9
  {
    var e := IndexOfEmpty(tiles);
    if 0 <= e && IsAdjacent(index, e) then tiles[index := tiles[e]][e := tiles[index]]
    else tiles
  }

  /** `checkSolution`: every cell equals the solution's cell at the same index. */
  predicate CheckSolution(tiles: seq<Cell>) {
    forall i :: 0 <= i < |tiles| ==> i < |Goal| && tiles[i] == Goal[i]
  }

  /** `isCorrectPosition`: the gap belongs at index 8, tile n at index n - 1. */
  predicate IsCorrectPosition(cell: Cell, index: int) {
    match cell
    case Empty => index == 8
    case Tile(n) => n == index + 1
  }

  /** On a board of nine cells the check holds exactly at the goal. */
  lemma CheckSolutionIsGoal(tiles: seq<Cell>)
    requires |tiles| == 9
    ensures CheckSolution(tiles) <==> tiles == Goal
  {
  }

  /**
   * On a board of the nine pieces, every cell is in its correct position exactly
   * at the goal. (With a tile numbered 9 at index 8 the per-cell test would pass
   * off the goal; the pieces rule that out.)
   */
  lemma CorrectPositionsIsGoal(tiles: seq<Cell>)
    requires IsArrangement(tiles)
    ensures (forall i :: 0 <= i < 9 ==> IsCorrectPosition(tiles[i], i)) <==> tiles == Goal
  {
    if forall i :: 0 <= i < 9 ==> IsCorrectPosition(tiles[i], i) {
      forall i | 0 <= i < 9 ensures tiles[i] == Goal[i] {
        assert IsCorrectPosition(tiles[i], i) && IsPiece(tiles[i]);
        GoalAt(i);
      }
    } else {
      var i :| 0 <= i < 9 && !IsCorrectPosition(tiles[i], i);
      GoalAt(i);
    }
  }

  /** The goal puts the gap at index 8 and tile n at index n - 1. */
  lemma GoalAt(i: int)
    requires 0 <= i < 9
    ensures Goal[i] == if i == 8 then Empty else Tile(i + 1)
  {
  }

  /** A cell that may appear on the board: the gap or one of the tiles 1 to 8. */
  predicate IsPiece(c: Cell) {
    c.Empty? || 1 <= c.number <= 8
  }

  /**
   * Nine different pieces, the gap among them: the tiles 1 to 8 and the gap in
   * some order.
   */
  predicate IsArrangement(tiles: seq<Cell>) {
    && |tiles| == 9
    && (forall i :: 0 <= i < 9 ==> IsPiece(tiles[i]))
    && (forall i, j :: 0 <= i < j < 9 ==> tiles[i] != tiles[j])
    && Empty in tiles
  }

  /** An arrangement has a gap, and only one. */
  lemma ArrangementHasOneGap(tiles: seq<Cell>)
    requires IsArrangement(tiles)
    ensures 0 <= IndexOfEmpty(tiles) < 9
    ensures forall j :: 0 <= j < 9 && tiles[j] == Empty ==> j == IndexOfEmpty(tiles)
  {
  }

  /** Exchanging two cells keeps the same pieces. */
  lemma SwapKeepsArrangement(tiles: seq<Cell>, i: int, j: int)
    requires IsArrangement(tiles) && 0 <= i < 9 && 0 <= j < 9
    ensures IsArrangement(tiles[i := tiles[j]][j := tiles[i]])
  {
    var t := tiles[i := tiles[j]][j := tiles[i]];
    var e :| 0 <= e < 9 && tiles[e] == Empty;
    if e == i {
      assert t[j] == Empty;
    } else if e == j {
      assert t[i] == Empty;
    } else {
      assert t[e] == Empty;
    }
  }

  class Board {
    var tiles: seq<Cell>
    var isSolved: bool

    ghost predicate Valid()
      reads this
    {
      IsArrangement(tiles)
    }

    /** Mounting the board runs `initializeHardcodedState`. */
    constructor ()
      ensures Valid()
      ensures tiles == Start && !isSolved
    {
      tiles := Start;
      isSolved := false;
      new;
      StartIsArrangement();
    }

    /** `resetGame`: back to the start position, unsolved. */
    method ResetGame()
      modifies this
      ensures Valid()
      ensures tiles == Start && !isSolved
    {
      tiles := Start;
      isSolved := false;
      StartIsArrangement();
    }

    /**
     * `moveTile(index)`: a cell next to the gap trades places with it and nothing
     * else moves; any other click, the gap itself included, changes nothing. The
     * result says whether this move solved the board, which is when `onSolve` fires.
     */
    method MoveTile(index: int) returns (solvedNow: bool)
      requires Valid() && 0 <= index < 9
      modifies this
      ensures Valid()
      ensures var e := IndexOfEmpty(old(tiles));
        && 0 <= e < 9
        && (IsAdjacent(index, e) ==>
             && tiles[index] == Empty && tiles[e] == old(tiles)[index]
             && forall j :: 0 <= j < 9 && j != index && j != e ==> tiles[j] == old(tiles)[j])
        && (!IsAdjacent(index, e) ==> tiles == old(tiles))
        && (solvedNow <==> IsAdjacent(index, e) && tiles == Goal)
      ensures tiles == Moved(old(tiles), index)
      ensures isSolved == (old(isSolved) || solvedNow)
    {
      ArrangementHasOneGap(tiles);
      var emptyIndex := IndexOfEmpty(tiles);
      var isAdjacent := IsAdjacent(index, emptyIndex);
      solvedNow := false;
      if isAdjacent {
        var newTiles := tiles[index := tiles[emptyIndex]][emptyIndex := tiles[index]];
        SwapKeepsArrangement(tiles, index, emptyIndex);
        tiles := newTiles;
        CheckSolutionIsGoal(newTiles);
        if CheckSolution(newTiles) {
          isSolved := true;
          solvedNow := true;
        }
      }
    }

    /** A click on cell `index`: ignored once the board is solved. */
    method Click(index: int) returns (solvedNow: bool)
      requires Valid() && 0 <= index < 9
      modifies this
      ensures Valid()
      ensures tiles == if old(isSolved) then old(tiles) else Moved(old(tiles), index)
      ensures solvedNow <==>
        !old(isSolved) && IsAdjacent(index, IndexOfEmpty(old(tiles))) && tiles == Goal
      ensures isSolved == (old(isSolved) || solvedNow)
    {
      if isSolved {
        return false;
      }
      solvedNow := MoveTile(index);
    }
  }

  lemma StartIsArrangement()
    ensures IsArrangement(Start)
  {
  }

  /** The goal is an arrangement too. */
  lemma GoalIsArrangement()
    ensures IsArrangement(Goal)
  {
  }

  /** The start position is not already solved. */
  lemma StartIsNotGoal()
    ensures !CheckSolution(Start)
  {
    assert Start[0] != Goal[0];
  }

  /** The start position has its gap in the centre. */
  lemma StartGapAtCentre()
    ensures IndexOfEmpty(Start) == 4
  {
    var e := IndexOfEmpty(Start);
    assert Start[4] == Empty;
    assert Start[0] != Empty && Start[1] != Empty && Start[2] != Empty && Start[3] != Empty;
  }

  /** The centre's neighbours are the four cells that share a side with it. */
  lemma CentreNeighbours(index: int)
    requires 0 <= index < 9
    ensures IsAdjacent(index, 4) <==> index == 1 || index == 3 || index == 5 || index == 7
  {
  }
}
