/**
 * Boards of Conway's Game of Life as values, and the rule that advances them.
 *
 * A board `g` is indexed `g[x][y]`: the first index is the column (`< xsize`),
 * the second the row (`< ysize`). The grid is bounded: there is no wraparound,
 * and a position off the board simply counts as a dead cell.
 */
module LifeRules {

  type Board = seq<seq<bool>>

  /** `g` is a rectangle of `xsize` columns of `ysize` cells each. */
  predicate IsBoard<T>(g: seq<seq<T>>, xsize: int, ysize: int) {
    |g| == xsize && forall x :: 0 <= x < |g| ==> |g[x]| == ysize
  }

  /** `g` and `h` have the same shape. */
  predicate SameShape(g: Board, h: Board) {
    |g| == |h| && forall x :: 0 <= x < |g| ==> |g[x]| == |h[x]|
  }

  /** Every cell of `g` is dead. */
  predicate AllDead(g: Board) {
    forall x, y :: 0 <= x < |g| && 0 <= y < |g[x]| ==> !g[x][y]
  }

  /** Every cell of `g` is alive. */
  predicate AllAlive(g: Board) {
    forall x, y :: 0 <= x < |g| && 0 <= y < |g[x]| ==> g[x][y]
  }

  /** The board of a freshly constructed game: every cell dead. */
  function DeadBoard(xsize: nat, ysize: nat): (g: Board)
    ensures IsBoard(g, xsize, ysize) && AllDead(g)
  {
    seq(xsize, _ => seq(ysize, _ => false))
  }

  /** Two boards of the same shape that agree on every cell are equal. */
  lemma SameCells(g: Board, h: Board)
    requires SameShape(g, h)
    requires forall x, y :: 0 <= x < |g| && 0 <= y < |g[x]| ==> g[x][y] == h[x][y]
    ensures g == h
  {
    forall x | 0 <= x < |g|
      ensures g[x] == h[x]
    {
      assert |g[x]| == |h[x]|;
    }
  }

  // ---------------------------------------------------------------- single cells

  /** `g` with the cell at (x, y) set to `alive`. */
  function Update(g: Board, x: int, y: int, alive: bool): (h: Board)
    requires 0 <= x < |g| && 0 <= y < |g[x]|
    ensures SameShape(g, h)
    ensures h[x][y] == alive
    ensures forall i, j :: 0 <= i < |g| && 0 <= j < |g[i]| && (i, j) != (x, y) ==> h[i][j] == g[i][j]
  {
    g[x := g[x][y := alive]]
  }

  /** `g` with the cell at (x, y) flipped. */
  function Toggled(g: Board, x: int, y: int): (h: Board)
    requires 0 <= x < |g| && 0 <= y < |g[x]|
    ensures SameShape(g, h)
    ensures h[x][y] != g[x][y]
    ensures forall i, j :: 0 <= i < |g| && 0 <= j < |g[i]| && (i, j) != (x, y) ==> h[i][j] == g[i][j]
  {
    Update(g, x, y, !g[x][y])
  }

  /** Toggling the same cell twice gives back the original board. */
  lemma ToggleTwice(g: Board, x: int, y: int)
    requires 0 <= x < |g| && 0 <= y < |g[x]|
    ensures Toggled(Toggled(g, x, y), x, y) == g
  {
    SameCells(Toggled(Toggled(g, x, y), x, y), g);
  }

  // ---------------------------------------------------------------- neighbours

  /** (x, y) is on the board and alive there. */
  predicate Alive(g: Board, x: int, y: int) {
    0 <= x < |g| && 0 <= y < |g[x]| && g[x][y]
  }

  /** 1 for a live cell on the board, 0 for a dead one or a position off the board. */
  function Live(g: Board, x: int, y: int): nat {
    if Alive(g, x, y) then 1 else 0
  }

  /** The number of live cells among the up to eight cells adjacent to (x, y), diagonals included. */
  function NeighborCount(g: Board, x: int, y: int): (n: nat)
    ensures n <= 8
    ensures AllDead(g) ==> n == 0
  {
    Live(g, x - 1, y - 1) + Live(g, x - 1, y) + Live(g, x - 1, y + 1) +
    Live(g, x, y - 1) + Live(g, x, y + 1) +
    Live(g, x + 1, y - 1) + Live(g, x + 1, y) + Live(g, x + 1, y + 1)
  }

  /** (x, y) is a corner of an xsize-by-ysize board. */
  predicate OnCorner(xsize: int, ysize: int, x: int, y: int) {
    (x == 0 || x == xsize - 1) && (y == 0 || y == ysize - 1)
  }

  /** (x, y) lies on the border of an xsize-by-ysize board. */
  predicate OnEdge(xsize: int, ysize: int, x: int, y: int) {
    x == 0 || x == xsize - 1 || y == 0 || y == ysize - 1
  }

  /** A corner cell has at most three neighbours. */
  lemma CornerNeighbors(g: Board, xsize: int, ysize: int, x: int, y: int)
    requires IsBoard(g, xsize, ysize) && 0 <= x < xsize && 0 <= y < ysize
    requires OnCorner(xsize, ysize, x, y)
    ensures NeighborCount(g, x, y) <= 3
  {
  }

  /** A cell on the border has at most five neighbours. */
  lemma EdgeNeighbors(g: Board, xsize: int, ysize: int, x: int, y: int)
    requires IsBoard(g, xsize, ysize) && 0 <= x < xsize && 0 <= y < ysize
    requires OnEdge(xsize, ysize, x, y)
    ensures NeighborCount(g, x, y) <= 5
  {
  }

  // ---------------------------------------------------------------- the clamped window

  /** First offset of the clamped window along one axis: 0 on the low border, else -1. */
  function WindowStart(c: int): int {
    if c == 0 then 0 else -1
  }

  /** Last offset of the clamped window along one axis: 0 on the high border, else 1. */
  function WindowEnd(c: int, size: int): int {
    if c == size - 1 then 0 else 1
  }

  /** Live cells at (x, y + j) for j in [j0, j1). */
  function LineSum(g: Board, x: int, y: int, j0: int, j1: int): nat
    decreases j1 - j0
  {
    if j1 <= j0 then 0 else LineSum(g, x, y, j0, j1 - 1) + Live(g, x, y + j1 - 1)
  }

  /** Live cells at (x + i, y + j) for i in [i0, i1) and j in [j0, j1). */
  function WindowSum(g: Board, x: int, y: int, i0: int, i1: int, j0: int, j1: int): nat
    decreases i1 - i0
  {
    if i1 <= i0 then 0 else WindowSum(g, x, y, i0, i1 - 1, j0, j1) + LineSum(g, x + i1 - 1, y, j0, j1)
  }

  /** Along one column, the clamped range of rows covers exactly the three cells around row y. */
  lemma {:induction false} ClampedLine(g: Board, ysize: int, x: int, y: int)
    requires forall i :: 0 <= i < |g| ==> |g[i]| == ysize
    requires 0 <= y < ysize
    ensures LineSum(g, x, y, WindowStart(y), WindowEnd(y, ysize) + 1)
         == Live(g, x, y - 1) + Live(g, x, y) + Live(g, x, y + 1)
  {
    assert y == 0 ==> Live(g, x, y - 1) == 0;
    assert y == ysize - 1 ==> Live(g, x, y + 1) == 0;
    var j0, j1 := WindowStart(y), WindowEnd(y, ysize) + 1;
    assert LineSum(g, x, y, j0, j0 + 1) == Live(g, x, y + j0);
    if j0 == -1 && j1 == 2 {
      assert LineSum(g, x, y, j0, j0 + 2) == Live(g, x, y - 1) + Live(g, x, y);
    } else if j1 == 2 {
      assert LineSum(g, x, y, j0, j0 + 2) == Live(g, x, y) + Live(g, x, y + 1);
    }
  }

  /**
   * The clamped 3x3 window around an on-board (x, y) counts the cell itself plus
   * its neighbours: the window that life-serial.cpp scans misses no neighbour.
   */
  lemma {:induction false} ClampedWindow(g: Board, xsize: int, ysize: int, x: int, y: int)
    requires IsBoard(g, xsize, ysize) && 0 <= x < xsize && 0 <= y < ysize
    ensures WindowSum(g, x, y, WindowStart(x), WindowEnd(x, xsize) + 1, WindowStart(y), WindowEnd(y, ysize) + 1)
         == NeighborCount(g, x, y) + Live(g, x, y)
  {
    var i0, i1 := WindowStart(x), WindowEnd(x, xsize) + 1;
    var j0, j1 := WindowStart(y), WindowEnd(y, ysize) + 1;
    ClampedLine(g, ysize, x - 1, y);
    ClampedLine(g, ysize, x, y);
    ClampedLine(g, ysize, x + 1, y);
    assert x == 0 ==> LineSum(g, x - 1, y, j0, j1) == 0;
    assert x == xsize - 1 ==> LineSum(g, x + 1, y, j0, j1) == 0;
    assert WindowSum(g, x, y, i0, i0, j0, j1) == 0;
    assert WindowSum(g, x, y, i0, i0 + 1, j0, j1) == LineSum(g, x + i0, y, j0, j1);
    if i0 == -1 && i1 == 2 {
      assert WindowSum(g, x, y, i0, i0 + 2, j0, j1) == LineSum(g, x - 1, y, j0, j1) + LineSum(g, x, y, j0, j1);
    } else if i1 == 2 {
      assert WindowSum(g, x, y, i0, i0 + 2, j0, j1) == LineSum(g, x, y, j0, j1) + LineSum(g, x + 1, y, j0, j1);
    }
  }

  // ---------------------------------------------------------------- the rule

  /**
   * Conway's B3/S23 rule: a live cell survives with two or three live
   * neighbours, a dead cell is born with exactly three; every other cell is dead.
   */
  function Rule(alive: bool, neighbors: int): (next: bool)
    ensures next <==> neighbors == 3 || (alive && neighbors == 2)
  {
    if alive && (neighbors == 2 || neighbors == 3) then true
    else if !alive && neighbors == 3 then true
    else false
  }

  /** The next state of the cell at (x, y), computed from `g` alone. */
  function NextCell(g: Board, x: int, y: int): bool {
    Rule(Alive(g, x, y), NeighborCount(g, x, y))
  }

  /** The next generation: every cell computed from the unmodified board `g`. */
  function NextBoard(g: Board): (h: Board)
    ensures SameShape(g, h)
    ensures forall x, y :: 0 <= x < |g| && 0 <= y < |g[x]| ==> h[x][y] == NextCell(g, x, y)
  {
    seq(|g|, x requires 0 <= x < |g| => seq(|g[x]|, y => NextCell(g, x, y)))
  }

  /** `g` advanced `n` generations; no generation at all when `n <= 0`. */
  function Iterate(g: Board, n: int): (h: Board)
    ensures SameShape(g, h)
    decreases n
  {
    if n <= 0 then g else NextBoard(Iterate(g, n - 1))
  }

  /** Nothing is born on a dead board. */
  lemma DeadBoardIsStill(g: Board)
    requires AllDead(g)
    ensures NextBoard(g) == g
  {
    SameCells(NextBoard(g), g);
  }

  /** A dead board stays dead however many generations pass. */
  lemma {:induction false} DeadBoardStaysDead(g: Board, n: int)
    requires AllDead(g)
    ensures Iterate(g, n) == g
    decreases n
  {
    if n > 0 {
      DeadBoardStaysDead(g, n - 1);
      DeadBoardIsStill(g);
    }
  }

  /** A live cell with fewer than two or more than three live neighbours dies. */
  lemma LonelyOrCrowdedCellDies(g: Board, x: int, y: int)
    requires 0 <= x < |g| && 0 <= y < |g[x]|
    requires NeighborCount(g, x, y) < 2 || NeighborCount(g, x, y) > 3
    ensures !NextBoard(g)[x][y]
  {
  }

  /** A 4x4 board holding the 2x2 "block" in its middle. */
  function BlockBoard(): Board {
    seq(4, x => seq(4, y => 1 <= x <= 2 && 1 <= y <= 2))
  }

  /** The block is a still life. */
  lemma BlockIsStill()
    ensures NextBoard(BlockBoard()) == BlockBoard()
  {
    var g := BlockBoard();
    SameCells(NextBoard(g), g);
  }

  /** A 3x3 board holding a blinker: three live cells in a line along the second index. */
  function BlinkerBoard(): Board {
    seq(3, x => seq(3, y => x == 1))
  }

  /** The blinker turned a quarter: three live cells in a line along the first index. */
  function BlinkerTurned(): Board {
    seq(3, x => seq(3, y => y == 1))
  }

  /** The blinker oscillates with period two. */
  lemma BlinkerOscillates()
    ensures Iterate(BlinkerBoard(), 2) == BlinkerBoard()
  {
    BlinkerTurns();
    BlinkerTurnsBack();
  }

  lemma BlinkerTurns()
    ensures NextBoard(BlinkerBoard()) == BlinkerTurned()
  {
    var g := BlinkerBoard();
    SameCells(NextBoard(g), BlinkerTurned());
  }

  lemma BlinkerTurnsBack()
    ensures NextBoard(BlinkerTurned()) == BlinkerBoard()
  {
    var g := BlinkerTurned();
    SameCells(NextBoard(g), BlinkerBoard());
  }

  // ---------------------------------------------------------------- randomize

  /**
   * The board `randomize(threshold)` produces: `draws[x][y]` is the value
   * rand() / RAND_MAX drawn for (x, y), and the cell is alive iff it is below
   * the threshold.
   */
  function RandomBoard(draws: seq<seq<real>>, threshold: real): (g: Board)
    ensures |g| == |draws| && forall x :: 0 <= x < |g| ==> |g[x]| == |draws[x]|
    ensures forall x, y :: 0 <= x < |g| && 0 <= y < |g[x]| ==> (g[x][y] <==> draws[x][y] < threshold)
  {
    seq(|draws|, x requires 0 <= x < |draws| => seq(|draws[x]|, y requires 0 <= y < |draws[x]| => draws[x][y] < threshold))
  }

  /** Every draw lies in [0, 1], as rand() / RAND_MAX does. */
  predicate UnitDraws(draws: seq<seq<real>>) {
    forall x, y :: 0 <= x < |draws| && 0 <= y < |draws[x]| ==> 0.0 <= draws[x][y] <= 1.0
  }

  /** A threshold of zero or below gives an all-dead board. */
  lemma RandomizeZero(draws: seq<seq<real>>, threshold: real)
    requires UnitDraws(draws) && threshold <= 0.0
    ensures AllDead(RandomBoard(draws, threshold))
  {
  }

  /** A threshold above one gives an all-alive board. */
  lemma RandomizeAboveOne(draws: seq<seq<real>>, threshold: real)
    requires UnitDraws(draws) && threshold > 1.0
    ensures AllAlive(RandomBoard(draws, threshold))
  {
  }

  /** With a threshold of exactly one, a draw of rand() == RAND_MAX leaves its cell dead. */
  lemma RandomizeOneMayLeaveDead(draws: seq<seq<real>>, x: int, y: int)
    requires 0 <= x < |draws| && 0 <= y < |draws[x]| && draws[x][y] == 1.0
    ensures !AllAlive(RandomBoard(draws, 1.0))
  {
    assert !RandomBoard(draws, 1.0)[x][y];
  }
}
