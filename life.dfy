/**
 * The Game of Life board engine: a class holding an xsize-by-ysize grid of
 * cells and a generation counter, advanced by a double-buffered step.
 */
module GameOfLife {
  import opened LifeRules

  class Life {
    var cells: array2<bool>
    var xsize: nat
    var ysize: nat
    var generation: int

    /** The board the grid holds, as a value. */
    ghost var board: Board

    /**
     * The grid has the recorded dimensions, holds `board` cell for cell, and
     * the generation counter never went below zero.
     */
    ghost predicate Valid()
      reads this, cells
    {
      && cells.Length0 == xsize && cells.Length1 == ysize
      && IsBoard(board, xsize, ysize)
      && (forall x, y {:trigger cells[x, y]} :: 0 <= x < xsize && 0 <= y < ysize ==> board[x][y] == cells[x, y])
      && 0 <= generation
    }

    /** A board of the given size with every cell dead, at generation 0. */
    constructor (xsize: nat, ysize: nat)
      ensures Valid() && fresh(cells)
      ensures this.xsize == xsize && this.ysize == ysize && generation == 0
      ensures board == DeadBoard(xsize, ysize)
    {
      this.xsize := xsize;
      this.ysize := ysize;
      generation := 0;
      var grid := new bool[xsize, ysize];
      for i := 0 to xsize
        invariant forall x, y :: 0 <= x < i && 0 <= y < ysize ==> !grid[x, y]
      {
        for j := 0 to ysize
          invariant forall x, y :: 0 <= x < i && 0 <= y < ysize ==> !grid[x, y]
          invariant forall y :: 0 <= y < j ==> !grid[i, y]
        {
          grid[i, j] := false;
        }
      }
      cells := grid;
      board := DeadBoard(xsize, ysize);
    }

    /** A deep copy of `other`: its dimensions, generation and every cell, in a fresh grid. */
    constructor Copy(other: Life)
      requires other.Valid()
      ensures Valid() && fresh(cells)
      ensures xsize == other.xsize && ysize == other.ysize && generation == other.generation
      ensures board == other.board
    {
      xsize := other.xsize;
      ysize := other.ysize;
      generation := other.generation;
      var grid := new bool[other.xsize, other.ysize];
      for i := 0 to other.xsize
        invariant forall x, y :: 0 <= x < i && 0 <= y < other.ysize ==> grid[x, y] == other.board[x][y]
      {
        for j := 0 to other.ysize
          invariant forall x, y :: 0 <= x < i && 0 <= y < other.ysize ==> grid[x, y] == other.board[x][y]
          invariant forall y :: 0 <= y < j ==> grid[i, y] == other.board[i][y]
        {
          grid[i, j] := other.GetCell(i, j);
        }
      }
      cells := grid;
      board := other.board;
    }

    /** The state of the cell in column `row`, row `col`. */
    function GetCell(row: int, col: int): (alive: bool)
      reads this, cells
      requires Valid() && 0 <= row < xsize && 0 <= col < ysize
      ensures alive == board[row][col]
    {
      cells[row, col]
    }

    /** Sets one cell; every other cell, the dimensions and the generation stay as they were. */
    method SetCell(status: bool, row: int, col: int)
      requires Valid() && 0 <= row < xsize && 0 <= col < ysize
      modifies this, cells
      ensures Valid() && cells == old(cells)
      ensures xsize == old(xsize) && ysize == old(ysize) && generation == old(generation)
      ensures board == Update(old(board), row, col, status)
    {
      cells[row, col] := status;
      board := Update(board, row, col, status);
    }

    /** Flips one cell; everything else stays as it was. */
    method ToggleCell(row: int, col: int)
      requires Valid() && 0 <= row < xsize && 0 <= col < ysize
      modifies this, cells
      ensures Valid() && cells == old(cells)
      ensures xsize == old(xsize) && ysize == old(ysize) && generation == old(generation)
      ensures board == Toggled(old(board), row, col)
    {
      cells[row, col] := !cells[row, col];
      board := Toggled(board, row, col);
    }

    /**
     * Sets every cell from its draw of rand() / RAND_MAX: alive iff the draw is
     * below `threshold`. The draws are passed in, one per cell.
     */
    method Randomize(threshold: real, draws: seq<seq<real>>)
      requires Valid() && IsBoard(draws, xsize, ysize)
      modifies this, cells
      ensures Valid() && cells == old(cells)
      ensures xsize == old(xsize) && ysize == old(ysize) && generation == old(generation)
      ensures board == RandomBoard(draws, threshold)
    {
      for i := 0 to xsize
        invariant unchanged(this)
        invariant forall x, y :: 0 <= x < i && 0 <= y < ysize ==> cells[x, y] == (draws[x][y] < threshold)
      {
        for j := 0 to ysize
          invariant unchanged(this)
          invariant forall x, y :: 0 <= x < i && 0 <= y < ysize ==> cells[x, y] == (draws[x][y] < threshold)
          invariant forall y :: 0 <= y < j ==> cells[i, y] == (draws[i][y] < threshold)
        {
          cells[i, j] := draws[i][j] < threshold;
        }
      }
      board := RandomBoard(draws, threshold);
    }

    /**
     * The number of live neighbours of (x, y). It scans the 3x3 window around
     * the cell, clamped so that it never leaves the grid, and discounts the
     * cell itself.
     */
    method GetNeighbors(x: int, y: int) returns (neighbors: int)
      requires Valid() && 0 <= x < xsize && 0 <= y < ysize
      ensures neighbors == NeighborCount(board, x, y)
    {
      ghost var g := board;
      neighbors := if GetCell(x, y) then -1 else 0;
      var iStart := if x == 0 then 0 else -1;
      var jStart := if y == 0 then 0 else -1;
      var ii := if x == xsize - 1 then 0 else 1;
      var jj := if y == ysize - 1 then 0 else 1;
      var i := iStart;
      while i <= ii
        invariant iStart <= i <= ii + 1
        invariant neighbors + Live(g, x, y) == WindowSum(g, x, y, iStart, i, jStart, jj + 1)
      {
        var j := jStart;
        while j <= jj
          invariant jStart <= j <= jj + 1
          invariant neighbors + Live(g, x, y)
                 == WindowSum(g, x, y, iStart, i, jStart, jj + 1) + LineSum(g, x + i, y, jStart, j)
        {
          if cells[x + i, y + j] == true {
            neighbors := neighbors + 1;
          }
          j := j + 1;
        }
        i := i + 1;
      }
      ClampedWindow(g, xsize, ysize, x, y);
    }

    /** The state of (x, y) in the next generation, by the B3/S23 rule. */
    method GetNextState(x: int, y: int) returns (next: bool)
      requires Valid() && 0 <= x < xsize && 0 <= y < ysize
      ensures next == NextCell(board, x, y)
      ensures next <==> NeighborCount(board, x, y) == 3 || (board[x][y] && NeighborCount(board, x, y) == 2)
    {
      var neighbors := GetNeighbors(x, y);
      if cells[x, y] == true && (neighbors == 2 || neighbors == 3) {
        next := true;
      } else if cells[x, y] == false && neighbors == 3 {
        next := true;
      } else {
        next := false;
      }
    }

    /**
     * A fresh grid holding the next generation, every cell computed from the
     * current grid, which is left untouched.
     */
    method GetNextGeneration() returns (next: array2<bool>)
      requires Valid()
      ensures fresh(next)
      ensures next.Length0 == xsize && next.Length1 == ysize
      ensures forall x, y :: 0 <= x < xsize && 0 <= y < ysize ==> next[x, y] == NextBoard(board)[x][y]
    {
      next := new bool[xsize, ysize];
      for i := 0 to xsize
        invariant forall x, y :: 0 <= x < i && 0 <= y < ysize ==> next[x, y] == NextCell(board, x, y)
      {
        for j := 0 to ysize
          invariant forall x, y :: 0 <= x < i && 0 <= y < ysize ==> next[x, y] == NextCell(board, x, y)
          invariant forall y :: 0 <= y < j ==> next[i, y] == NextCell(board, i, y)
        {
          next[i, j] := GetNextState(i, j);
        }
      }
    }

    /**
     * Advances the board `generations` times (once by default, not at all when
     * `generations <= 0`),
     * replacing the grid by a freshly computed one each time. The counter goes
     * up by exactly one whatever `generations` is.
     */
    method Step(generations: int := 1)
      requires Valid()
      modifies this
      ensures Valid()
      ensures xsize == old(xsize) && ysize == old(ysize)
      ensures generation == old(generation) + 1
      ensures board == Iterate(old(board), generations)
      ensures generations <= 0 ==> cells == old(cells)
      ensures generations > 0 ==> fresh(cells)
    {
      var step := 0;
      while step < generations
        invariant Valid() && xsize == old(xsize) && ysize == old(ysize)
        invariant generation == old(generation)
        invariant 0 <= step && (step <= generations || step == 0)
        invariant board == Iterate(old(board), step)
        invariant step == 0 ==> cells == old(cells)
        invariant step > 0 ==> fresh(cells)
      {
        cells := GetNextGeneration();
        board := NextBoard(board);
        step := step + 1;
      }
      generation := generation + 1;
    }

    /** The number of columns. */
    function GetXSize(): (n: nat)
      reads this, cells
      requires Valid()
      ensures n == xsize && n == |board|
    {
      xsize
    }

    /** The number of cells in every column. */
    function GetYSize(): (n: nat)
      reads this, cells
      requires Valid()
      ensures n == ysize
      ensures forall x :: 0 <= x < |board| ==> |board[x]| == n
    {
      ysize
    }

    /** The generation counter, never negative. */
    function GetGeneration(): (n: int)
      reads this, cells
      requires Valid()
      ensures n == generation && n >= 0
    {
      generation
    }

    /** Sets the counter back to zero; the cells are untouched. */
    method ResetGeneration()
      requires Valid()
      modifies this
      ensures Valid() && generation == 0
      ensures cells == old(cells) && board == old(board)
      ensures xsize == old(xsize) && ysize == old(ysize)
    {
      generation := 0;
    }
  }
}
