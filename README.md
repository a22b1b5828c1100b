# Game of Life, serial engine — a Dafny model

This project models the serial core of a Conway's Game of Life program:

- the `Life` board engine;
- its stopwatch `Timer`;
- the command-line option lookup helpers.

The `Life` class keeps a fixed `xsize × ysize` grid of cells, indexed `cells[x][y]`, and a generation counter. Its operations are:

- read, set and toggle a single cell;
- count a cell's live neighbours over a 3×3 window. The window is clamped at the borders, and the board does not wrap around;
- decide the next state of a cell by the B3/S23 rule: a dead cell with exactly three live neighbours is born, and a live cell with two or three survives;
- advance the board. The engine builds a complete next-generation grid from the unchanged current grid, then replaces the current grid with it.

The model has four modules:

- `LifeRules` (life_rules.dfy) holds boards as values, `seq<seq<bool>>`. It defines:
  - a reference definition of the neighbour count, as a sum of eight neighbour terms where off-board positions count as dead;
  - the rule;
  - `NextBoard` and `Iterate`;
  - the lemmas about them.
- `GameOfLife` (life.dfy) holds the `Life` class. It keeps the grid in an `array2<bool>` and a ghost `board` value that the `Valid()` invariant ties to the grid cell by cell. Each method is proved against the functions of `LifeRules`:
  - the neighbour loop computes `NeighborCount`;
  - building the next grid gives `NextBoard`;
  - `Step(n)` gives `Iterate(board, n)`.
- `Stopwatch` (timer.dfy) holds the `Timer` class. It is a start/stop state machine over `timeval` clock readings, and the elapsed-time query refuses an empty or negative interval.
- `CommandLine` (command_line.dfy) holds `find_option`, `read_string` and `read_int` over an argument vector `seq<string>`, where `argc` is its length.

Two behaviours of the code are kept as written:

- `step(generations)` raises the generation counter by exactly one, however many generations it computes, and also when it computes none.
- One might expect `randomize(1.0)` to make every cell alive. The code tests `rand() / RAND_MAX < threshold` strictly, though, so a draw equal to `RAND_MAX` leaves that cell dead. The model follows the code (`RandomizeOneMayLeaveDead`).

## Model

| member | source | states |
|---|---|---|
| LifeRules.DeadBoard | life-serial.cpp:73-85 | the board of a new game has `xsize` columns of `ysize` cells, all dead |
| LifeRules.Update | life-serial.cpp:126-128 | setting a cell gives it the new state, keeps the shape and leaves every other cell as it was |
| LifeRules.Toggled | life-serial.cpp:142-144 | toggling flips exactly the chosen cell and leaves every other cell and the shape as they were |
| LifeRules.ToggleTwice | life-serial.cpp:142-144 | toggling the same cell twice restores the original board |
| LifeRules.NeighborCount | life-serial.cpp:190-208 | the neighbour count lies between 0 and 8, and is 0 on an all-dead board |
| LifeRules.CornerNeighbors | life-serial.cpp:190-208 | a cell in a corner of the bounded board has at most 3 live neighbours |
| LifeRules.EdgeNeighbors | life-serial.cpp:190-208 | a cell on the border of the bounded board has at most 5 live neighbours |
| LifeRules.ClampedLine | life-serial.cpp:195-205 | scanning one line of the window from the clamped start to the clamped end counts the cells at y-1, y and y+1, with off-board positions counting as dead |
| LifeRules.ClampedWindow | life-serial.cpp:191-206 | the clamped window scan counts exactly the eight neighbours plus the cell itself |
| LifeRules.Rule | life-serial.cpp:210-223 | the next state is alive iff there are exactly 3 neighbours, or the cell is alive with exactly 2 |
| LifeRules.NextBoard | life-serial.cpp:176-188 | the next generation has the shape of the current one, and each cell is the rule applied to the current board |
| LifeRules.Iterate | life-serial.cpp:163-174 | stepping any number of times (none when the count is not positive) keeps the board's shape |
| LifeRules.DeadBoardIsStill | life-serial.cpp:210-223 | an all-dead board is its own next generation |
| LifeRules.DeadBoardStaysDead | life-serial.cpp:163-174 | an all-dead board stays the same for any number of steps |
| LifeRules.LonelyOrCrowdedCellDies | life-serial.cpp:210-223 | a cell with fewer than 2 or more than 3 neighbours is dead in the next generation |
| LifeRules.BlockIsStill | life-serial.cpp:210-223 | the 2×2 block is a still life |
| LifeRules.BlinkerTurns | life-serial.cpp:210-223 | a blinker lying along the second index turns to lie along the first index |
| LifeRules.BlinkerTurnsBack | life-serial.cpp:210-223 | a blinker lying along the first index turns back to lie along the second index |
| LifeRules.BlinkerOscillates | life-serial.cpp:163-174 | the blinker has period two: two steps bring it back |
| LifeRules.RandomBoard | life-serial.cpp:151-157 | a randomized board has the shape of the draws, and a cell is alive iff its draw is below the threshold |
| LifeRules.RandomizeZero | life-serial.cpp:151-157 | a threshold of 0 or below kills every cell |
| LifeRules.RandomizeAboveOne | life-serial.cpp:151-157 | with draws in [0, 1], a threshold above 1 makes every cell alive |
| LifeRules.RandomizeOneMayLeaveDead | life-serial.cpp:154 | a threshold of exactly 1 leaves the cell dead whose draw is 1 |
| GameOfLife.Life.constructor | life-serial.cpp:73-85 | a new game has the given dimensions, generation 0 and every cell dead |
| GameOfLife.Life.Copy | life-serial.cpp:91-104 | the copy has the original's dimensions, generation and cells, in a grid of its own |
| GameOfLife.Life.GetCell | life-serial.cpp:134-136 | reading a cell gives that cell of the board |
| GameOfLife.Life.SetCell | life-serial.cpp:126-128 | afterwards the board is the old board with that one cell set, and the dimensions and generation are unchanged |
| GameOfLife.Life.ToggleCell | life-serial.cpp:142-144 | afterwards the board is the old board with that one cell flipped, and the dimensions and generation are unchanged |
| GameOfLife.Life.Randomize | life-serial.cpp:151-157 | every cell is alive iff its draw is below the threshold, and the dimensions and generation are unchanged |
| GameOfLife.Life.GetNeighbors | life-serial.cpp:190-208 | the clamped window scan returns the number of live neighbours, and every index it reads is on the board |
| GameOfLife.Life.GetNextState | life-serial.cpp:210-223 | the result is alive iff there are 3 neighbours, or the cell is alive with 2, and nothing is modified |
| GameOfLife.Life.GetNextGeneration | life-serial.cpp:176-188 | a fresh grid of the same dimensions holds the next generation, computed from the unchanged current grid |
| GameOfLife.Life.Step | life-serial.cpp:163-174 | the board becomes the next generation applied `generations` times (once by default, zero times if not positive), the dimensions stay, the counter rises by exactly 1, and the grid is a freshly allocated one whenever at least one generation was computed (the old one otherwise) |
| GameOfLife.Life.GetXSize | life-serial.cpp:238-240 | the number of columns, `xsize`, which is the length of the board |
| GameOfLife.Life.GetYSize | life-serial.cpp:242-244 | the column length `ysize`, which every column of the board has |
| GameOfLife.Life.GetGeneration | life-serial.cpp:246-248 | the generation counter, which is never negative |
| GameOfLife.Life.ResetGeneration | life-serial.cpp:250-252 | the counter becomes 0, and the cells and dimensions are untouched |
| Stopwatch.MicrosPreservesOrder | Timer.cpp:77-78 | for normalized readings, the microsecond fold is strictly ordered like the clock and identifies equal readings |
| Stopwatch.Timer.constructor | Timer.cpp:29-33 | a new timer is not running, and its begin and end times are two clock readings |
| Stopwatch.Timer.Start | Timer.cpp:41-48 | on an idle timer, it records the begin time and sets the timer running; on a running timer it fails with nothing changed |
| Stopwatch.Timer.Stop | Timer.cpp:57-64 | on a running timer, it records the end time and stops the timer; on an idle timer it fails with nothing changed |
| Stopwatch.Timer.GetElapsedTime | Timer.cpp:75-86 | it fails iff the end equals the begin in microseconds or precedes it; otherwise it gives the positive interval in seconds |
| Stopwatch.MeasureInterval | Timer.cpp:41-86 | start at t1 then stop at t2: the time is reported iff t2 is later, and it is then the gap between them; equal readings and reversed readings each give their own error |
| Stopwatch.StartTwice | Timer.cpp:41-48 | a second start without a stop fails |
| Stopwatch.StopWithoutStart | Timer.cpp:57-64 | stopping a timer that is not running fails, both when new and after a stop |
| Stopwatch.ElapsedOfFreshTimer | Timer.cpp:29-33 | an unused timer reports the gap between its two construction readings, and an empty interval when they are equal |
| CommandLine.FirstIndex | common.cpp:10-15 | the search gives -1 or an in-range index holding the option with no earlier match, and -1 exactly when the option is absent |
| CommandLine.FindOption | common.cpp:10-15 | the result is -1 or an index in [1, argc); a match is the first one after the program name; -1 iff no argument after the program name equals the option |
| CommandLine.ReadString | common.cpp:18-23 | returns the argument after the first match; returns the default when the option is absent or is the last argument |
| CommandLine.ReadInt | common.cpp:26-31 | takes the same branch as `read_string`, converting the value that follows the option or returning the default |
| CommandLine.AppendedOptionIsFound | common.cpp:10-15 | an option appended with its value to arguments that lack it is found where it was placed |
| CommandLine.FirstOccurrenceWins | common.cpp:10-15 | arguments appended after a present option do not change where it is found |

## Left out

- `main` and `printBoard`: the driver loop and console output are not modelled.
- Raw memory management is not modelled: the destructor, `new`/`delete` of row arrays, and the mismatched `delete`. The grid is one `array2<bool>`, and `step` assigns the fresh grid to the field.
- The copy constructor's call of the destructor on the object under construction is undefined behaviour. The model makes a plain deep copy.
- The default constructor with null cells is not modelled. It exists only for the destructor.
- `gettimeofday` and `rand()` are calls into the C library. Their readings become parameters: `TimeVal` values for the clock, and one draw in [0, 1] per cell for `randomize`.
- Timer.Start, Timer.Stop and the constructor take whatever reading is passed in. The ordering lemma requires normalized readings (microseconds below one second), as the clock delivers them.
- GetElapsedTime: the `double` division is modelled as exact real division. Floating-point rounding is not modelled.
- Randomize: the draws and the threshold are exact reals. The rounding of `(double) rand() / RAND_MAX` is not modelled, and the default threshold of 0.5 must be passed explicitly.
- ReadInt: `atoi` is a parameter of `ReadInt`. The conversion itself is not modelled.
- Step: the counter is an unbounded integer. Overflow of the 32-bit `int` generation counter is not modelled, and neither is overflow of the `long long` microsecond values in the timer.
- GameOfLife.Life.constructor: the dimensions are `nat`, so negative sizes are not modelled. In the code `new[]` throws for a negative xsize, or for a negative ysize when xsize > 0; with xsize == 0 and a negative ysize nothing throws and `getYSize` returns the negative size.
- GetCell, SetCell, ToggleCell, GetNeighbors: they require in-range coordinates. Out-of-range access is undefined behaviour in the code.
- The `omp.h` include has no parallel content. Timer.hpp and common.h only declare what is modelled here.
