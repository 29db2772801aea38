# Five-in-a-row position and AI move choice, in Dafny

This project models the game core of a browser Gomoku (five-in-a-row) game on a
15x15 board:

- class `Position` (`script/Position.js`): the grid, the move stack and the side to
  move, with placing and undoing stones, the bounds-checked reads, the run/open-end
  counter, five-in-a-row detection, the terminal status and the move scorer;
- the game loop of `script/script.js`: the `gameOver` / `aiThinking` flags, the
  handlers that forward moves, and the AI's choice of move (the first empty cell,
  in board order, with the strictly greatest score).

Three modules, one file each:

- `Rules` (`rules.dfy`) describes a board as a value `seq<seq<int>>` with cells
  0 (empty), 1 (BLACK) and 2 (WHITE). Every scan of the class is a function over
  such a value: `Run`/`EndOpen` for `countWithEnds`, `CappedRun`/`Win` for
  `checkWin`, `Tier`/`MoveScore`/`EvalScore` for the scorer. The lemmas say what
  those functions mean:
  - a run is the longest prefix of same-side cells;
  - `checkWin` holds exactly when five contiguous cells through the point are the
    side's, the point itself aside;
  - the top scoring tier fires exactly when `checkWin` would;
  - no scan reads its own start cell.
- `Positions` (`position.dfy`) has class `Position` over an `array2<int>` grid, a
  `seq<Move>` move stack and an `int` side to move. A ghost field `cells` holds the
  grid as a board value, and every method keeps it in step with the grid. Each
  method is proved against the `Rules` function it implements.
- `GameLoop` (`game.dfy`) has class `Game`, holding the flags and the two sides'
  colours, with the handlers `initBoard`, `onMove`, `checkStatus`, `onChangeSide`,
  `onClick` and `aiMove`. The AI search is proved equal to the function `Best`,
  and lemmas characterise `Best` over the whole board.

The model follows these behaviours of the code:

- `makeMove` writes the side to move, not `move.player`.
- `undoMove(move)` clears the cell named by its argument rather than the popped
  entry, and it hands the turn to the other side. One `evaluateMove` therefore
  flips the side to move, and `evaluate`, which calls it twice, leaves it as it
  was.
- `checkWin` counts for the side to move and never reads the origin cell.
- `status` reports a draw for a full board before it looks for five in a row
  (`script/Position.js:175-184`): a stone that fills the last empty cell and
  completes five is reported as a draw.

## Model

| member | source | states |
|---|---|---|
| Rules.At | script/Position.js:80-85 | off the board the read is `None` (the program's `undefined`); on it, the cell's value |
| Rules.InBounds | script/Position.js:76-78 | `valid(x, y)`: both coordinates lie in 0..14; `Rules.At` and `Positions.Position.At` state that a read is `None` exactly when it fails |
| Rules.PlaceThenClear | script/Position.js:36-52 | clearing the cell that a stone was written to, when that cell was empty before, gives back the board exactly: undoing a move made at the same coordinates restores the grid |
| Rules.Mover | script/Position.js:202 | a move without a player is counted for a value that no cell holds |
| Rules.Line | script/Position.js:104-133 | `countWithEnds` returns a count of at least 1 (the origin) and between 0 and 2 open ends |
| Rules.RunPrefix | script/Position.js:109-119 | every cell counted by the scan along (dx, dy) holds the scanned side |
| Rules.RunEnd | script/Position.js:111-119 | the cell that stops the scan does not hold the side, and the end is open exactly when that cell is on the board and empty (off-board ends are closed) |
| Rules.RunAtLeast | script/Position.js:109-131 | the scan counts at least m cells exactly when the first m cells of the ray all hold the side |
| Rules.CappedRunIsMin | script/Position.js:149-165 | the capped scan of `checkWin` equals the uncapped run of `countWithEnds` cut at the cap |
| Rules.FiveFromRuns | script/Position.js:144-169 | runs of 4 - s cells ahead and s cells behind give five contiguous cells through the point, all the side's except possibly the point itself |
| Rules.RunsFromFive | script/Position.js:144-169 | conversely, such five contiguous cells give runs of at least 4 - s ahead and s behind |
| Rules.DirectionWinsRuns | script/Position.js:144-169 | direction d of `checkWin` fires exactly when the two uncapped runs add up to at least four |
| Rules.DirectionWinsIffFive | script/Position.js:144-169 | direction d fires exactly when some five contiguous cells of that line through the point are the side's, the point itself not read |
| Rules.WinIffFive | script/Position.js:136-173 | `checkWin` holds exactly when some five contiguous cells in one of the four directions through the point are the side's, the point not read |
| Rules.Tier | script/Position.js:204-220 | each direction scores between 0 and 100000, 100000 exactly for five or more, and at most 10000 otherwise |
| Rules.ScoreUpTo | script/Position.js:192-221 | the sum over the first d directions lies between 0 and 100000 * d |
| Rules.EvalScore | script/Position.js:228-234 | `evaluate` is 0 for an occupied cell or a column off the board, and never negative |
| Rules.FiveTierIffDirectionWins | script/Position.js:201-205 | the five-or-more tier of `evaluateMove` fires in a direction exactly when `checkWin`'s test for that direction does |
| Rules.RunFrame | script/Position.js:109-131 | the run along a ray is the same on two boards that differ only at a cell not ahead on the ray |
| Rules.EndOpenFrame | script/Position.js:109-131 | so is the open/closed state of that ray's end |
| Rules.CappedFrame | script/Position.js:149-165 | so is the capped scan of `checkWin` |
| Rules.ScoreUpToCongruent | script/Position.js:201-221 | two boards with the same four line readings give the same score |
| Rules.PlaceKeepsDirection | script/Position.js:188-226 | writing any value at the evaluated cell changes neither the line reading nor the five test of any direction there |
| Rules.PlaceKeepsScans | script/Position.js:188-226 | scoring after placing a stone (as `evaluateMove` does) equals scoring the board before the stone, and `checkWin` at a cell does not depend on that cell |
| Rules.ScoreAtLeastTier | script/Position.js:201-221 | the total score is at least the tier of any one direction |
| Rules.ScoreWithoutFive | script/Position.js:201-221 | without five in any direction the total is at most 10000 per direction |
| Rules.WinIffTopTier | script/Position.js:188-226 | a move scores at least 100000 exactly when `checkWin` would report five for that side there; otherwise it scores at most 40000; it never exceeds 400000 |
| Rules.FiveOutranks | script/Position.js:228-234 | `evaluate` ranks an empty cell where either side would complete five (score at least 100000) strictly above every cell where neither would (at most 88000) |
| Rules.Opponent | script/Position.js:27-29 | the side `changeSide` switches to: always BLACK or WHITE, and never the side given |
| Positions.Position.constructor | script/Position.js:17-20 | a new position is a 15x15 empty grid, with no moves and BLACK to move |
| Positions.Position.Reset | script/Position.js:55-59 | a fresh 15x15 grid of empty cells, an empty move stack, BLACK to move |
| Positions.Position.GetPlayer | script/Position.js:23-25 | the side to move, which is always BLACK or WHITE |
| Positions.Position.ChangeSide | script/Position.js:27-29 | the side to move becomes the other side and nothing else changes |
| Positions.Position.TryMove | script/Position.js:31-33 | true exactly when the cell is on the board and empty |
| Positions.Position.IsEmpty | script/Position.js:61-63 | true exactly when the cell is on the board and empty |
| Positions.Position.MakeMove | script/Position.js:36-44 | on an empty cell it writes the side to move (not `move.player`), pushes the move and returns true; otherwise it returns false and changes nothing; it never changes the side to move |
| Positions.Position.UndoMove | script/Position.js:46-52 | on an empty stack nothing changes; otherwise exactly one entry is popped, the argument's cell is cleared, and the side to move flips |
| Positions.Position.IsFull | script/Position.js:65-74 | true exactly when no cell of the board is empty |
| Positions.Position.At | script/Position.js:80-85 | the board read: `None` exactly off the board, else a cell value 0..2 |
| Positions.Position.Next | script/Position.js:88-92 | the point moves one step and the read is the board's cell there |
| Positions.Position.ScanWithEnd | script/Position.js:109-119 | the loop returns the run of the side along (dx, dy) and whether its end is open |
| Positions.Position.CountWithEnds | script/Position.js:104-133 | count and open ends are those of `Line`: 1 plus both runs, and the number of open ends |
| Positions.Position.CappedScan | script/Position.js:147-155 | the loop returns the run of the side to move along (dx, dy), capped at four steps |
| Positions.Position.CheckWin | script/Position.js:136-173 | the result is `Win` for the side to move: five in a row through the point in one of four directions |
| Positions.Position.Status | script/Position.js:175-184 | DRAW exactly when the board is full, even when five is made; otherwise BLACK_WIN or WHITE_WIN exactly when the side to move has five, else PLAYING |
| Positions.Position.EvaluateMove | script/Position.js:188-226 | grid and move stack come back unchanged and the score is in [0, 400000]; on an empty cell the score is the tier sum for `move.player` and the side to move flips; on an occupied cell the score is 0 and nothing changes |
| Positions.Position.Evaluate | script/Position.js:228-234 | nothing of the position changes, and the result is 0 for an occupied cell, else 1.2 times the white score plus the black score |
| GameLoop.BestNoneIffNoEmpty | script/script.js:164-175 | the search keeps nothing exactly when no visited cell is empty |
| GameLoop.BestIsVisitedEmpty | script/script.js:164-175 | the kept cell is an empty cell already visited, with its own `evaluate` score |
| GameLoop.BestIsMaximum | script/script.js:167-175 | the kept cell scores at least as much as every empty cell visited |
| GameLoop.BestIsFirst | script/script.js:170-173 | the kept cell scores strictly more than every empty cell visited before it, so later ties never replace it |
| GameLoop.FallbackListEmpty | script/script.js:178-189 | the fallback's list of empty cells is empty exactly when the search kept nothing, so the random fallback never picks a cell |
| GameLoop.AiChoice | script/script.js:164-175 | over the whole board: nothing is kept exactly when the board is full; otherwise the kept cell is empty, has a maximal score, and is the first such cell in row-by-row order |
| GameLoop.AiTakesOrBlocksFive | script/script.js:164-175 | when some empty cell completes five for either side, the AI's cell completes five for some side: it wins or blocks |
| GameLoop.Game.constructor | script/script.js:19-33 | start-up: an empty position with BLACK to move, flags cleared, the user BLACK and the AI WHITE |
| GameLoop.Game.InitBoard | script/script.js:35-49 | the position is reset, both flags are cleared, the sides are taken, and an AI turn is scheduled exactly when the AI plays BLACK |
| GameLoop.Game.CheckStatus | script/script.js:100-120 | `gameOver` is set exactly for a win or a draw; while playing, a side change is posted exactly when the game is not over |
| GameLoop.Game.OnMove | script/script.js:76-83 | once the game is over, or for a refused move, nothing changes; otherwise the move is made and the status checked |
| GameLoop.Game.OnChangeSide | script/script.js:61-66 | the other side is to move, and an AI turn is scheduled exactly when that side is the AI's |
| GameLoop.Game.OnClick | script/script.js:92-97 | a move at (x, y) is posted exactly when the game is on, the AI is not thinking, and (x, y) is on the board |
| GameLoop.Game.VisitCell | script/script.js:167-174 | one visit of the search: the cell is evaluated when empty and replaces the kept one only on a strictly greater score |
| GameLoop.Game.SearchRow | script/Position.js:94-100 | one row of `forEach`, visited left to right |
| GameLoop.Game.SearchBestMove | script/script.js:164-175 | the search returns `Best` over the whole board and leaves the position as it was |
| GameLoop.OpeningMove | script/script.js:76-83 | on a new game, a first stone in the centre is accepted, the game goes on, and a side change is posted |
| GameLoop.Game.AiMove | script/script.js:156-198 | nothing happens while the game is over or the AI is thinking; otherwise the position is unchanged, the flag is cleared, and the kept cell (if any) is posted as the move |

## Left out

- `script/Board.js` (canvas drawing and the conversion of pixel positions to cells) is not part of this model.
- The DOM work in `script/script.js` is not modelled: element lookups, listeners, status messages, repaint and the score overlay.
- Deferred calls (`setTimeout`) are not modelled: a handler returns what it would post (a move, a side change, an AI turn) to its caller.
- GameLoop.Game.AiMove: the search runs within the call, so the window in which `aiThinking` is set and clicks are refused while the search is pending is not modelled.
- The random draw of the `aiMove` fallback (`Math.random`) is not modelled. `GameLoop.FallbackListEmpty` shows the draw is never reached.
- The 1.2 weighting of `evaluate` is an exact real: the rounding of floating-point numbers is not modelled. All integer values stay below 400001, so JavaScript numbers represent them exactly.
- The undo button handler (`script/script.js:131-137`) calls `undoMove()` without a move. When the history is not empty, that call reads a field of `undefined` and fails, so it is not modelled as an undo.
- The following are not modelled: the difficulty and player-order selectors (the difficulty is stored and never used), the canvas click handler's turn check, and the score overlay toggle.
- `forEach`'s callback mechanism is not modelled. Its row-by-row order is the order of `GameLoop.Best`, visited by `GameLoop.Game.SearchRow`.
- Positions.Position.TryMove: the row index must be on the board. The program indexes the grid without a check, and an off-board row throws. An off-board column reads `undefined` and is modelled as a refused move. `IsEmpty`, `MakeMove`, `EvaluateMove`, `Evaluate` and `GameLoop.Game.OnMove` have the same precondition.
- Positions.Position.UndoMove: with a non-empty history the row index must be on the board, for the same reason. A write to an off-board column adds an entry 0 past the end of that row array, and this entry is not modelled: the model leaves the board unchanged. In the program, a later `tryMove`, `isEmpty` or `makeMove` at that column reads the entry as an empty cell, and `makeMove` then writes there, whereas the model refuses such a move. No caller in the program reaches this case: `evaluateMove` undoes only a move that `makeMove` has just accepted on the board.
- Positions.Position.CountWithEnds: the step must be one of the eight unit steps. The program only passes the four scanning directions, and a zero step would never leave the board.
- The `Status` enumeration's numeric values (1 to 4) are modelled as the datatype `GameStatus`. `Player`'s values are the cell values 1 and 2.
