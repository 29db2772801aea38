/**
  Class `Position`: the 15x15 grid, the move stack `mvList` and the side to move.

  Every method is proved against the functions of module Rules applied to
  `cells`, the grid read as a board value.
*/
module Positions {
  import opened Rules

  class Position {
    var grid: array2<int>
    var mvList: seq<Move>
    var player: int

    /** The grid as a board value, kept in step with `grid` by every method. */
    ghost var cells: Board

    ghost predicate Valid()
      reads this, grid
    {
      grid.Length0 == N && grid.Length1 == N &&
      (player == BLACK || player == WHITE) &&
      IsBoard(cells) &&
      forall i, j :: 0 <= i < N && 0 <= j < N ==> cells[i][j] == grid[i, j] && EMPTY <= grid[i, j] <= WHITE
    }

    constructor ()
      ensures Valid() && fresh(grid)
      ensures cells == EmptyBoard() && mvList == [] && player == BLACK
    {
      grid := new int[0, 0];
      mvList := [];
      player := BLACK;
      cells := [];
      new;
      Reset();
    }

    /** `reset`: a fresh all-empty grid, no history, BLACK to move. */
    method Reset()
      modifies this
      ensures Valid() && fresh(grid)
      ensures cells == EmptyBoard() && mvList == [] && player == BLACK
    {
      grid := new int[N, N]((_, _) => EMPTY);
      mvList := [];
      player := BLACK;
      cells := EmptyBoard();
    }

    /** `getPlayer`: the side to move, always BLACK or WHITE. */
    function GetPlayer(): (p: int)
      reads this, grid
      requires Valid()
      ensures p == player && (p == BLACK || p == WHITE)
    {
      player
    }

    /** `changeSide` */
    method ChangeSide()
      requires Valid()
      modifies this`player
      ensures Valid() && player == Opponent(old(player)) && player != old(player)
    {
      player := Opponent(player);
    }

    /** `tryMove`: a row index outside the grid is an error of the caller; a column
        outside it reads `undefined`, which is not 0. */
    function TryMove(move: Move): (r: bool)
      reads this, grid
      requires Valid() && 0 <= move.x < N
      ensures r <==> Rules.At(cells, move.x, move.y) == Some(EMPTY)
    {
      0 <= move.y < N && grid[move.x, move.y] == EMPTY
    }

    /** `isEmpty(x, y)` */
    function IsEmpty(x: int, y: int): (r: bool)
      reads this, grid
      requires Valid() && 0 <= x < N
      ensures r <==> Rules.At(cells, x, y) == Some(EMPTY)
    {
      0 <= y < N && grid[x, y] == EMPTY
    }

    /** `makeMove`: writes the side to move (not `move.player`) and pushes the move;
        never changes the side to move. */
    method MakeMove(move: Move) returns (ok: bool)
      requires Valid() && 0 <= move.x < N
      modifies grid, this`mvList, this`cells
      ensures Valid() && player == old(player)
      ensures ok == old(TryMove(move))
      ensures ok ==> cells == Place(old(cells), move.x, move.y, player) && mvList == old(mvList) + [move]
      ensures !ok ==> cells == old(cells) && mvList == old(mvList)
    {
      if !TryMove(move) {
        return false;
      }
      grid[move.x, move.y] := player;
      mvList := mvList + [move];
      cells := Place(cells, move.x, move.y, player);
      return true;
    }

    /** `undoMove(move)`: pops the last entry, but clears the cell of the ARGUMENT,
        and hands the move back to the other side; nothing happens on an empty stack.
        A row index outside the grid is an error of the caller; a column outside it
        writes past the end of the row, outside the 15x15 board this model keeps. */
    method UndoMove(move: Move)
      requires Valid()
      requires mvList != [] ==> 0 <= move.x < N
      modifies grid, this`mvList, this`player, this`cells
      ensures Valid()
      ensures old(mvList) == [] ==> cells == old(cells) && mvList == [] && player == old(player)
      ensures old(mvList) != [] ==>
        && cells == (if InBounds(move.x, move.y) then Place(old(cells), move.x, move.y, EMPTY) else old(cells))
        && mvList == old(mvList)[..|old(mvList)| - 1]
        && player == Opponent(old(player))
    {
      if mvList != [] {
        mvList := mvList[..|mvList| - 1];
        if 0 <= move.y < N {
          grid[move.x, move.y] := EMPTY;
          cells := Place(cells, move.x, move.y, EMPTY);
        }
        ChangeSide();
      }
    }

    /** `isFull`: scans the grid row by row and stops at the first empty cell. */
    method IsFull() returns (full: bool)
      requires Valid()
      ensures full <==> Full(cells)
    {
      var i := 0;
      while i < N
        invariant 0 <= i <= N
        invariant forall a, c :: 0 <= a < i && 0 <= c < N ==> grid[a, c] != EMPTY
      {
        var j := 0;
        while j < N
          invariant 0 <= j <= N
          invariant forall c :: 0 <= c < j ==> grid[i, c] != EMPTY
        {
          if grid[i, j] == EMPTY {
            assert cells[i][j] == EMPTY;
            return false;
          }
          j := j + 1;
        }
        i := i + 1;
      }
      return true;
    }

    /** `at(x, y)`: the cell value, or `None` (the program's `undefined`) off the board. */
    function At(x: int, y: int): (r: Option<int>)
      reads this, grid
      requires Valid()
      ensures r == Rules.At(cells, x, y)
      ensures r.None? <==> !InBounds(x, y)
      ensures r.Some? ==> EMPTY <= r.value <= WHITE
    {
      if InBounds(x, y) then Some(grid[x, y]) else None
    }

    /** `next(p, dx, dy)`: moves the point one step and reads the cell there. */
    method Next(px: int, py: int, dx: int, dy: int) returns (nx: int, ny: int, piece: Option<int>)
      requires Valid()
      ensures nx == px + dx && ny == py + dy
      ensures piece == Rules.At(cells, nx, ny)
    {
      nx, ny := px + dx, py + dy;
      piece := At(nx, ny);
    }

    /** One of the two scans of `countWithEnds`: steps from (x, y) along (dx, dy)
        while the cells hold `p`, then looks at the cell that stopped it. */
    method ScanWithEnd(x: int, y: int, dx: int, dy: int, p: int) returns (run: int, open: bool)
      requires Valid() && UnitStep(dx, dy)
      ensures run == Run(cells, x, y, dx, dy, p)
      ensures open <==> EndOpen(cells, x, y, dx, dy, p)
    {
      ghost var b := cells;
      run, open := 0, false;
      var px, py := x, y;
      while true
        invariant run + Run(b, px, py, dx, dy, p) == Run(b, x, y, dx, dy, p)
        invariant EndOpen(b, px, py, dx, dy, p) == EndOpen(b, x, y, dx, dy, p)
        decreases Dist(px, dx) + Dist(py, dy)
      {
        var nx, ny, piece := Next(px, py, dx, dy);
        RunStep(b, px, py, dx, dy, p);
        if piece == Some(p) {
          run := run + 1;
          px, py := nx, ny;
        } else {
          open := piece == Some(EMPTY);
          break;
        }
      }
    }

    /** `countWithEnds(x, y, dx, dy, p)`: the run of `p` through (x, y) along the line
        (dx, dy), origin included, and how many of its two ends are empty cells. */
    method CountWithEnds(x: int, y: int, dx: int, dy: int, p: int) returns (count: int, openEnds: int)
      requires Valid() && UnitStep(dx, dy)
      ensures LineInfo(count, openEnds) == Line(cells, x, y, dx, dy, p)
      ensures count >= 1 && 0 <= openEnds <= 2
    {
      count, openEnds := 1, 0;
      var run, open := ScanWithEnd(x, y, dx, dy, p);
      count := count + run;
      if open {
        openEnds := openEnds + 1;
      }
      var rx, ry := -dx, -dy;
      run, open := ScanWithEnd(x, y, rx, ry, p);
      count := count + run;
      if open {
        openEnds := openEnds + 1;
      }
      LineHalves(cells, x, y, dx, dy, p, rx, ry);
    }

    /** One of the two scans of `checkWin`: at most four steps from (x, y) along
        (dx, dy) while the cells hold the side to move. */
    method CappedScan(x: int, y: int, dx: int, dy: int) returns (run: int)
      requires Valid()
      ensures run == CappedRun(cells, x, y, dx, dy, player, 4)
    {
      ghost var b := cells;
      run := 0;
      var px, py := x, y;
      var i := 1;
      while i < 5
        invariant 1 <= i <= 5
        invariant run + CappedRun(b, px, py, dx, dy, player, 5 - i) == CappedRun(b, x, y, dx, dy, player, 4)
      {
        var nx, ny, piece := Next(px, py, dx, dy);
        if piece != Some(player) {
          break;
        }
        run := run + 1;
        px, py := nx, ny;
        i := i + 1;
      }
    }

    /** `checkWin(x, y)`: five in a row for the side to move through (x, y), scanning
        at most four cells on each side; the cell (x, y) itself is not read. */
    method CheckWin(x: int, y: int) returns (win: bool)
      requires Valid()
      ensures win == Win(cells, x, y, player)
    {
      ghost var b := cells;
      var d := 0;
      while d < 4
        invariant 0 <= d <= 4
        invariant forall e :: 0 <= e < d ==> !DirectionWins(b, x, y, player, e)
      {
        var dx, dy := DIRECTIONS[d].0, DIRECTIONS[d].1;
        var count := 1;
        var forward := CappedScan(x, y, dx, dy);
        count := count + forward;
        var backward := CappedScan(x, y, -dx, -dy);
        count := count + backward;
        DirectionWinsUnfold(b, x, y, player, d, dx, dy, forward, backward);
        if count >= 5 {
          return true;
        }
        d := d + 1;
      }
      return false;
    }

    /** `status(x, y)`: a full board is a draw before any five is looked for;
        otherwise five for the side to move wins for that side. */
    method Status(x: int, y: int) returns (s: GameStatus)
      requires Valid()
      ensures s == StatusOf(cells, x, y, player)
      ensures s == Draw <==> Full(cells)
      ensures s == BlackWin <==> !Full(cells) && player == BLACK && Win(cells, x, y, BLACK)
      ensures s == WhiteWin <==> !Full(cells) && player == WHITE && Win(cells, x, y, WHITE)
    {
      var full := IsFull();
      if full {
        return Draw;
      }
      var win := CheckWin(x, y);
      if win {
        return if player == BLACK then BlackWin else WhiteWin;
      }
      return Playing;
    }

    /** `evaluateMove(move)`: places a stone, adds up the tier of each of the four
        lines of `move.player` through the cell, and undoes the move.  The stone
        written is the side to move, but the lines are counted for `move.player`;
        the undo hands the move to the other side, so the side to move flips. */
    method EvaluateMove(move: Move) returns (score: int)
      requires Valid() && 0 <= move.x < N
      modifies grid, this`mvList, this`player, this`cells
      ensures Valid()
      ensures cells == old(cells) && mvList == old(mvList)
      ensures 0 <= score <= 400000
      ensures old(TryMove(move)) ==>
        score == MoveScore(old(cells), move.x, move.y, Mover(move)) && player == Opponent(old(player))
      ensures !old(TryMove(move)) ==> score == 0 && player == old(player)
    {
      ghost var before := cells;
      var ok := MakeMove(move);
      if !ok {
        return 0;
      }
      ghost var placed := cells;
      var mover := Mover(move);

      score := 0;
      var d := 0;
      while d < 4
        invariant 0 <= d <= 4
        invariant Valid() && cells == placed && mvList == old(mvList) + [move] && player == old(player)
        invariant score == ScoreUpTo(placed, move.x, move.y, mover, d)
      {
        var count, openEnds := CountWithEnds(move.x, move.y, DIRECTIONS[d].0, DIRECTIONS[d].1, mover);
        score := score + Tier(count, openEnds);
        d := d + 1;
      }

      UndoMove(move);
      PlaceKeepsScans(before, move.x, move.y, old(player), mover);
      PlaceThenClear(before, move.x, move.y, old(player));
    }

    /** `evaluate(x, y)`: 0 for a cell that is not empty; otherwise the white score
        weighted by 1.2 plus the black score.  The two undos cancel, so nothing of
        the position changes. */
    method Evaluate(x: int, y: int) returns (r: real)
      requires Valid() && 0 <= x < N
      modifies grid, this`mvList, this`player, this`cells
      ensures Valid()
      ensures cells == old(cells) && mvList == old(mvList) && player == old(player)
      ensures r == EvalScore(old(cells), x, y)
    {
      if !IsEmpty(x, y) {
        return 0.0;
      }
      var blackScore := EvaluateMove(Move(x, y, Some(BLACK)));
      var whiteScore := EvaluateMove(Move(x, y, Some(WHITE)));
      r := (whiteScore as real) * 1.2 + (blackScore as real);
    }
  }
}
