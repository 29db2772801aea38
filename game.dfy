/**
  The game loop around a `Position`: the `gameOver` / `aiThinking` flags, the
  handlers that forward moves, and the AI's choice of move, which evaluates every
  empty cell in `forEach` order and keeps the first cell with the highest score.

  Deferred calls (`setTimeout`) are modelled by returning what the handler posts
  (a move, a side change, an AI turn) to the caller, which runs it later.
*/
module GameLoop {
  import opened Rules
  import opened Positions

  /** A cell the AI search has kept, with its score (`bestMove` and `bestScore`). */
  datatype Candidate = Candidate(x: int, y: int, score: real)

  /** (m, n) is visited before (i, j) in `forEach` order: row by row, and within a
      row by increasing column. */
  predicate Before(m: int, n: int, i: int, j: int) {
    m < i || (m == i && n < j)
  }

  /** A point of the search: rows 0..i-1 and cells (i, 0)..(i, j-1) are visited;
      (N, 0) is the end of the board. */
  predicate Stage(i: int, j: int) {
    0 <= i <= N && 0 <= j <= N && (i == N ==> j == 0)
  }

  /** The cell kept by the search at stage (i, j): an empty cell replaces the kept
      one only when its score is strictly greater, and the first empty cell always
      replaces the initial -Infinity. */
  function Best(b: Board, i: int, j: int): (r: Option<Candidate>)
    requires IsBoard(b) && Stage(i, j)
    decreases i, j
  {
    if j == 0 then (if i == 0 then None else Best(b, i - 1, N))
    else
      var kept := Best(b, i, j - 1);
      if b[i][j - 1] == EMPTY && (kept.None? || EvalScore(b, i, j - 1) > kept.value.score)
      then Some(Candidate(i, j - 1, EvalScore(b, i, j - 1)))
      else kept
  }

  /** The empty cells visited by stage (i, j), in `forEach` order: the list the
      random fallback of `aiMove` would draw from. */
  function EmptyCells(b: Board, i: int, j: int): (r: seq<(int, int)>)
    requires IsBoard(b) && Stage(i, j)
    decreases i, j
  {
    if j == 0 then (if i == 0 then [] else EmptyCells(b, i - 1, N))
    else EmptyCells(b, i, j - 1) + (if b[i][j - 1] == EMPTY then [(i, j - 1)] else [])
  }

  /** Nothing is kept exactly when no visited cell is empty. */
  lemma {:induction false} BestNoneIffNoEmpty(b: Board, i: int, j: int)
    requires IsBoard(b) && Stage(i, j)
    ensures Best(b, i, j).None? <==>
      forall m, n :: InBounds(m, n) && Before(m, n, i, j) ==> b[m][n] != EMPTY
    decreases i, j
  {
    if j == 0 {
      if i > 0 {
        BestNoneIffNoEmpty(b, i - 1, N);
      }
    } else {
      BestNoneIffNoEmpty(b, i, j - 1);
    }
  }

  /** The kept cell is an empty cell already visited, carrying its own score. */
  lemma {:induction false} BestIsVisitedEmpty(b: Board, i: int, j: int)
    requires IsBoard(b) && Stage(i, j)
    ensures Best(b, i, j).Some? ==>
      var c := Best(b, i, j).value;
      && InBounds(c.x, c.y) && Before(c.x, c.y, i, j)
      && b[c.x][c.y] == EMPTY && c.score == EvalScore(b, c.x, c.y)
    decreases i, j
  {
    if j == 0 {
      if i > 0 {
        BestIsVisitedEmpty(b, i - 1, N);
      }
    } else {
      BestIsVisitedEmpty(b, i, j - 1);
    }
  }

  /** The kept cell scores at least as much as every empty cell visited. */
  lemma {:induction false} BestIsMaximum(b: Board, i: int, j: int)
    requires IsBoard(b) && Stage(i, j)
    ensures Best(b, i, j).Some? ==>
      forall m, n :: InBounds(m, n) && Before(m, n, i, j) && b[m][n] == EMPTY ==>
        EvalScore(b, m, n) <= Best(b, i, j).value.score
    decreases i, j
  {
    if j == 0 {
      if i > 0 {
        BestIsMaximum(b, i - 1, N);
      }
    } else {
      BestIsMaximum(b, i, j - 1);
      BestNoneIffNoEmpty(b, i, j - 1);
    }
  }

  /** The kept cell scores strictly more than every empty cell visited before it. */
  lemma {:induction false} BestIsFirst(b: Board, i: int, j: int)
    requires IsBoard(b) && Stage(i, j)
    ensures Best(b, i, j).Some? ==>
      var c := Best(b, i, j).value;
      forall m, n :: InBounds(m, n) && Before(m, n, c.x, c.y) && b[m][n] == EMPTY ==>
        EvalScore(b, m, n) < c.score
    decreases i, j
  {
    if j == 0 {
      if i > 0 {
        BestIsFirst(b, i - 1, N);
      }
    } else {
      BestIsFirst(b, i, j - 1);
      BestIsMaximum(b, i, j - 1);
      BestNoneIffNoEmpty(b, i, j - 1);
    }
  }

  /** The random fallback of `aiMove` can never fire: its list of empty cells is
      empty exactly when the search kept nothing. */
  lemma {:induction false} FallbackListEmpty(b: Board, i: int, j: int)
    requires IsBoard(b) && Stage(i, j)
    ensures Best(b, i, j).None? <==> EmptyCells(b, i, j) == []
    decreases i, j
  {
    if j == 0 {
      if i > 0 {
        FallbackListEmpty(b, i - 1, N);
      }
    } else {
      FallbackListEmpty(b, i, j - 1);
    }
  }

  /** The search over the whole board, stated cell by cell. */
  lemma AiChoice(b: Board)
    requires IsBoard(b)
    ensures Best(b, N, 0).None? <==> Full(b)
    ensures Best(b, N, 0).Some? ==>
      var c := Best(b, N, 0).value;
      && InBounds(c.x, c.y) && b[c.x][c.y] == EMPTY && c.score == EvalScore(b, c.x, c.y)
      && (forall i, j :: InBounds(i, j) && b[i][j] == EMPTY ==> EvalScore(b, i, j) <= c.score)
      && (forall i, j :: InBounds(i, j) && b[i][j] == EMPTY && Before(i, j, c.x, c.y) ==> EvalScore(b, i, j) < c.score)
  {
    BestNoneIffNoEmpty(b, N, 0);
    BestIsVisitedEmpty(b, N, 0);
    BestIsMaximum(b, N, 0);
    BestIsFirst(b, N, 0);
  }

  /** If some empty cell would complete five for either side, the AI plays a cell
      that completes five for some side: it wins, or blocks the opponent's five. */
  lemma AiTakesOrBlocksFive(b: Board, x: int, y: int)
    requires IsBoard(b) && InBounds(x, y) && b[x][y] == EMPTY
    requires Win(b, x, y, BLACK) || Win(b, x, y, WHITE)
    ensures Best(b, N, 0).Some?
    ensures Win(b, Best(b, N, 0).value.x, Best(b, N, 0).value.y, BLACK)
         || Win(b, Best(b, N, 0).value.x, Best(b, N, 0).value.y, WHITE)
  {
    AiChoice(b);
    var c := Best(b, N, 0).value;
    if !Win(b, c.x, c.y, BLACK) && !Win(b, c.x, c.y, WHITE) {
      FiveOutranks(b, x, y, c.x, c.y);
      assert false;
    }
  }

  /** A new game, then the user's first stone in the centre: the move is made,
      the game goes on, and the turn passes to the AI. */
  method OpeningMove() returns (sideChangePosted: bool)
    ensures sideChangePosted
  {
    var g := new Game();
    ghost var b := Place(EmptyBoard(), 7, 7, BLACK);
    sideChangePosted := g.OnMove(Move(7, 7, None));
    assert b[7][8] == EMPTY;
    assert !Full(b);
    forall d | 0 <= d < 4 ensures !DirectionWins(b, 7, 7, BLACK, d) {
      var (dx, dy) := DIRECTIONS[d];
      assert At(b, 7 + dx, 7 + dy) == Some(EMPTY);
      assert At(b, 7 - dx, 7 - dy) == Some(EMPTY);
    }
  }

  class Game {
    var position: Position
    var gameOver: bool
    var aiThinking: bool
    var userColor: int
    var aiColor: int

    ghost predicate Valid()
      reads this, position, position.grid
    {
      position.Valid()
    }

    /** The page's start-up: a new position, then `initBoard` with BLACK for the
        user and WHITE for the AI. */
    constructor ()
      ensures Valid() && fresh(position) && fresh(position.grid)
      ensures position.cells == EmptyBoard() && position.mvList == [] && position.player == BLACK
      ensures !gameOver && !aiThinking && userColor == BLACK && aiColor == WHITE
    {
      position := new Position();
      gameOver, aiThinking := false, false;
      userColor, aiColor := BLACK, WHITE;
      new;
      var aiFirst := InitBoard(BLACK, WHITE);
    }

    /** `initBoard`: resets the position and both flags, takes the chosen sides,
        and schedules an AI turn when the AI plays BLACK. */
    method InitBoard(userSide: int, aiSide: int) returns (aiMoveScheduled: bool)
      modifies this, position
      ensures Valid() && position == old(position) && fresh(position.grid)
      ensures position.cells == EmptyBoard() && position.mvList == [] && position.player == BLACK
      ensures !gameOver && !aiThinking && userColor == userSide && aiColor == aiSide
      ensures aiMoveScheduled <==> aiSide == BLACK
    {
      position.Reset();
      gameOver := false;
      aiThinking := false;
      userColor := userSide;
      aiColor := aiSide;
      aiMoveScheduled := aiColor == BLACK;
    }

    /** `checkStatus(x, y)`: a win or a draw ends the game; while playing, a side
        change is posted unless the game is already over. */
    method CheckStatus(x: int, y: int) returns (sideChangePosted: bool)
      requires Valid()
      modifies this`gameOver
      ensures var s := StatusOf(position.cells, x, y, position.player);
        && gameOver == (old(gameOver) || s != Playing)
        && (sideChangePosted <==> s == Playing && !old(gameOver))
    {
      var status := position.Status(x, y);
      sideChangePosted := false;
      match status
      case Playing =>
        sideChangePosted := !gameOver;
      case BlackWin =>
        gameOver := true;
      case WhiteWin =>
        gameOver := true;
      case Draw =>
        gameOver := true;
    }

    /** `onMove(move)`: ignored once the game is over; otherwise the move is made
        and, only when it was accepted, the status is checked. */
    method OnMove(move: Move) returns (sideChangePosted: bool)
      requires Valid() && 0 <= move.x < N
      modifies this`gameOver, position.grid, position`mvList, position`cells
      ensures Valid() && position.player == old(position.player)
      ensures old(gameOver) || !old(position.TryMove(move)) ==>
        && position.cells == old(position.cells) && position.mvList == old(position.mvList)
        && gameOver == old(gameOver) && !sideChangePosted
      ensures !old(gameOver) && old(position.TryMove(move)) ==>
        && position.cells == Place(old(position.cells), move.x, move.y, position.player)
        && position.mvList == old(position.mvList) + [move]
        && var s := StatusOf(position.cells, move.x, move.y, position.player);
           (gameOver <==> s != Playing) && (sideChangePosted <==> s == Playing)
    {
      sideChangePosted := false;
      if gameOver {
        return;
      }
      var ok := position.MakeMove(move);
      if ok {
        sideChangePosted := CheckStatus(move.x, move.y);
      }
    }

    /** `onChangeSide`: the other side is to move, and an AI turn is scheduled
        when that side is the AI's. */
    method OnChangeSide() returns (aiMoveScheduled: bool)
      requires Valid()
      modifies position`player
      ensures Valid() && position.player == Opponent(old(position.player))
      ensures aiMoveScheduled <==> position.player == aiColor
    {
      position.ChangeSide();
      aiMoveScheduled := position.GetPlayer() == aiColor;
    }

    /** `onClick(x, y)`: a move is posted only while the game is on, the AI is not
        thinking, and (x, y) is on the board. */
    method OnClick(x: int, y: int) returns (posted: Option<Move>)
      ensures posted.Some? <==> !gameOver && !aiThinking && InBounds(x, y)
      ensures posted.Some? ==> posted.value == Move(x, y, None)
    {
      if gameOver || aiThinking {
        return None;
      }
      posted := None;
      if InBounds(x, y) {
        posted := Some(Move(x, y, None));
      }
    }

    /** One visit of the search: the cell (i, j) is evaluated when it is empty and
        kept when it beats the kept score. */
    method VisitCell(ghost b: Board, i: int, j: int, best: Option<Candidate>) returns (next: Option<Candidate>)
      requires Valid() && position.cells == b && InBounds(i, j)
      requires best == Best(b, i, j)
      modifies position.grid, position`mvList, position`player, position`cells
      ensures Valid() && position.cells == b
      ensures position.mvList == old(position.mvList) && position.player == old(position.player)
      ensures next == Best(b, i, j + 1)
    {
      next := best;
      var piece := position.grid[i, j];
      if piece == EMPTY {
        var score := position.Evaluate(i, j);
        if best.None? || score > best.value.score {
          next := Some(Candidate(i, j, score));
        }
      }
    }

    /** One row of the search: the cells (i, 0) to (i, N - 1) in order. */
    method SearchRow(ghost b: Board, i: int, best: Option<Candidate>) returns (next: Option<Candidate>)
      requires Valid() && position.cells == b && 0 <= i < N
      requires best == Best(b, i, 0)
      modifies position.grid, position`mvList, position`player, position`cells
      ensures Valid() && position.cells == b
      ensures position.mvList == old(position.mvList) && position.player == old(position.player)
      ensures next == Best(b, i, N)
    {
      next := best;
      var j := 0;
      while j < N
        invariant 0 <= j <= N
        invariant Valid() && position.cells == b
        invariant position.mvList == old(position.mvList) && position.player == old(position.player)
        invariant next == Best(b, i, j)
      {
        next := VisitCell(b, i, j, next);
        j := j + 1;
      }
    }

    /** The search of `aiMove`: `forEach` over the grid, evaluating each empty cell
        and keeping the first one whose score is strictly the greatest. */
    method SearchBestMove() returns (best: Option<Candidate>)
      requires Valid()
      modifies position.grid, position`mvList, position`player, position`cells
      ensures Valid()
      ensures position.cells == old(position.cells) && position.mvList == old(position.mvList)
      ensures position.player == old(position.player)
      ensures best == Best(old(position.cells), N, 0)
    {
      ghost var b := position.cells;
      best := None;
      var i := 0;
      while i < N
        invariant 0 <= i <= N
        invariant Valid() && position.cells == b
        invariant position.mvList == old(position.mvList) && position.player == old(position.player)
        invariant best == Best(b, i, 0)
      {
        best := SearchRow(b, i, best);
        i := i + 1;
      }
    }

    /** `aiMove`: nothing while the game is over or the AI is already thinking;
        otherwise the search runs with `aiThinking` set, the position comes back
        unchanged, and the kept cell (if any) is posted as the AI's move. */
    method AiMove() returns (posted: Option<Move>)
      requires Valid()
      modifies this`aiThinking, position.grid, position`mvList, position`player, position`cells
      ensures Valid()
      ensures position.cells == old(position.cells) && position.mvList == old(position.mvList)
      ensures position.player == old(position.player)
      ensures old(gameOver || aiThinking) ==> posted == None && aiThinking == old(aiThinking)
      ensures !old(gameOver || aiThinking) ==>
        && !aiThinking
        && posted == match Best(old(position.cells), N, 0)
                     case None => None
                     case Some(c) => Some(Move(c.x, c.y, None))
    {
      if gameOver || aiThinking {
        return None;
      }
      aiThinking := true;
      var bestMove := SearchBestMove();
      posted := None;
      if bestMove.Some? {
        posted := Some(Move(bestMove.value.x, bestMove.value.y, None));
      }
      aiThinking := false;
    }
  }
}
