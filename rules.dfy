/**
  The rules of the 15x15 five-in-a-row board as pure functions over a board value.

  A board is a 15x15 matrix of cell values (0 empty, 1 black, 2 white), indexed
  `b[x][y]` exactly as the `grid` of class `Position`.  Every scan of the class
  (`countWithEnds`, `checkWin`, the scorer of `evaluateMove`) is described here by
  a function over such a value, and the lemmas below say what those functions mean.
*/
module Rules {

  datatype Option<T> = None | Some(value: T)

  /** `boardSize` */
  const N: int := 15

  /** Cell values; BLACK and WHITE are also the values of `Player`. */
  const EMPTY: int := 0
  const BLACK: int := 1
  const WHITE: int := 2

  datatype GameStatus = Playing | BlackWin | WhiteWin | Draw

  /** A move as the program builds it; `player` is only set by `evaluate`. */
  datatype Move = Move(x: int, y: int, player: Option<int>)

  /** The side a move's lines are counted for: its `player`, or, when it has none,
      a value that no cell holds (the program compares cells with `undefined`). */
  function Mover(m: Move): (p: int)
    ensures m.player.None? ==> p != EMPTY && p != BLACK && p != WHITE
  {
    if m.player.Some? then m.player.value else -1
  }

  /** The result record of `countWithEnds`. */
  datatype LineInfo = LineInfo(count: int, openEnds: int)

  /** The scanned directions, in the order the program tries them:
      horizontal, vertical, diagonal, anti-diagonal. */
  const DIRECTIONS: seq<(int, int)> := [(1, 0), (0, 1), (1, 1), (1, -1)]

  type Board = seq<seq<int>>

  predicate IsBoard(b: Board) {
    |b| == N && forall i :: 0 <= i < N ==> |b[i]| == N
  }

  /** `valid(x, y)` */
  predicate InBounds(x: int, y: int) {
    0 <= x < N && 0 <= y < N
  }

  /** `at(x, y)`: `None` stands for the program's `undefined`. */
  function At(b: Board, x: int, y: int): (r: Option<int>)
    requires IsBoard(b)
    ensures r.None? <==> !InBounds(x, y)
    ensures r.Some? ==> r.value == b[x][y]
  {
    if InBounds(x, y) then Some(b[x][y]) else None
  }

  function EmptyBoard(): (b: Board)
    ensures IsBoard(b)
  {
    seq(N, _ => seq(N, _ => EMPTY))
  }

  /** The board with cell (x, y) set to v. */
  function Place(b: Board, x: int, y: int, v: int): (r: Board)
    requires IsBoard(b) && InBounds(x, y)
    ensures IsBoard(r)
  {
    b[x := b[x][y := v]]
  }

  /** Clearing a cell that was empty before a stone was placed on it gives back
      the board before the placement. */
  lemma PlaceThenClear(b: Board, x: int, y: int, v: int)
    requires IsBoard(b) && InBounds(x, y) && b[x][y] == EMPTY
    ensures Place(Place(b, x, y, v), x, y, EMPTY) == b
  {
    assert Place(Place(b, x, y, v), x, y, EMPTY)[x] == b[x];
  }

  /** `changeSide`: the side that is not p. */
  function Opponent(p: int): (q: int)
    ensures (q == BLACK || q == WHITE) && q != p
  {
    if p == BLACK then WHITE else BLACK
  }

  /** `isFull`: no cell of the board is empty. */
  ghost predicate Full(b: Board)
    requires IsBoard(b)
  {
    forall i, j :: InBounds(i, j) ==> b[i][j] != EMPTY
  }

  /** One of the eight unit steps that the scans take. */
  predicate UnitStep(dx: int, dy: int) {
    -1 <= dx <= 1 && -1 <= dy <= 1 && (dx != 0 || dy != 0)
  }

  /** Steps left along one axis before leaving the board; it bounds every scan. */
  function Dist(x: int, dx: int): nat {
    if dx > 0 then (if x < N then N - x else 0)
    else if dx < 0 then (if x >= 0 then x + 1 else 0)
    else 0
  }

  /** The cell k steps from (x, y) along (dx, dy). */
  function Ray(b: Board, x: int, y: int, dx: int, dy: int, k: int): (r: Option<int>)
    requires IsBoard(b)
  {
    At(b, x + k * dx, y + k * dy)
  }

  /** Number of consecutive `p` cells met when stepping from (px, py) along
      (dx, dy), the start cell itself excluded; the first loop of `countWithEnds`. */
  function Run(b: Board, px: int, py: int, dx: int, dy: int, p: int): (r: nat)
    requires IsBoard(b) && UnitStep(dx, dy)
    decreases Dist(px, dx) + Dist(py, dy)
  {
    if At(b, px + dx, py + dy) == Some(p) then 1 + Run(b, px + dx, py + dy, dx, dy, p) else 0
  }

  /** Whether the cell that stops that scan is on the board and empty. */
  function EndOpen(b: Board, px: int, py: int, dx: int, dy: int, p: int): (r: bool)
    requires IsBoard(b) && UnitStep(dx, dy)
    decreases Dist(px, dx) + Dist(py, dy)
  {
    match At(b, px + dx, py + dy)
    case None => false
    case Some(v) => if v == p then EndOpen(b, px + dx, py + dy, dx, dy, p) else v == EMPTY
  }

  /** The scan of `checkWin`: consecutive `p` cells along (dx, dy), at most `cap` steps. */
  function CappedRun(b: Board, px: int, py: int, dx: int, dy: int, p: int, cap: nat): (r: nat)
    requires IsBoard(b)
    decreases cap
  {
    if cap == 0 then 0
    else if At(b, px + dx, py + dy) == Some(p) then 1 + CappedRun(b, px + dx, py + dy, dx, dy, p, cap - 1)
    else 0
  }

  /** `countWithEnds(x, y, dx, dy, p)` */
  function Line(b: Board, x: int, y: int, dx: int, dy: int, p: int): (r: LineInfo)
    requires IsBoard(b) && UnitStep(dx, dy)
    ensures r.count >= 1 && 0 <= r.openEnds <= 2
  {
    LineInfo(1 + Run(b, x, y, dx, dy, p) + Run(b, x, y, -dx, -dy, p),
             (if EndOpen(b, x, y, dx, dy, p) then 1 else 0) + (if EndOpen(b, x, y, -dx, -dy, p) then 1 else 0))
  }

  /** The two halves of `countWithEnds`, with the reversed step given as (rx, ry).
      An instantiation hint: it only unfolds `Line` for the caller's step. */
  lemma LineHalves(b: Board, x: int, y: int, dx: int, dy: int, p: int, rx: int, ry: int)
    requires IsBoard(b) && UnitStep(dx, dy) && rx == -dx && ry == -dy
    ensures Line(b, x, y, dx, dy, p).count == 1 + Run(b, x, y, dx, dy, p) + Run(b, x, y, rx, ry, p)
    ensures Line(b, x, y, dx, dy, p).openEnds
            == (if EndOpen(b, x, y, dx, dy, p) then 1 else 0) + (if EndOpen(b, x, y, rx, ry, p) then 1 else 0)
  {
  }

  function LineDir(b: Board, x: int, y: int, p: int, d: int): (r: LineInfo)
    requires IsBoard(b) && 0 <= d < 4
  {
    Line(b, x, y, DIRECTIONS[d].0, DIRECTIONS[d].1, p)
  }

  /** Direction d of `checkWin`: the origin plus up to four `p` cells on each side make five. */
  predicate DirectionWins(b: Board, x: int, y: int, p: int, d: int)
    requires IsBoard(b) && 0 <= d < 4
  {
    var (dx, dy) := DIRECTIONS[d];
    1 + CappedRun(b, x, y, dx, dy, p, 4) + CappedRun(b, x, y, -dx, -dy, p, 4) >= 5
  }

  /** Direction d of `checkWin`, unfolded for given scan results.  An instantiation
      hint: it only unfolds `DirectionWins` for the caller's step and scans. */
  lemma DirectionWinsUnfold(b: Board, x: int, y: int, p: int, d: int, dx: int, dy: int, fwd: int, bwd: int)
    requires IsBoard(b) && 0 <= d < 4 && DIRECTIONS[d] == (dx, dy)
    requires fwd == CappedRun(b, x, y, dx, dy, p, 4)
    requires bwd == CappedRun(b, x, y, -dx, -dy, p, 4)
    ensures DirectionWins(b, x, y, p, d) <==> 1 + fwd + bwd >= 5
  {
    var (ex, ey) := DIRECTIONS[d];
    assert ex == dx && ey == dy;
  }

  /** `checkWin(x, y)` for side p; the cell (x, y) itself is never read. */
  predicate Win(b: Board, x: int, y: int, p: int)
    requires IsBoard(b)
  {
    exists d :: 0 <= d < 4 && DirectionWins(b, x, y, p, d)
  }

  /** `status(x, y)` with p the side to move. */
  ghost function StatusOf(b: Board, x: int, y: int, p: int): (s: GameStatus)
    requires IsBoard(b)
  {
    if Full(b) then Draw
    else if Win(b, x, y, p) then (if p == BLACK then BlackWin else WhiteWin)
    else Playing
  }

  /** The tier table of `evaluateMove`. */
  function Tier(count: int, openEnds: int): (r: int)
    ensures 0 <= r <= 100000
    ensures r == 100000 <==> count >= 5
    ensures count < 5 ==> r <= 10000
  {
    if count >= 5 then 100000
    else if count == 4 && openEnds == 2 then 10000
    else if count == 4 && openEnds == 1 then 1000
    else if count == 3 && openEnds == 2 then 1000
    else if count == 3 && openEnds == 1 then 100
    else if count == 2 && openEnds == 2 then 100
    else if count == 2 && openEnds == 1 then 10
    else if count == 1 && openEnds == 2 then 10
    else 0
  }

  /** The score of the first d directions of `evaluateMove`. */
  function ScoreUpTo(b: Board, x: int, y: int, p: int, d: int): (r: int)
    requires IsBoard(b) && 0 <= d <= 4
    ensures 0 <= r <= 100000 * d
  {
    if d == 0 then 0
    else
      var line := LineDir(b, x, y, p, d - 1);
      ScoreUpTo(b, x, y, p, d - 1) + Tier(line.count, line.openEnds)
  }

  /** The score `evaluateMove` returns for a stone of side p at an empty (x, y). */
  function MoveScore(b: Board, x: int, y: int, p: int): (r: int)
    requires IsBoard(b)
  {
    ScoreUpTo(b, x, y, p, 4)
  }

  /** `evaluate(x, y)` with `1.2` taken as the exact rational 6/5. */
  function EvalScore(b: Board, x: int, y: int): (r: real)
    requires IsBoard(b) && 0 <= x < N
    ensures r >= 0.0
    ensures !InBounds(x, y) || b[x][y] != EMPTY ==> r == 0.0
  {
    if !(0 <= y < N && b[x][y] == EMPTY) then 0.0
    else (MoveScore(b, x, y, WHITE) as real) * 1.2 + (MoveScore(b, x, y, BLACK) as real)
  }

  // ---------------------------------------------------------------------------
  // What a scan counts: the run is the longest prefix of `p` cells along the ray.
  // ---------------------------------------------------------------------------

  /** Stepping the start one cell along the ray shifts the ray by one (an
      instantiation hint for the arithmetic of `Ray`). */
  lemma RayShift(b: Board, px: int, py: int, dx: int, dy: int, k: int)
    requires IsBoard(b)
    ensures Ray(b, px + dx, py + dy, dx, dy, k) == Ray(b, px, py, dx, dy, k + 1)
  {
    assert (px + dx) + k * dx == px + (k + 1) * dx;
    assert (py + dy) + k * dy == py + (k + 1) * dy;
  }

  /** The reversed ray at k is the ray at -k (an instantiation hint). */
  lemma RayReversed(b: Board, x: int, y: int, dx: int, dy: int, k: int)
    requires IsBoard(b)
    ensures Ray(b, x, y, -dx, -dy, k) == Ray(b, x, y, dx, dy, -k)
  {
    assert k * (-dx) == (-k) * dx;
    assert k * (-dy) == (-k) * dy;
  }

  /** `Run` counts the cells 1..Run of the ray, all of them `p`. */
  lemma {:induction false} RunPrefix(b: Board, px: int, py: int, dx: int, dy: int, p: int)
    requires IsBoard(b) && UnitStep(dx, dy)
    ensures forall k :: 1 <= k <= Run(b, px, py, dx, dy, p) ==> Ray(b, px, py, dx, dy, k) == Some(p)
    decreases Dist(px, dx) + Dist(py, dy)
  {
    if At(b, px + dx, py + dy) == Some(p) {
      RunPrefix(b, px + dx, py + dy, dx, dy, p);
      forall k | 1 <= k <= Run(b, px, py, dx, dy, p)
        ensures Ray(b, px, py, dx, dy, k) == Some(p)
      {
        RayShift(b, px, py, dx, dy, k - 1);
      }
    }
  }

  /** Cell Run+1 of the ray is not `p`, and the end is open exactly when that cell
      is on the board and empty. */
  lemma {:induction false} RunEnd(b: Board, px: int, py: int, dx: int, dy: int, p: int)
    requires IsBoard(b) && UnitStep(dx, dy)
    ensures Ray(b, px, py, dx, dy, Run(b, px, py, dx, dy, p) + 1) != Some(p)
    ensures EndOpen(b, px, py, dx, dy, p) <==> Ray(b, px, py, dx, dy, Run(b, px, py, dx, dy, p) + 1) == Some(EMPTY)
    decreases Dist(px, dx) + Dist(py, dy)
  {
    if At(b, px + dx, py + dy) == Some(p) {
      RunEnd(b, px + dx, py + dy, dx, dy, p);
      RayShift(b, px, py, dx, dy, Run(b, px, py, dx, dy, p));
    } else {
      RayShift(b, px, py, dx, dy, 0);
    }
  }

  /** One step of the `countWithEnds` scan (an instantiation hint: it unfolds
      `Run` and `EndOpen` once, as the loop of `ScanWithEnd` needs). */
  lemma RunStep(b: Board, px: int, py: int, dx: int, dy: int, p: int)
    requires IsBoard(b) && UnitStep(dx, dy)
    ensures At(b, px + dx, py + dy) == Some(p) ==>
      && Run(b, px, py, dx, dy, p) == 1 + Run(b, px + dx, py + dy, dx, dy, p)
      && EndOpen(b, px, py, dx, dy, p) == EndOpen(b, px + dx, py + dy, dx, dy, p)
      && Dist(px + dx, dx) + Dist(py + dy, dy) < Dist(px, dx) + Dist(py, dy)
    ensures At(b, px + dx, py + dy) != Some(p) ==>
      && Run(b, px, py, dx, dy, p) == 0
      && EndOpen(b, px, py, dx, dy, p) == (At(b, px + dx, py + dy) == Some(EMPTY))
  {
  }

  /** At least m `p` cells follow (px, py) exactly when cells 1..m of the ray are all `p`. */
  lemma RunAtLeast(b: Board, px: int, py: int, dx: int, dy: int, p: int, m: int)
    requires IsBoard(b) && UnitStep(dx, dy)
    ensures Run(b, px, py, dx, dy, p) >= m <==> forall k :: 1 <= k <= m ==> Ray(b, px, py, dx, dy, k) == Some(p)
  {
    RunPrefix(b, px, py, dx, dy, p);
    RunEnd(b, px, py, dx, dy, p);
  }

  /** The capped scan of `checkWin` is the uncapped run of `countWithEnds`, cut at `cap`. */
  lemma {:induction false} CappedRunIsMin(b: Board, px: int, py: int, dx: int, dy: int, p: int, cap: nat)
    requires IsBoard(b) && UnitStep(dx, dy)
    ensures CappedRun(b, px, py, dx, dy, p, cap) == if Run(b, px, py, dx, dy, p) <= cap then Run(b, px, py, dx, dy, p) else cap
    decreases cap
  {
    if cap > 0 && At(b, px + dx, py + dy) == Some(p) {
      CappedRunIsMin(b, px + dx, py + dy, dx, dy, p, cap - 1);
    }
  }

  // ---------------------------------------------------------------------------
  // Five in a row.
  // ---------------------------------------------------------------------------

  /** Five contiguous cells of direction d through (x, y), running from offset -s
      to 4 - s, whose cells other than (x, y) all hold `p`. */
  ghost predicate FiveThrough(b: Board, x: int, y: int, p: int, d: int, s: int)
    requires IsBoard(b) && 0 <= d < 4
  {
    forall k :: -s <= k <= 4 - s && k != 0 ==> Ray(b, x, y, DIRECTIONS[d].0, DIRECTIONS[d].1, k) == Some(p)
  }

  /** Runs of at least 4 - s cells ahead and s cells behind make a five through (x, y). */
  lemma FiveFromRuns(b: Board, x: int, y: int, p: int, d: int, dx: int, dy: int, ndx: int, ndy: int, s: int)
    requires IsBoard(b) && 0 <= d < 4 && DIRECTIONS[d] == (dx, dy) && UnitStep(dx, dy)
    requires ndx == -dx && ndy == -dy && 0 <= s <= 4
    requires Run(b, x, y, dx, dy, p) >= 4 - s && Run(b, x, y, ndx, ndy, p) >= s
    ensures FiveThrough(b, x, y, p, d, s)
  {
    RunAtLeast(b, x, y, dx, dy, p, 4 - s);
    RunAtLeast(b, x, y, ndx, ndy, p, s);
    forall k: int | -s <= k <= 4 - s && k != 0
      ensures Ray(b, x, y, dx, dy, k) == Some(p)
    {
      if k < 0 {
        RayReversed(b, x, y, dx, dy, -k);
        assert Ray(b, x, y, ndx, ndy, -k) == Some(p);
      }
    }
  }

  /** A five through (x, y) starting s cells behind it leaves runs of at least
      4 - s cells ahead and s cells behind. */
  lemma RunsFromFive(b: Board, x: int, y: int, p: int, d: int, dx: int, dy: int, ndx: int, ndy: int, s: int)
    requires IsBoard(b) && 0 <= d < 4 && DIRECTIONS[d] == (dx, dy) && UnitStep(dx, dy)
    requires ndx == -dx && ndy == -dy && 0 <= s <= 4
    requires FiveThrough(b, x, y, p, d, s)
    ensures Run(b, x, y, dx, dy, p) >= 4 - s && Run(b, x, y, ndx, ndy, p) >= s
  {
    RunAtLeast(b, x, y, dx, dy, p, 4 - s);
    RunAtLeast(b, x, y, ndx, ndy, p, s);
    forall k: int | 1 <= k <= s
      ensures Ray(b, x, y, ndx, ndy, k) == Some(p)
    {
      RayReversed(b, x, y, dx, dy, k);
      assert Ray(b, x, y, dx, dy, -k) == Some(p);
    }
  }

  /** Direction d of `checkWin` fires exactly when the uncapped runs on the two
      sides of (x, y) add up to at least four. */
  lemma DirectionWinsRuns(b: Board, x: int, y: int, p: int, d: int, dx: int, dy: int, ndx: int, ndy: int)
    requires IsBoard(b) && 0 <= d < 4 && DIRECTIONS[d] == (dx, dy) && UnitStep(dx, dy)
    requires ndx == -dx && ndy == -dy
    ensures DirectionWins(b, x, y, p, d) <==> Run(b, x, y, dx, dy, p) + Run(b, x, y, ndx, ndy, p) >= 4
  {
    CappedRunIsMin(b, x, y, dx, dy, p, 4);
    CappedRunIsMin(b, x, y, ndx, ndy, p, 4);
  }

  lemma DirectionWinsIffFive(b: Board, x: int, y: int, p: int, d: int)
    requires IsBoard(b) && 0 <= d < 4
    ensures DirectionWins(b, x, y, p, d) <==> exists s :: 0 <= s <= 4 && FiveThrough(b, x, y, p, d, s)
  {
    var (dx, dy) := DIRECTIONS[d];
    var (ndx, ndy) := (-dx, -dy);
    DirectionWinsRuns(b, x, y, p, d, dx, dy, ndx, ndy);
    if DirectionWins(b, x, y, p, d) {
      var c := Run(b, x, y, ndx, ndy, p);
      var s: int := if c <= 4 then c else 4;
      FiveFromRuns(b, x, y, p, d, dx, dy, ndx, ndy, s);
    }
    if s: int :| 0 <= s <= 4 && FiveThrough(b, x, y, p, d, s) {
      RunsFromFive(b, x, y, p, d, dx, dy, ndx, ndy, s);
    }
  }

  /** `checkWin(x, y)` holds for side p exactly when some five contiguous cells in
      one of the four directions pass through (x, y) and all of them other than
      (x, y) itself hold `p`. */
  lemma WinIffFive(b: Board, x: int, y: int, p: int)
    requires IsBoard(b)
    ensures Win(b, x, y, p) <==> exists d, s :: 0 <= d < 4 && 0 <= s <= 4 && FiveThrough(b, x, y, p, d, s)
  {
    if Win(b, x, y, p) {
      var d :| 0 <= d < 4 && DirectionWins(b, x, y, p, d);
      DirectionWinsIffFive(b, x, y, p, d);
      var s :| 0 <= s <= 4 && FiveThrough(b, x, y, p, d, s);
    } else {
      forall d, s | 0 <= d < 4 && 0 <= s <= 4
        ensures !FiveThrough(b, x, y, p, d, s)
      {
        DirectionWinsIffFive(b, x, y, p, d);
      }
    }
  }

  /** The top tier of the scorer fires in a direction exactly when `checkWin` does. */
  lemma FiveTierIffDirectionWins(b: Board, x: int, y: int, p: int, d: int)
    requires IsBoard(b) && 0 <= d < 4
    ensures LineDir(b, x, y, p, d).count >= 5 <==> DirectionWins(b, x, y, p, d)
  {
    var (dx, dy) := DIRECTIONS[d];
    var (ndx, ndy) := (-dx, -dy);
    DirectionWinsRuns(b, x, y, p, d, dx, dy, ndx, ndy);
    LineHalves(b, x, y, dx, dy, p, ndx, ndy);
  }

  // ---------------------------------------------------------------------------
  // The scans never read the cell they start from.
  // ---------------------------------------------------------------------------

  /** b and b2 hold the same values everywhere except possibly at (ox, oy). */
  ghost predicate AgreeOffCell(b: Board, b2: Board, ox: int, oy: int)
    requires IsBoard(b) && IsBoard(b2)
  {
    forall i, j :: (i != ox || j != oy) ==> At(b, i, j) == At(b2, i, j)
  }

  /** (ox, oy) does not lie strictly ahead of (px, py) in the direction (dx, dy). */
  predicate Behind(px: int, py: int, dx: int, dy: int, ox: int, oy: int) {
    (dx > 0 && ox <= px) || (dx < 0 && ox >= px) || (dy > 0 && oy <= py) || (dy < 0 && oy >= py)
  }

  lemma {:induction false} RunFrame(b: Board, b2: Board, ox: int, oy: int, px: int, py: int, dx: int, dy: int, p: int)
    requires IsBoard(b) && IsBoard(b2) && UnitStep(dx, dy)
    requires AgreeOffCell(b, b2, ox, oy) && Behind(px, py, dx, dy, ox, oy)
    ensures Run(b, px, py, dx, dy, p) == Run(b2, px, py, dx, dy, p)
    decreases Dist(px, dx) + Dist(py, dy)
  {
    assert At(b, px + dx, py + dy) == At(b2, px + dx, py + dy);
    if At(b, px + dx, py + dy) == Some(p) {
      RunFrame(b, b2, ox, oy, px + dx, py + dy, dx, dy, p);
    }
  }

  lemma {:induction false} EndOpenFrame(b: Board, b2: Board, ox: int, oy: int, px: int, py: int, dx: int, dy: int, p: int)
    requires IsBoard(b) && IsBoard(b2) && UnitStep(dx, dy)
    requires AgreeOffCell(b, b2, ox, oy) && Behind(px, py, dx, dy, ox, oy)
    ensures EndOpen(b, px, py, dx, dy, p) == EndOpen(b2, px, py, dx, dy, p)
    decreases Dist(px, dx) + Dist(py, dy)
  {
    assert At(b, px + dx, py + dy) == At(b2, px + dx, py + dy);
    if At(b, px + dx, py + dy) == Some(p) {
      EndOpenFrame(b, b2, ox, oy, px + dx, py + dy, dx, dy, p);
    }
  }

  lemma {:induction false} CappedFrame(b: Board, b2: Board, ox: int, oy: int, px: int, py: int, dx: int, dy: int, p: int, cap: nat)
    requires IsBoard(b) && IsBoard(b2)
    requires AgreeOffCell(b, b2, ox, oy) && Behind(px, py, dx, dy, ox, oy)
    ensures CappedRun(b, px, py, dx, dy, p, cap) == CappedRun(b2, px, py, dx, dy, p, cap)
    decreases cap
  {
    assert At(b, px + dx, py + dy) == At(b2, px + dx, py + dy);
    if cap > 0 {
      CappedFrame(b, b2, ox, oy, px + dx, py + dy, dx, dy, p, cap - 1);
    }
  }

  lemma {:induction false} ScoreUpToCongruent(b: Board, b2: Board, x: int, y: int, p: int, d: int)
    requires IsBoard(b) && IsBoard(b2) && 0 <= d <= 4
    requires forall e :: 0 <= e < d ==> LineDir(b, x, y, p, e) == LineDir(b2, x, y, p, e)
    ensures ScoreUpTo(b, x, y, p, d) == ScoreUpTo(b2, x, y, p, d)
  {
    if d > 0 {
      ScoreUpToCongruent(b, b2, x, y, p, d - 1);
    }
  }

  /** Direction e of the scorer and of `checkWin` reads the same cells before and
      after a write at (x, y). */
  lemma PlaceKeepsDirection(b: Board, x: int, y: int, v: int, p: int, e: int)
    requires IsBoard(b) && InBounds(x, y) && 0 <= e < 4
    ensures LineDir(Place(b, x, y, v), x, y, p, e) == LineDir(b, x, y, p, e)
    ensures DirectionWins(Place(b, x, y, v), x, y, p, e) == DirectionWins(b, x, y, p, e)
  {
    var b2 := Place(b, x, y, v);
    assert AgreeOffCell(b, b2, x, y);
    var (dx, dy) := DIRECTIONS[e];
    var (ndx, ndy) := (-dx, -dy);
    RunFrame(b, b2, x, y, x, y, dx, dy, p);
    RunFrame(b, b2, x, y, x, y, ndx, ndy, p);
    EndOpenFrame(b, b2, x, y, x, y, dx, dy, p);
    EndOpenFrame(b, b2, x, y, x, y, ndx, ndy, p);
    CappedFrame(b, b2, x, y, x, y, dx, dy, p, 4);
    CappedFrame(b, b2, x, y, x, y, ndx, ndy, p, 4);
  }

  /** Whatever value the stone written at (x, y) has, the score of (x, y) and the
      five-in-a-row test at (x, y) are those of the board before the write: placing
      the stone and scanning (as the program does) equals scanning the board with
      the candidate cell treated as filled. */
  lemma PlaceKeepsScans(b: Board, x: int, y: int, v: int, p: int)
    requires IsBoard(b) && InBounds(x, y)
    ensures MoveScore(Place(b, x, y, v), x, y, p) == MoveScore(b, x, y, p)
    ensures Win(Place(b, x, y, v), x, y, p) == Win(b, x, y, p)
  {
    var b2 := Place(b, x, y, v);
    forall e | 0 <= e < 4
      ensures LineDir(b, x, y, p, e) == LineDir(b2, x, y, p, e)
      ensures DirectionWins(b, x, y, p, e) == DirectionWins(b2, x, y, p, e)
    {
      PlaceKeepsDirection(b, x, y, v, p, e);
    }
    ScoreUpToCongruent(b, b2, x, y, p, 4);
  }

  // ---------------------------------------------------------------------------
  // The scorer.
  // ---------------------------------------------------------------------------

  lemma {:induction false} ScoreAtLeastTier(b: Board, x: int, y: int, p: int, d: int, e: int)
    requires IsBoard(b) && 0 <= e < d <= 4
    ensures ScoreUpTo(b, x, y, p, d) >= Tier(LineDir(b, x, y, p, e).count, LineDir(b, x, y, p, e).openEnds)
  {
    if e < d - 1 {
      ScoreAtLeastTier(b, x, y, p, d - 1, e);
    }
  }

  lemma {:induction false} ScoreWithoutFive(b: Board, x: int, y: int, p: int, d: int)
    requires IsBoard(b) && 0 <= d <= 4
    requires forall e :: 0 <= e < d ==> LineDir(b, x, y, p, e).count < 5
    ensures ScoreUpTo(b, x, y, p, d) <= 10000 * d
  {
    if d > 0 {
      ScoreWithoutFive(b, x, y, p, d - 1);
    }
  }

  /** A stone of side p at (x, y) scores at least 100000 exactly when `checkWin`
      would report five in a row for p there; otherwise it scores at most 40000. */
  lemma WinIffTopTier(b: Board, x: int, y: int, p: int)
    requires IsBoard(b)
    ensures Win(b, x, y, p) <==> MoveScore(b, x, y, p) >= 100000
    ensures !Win(b, x, y, p) ==> MoveScore(b, x, y, p) <= 40000
    ensures MoveScore(b, x, y, p) <= 400000
  {
    if Win(b, x, y, p) {
      var d :| 0 <= d < 4 && DirectionWins(b, x, y, p, d);
      FiveTierIffDirectionWins(b, x, y, p, d);
      ScoreAtLeastTier(b, x, y, p, 4, d);
    } else {
      forall e | 0 <= e < 4 ensures LineDir(b, x, y, p, e).count < 5 {
        FiveTierIffDirectionWins(b, x, y, p, e);
      }
      ScoreWithoutFive(b, x, y, p, 4);
    }
  }

  /** `evaluate` ranks an empty cell where either side would complete five above
      every cell where neither side would. */
  lemma FiveOutranks(b: Board, x1: int, y1: int, x2: int, y2: int)
    requires IsBoard(b) && InBounds(x1, y1) && 0 <= x2 < N && b[x1][y1] == EMPTY
    requires Win(b, x1, y1, BLACK) || Win(b, x1, y1, WHITE)
    requires !Win(b, x2, y2, BLACK) && !Win(b, x2, y2, WHITE)
    ensures EvalScore(b, x1, y1) >= 100000.0 > 88000.0 >= EvalScore(b, x2, y2)
  {
    WinIffTopTier(b, x1, y1, BLACK);
    WinIffTopTier(b, x1, y1, WHITE);
    WinIffTopTier(b, x2, y2, BLACK);
    WinIffTopTier(b, x2, y2, WHITE);
  }
}
