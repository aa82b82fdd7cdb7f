/**
 * The Connect Four board engine of `src/connect_four.rs`: a fixed grid of
 * 6 rows by 7 columns (row 0 at the bottom), gravity drops, and win
 * detection along the lines through the last stone placed.
 *
 * Coordinates are Rust `usize` values; the stepping closures of `check_win`
 * use `wrapping_add` / `wrapping_sub`, modelled here modulo 2^64.
 */
module ConnectFour {
  import opened Wrappers

  /** The two players. */
  datatype Owner = Player1 | Player2

  function Opponent(o: Owner): (r: Owner)
    ensures r != o
  {
    match o
    case Player1 => Player2
    case Player2 => Player1
  }

  type Cell = Option<Owner>

  const ROWS: nat := 6
  const COLS: nat := 7

  predicate IsGrid(g: seq<seq<Cell>>) {
    |g| == ROWS && forall y :: 0 <= y < |g| ==> |g[y]| == COLS
  }

  /** `[[Option<Owner>; 7]; 6]`, indexed `board[y][x]`. */
  type Board = g: seq<seq<Cell>> | IsGrid(g) witness seq(ROWS, _ => seq(COLS, _ => None))

  const USIZE_MAX: nat := 0xFFFF_FFFF_FFFF_FFFF

  type Usize = n: nat | n <= USIZE_MAX

  function WrappingAdd(a: Usize, k: Usize): Usize {
    (a + k) % (USIZE_MAX + 1)
  }

  function WrappingSub(a: Usize, k: Usize): Usize {
    (a - k) % (USIZE_MAX + 1)
  }

  datatype Coordinate = Coordinate(y: Usize, x: Usize)

  /** What `board.get(y).and_then(|row| row.get(x))` accepts. */
  predicate OnBoard(c: Coordinate) {
    c.y < ROWS && c.x < COLS
  }

  /** `GameBoard::new`: every cell empty. */
  function NewBoard(): (b: Board)
    ensures forall y, x :: 0 <= y < ROWS && 0 <= x < COLS ==> b[y][x] == None
    ensures Dimensions(b) == (ROWS, COLS)
  {
    seq(ROWS, _ => seq(COLS, _ => None))
  }

  /** `get_dimensions`: the number of rows, and the length of row 0 (or 0). */
  function Dimensions(b: Board): (d: (nat, nat))
    ensures d == (ROWS, COLS)
  {
    (|b|, if |b| > 0 then |b[0]| else 0)
  }

  /** `get_field`; indexing out of range panics in the source. */
  function GetField(b: Board, c: Coordinate): Cell
    requires OnBoard(c)
  {
    b[c.y][c.x]
  }

  /** `b2` is `b` with exactly the cell at (y, x) set to `Some(o)`. */
  ghost predicate Placed(b: Board, b2: Board, y: nat, x: nat, o: Owner) {
    && y < ROWS && x < COLS
    && b2[y][x] == Some(o)
    && forall y', x' :: 0 <= y' < ROWS && 0 <= x' < COLS && (y', x') != (y, x) ==> b2[y'][x'] == b[y'][x']
  }

  /** `place_stone`; indexing out of range panics in the source. */
  function PlaceStone(b: Board, o: Owner, c: Coordinate): (r: Board)
    requires OnBoard(c)
    ensures Placed(b, r, c.y, c.x, o)
    ensures forall c' :: OnBoard(c') ==> GetField(r, c') == if c' == c then Some(o) else GetField(b, c')
  {
    b[c.y := b[c.y][c.x := Some(o)]]
  }

  ghost predicate ColumnFull(b: Board, x: nat)
    requires x < COLS
  {
    forall y :: 0 <= y < ROWS ==> b[y][x] != None
  }

  /** Row `y` is the lowest empty cell of column `x`. */
  ghost predicate LowestEmptyRow(b: Board, x: nat, y: nat) {
    && x < COLS && y < ROWS
    && b[y][x] == None
    && forall k :: 0 <= k < y ==> b[k][x] != None
  }

  /** Gravity: no column has an empty cell below an occupied one. */
  ghost predicate Settled(b: Board) {
    forall x, y1, y2 :: 0 <= x < COLS && 0 <= y1 < y2 < ROWS && b[y2][x] != None ==> b[y1][x] != None
  }

  /** The scan `for i in 0..self.board.len()` of `drop_stone`, from row `i` up. */
  function FirstEmpty(b: Board, x: nat, i: nat): (r: Option<nat>)
    requires x < COLS && i <= ROWS
    ensures r.Some? ==> i <= r.value < ROWS && b[r.value][x] == None
                        && forall k :: i <= k < r.value ==> b[k][x] != None
    ensures r.None? ==> forall k :: i <= k < ROWS ==> b[k][x] != None
    decreases ROWS - i
  {
    if i == ROWS then None
    else if b[i][x] == None then Some(i)
    else FirstEmpty(b, x, i + 1)
  }

  /**
   * `drop_stone`: the board after the call and the returned
   * `Option<bool>` (None for an invalid move, else whether it won).
   */
  function DropStone(b: Board, o: Owner, x: Usize): (r: (Board, Option<bool>))
    ensures r.1.None? <==> x >= COLS || ColumnFull(b, x)
    ensures r.1.None? ==> r.0 == b
    ensures r.1.Some? ==> exists y :: LowestEmptyRow(b, x, y) && Placed(b, r.0, y, x, o)
                                      && r.1.value == CheckWin(r.0, o, Coordinate(y, x))
  {
    if x >= Dimensions(b).1 then (b, None)
    else
      match FirstEmpty(b, x, 0)
      case None => (b, None)
      case Some(y) =>
        var c := Coordinate(y, x);
        var b2 := PlaceStone(b, o, c);
        assert LowestEmptyRow(b, x, y);
        (b2, Some(CheckWin(b2, o, c)))
  }

  /** A successful drop is `place_stone` on the lowest empty row of the column. */
  lemma DropStoneLands(b: Board, o: Owner, x: Usize, y: nat)
    requires LowestEmptyRow(b, x, y)
    ensures DropStone(b, o, x) == (PlaceStone(b, o, Coordinate(y, x)),
                                   Some(CheckWin(PlaceStone(b, o, Coordinate(y, x)), o, Coordinate(y, x))))
  {
  }

  /** A drop keeps gravity: the stone lands on the lowest empty cell of its column. */
  lemma DropStoneKeepsSettled(b: Board, o: Owner, x: Usize)
    requires Settled(b)
    ensures Settled(DropStone(b, o, x).0)
  {
  }

  /**
   * The seven stepping closures of `check_win`, named by where they move
   * (`left_right` moves right, `bl_tr` up-right, `top_bot` down, ...).
   */
  datatype Dir = Right | Left | UpRight | DownLeft | DownRight | UpLeft | Down

  /** The integer step of each closure as (dy, dx); row 0 is the bottom. */
  function Delta(d: Dir): (int, int) {
    match d
    case Right => (0, 1)
    case Left => (0, -1)
    case UpRight => (1, 1)
    case DownLeft => (-1, -1)
    case DownRight => (-1, 1)
    case UpLeft => (1, -1)
    case Down => (-1, 0)
  }

  /** One application of a stepping closure, with `usize` wrap-around. */
  function Advance(c: Coordinate, d: Dir): Coordinate {
    match d
    case Right => Coordinate(c.y, WrappingAdd(c.x, 1))
    case Left => Coordinate(c.y, WrappingSub(c.x, 1))
    case UpRight => Coordinate(WrappingAdd(c.y, 1), WrappingAdd(c.x, 1))
    case DownLeft => Coordinate(WrappingSub(c.y, 1), WrappingSub(c.x, 1))
    case DownRight => Coordinate(WrappingSub(c.y, 1), WrappingAdd(c.x, 1))
    case UpLeft => Coordinate(WrappingAdd(c.y, 1), WrappingSub(c.x, 1))
    case Down => Coordinate(WrappingSub(c.y, 1), c.x)
  }

  /**
   * Stepping from a cell of the board never wraps around to the far side:
   * the wrapped step lands on the board exactly when the integer step
   * does, and then at the same cell.
   */
  lemma AdvanceNeverWraps(c: Coordinate, d: Dir)
    requires OnBoard(c)
    ensures var ny, nx := c.y + Delta(d).0, c.x + Delta(d).1;
            && (OnBoard(Advance(c, d)) <==> 0 <= ny < ROWS && 0 <= nx < COLS)
            && (OnBoard(Advance(c, d)) ==> Advance(c, d) == Coordinate(ny, nx))
  {
  }

  /** How many cells a walk from `c` in direction `d` can still visit. */
  function Reach(c: Coordinate, d: Dir): nat {
    if !OnBoard(c) then 0
    else
      match d
      case Right | UpRight | DownRight => COLS - c.x
      case Left | DownLeft | UpLeft => c.x + 1
      case Down => c.y + 1
  }

  /**
   * `iterate_by_function`: the cells visited from `c` by repeatedly
   * stepping in direction `d`, stopping at the first coordinate `get`
   * rejects.
   */
  function Walk(b: Board, c: Coordinate, d: Dir): (cells: seq<Cell>)
    ensures |cells| <= Reach(c, d) <= COLS
    decreases Reach(c, d)
  {
    if !OnBoard(c) then []
    else
      AdvanceNeverWraps(c, d);
      [b[c.y][c.x]] + Walk(b, Advance(c, d), d)
  }

  /** `take_while(|o| *o == v).count()`. */
  function LeadingRun(s: seq<Cell>, v: Cell): (n: nat)
    ensures n <= |s|
    ensures forall i :: 0 <= i < n ==> s[i] == v
    ensures n < |s| ==> s[n] != v
  {
    if s == [] || s[0] != v then 0 else 1 + LeadingRun(s[1..], v)
  }

  /** The contiguous `o` stones met walking from `c` in direction `d`, `c` excluded. */
  function RunFrom(b: Board, o: Owner, c: Coordinate, d: Dir): nat {
    LeadingRun(Walk(b, Advance(c, d), d), Some(o))
  }

  /** `count_in_sequence`: 1 plus the runs in the two opposite directions. */
  function CountInSequence(b: Board, o: Owner, c: Coordinate, f1: Dir, f2: Dir): nat {
    1 + RunFrom(b, o, c, f1) + RunFrom(b, o, c, f2)
  }

  /** `check_win`: the three two-sided lines, and the column below `c`. */
  function CheckWin(b: Board, o: Owner, c: Coordinate): bool {
    || CountInSequence(b, o, c, Right, Left) >= 4
    || CountInSequence(b, o, c, UpRight, DownLeft) >= 4
    || CountInSequence(b, o, c, DownRight, UpLeft) >= 4
    || RunFrom(b, o, c, Down) + 1 >= 4
  }
}
