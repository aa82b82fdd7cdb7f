/**
 * An independent, integer-coordinate account of what `check_win` decides,
 * and the lemmas tying the wrapping `usize` walks of `ConnectFour` to it.
 */
module WinLines {
  import opened Wrappers
  import opened ConnectFour

  /** A cell position in unbounded integers: no wrap-around exists here. */
  datatype Pos = Pos(y: int, x: int)

  function AsPos(c: Coordinate): Pos {
    Pos(c.y, c.x)
  }

  predicate InGrid(p: Pos) {
    0 <= p.y < ROWS && 0 <= p.x < COLS
  }

  /** The position `i` steps from `p` along direction `d` (negative `i` walks backwards). */
  function Along(p: Pos, d: Dir, i: int): Pos {
    Pos(p.y + Scale(Delta(d).0, i), p.x + Scale(Delta(d).1, i))
  }

  /** `s * i` for a unit step `s` in {-1, 0, 1}, kept linear. */
  function Scale(s: int, i: int): int {
    if s == 0 then 0 else if s > 0 then i else -i
  }

  predicate OwnedAt(b: Board, o: Owner, p: Pos) {
    InGrid(p) && CellAt(b, p) == Some(o)
  }

  /** The `k` cells after `p` along `d` all hold an `o` stone. */
  ghost predicate RunOf(b: Board, o: Owner, p: Pos, d: Dir, k: nat) {
    forall i :: 1 <= i <= k ==> OwnedAt(b, o, Along(p, d, i))
  }

  /** The direction walked by the partner closure in `count_in_sequence`. */
  function Reverse(d: Dir): Dir {
    match d
    case Right => Left
    case Left => Right
    case UpRight => DownLeft
    case DownLeft => UpRight
    case DownRight => UpLeft
    case UpLeft => DownRight
    case Down => Down
  }

  /** The three two-sided axes of `check_win`. */
  predicate TwoSided(d: Dir) {
    d == Right || d == UpRight || d == DownRight
  }

  /**
   * A window of four consecutive positions on the line through `p` along
   * `d`, starting `s` steps behind `p`, whose cells other than `p` itself
   * all hold an `o` stone.
   */
  ghost predicate WindowOf(b: Board, o: Owner, p: Pos, d: Dir, s: int) {
    forall i :: -s <= i <= 3 - s && i != 0 ==> OwnedAt(b, o, Along(p, d, i))
  }

  ghost predicate LineThrough(b: Board, o: Owner, p: Pos, d: Dir) {
    exists s :: 0 <= s <= 3 && WindowOf(b, o, p, d, s)
  }

  /** Four `o` stones in a row on the line through `p` along `d`, `p` among them. */
  ghost predicate FourInARow(b: Board, o: Owner, p: Pos, d: Dir) {
    exists s :: 0 <= s <= 3 && FullWindow(b, o, p, d, s)
  }

  /** The window of four through `p` along `d` starting `s` steps behind `p` is all `o` stones. */
  ghost predicate FullWindow(b: Board, o: Owner, p: Pos, d: Dir, s: int) {
    forall i :: -s <= i <= 3 - s ==> OwnedAt(b, o, Along(p, d, i))
  }

  /** A usize coordinate `c` stands for the integer position `q`: both on the board and equal, or both off it. */
  predicate Tracks(c: Coordinate, q: Pos) {
    (OnBoard(c) <==> InGrid(q)) && (OnBoard(c) ==> q == AsPos(c))
  }

  lemma AdvanceTracks(c: Coordinate, d: Dir)
    requires OnBoard(c)
    ensures Tracks(Advance(c, d), Along(AsPos(c), d, 1))
  {
    AdvanceNeverWraps(c, d);
  }

  /** `get_field` at an integer position of the board. */
  function CellAt(b: Board, p: Pos): Cell
    requires InGrid(p)
  {
    GetField(b, Coordinate(p.y, p.x))
  }

  /** `w` lists the cells of the integer line from `q` along `d`, all on the board. */
  ghost predicate LineCells(b: Board, w: seq<Cell>, q: Pos, d: Dir) {
    forall i :: 0 <= i < |w| ==> InGrid(Along(q, d, i)) && w[i] == CellAt(b, Along(q, d, i))
  }

  lemma LineCellsCons(b: Board, w: seq<Cell>, q: Pos, d: Dir)
    requires InGrid(q) && LineCells(b, w, Along(q, d, 1), d)
    ensures LineCells(b, [CellAt(b, q)] + w, q, d)
  {
    var w2 := [CellAt(b, q)] + w;
    assert Along(q, d, 0) == q;
    forall i | 0 < i < |w2|
      ensures InGrid(Along(q, d, i)) && w2[i] == CellAt(b, Along(q, d, i))
    {
      AlongShift(q, d, i - 1);
      assert w2[i] == w[i - 1];
    }
  }

  /**
   * A walk yields exactly the cells of the straight integer line from its
   * start, in order, and stops at the first position off the board: it
   * never wraps around to the far edge.
   */
  lemma {:induction false} WalkFollowsLine(b: Board, c: Coordinate, q: Pos, d: Dir)
    requires Tracks(c, q)
    ensures LineCells(b, Walk(b, c, d), q, d)
    ensures !InGrid(Along(q, d, |Walk(b, c, d)|))
    decreases Reach(c, d)
  {
    if OnBoard(c) {
      var q' := Along(q, d, 1);
      AdvanceTracks(c, d);
      WalkFollowsLine(b, Advance(c, d), q', d);
      var w' := Walk(b, Advance(c, d), d);
      assert Walk(b, c, d) == [CellAt(b, q)] + w';
      LineCellsCons(b, w', q, d);
      AlongShift(q, d, |w'|);
    } else {
      assert Along(q, d, 0) == q;
    }
  }

  lemma AlongShift(q: Pos, d: Dir, i: int)
    ensures Along(Along(q, d, 1), d, i) == Along(q, d, i + 1)
  {
  }

  /** A walk from `c` is at most seven cells long, and from row 0 downwards it is empty. */
  lemma WalkBounds(b: Board, c: Coordinate, d: Dir)
    requires OnBoard(c)
    ensures |Walk(b, Advance(c, d), d)| <= COLS
    ensures c.y == 0 && d == Down ==> Walk(b, Advance(c, d), d) == []
  {
  }

  /** The walk in `check_win` counts exactly the contiguous `o` stones beyond `c`. */
  lemma {:induction false} RunFromMeansRun(b: Board, o: Owner, c: Coordinate, d: Dir, k: nat)
    requires OnBoard(c)
    ensures RunFrom(b, o, c, d) >= k <==> RunOf(b, o, AsPos(c), d, k)
  {
    var p := AsPos(c);
    var q := Along(p, d, 1);
    var w := Walk(b, Advance(c, d), d);
    var n := LeadingRun(w, Some(o));
    AdvanceTracks(c, d);
    WalkFollowsLine(b, Advance(c, d), q, d);
    forall i | 0 <= i
      ensures Along(q, d, i) == Along(p, d, i + 1)
    {
      AlongShift(p, d, i);
    }
    if n >= k {
      forall i | 1 <= i <= k
        ensures OwnedAt(b, o, Along(p, d, i))
      {
        assert w[i - 1] == Some(o);
      }
    }
    if RunOf(b, o, p, d, k) {
      assert !OwnedAt(b, o, Along(p, d, |w| + 1));
      assert k <= |w|;
      forall j | 0 <= j < k
        ensures w[j] == Some(o)
      {
        assert OwnedAt(b, o, Along(p, d, j + 1));
      }
      assert n >= k;
    }
  }

  lemma AlongReverse(p: Pos, d: Dir, i: int)
    requires TwoSided(d)
    ensures Along(p, Reverse(d), i) == Along(p, d, -i)
  {
  }

  /**
   * `count_in_sequence(f, reverse f) >= 4` holds exactly when some window
   * of four on that line through `c` has all its other cells owned by `o`.
   */
  lemma {:induction false} CountMeansLine(b: Board, o: Owner, c: Coordinate, d: Dir)
    requires OnBoard(c) && TwoSided(d)
    ensures CountInSequence(b, o, c, d, Reverse(d)) >= 4 <==> LineThrough(b, o, AsPos(c), d)
  {
    var p := AsPos(c);
    var a := RunFrom(b, o, c, d);
    var r := RunFrom(b, o, c, Reverse(d));
    forall i ensures Along(p, Reverse(d), i) == Along(p, d, -i) {
      AlongReverse(p, d, i);
    }
    if a + r >= 3 {
      var s: int := if r < 3 then r else 3;
      RunFromMeansRun(b, o, c, d, 3 - s);
      RunFromMeansRun(b, o, c, Reverse(d), s);
      forall i | -s <= i <= 3 - s && i != 0
        ensures OwnedAt(b, o, Along(p, d, i))
      {
        if i < 0 {
          assert OwnedAt(b, o, Along(p, Reverse(d), -i));
        }
      }
      assert WindowOf(b, o, p, d, s);
    }
    if LineThrough(b, o, p, d) {
      var s :| 0 <= s <= 3 && WindowOf(b, o, p, d, s);
      forall i | 1 <= i <= s
        ensures OwnedAt(b, o, Along(p, Reverse(d), i))
      {
        assert OwnedAt(b, o, Along(p, d, -i));
      }
      assert RunOf(b, o, p, Reverse(d), s);
      assert RunOf(b, o, p, d, 3 - s);
      RunFromMeansRun(b, o, c, d, 3 - s);
      RunFromMeansRun(b, o, c, Reverse(d), s);
    }
  }

  /**
   * `check_win` is true exactly when, through `c`, a horizontal or
   * diagonal window of four has all its other cells owned by `o`, or the
   * three cells directly below `c` are.
   */
  lemma CheckWinIff(b: Board, o: Owner, c: Coordinate)
    requires OnBoard(c)
    ensures CheckWin(b, o, c) <==>
              || LineThrough(b, o, AsPos(c), Right)
              || LineThrough(b, o, AsPos(c), UpRight)
              || LineThrough(b, o, AsPos(c), DownRight)
              || RunOf(b, o, AsPos(c), Down, 3)
  {
    CountMeansLine(b, o, c, Right);
    CountMeansLine(b, o, c, UpRight);
    CountMeansLine(b, o, c, DownRight);
    RunFromMeansRun(b, o, c, Down, 3);
  }

  /** Some line of four `o` stones passes through `p`. */
  ghost predicate AnyFour(b: Board, o: Owner, p: Pos) {
    || FourInARow(b, o, p, Right)
    || FourInARow(b, o, p, UpRight)
    || FourInARow(b, o, p, DownRight)
    || FourInARow(b, o, p, Down)
  }

  lemma LineThroughOwned(b: Board, o: Owner, p: Pos, d: Dir)
    requires OwnedAt(b, o, p)
    ensures LineThrough(b, o, p, d) <==> FourInARow(b, o, p, d)
  {
    assert Along(p, d, 0) == p;
    if LineThrough(b, o, p, d) {
      var s :| 0 <= s <= 3 && WindowOf(b, o, p, d, s);
      assert FullWindow(b, o, p, d, s);
    }
    if FourInARow(b, o, p, d) {
      var s :| 0 <= s <= 3 && FullWindow(b, o, p, d, s);
      assert WindowOf(b, o, p, d, s);
    }
  }

  /**
   * When nothing of `o` lies directly above `p`, a vertical four through
   * `p` can only be `p` and the three cells below it.
   */
  lemma VerticalFour(b: Board, o: Owner, p: Pos)
    requires OwnedAt(b, o, p)
    requires !OwnedAt(b, o, Pos(p.y + 1, p.x))
    ensures RunOf(b, o, p, Down, 3) <==> FourInARow(b, o, p, Down)
  {
    assert Along(p, Down, 0) == p;
    assert Along(p, Down, -1) == Pos(p.y + 1, p.x);
    if RunOf(b, o, p, Down, 3) {
      assert FullWindow(b, o, p, Down, 0);
    }
    if FourInARow(b, o, p, Down) {
      var s :| 0 <= s <= 3 && FullWindow(b, o, p, Down, s);
      assert s == 0;
      assert RunOf(b, o, p, Down, 3);
    }
  }

  /**
   * On a board obeying gravity, a drop into column `x` landing on row `y`
   * reports a win exactly when four of the dropper's stones in a row,
   * in any of the four directions, pass through the new stone.
   */
  lemma DropStoneWinIff(b: Board, o: Owner, x: Usize, y: nat)
    requires Settled(b) && LowestEmptyRow(b, x, y)
    ensures DropStone(b, o, x).1 == Some(AnyFour(DropStone(b, o, x).0, o, Pos(y, x)))
  {
    var c := Coordinate(y, x);
    var p := AsPos(c);
    DropStoneLands(b, o, x, y);
    var b2 := PlaceStone(b, o, c);
    assert OwnedAt(b2, o, p);
    assert !OwnedAt(b2, o, Pos(y + 1, x)) by {
      if y + 1 < ROWS {
        assert b[y + 1][x] == None;
      }
    }
    CheckWinIff(b2, o, c);
    LineThroughOwned(b2, o, p, Right);
    LineThroughOwned(b2, o, p, UpRight);
    LineThroughOwned(b2, o, p, DownRight);
    VerticalFour(b2, o, p);
  }

  /** Column `x` holds exactly `h` stones of `o`, stacked from the bottom. */
  ghost predicate StackOf(b: Board, o: Owner, x: nat, h: nat) {
    && x < COLS && h <= ROWS
    && forall y :: 0 <= y < ROWS ==> (y < h ==> b[y][x] == Some(o)) && (y >= h ==> b[y][x] == None)
  }

  lemma DropOnStack(b: Board, o: Owner, x: Usize, h: nat)
    requires StackOf(b, o, x, h) && h < ROWS
    ensures StackOf(DropStone(b, o, x).0, o, x, h + 1)
    ensures DropStone(b, o, x).1 == Some(CheckWin(DropStone(b, o, x).0, o, Coordinate(h, x)))
  {
  }

  /**
   * Four drops by one player into an empty column (of a new board, say):
   * the fourth reports a win.
   */
  lemma FourDropsInEmptyColumnWin(b0: Board, o: Owner, x: Usize)
    requires x < COLS && forall y :: 0 <= y < ROWS ==> b0[y][x] == None
    ensures var b1 := DropStone(b0, o, x).0;
            var b2 := DropStone(b1, o, x).0;
            var b3 := DropStone(b2, o, x).0;
            DropStone(b3, o, x).1 == Some(true)
  {
    assert StackOf(b0, o, x, 0);
    DropOnStack(b0, o, x, 0);
    var b1 := DropStone(b0, o, x).0;
    DropOnStack(b1, o, x, 1);
    var b2 := DropStone(b1, o, x).0;
    DropOnStack(b2, o, x, 2);
    var b3 := DropStone(b2, o, x).0;
    DropOnStack(b3, o, x, 3);
    StackOfFourWins(DropStone(b3, o, x).0, o, x);
  }

  lemma StackOfFourWins(b: Board, o: Owner, x: Usize)
    requires StackOf(b, o, x, 4)
    ensures CheckWin(b, o, Coordinate(3, x))
  {
    var p := Pos(3, x);
    assert Along(p, Down, 1) == Pos(2, x);
    assert Along(p, Down, 2) == Pos(1, x);
    assert Along(p, Down, 3) == Pos(0, x);
    assert RunOf(b, o, p, Down, 3);
    CheckWinIff(b, o, Coordinate(3, x));
  }
}
