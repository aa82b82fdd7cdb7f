/**
 * The Monte Carlo search tree of `src/mcts.rs`, generic over the board
 * interface it calls: the possible moves of a board, applying a move for a
 * player, the state of a board, and a random rollout.
 *
 * Weights are exact integers: every result is -1, 0 or 1.
 */
module SearchTree {
  import opened Wrappers
  import opened ConnectFour

  datatype GameResult = Draw | Win(winner: Owner)

  datatype GameState = Ongoing | Over(result: GameResult)

  /** The result of one simulation: 1 for a Player1 win, -1 for Player2, 0 for a draw. */
  type Outcome = v: int | -1 <= v <= 1

  /**
   * The board interface and the scoring the tree relies on.
   *  - `empty`: `GameBoard::default()`;
   *  - `moves`, `apply`, `state`: `get_possible_moves`, `drop_stone`, `get_game_state`;
   *  - `uct`: the finite UCT value of a visited child from its weight, its
   *    sample count and its parent's sample count (floating point in the
   *    source, left uninterpreted here);
   *  - `rollout`: `random_simulation` from a board and the player to move,
   *    drawing on the random source `seed`.
   */
  datatype Game<!B, !M> = Game(
    empty: B,
    moves: B -> seq<M>,
    apply: (B, Owner, M) -> B,
    state: B -> GameState,
    uct: (int, nat, nat) -> real,
    rollout: (B, Owner, nat) -> Outcome)

  /** An ongoing board has a move to expand; otherwise `first_mut().unwrap()` would panic. */
  ghost predicate Playable<B(!new), M>(g: Game<B, M>) {
    forall b :: g.state(b) == Ongoing ==> |g.moves(b)| > 0
  }

  datatype Node<B, M> = Node(
    board: B,
    player: Owner,
    gameMove: Option<M>,
    sampleCount: nat,
    weight: int,
    children: seq<Node<B, M>>)

  /** `Node::new`: a root on the default board. */
  function NewNode<B, M>(g: Game<B, M>, p: Owner): (n: Node<B, M>)
    ensures n.board == g.empty && n.player == p && n.gameMove == None
    ensures Unvisited(n)
  {
    Node(g.empty, p, None, 0, 0, [])
  }

  /** A node no simulation has passed through yet. */
  predicate Unvisited<B, M>(n: Node<B, M>) {
    n.sampleCount == 0 && n.weight == 0 && n.children == []
  }

  /** The fixed result a finished game scores. */
  function Value(r: GameResult): (v: Outcome)
    ensures v == 0 <==> r == Draw
    ensures v == 1 <==> r == Win(Player1)
    ensures v == -1 <==> r == Win(Player2)
  {
    match r
    case Draw => 0
    case Win(Player1) => 1
    case Win(Player2) => -1
  }

  /** `c` is `n`'s child for move `m`: the parent's stone dropped at `m`, the other player to move. */
  ghost predicate ChildFor<B, M>(g: Game<B, M>, n: Node<B, M>, m: M, c: Node<B, M>) {
    && c.board == g.apply(n.board, n.player, m)
    && c.player == Opponent(n.player)
    && c.gameMove == Some(m)
  }

  /** `generate_children`: one unvisited child per possible move, in move order. */
  function GenerateChildren<B, M>(g: Game<B, M>, n: Node<B, M>): (cs: seq<Node<B, M>>)
    ensures |cs| == |g.moves(n.board)|
    ensures forall i :: 0 <= i < |cs| ==> ChildFor(g, n, g.moves(n.board)[i], cs[i]) && Unvisited(cs[i])
  {
    var ms := g.moves(n.board);
    seq(|ms|, i requires 0 <= i < |ms| =>
      Node(g.apply(n.board, n.player, ms[i]), Opponent(n.player), Some(ms[i]), 0, 0, []))
  }

  /** A UCT score: `f64::INFINITY` for an unvisited child, a finite value otherwise. */
  datatype Score = Finite(value: real) | Infinite

  /** `total_cmp(a, b) != Greater`. */
  predicate AtMost(a: Score, b: Score) {
    match (a, b)
    case (_, Infinite) => true
    case (Infinite, Finite(_)) => false
    case (Finite(u), Finite(v)) => u <= v
  }

  lemma AtMostTransitive(a: Score, b: Score, c: Score)
    requires AtMost(a, b) && AtMost(b, c)
    ensures AtMost(a, c)
  {
  }

  lemma AtMostTotal(a: Score, b: Score)
    ensures AtMost(a, b) || AtMost(b, a)
  {
  }

  /** `calculate_uct` of child `c` under a parent visited `parentCount` times. */
  function Uct<B, M>(g: Game<B, M>, c: Node<B, M>, parentCount: nat): (s: Score)
    ensures s == Infinite <==> c.sampleCount == 0
  {
    if c.sampleCount == 0 then Infinite
    else Finite(g.uct(c.weight, c.sampleCount, parentCount))
  }

  /** The UCT scores of `n`'s children against `n`'s current sample count. */
  function Scores<B, M>(g: Game<B, M>, n: Node<B, M>): (s: seq<Score>)
    ensures |s| == |n.children|
    ensures forall i :: 0 <= i < |s| ==> s[i] == Uct(g, n.children[i], n.sampleCount)
  {
    seq(|n.children|, i requires 0 <= i < |n.children| => Uct(g, n.children[i], n.sampleCount))
  }

  /** `s[i]` is a maximum of `s`, and every later element is strictly smaller. */
  ghost predicate IsLastMax(s: seq<Score>, i: nat) {
    && i < |s|
    && (forall j :: 0 <= j < |s| ==> AtMost(s[j], s[i]))
    && (forall j :: i < j < |s| ==> !AtMost(s[i], s[j]))
  }

  /**
   * The fold behind `Iterator::max_by`: a later element replaces the best
   * so far unless the best compares `Greater`.
   */
  function MaxByFrom(s: seq<Score>, j: nat, best: nat): (i: nat)
    requires best < j <= |s|
    requires forall k :: 0 <= k < j ==> AtMost(s[k], s[best])
    requires forall k :: best < k < j ==> !AtMost(s[best], s[k])
    ensures IsLastMax(s, i)
    decreases |s| - j
  {
    if j == |s| then best
    else if !AtMost(s[best], s[j]) then
      AtMostTotal(s[best], s[j]);
      MaxByFrom(s, j + 1, best)
    else
      forall k | 0 <= k < j ensures AtMost(s[k], s[j]) {
        AtMostTransitive(s[k], s[best], s[j]);
      }
      MaxByFrom(s, j + 1, j)
  }

  /** `max_by(..).unwrap()`: the last maximal element; panics on an empty iterator. */
  function MaxBy(s: seq<Score>): (i: nat)
    requires |s| > 0
    ensures IsLastMax(s, i)
  {
    MaxByFrom(s, 1, 0)
  }

  /** The child a descent through `n` enters. */
  function SelectChild<B, M>(g: Game<B, M>, n: Node<B, M>): (i: nat)
    requires n.children != []
    ensures i < |n.children|
    ensures IsLastMax(Scores(g, n), i)
  {
    MaxBy(Scores(g, n))
  }

  /** `after` is `before` with one more sample of value `res`, all else but its children kept. */
  ghost predicate Credited<B, M>(before: Node<B, M>, after: Node<B, M>, res: int) {
    && after.board == before.board
    && after.player == before.player
    && after.gameMove == before.gameMove
    && after.sampleCount == before.sampleCount + 1
    && after.weight == before.weight + res
  }

  function Credit<B, M>(n: Node<B, M>, children: seq<Node<B, M>>, res: Outcome): (r: (Node<B, M>, Outcome))
    ensures Credited(n, r.0, r.1) && r.0.children == children && r.1 == res
  {
    (n.(children := children, sampleCount := n.sampleCount + 1, weight := n.weight + res), res)
  }

  /** Orders the recursion of `Mcts`: an expansion descends into a generated child. */
  function Phase<B, M>(n: Node<B, M>): nat {
    if n.children != [] then 2 else if n.sampleCount >= 1 then 1 else 0
  }

  /**
   * `Node::mcts`: one simulation through `n`, returning the updated node
   * and the result credited to every node on the path.
   */
  function Mcts<B(!new), M>(g: Game<B, M>, n: Node<B, M>, seed: nat): (r: (Node<B, M>, Outcome))
    requires Playable(g)
    ensures Credited(n, r.0, r.1)
    ensures n.children == [] && g.state(n.board).Over? ==>
              r.0.children == [] && r.1 == Value(g.state(n.board).result)
    ensures n.children == [] && g.state(n.board) == Ongoing && n.sampleCount == 0 ==>
              r.0.children == [] && r.1 == g.rollout(n.board, n.player, seed)
    ensures n.children == [] && g.state(n.board) == Ongoing && n.sampleCount >= 1 ==>
              (var generated := GenerateChildren(g, n);
               && |r.0.children| == |generated| > 0
               && Credited(generated[0], r.0.children[0], r.1)
               && r.0.children[0].children == []
               && r.0.children[1..] == generated[1..])
    ensures n.children != [] ==>
              (var i := SelectChild(g, n);
               && |r.0.children| == |n.children|
               && Credited(n.children[i], r.0.children[i], r.1)
               && forall j :: 0 <= j < |n.children| && j != i ==> r.0.children[j] == n.children[j])
    decreases Phase(n), n
  {
    if n.children == [] then
      match g.state(n.board)
      case Ongoing =>
        if n.sampleCount < 1 then
          Credit(n, [], g.rollout(n.board, n.player, seed))
        else
          var generated := GenerateChildren(g, n);
          var (first, res) := Mcts(g, generated[0], seed);
          Credit(n, generated[0 := first], res)
      case Over(result) =>
        Credit(n, [], Value(result))
    else
      var i := SelectChild(g, n);
      var (child, res) := Mcts(g, n.children[i], seed);
      Credit(n, n.children[i := child], res)
  }

  /** `best_move`: the move of the child with the last maximal UCT score. */
  function BestMove<B, M>(g: Game<B, M>, n: Node<B, M>): (m: M)
    requires n.children != []
    requires forall c :: c in n.children ==> c.gameMove.Some?
    ensures exists i :: 0 <= i < |n.children| && IsLastMax(Scores(g, n), i) && n.children[i].gameMove == Some(m)
  {
    var i := SelectChild(g, n);
    assert n.children[i] in n.children;
    n.children[i].gameMove.value
  }
}
