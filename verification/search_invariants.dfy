/**
 * What holds of every search tree grown from `Node::new` by repeated
 * `mcts()` calls: visit accounting, weight bounds, the shape of expansion,
 * and the order in which children are visited.
 */
module SearchInvariants {
  import opened Wrappers
  import opened ConnectFour
  import opened SearchTree

  /** The sum of the sample counts of `cs`. */
  function SumCounts<B, M>(cs: seq<Node<B, M>>): nat {
    if cs == [] then 0 else cs[0].sampleCount + SumCounts(cs[1..])
  }

  /**
   * A childless node: an ongoing board has been sampled at most once (the
   * second visit expands it); a finished board has scored its fixed value
   * on every visit.
   */
  ghost predicate LeafSound<B, M>(g: Game<B, M>, n: Node<B, M>) {
    match g.state(n.board)
    case Ongoing => n.sampleCount <= 1
    case Over(r) => n.weight == Value(r) * n.sampleCount
  }

  /**
   * The invariant of every node of the tree:
   *  - `|weight| <= sample_count`;
   *  - a childless node is a sound leaf;
   *  - an expanded node is ongoing, has one child per possible move in move
   *    order, and its children's sample counts add up to its own minus one
   *    (the visit that sampled it as a leaf).
   */
  ghost predicate Sound<B, M>(g: Game<B, M>, n: Node<B, M>)
    decreases n
  {
    && -(n.sampleCount as int) <= n.weight <= n.sampleCount
    && (n.children == [] ==> LeafSound(g, n))
    && (n.children != [] ==>
          && g.state(n.board) == Ongoing
          && SumCounts(n.children) + 1 == n.sampleCount
          && |n.children| == |g.moves(n.board)|
          && (forall i :: 0 <= i < |n.children| ==> ChildFor(g, n, g.moves(n.board)[i], n.children[i]))
          && (forall c :: c in n.children ==> Sound(g, c)))
  }

  lemma {:induction false} SumCountsUpdate<B, M>(cs: seq<Node<B, M>>, i: nat, c: Node<B, M>)
    requires i < |cs|
    ensures SumCounts(cs[i := c]) + cs[i].sampleCount == SumCounts(cs) + c.sampleCount
  {
    if i == 0 {
      assert cs[i := c][1..] == cs[1..];
    } else {
      SumCountsUpdate(cs[1..], i - 1, c);
      assert cs[i := c][1..] == cs[1..][i - 1 := c];
    }
  }

  lemma {:induction false} SumCountsUnvisited<B, M>(cs: seq<Node<B, M>>)
    requires forall i :: 0 <= i < |cs| ==> Unvisited(cs[i])
    ensures SumCounts(cs) == 0
  {
    if cs != [] {
      SumCountsUnvisited(cs[1..]);
    }
  }

  lemma UnvisitedSound<B, M>(g: Game<B, M>, n: Node<B, M>)
    requires Unvisited(n)
    ensures Sound(g, n)
  {
  }

  /** `Node::new` builds a sound root. */
  lemma NewNodeSound<B, M>(g: Game<B, M>, p: Owner)
    ensures Sound(g, NewNode(g, p))
  {
  }

  /** One simulation keeps the whole tree sound. */
  lemma {:induction false} MctsKeepsSound<B(!new), M>(g: Game<B, M>, n: Node<B, M>, seed: nat)
    requires Playable(g) && Sound(g, n)
    ensures Sound(g, Mcts(g, n, seed).0)
    decreases Phase(n), n
  {
    var (n2, res) := Mcts(g, n, seed);
    if n.children == [] {
      match g.state(n.board)
      case Ongoing =>
        if n.sampleCount >= 1 {
          var generated := GenerateChildren(g, n);
          UnvisitedSound(g, generated[0]);
          MctsKeepsSound(g, generated[0], seed);
          var first := Mcts(g, generated[0], seed).0;
          assert n2.children == generated[0 := first];
          SumCountsUnvisited(generated);
          SumCountsUpdate(generated, 0, first);
          forall c | c in n2.children
            ensures Sound(g, c)
          {
            var k :| 0 <= k < |n2.children| && n2.children[k] == c;
            if k > 0 {
              UnvisitedSound(g, generated[k]);
            }
          }
        }
      case Over(r) =>
        assert n2.weight == n.weight + Value(r);
        assert Value(r) * n2.sampleCount == Value(r) * n.sampleCount + Value(r);
    } else {
      var i := SelectChild(g, n);
      var child := n.children[i];
      assert child in n.children;
      MctsKeepsSound(g, child, seed);
      var child2 := Mcts(g, child, seed).0;
      assert n2.children == n.children[i := child2];
      SumCountsUpdate(n.children, i, child2);
      forall c | c in n2.children
        ensures Sound(g, c)
      {
        var k :| 0 <= k < |n2.children| && n2.children[k] == c;
        if k != i {
          assert n.children[k] in n.children;
        }
      }
    }
  }

  /** The driver loop: one `mcts()` call per random seed, in order. */
  function Simulate<B(!new), M>(g: Game<B, M>, n: Node<B, M>, seeds: seq<nat>): (r: Node<B, M>)
    requires Playable(g)
    ensures r.board == n.board && r.player == n.player && r.gameMove == n.gameMove
    ensures r.sampleCount == n.sampleCount + |seeds|
    decreases |seeds|
  {
    if seeds == [] then n else Simulate(g, Mcts(g, n, seeds[0]).0, seeds[1..])
  }

  /** After any sequence of simulations the tree is still sound. */
  lemma {:induction false} SimulateKeepsSound<B(!new), M>(g: Game<B, M>, n: Node<B, M>, seeds: seq<nat>)
    requires Playable(g) && Sound(g, n)
    ensures Sound(g, Simulate(g, n, seeds))
    decreases |seeds|
  {
    if seeds != [] {
      MctsKeepsSound(g, n, seeds[0]);
      SimulateKeepsSound(g, Mcts(g, n, seeds[0]).0, seeds[1..]);
    }
  }

  /**
   * From a fresh root, after `N` simulations the root has been sampled `N`
   * times, `|weight| <= N`, and once expanded its children's counts add up
   * to `N - 1`.
   */
  lemma RootAccounting<B(!new), M>(g: Game<B, M>, p: Owner, seeds: seq<nat>)
    requires Playable(g)
    ensures var root := Simulate(g, NewNode(g, p), seeds);
            && root.sampleCount == |seeds|
            && -|seeds| <= root.weight <= |seeds|
            && (root.children != [] ==> SumCounts(root.children) == |seeds| - 1)
  {
    NewNodeSound(g, p);
    SimulateKeepsSound(g, NewNode(g, p), seeds);
  }

  /**
   * A childless node on a finished board never gains children, and every
   * visit adds the same fixed value.
   */
  lemma {:induction false} TerminalLeafStays<B(!new), M>(g: Game<B, M>, n: Node<B, M>, seeds: seq<nat>)
    requires Playable(g) && n.children == [] && g.state(n.board).Over?
    ensures Simulate(g, n, seeds).children == []
    ensures Simulate(g, n, seeds).weight == n.weight + Value(g.state(n.board).result) * |seeds|
    decreases |seeds|
  {
    if seeds != [] {
      var n2 := Mcts(g, n, seeds[0]).0;
      TerminalLeafStays(g, n2, seeds[1..]);
      assert Value(g.state(n.board).result) * |seeds| == Value(g.state(n.board).result) * |seeds[1..]| + Value(g.state(n.board).result);
    }
  }

  /**
   * Two simulations from a fresh root on an ongoing board: the first is a
   * rollout, the second expands the root into one child per possible move
   * and samples only the first of them.
   */
  lemma TwoSimulationsFromRoot<B(!new), M>(g: Game<B, M>, p: Owner, s1: nat, s2: nat)
    requires Playable(g) && g.state(g.empty) == Ongoing
    ensures var root := Simulate(g, NewNode(g, p), [s1, s2]);
            && root.sampleCount == 2
            && |root.children| == |g.moves(g.empty)|
            && root.children[0].sampleCount == 1
            && root.children[0].gameMove == Some(g.moves(g.empty)[0])
            && root.weight == g.rollout(g.empty, p, s1) + root.children[0].weight
            && forall j :: 1 <= j < |root.children| ==> Unvisited(root.children[j])
  {
    var n0 := NewNode(g, p);
    var n1 := Mcts(g, n0, s1).0;
    var n2 := Mcts(g, n1, s2).0;
    assert Simulate(g, n0, [s1, s2]) == Simulate(g, n1, [s2]);
    assert Simulate(g, n1, [s2]) == n2;
    var generated := GenerateChildren(g, n1);
    assert n2.children[1..] == generated[1..];
    forall j | 1 <= j < |n2.children|
      ensures Unvisited(n2.children[j])
    {
      assert n2.children[j] == n2.children[1..][j - 1];
    }
  }

  /**
   * While some child is unvisited, a descent enters the last unvisited
   * child: its infinite score ties every other unvisited one and `max_by`
   * keeps the last of equal maxima.
   */
  lemma DescentPrefersUnvisited<B, M>(g: Game<B, M>, n: Node<B, M>, j: nat)
    requires j < |n.children| && n.children[j].sampleCount == 0
    ensures var i := SelectChild(g, n);
            && n.children[i].sampleCount == 0
            && j <= i
            && forall k :: i < k < |n.children| ==> n.children[k].sampleCount > 0
  {
  }

  /** `best_move` on an expanded, sound node names one of the board's possible moves. */
  lemma BestMoveIsPossible<B, M>(g: Game<B, M>, n: Node<B, M>)
    requires Sound(g, n) && n.children != []
    ensures forall c :: c in n.children ==> c.gameMove.Some?
    ensures BestMove(g, n) in g.moves(n.board)
  {
  }
}
