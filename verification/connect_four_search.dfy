/**
 * The search tree over the Connect Four board: `generate_children` clones
 * the board and calls `drop_stone` for the parent's player, ignoring the
 * returned `Option<bool>`. The possible moves, the game state and the
 * rollout stay parameters.
 */
module ConnectFourSearch {
  import opened Wrappers
  import opened ConnectFour
  import opened SearchTree
  import opened SearchInvariants

  /** `new_board.drop_stone(self.current_player, m)` on a clone, result discarded. */
  function DropApply(b: Board, o: Owner, m: Usize): (r: Board)
    ensures m >= COLS || ColumnFull(b, m) ==> r == b
    ensures m < COLS && !ColumnFull(b, m) ==> exists y :: LowestEmptyRow(b, m, y) && Placed(b, r, y, m, o)
  {
    DropStone(b, o, m).0
  }

  function ConnectFourGame(
    moves: Board -> seq<Usize>,
    state: Board -> GameState,
    uct: (int, nat, nat) -> real,
    rollout: (Board, Owner, nat) -> Outcome): Game<Board, Usize>
  {
    Game(NewBoard(), moves, DropApply, state, uct, rollout)
  }

  /** Every board held by the tree obeys gravity. */
  ghost predicate AllSettled(n: Node<Board, Usize>)
    decreases n
  {
    Settled(n.board) && forall c :: c in n.children ==> AllSettled(c)
  }

  lemma NewBoardSettled()
    ensures Settled(NewBoard())
  {
  }

  /**
   * In a sound tree whose root board obeys gravity, so does every board:
   * each child's board is its parent's with one stone dropped.
   */
  lemma {:induction false} SoundTreeSettled(
    moves: Board -> seq<Usize>,
    state: Board -> GameState,
    uct: (int, nat, nat) -> real,
    rollout: (Board, Owner, nat) -> Outcome,
    n: Node<Board, Usize>)
    requires Sound(ConnectFourGame(moves, state, uct, rollout), n) && Settled(n.board)
    ensures AllSettled(n)
    decreases n
  {
    var g := ConnectFourGame(moves, state, uct, rollout);
    forall c | c in n.children
      ensures AllSettled(c)
    {
      var k :| 0 <= k < |n.children| && n.children[k] == c;
      assert ChildFor(g, n, moves(n.board)[k], c);
      DropStoneKeepsSettled(n.board, n.player, moves(n.board)[k]);
      SoundTreeSettled(moves, state, uct, rollout, c);
    }
  }

  /**
   * A search grown from `Node::new` on the Connect Four board, by any
   * number of simulations, only ever holds boards that obey gravity.
   */
  lemma SearchKeepsGravity(
    moves: Board -> seq<Usize>,
    state: Board -> GameState,
    uct: (int, nat, nat) -> real,
    rollout: (Board, Owner, nat) -> Outcome,
    p: Owner,
    seeds: seq<nat>)
    requires Playable(ConnectFourGame(moves, state, uct, rollout))
    ensures AllSettled(Simulate(ConnectFourGame(moves, state, uct, rollout),
                                NewNode(ConnectFourGame(moves, state, uct, rollout), p), seeds))
  {
    var g := ConnectFourGame(moves, state, uct, rollout);
    NewNodeSound(g, p);
    SimulateKeepsSound(g, NewNode(g, p), seeds);
    SoundTreeSettled(moves, state, uct, rollout, Simulate(g, NewNode(g, p), seeds));
  }
}
