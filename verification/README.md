# Connect Four and its Monte Carlo search tree, in Dafny

This project models the two components of a small Rust program that plays Connect Four with Monte Carlo tree search (MCTS), and proves properties of the model.

- **Board engine** (`src/connect_four.rs`, modelled in `connect_four.dfy` and `win_lines.dfy`):
  - The board is a fixed grid of 6 rows by 7 columns of `Option<Owner>`. Row 0 is the bottom row.
  - `drop_stone` drops a stone by gravity into a column. It returns `None` for an invalid move, and otherwise whether the move won.
  - `check_win` looks only at the lines through the stone just placed. It walks outwards with stepping closures built on `usize` `wrapping_add`/`wrapping_sub`. The model keeps those closures, with wrap-around modulo 2^64.
  - `win_lines.dfy` gives an independent definition in unbounded integers. The lemmas prove that the walks never wrap to the far edge.
  - They also prove that `check_win` holds exactly when the other cells of some window of four through the cell are owned, or the three cells below are (`WinLines.CheckWinIff`). For the stone `drop_stone` just placed, on a board obeying gravity, this is exactly a line of four of the dropper's stones through the new stone (`WinLines.DropStoneWinIff`).
- **Search tree** (`src/mcts.rs`, modelled in `mcts.dfy`, `search_invariants.dfy` and `connect_four_search.dfy`):
  - A node owns its board, the player to move, the move that led to it, a sample count, a weight and its children.
  - `mcts()` runs one simulation. A finished board scores its fixed value. An ongoing leaf is rolled out on its first visit and expanded on its second. An expanded node descends into the child chosen by `max_by` over UCT scores.
  - Every node on the path gains one sample and the same result.
  - The tree is generic over the board interface it calls (possible moves, apply a move, game state) and over the random rollout.
  - `connect_four_search.dfy` instantiates "apply" with the verified `drop_stone`.
  - Weights are exact integers, because every result is -1, 0 or 1.

Where this code departs from the usual MCTS/UCT formulation, the model follows the code:

- `Iterator::max_by` returns the last of equal maxima. So while some child is unvisited, a descent enters the *last* unvisited child (`SearchInvariants.DescentPrefersUnvisited`), not the first one.
- `best_move` picks the child with the highest UCT score, exploration term included. It does not pick the most-visited child.
- Expansion creates one child per possible move at once and samples only the first. After two simulations from a fresh root, the root has all its children, and exactly one of them has been visited (`SearchInvariants.TwoSimulationsFromRoot`).
- Weights use the absolute convention: +1 for a Player1 win, -1 for a Player2 win. Selection compares children by the same score whichever player is to move at the parent.

## Model

| member | source | states |
|---|---|---|
| `ConnectFour.NewBoard` | src/connect_four.rs:36-40 | a new board has every cell empty and dimensions (6, 7) |
| `ConnectFour.Dimensions` | src/connect_four.rs:42-50 | `get_dimensions` is (6, 7): the row count and the length of row 0 |
| `ConnectFour.PlaceStone` | src/connect_four.rs:56-58 | the target cell becomes `Some(owner)`; `get_field` of every other cell is unchanged |
| `ConnectFour.FirstEmpty` | src/connect_four.rs:64-66 | the upward scan of a column returns the first empty row at or above `i`, every row before it being occupied, or `None` when all are occupied |
| `ConnectFour.DropStone` | src/connect_four.rs:60-77 | `None` exactly when the column index is at least 7 or the column is full, and then the board is unchanged; otherwise only the lowest empty cell of the column is set to `Some(owner)` and the result is `Some(check_win)` of that cell |
| `ConnectFour.DropStoneLands` | src/connect_four.rs:64-73 | a drop onto a column whose lowest empty row is `y` is `place_stone` at (y, x) returning `check_win` at (y, x) |
| `ConnectFour.DropStoneKeepsSettled` | src/connect_four.rs:64-66 | if no column has an empty cell below an occupied one before a drop, the same holds after it |
| `ConnectFour.Advance` | src/connect_four.rs:80-107 | one application of each of the seven stepping closures, with `usize` wrap-around; `ConnectFour.AdvanceNeverWraps` shows that from a cell of the board it agrees with the integer step |
| `ConnectFour.AdvanceNeverWraps` | src/connect_four.rs:80-107 | from a cell of the board, a wrapping step lands on the board exactly when the integer step does, and then on the same cell |
| `ConnectFour.Walk` | src/connect_four.rs:136-154 | a walk yields at most as many cells as remain to the edge in its direction, so never more than 7 |
| `ConnectFour.LeadingRun` | src/connect_four.rs:126-133 | `take_while(== v).count()` is the length of the longest prefix whose cells all equal `v` |
| `ConnectFour.RunFrom` | src/connect_four.rs:126-133 | the `take_while(..).count()` of one closure's walk, the start cell excluded; `WinLines.RunFromMeansRun` shows it is at least `k` exactly when the next `k` cells on the line are the owner's |
| `ConnectFour.CountInSequence` | src/connect_four.rs:119-134 | one plus the runs along two opposite closures; `WinLines.CountMeansLine` shows it is at least 4 exactly when a window of four through the cell has its other cells owned |
| `ConnectFour.CheckWin` | src/connect_four.rs:79-117 | a win along either diagonal or the row, or three owned cells below; `WinLines.CheckWinIff` states it as window conditions, and `WinLines.DropStoneWinIff` as a four in a row through a dropped stone |
| `WinLines.WalkFollowsLine` | src/connect_four.rs:136-154 | a walk yields exactly the on-board cells of the straight integer line from its start, in order, and stops at the first position off the board: it never wraps to the far side |
| `WinLines.WalkBounds` | src/connect_four.rs:104-116 | a walk from a cell has at most 7 cells, and the downward walk from row 0 yields none |
| `WinLines.RunFromMeansRun` | src/connect_four.rs:126-133 | the counted walk beyond a cell is at least `k` exactly when the `k` cells after it on the line all hold the owner's stones |
| `WinLines.CountMeansLine` | src/connect_four.rs:119-134 | `count_in_sequence` over two opposite closures is at least 4 exactly when some window of four on that line through the cell has its other three cells owned |
| `WinLines.CheckWinIff` | src/connect_four.rs:79-117 | `check_win` holds exactly when a horizontal or diagonal window of four through the cell has its other cells owned, or the three cells directly below are owned |
| `WinLines.LineThroughOwned` | src/connect_four.rs:108-110 | when the cell itself is owned, a window through it with the other cells owned is a four in a row |
| `WinLines.VerticalFour` | src/connect_four.rs:104-116 | with no owner stone directly above the cell, the only vertical four through it is the cell and the three below |
| `WinLines.DropStoneWinIff` | src/connect_four.rs:60-117 | on a board obeying gravity, a drop reports a win exactly when four of the dropper's stones in a row, in any direction, pass through the new stone |
| `WinLines.DropOnStack` | src/connect_four.rs:60-77 | dropping onto a column holding `h < 6` of the owner's stones yields `h + 1` stacked stones and reports `check_win` at row `h` |
| `WinLines.FourDropsInEmptyColumnWin` | src/connect_four.rs:60-117 | four drops by one player into an empty column: the fourth returns `Some(true)` |
| `WinLines.StackOfFourWins` | src/connect_four.rs:104-116 | the fourth stone of a vertical stack of four wins |
| `ConnectFour.Opponent` | src/mcts.rs:109-112 | a child's player is the other player |
| `SearchTree.NewNode` | src/mcts.rs:33-42 | `Node::new(p)` has the default board, player `p`, no move, zero samples, zero weight and no children |
| `SearchTree.Value` | src/mcts.rs:57-63 | a draw scores 0, a Player1 win 1 and a Player2 win -1 |
| `SearchTree.GenerateChildren` | src/mcts.rs:102-120 | one child per possible move, in move order, each with the move dropped for the parent's player, the other player to move, `Some(m)`, and no samples, weight or children |
| `SearchTree.Uct` | src/mcts.rs:94-100 | the score is infinite exactly for a child with no samples |
| `SearchTree.MaxByFrom` | src/mcts.rs:67-74 | the left-to-right fold of `max_by` ends on a maximum with every later score strictly smaller |
| `SearchTree.MaxBy` | src/mcts.rs:67-74 | `max_by(..).unwrap()` on a non-empty sequence returns the last maximal element |
| `SearchTree.SelectChild` | src/mcts.rs:66-74 | the descent enters the last child of maximal UCT score against the parent's sample count |
| `SearchTree.Mcts` | src/mcts.rs:44-80 | one simulation adds one sample and the result to the node, keeping its board, player and move. A finished leaf gains no children and scores its value. An unvisited ongoing leaf is rolled out and gains no children. A visited ongoing leaf gets the generated children with only the first visited. An expanded node changes only the selected child, which gains one sample and the same result |
| `SearchTree.BestMove` | src/mcts.rs:82-92 | `best_move` needs at least one child and returns the move of the child of last maximal UCT score |
| `SearchInvariants.NewNodeSound` | src/mcts.rs:33-42 | a fresh root satisfies the tree invariant |
| `SearchInvariants.MctsKeepsSound` | src/mcts.rs:44-80 | one simulation preserves, at every node: the absolute weight is at most `sample_count`; an expanded node is ongoing with one child per move and children's counts summing to its own minus one; an ongoing leaf has at most one sample; a finished leaf has `weight == value * sample_count` |
| `SearchInvariants.Simulate` | src/main.rs:9-12 | repeated `mcts()` calls raise the root's sample count by the number of calls and keep its board, player and move |
| `SearchInvariants.SimulateKeepsSound` | src/mcts.rs:44-80 | the tree invariant holds after any sequence of simulations |
| `SearchInvariants.RootAccounting` | src/mcts.rs:44-80 | after `N` simulations from a fresh root: sample count `N`, absolute weight at most `N`, and once expanded the children's counts sum to `N - 1` |
| `SearchInvariants.TerminalLeafStays` | src/mcts.rs:46-63 | a childless node on a finished board never gains children, and each visit adds the same fixed value |
| `SearchInvariants.TwoSimulationsFromRoot` | src/mcts.rs:46-56 | two simulations from a fresh ongoing root: count 2, one child per possible move, the first child visited once, all others unvisited, and the root's weight the first rollout plus the first child's weight |
| `SearchInvariants.DescentPrefersUnvisited` | src/mcts.rs:67-75 | while some child is unvisited, the descent enters the last unvisited child and never a visited one |
| `SearchInvariants.BestMoveIsPossible` | src/mcts.rs:82-92 | on an expanded sound node every child has a move, and `best_move` returns one of the board's possible moves |
| `ConnectFourSearch.DropApply` | src/mcts.rs:104-106 | a child's board is the parent's with the stone dropped: unchanged for an invalid column, otherwise exactly the lowest empty cell filled |
| `ConnectFourSearch.SoundTreeSettled` | src/mcts.rs:102-120 | in a sound tree whose root obeys gravity, every board obeys gravity |
| `ConnectFourSearch.SearchKeepsGravity` | src/mcts.rs:44-120 | every board in a search grown from `Node::new` by any number of simulations obeys gravity |

## Left out

- Display impls (`src/connect_four.rs:11-33`, `src/connect_four.rs:163-170`, `src/mcts.rs:17-30`) and `src/tic_tac_toe.rs`: these only render text.
- `src/main.rs`: it is the terminal game loop and the million-iteration driver. `SearchInvariants.Simulate` models only the repeated `mcts()` calls of that driver.
- `get_game_state`, `get_possible_moves` and `random_simulation` are not part of the board file this model covers. They are parameters of `SearchTree.Game` (`state`, `moves`, `rollout`). The randomness of the rollout is an explicit `seed` argument.
- `SearchTree.Mcts` assumes these three calls leave the node's board unchanged: they are pure functions of the board in the model. `random_simulation` is called on the node's own `game_board` (`src/mcts.rs:51`) and its receiver is not in these files; if it played the rollout out on that board, the node would keep the finished board and never expand on its second visit. The `Credited` clause (`after.board == before.board`) and the "keeping its board" of its row rest on this assumption.
- The numeric UCT value `w/n + 5·√2·sqrt(ln N / n)` uses floating point. It is an uninterpreted finite real (`Game.uct`), ranked below the infinite score of an unvisited child. NaN, signed zeros and the rest of `total_cmp`'s float order are not modelled.
- `SearchTree.Mcts` requires that every ongoing board has a possible move (`Playable`). Otherwise `first_mut().unwrap()` panics in the source.
- `weight` is an `f64` and `sample_count` a `u64` in the source. The model uses unbounded integers, so float rounding past 2^53 and counter overflow are not modelled.
- `Vec::with_capacity` sizing hints are not modelled; they only affect performance.
- `ConnectFour.GetField` has no contract of its own; `ConnectFour.PlaceStone` states its relation to it.
- The win lemmas take the placed coordinate on the board. `Coordinate`'s fields are private, and `drop_stone` only builds on-board coordinates. Off the board, `check_win` could wrap: from `x = usize::MAX`, `wrapping_add(1)` reaches column 0.
- `commit_move`, `legal_moves` and `is_draw` do not appear in these source files and are not part of this model. The board queries `src/mcts.rs` does call (`get_possible_moves`, `get_game_state`) are modelled as the parameters `Game.moves` and `Game.state`.
