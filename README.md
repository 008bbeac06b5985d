# pMADI in Dafny

pMADI is a small grid game: a player starts in the bottom-right corner of a
level, must pick up a golden key, then the treasure in the top-left corner,
and bring it back to the start. The level holds walls, enemies, traps,
cracks, swords, magic portals and moving platforms. The repository generates
random solvable levels, loads and saves them as text, lets a player walk them
(two player classes), and plans a route with three solvers: Q-learning,
value iteration and policy iteration (plus an older solver, solver.py, with a
value iteration and the equation writer of a policy iteration).

This project models those parts and proves properties about them:

- `World` defines the cell symbols, positions, moves and grids.
- `Game` covers the `Level` class of game.py:
  - generation from supplied random draws, with its cell pass and placement loops;
  - the depth-first `way_possible` search, proved equal to reachability along walks;
  - `solvable` and the bounded retry loop of `generate_solvable`;
  - the save and load text format, with a round trip.
- `Avatar`, `PlayerOne` and `PlayerTwo` cover player.py and player2.py:
  - each player is a class with the fields of the source;
  - every `grid_reaction` branch is a method proved against a reaction function;
  - the lemmas state the life, grid, position and item rules.
- `QLearn` covers qlearning.py:
  - the constructor's checks;
  - states, the reward table and the greedy choice in `get_max_next_q`;
  - the temporal-difference update;
  - train's epsilon schedule, stop rule and results window;
  - `policy`.
- `Planning` holds what the planners share:
  - the reward tables;
  - the table of `[0, 0]` cells;
  - `best_policy`;
  - the twelve player contexts the solvers are run on.
- `ValueIter` covers value_iteration.py:
  - one synchronous sweep, proved to be a `gamma`-contraction;
  - the stopping test;
  - the solver class.
- `PolicyIter` covers policy_iteration.py:
  - Python dicts with their key order;
  - the variable names and the equations of every cell;
  - `build_dt1`, `get_possible_move` and the greedy improvement;
  - the round loop.
- `OldSolver` covers solver.py:
  - its value iteration as written, including the places where it raises IndexError, and proves it is a contraction;
  - the same value iteration with the trap test its comment intends, as separate methods;
  - `set_variables`, compared with policy_iteration.py.
- `Text` and `Reals` model the bits of Python the code relies on:
  - `str`/`int` on numerals, `strip` and `split`;
  - `abs`, `max` and `list.index`.

Randomness is supplied by the caller. Each `random.uniform`/`randint` value, and each
sequence of values a rejection loop draws, is a parameter. The linear solver of
`np.linalg.solve` is a parameter too. Floats are modelled as `real`.

## Model

| member | source | states |
|---|---|---|
| `World.FromSymbol` | game.py:66-74 | A symbol stands for a cell exactly when it is that cell's symbol; unknown symbols give None |
| `World.SetCell` | player.py:57-59 | `grid[y][x] = c` changes exactly that cell and keeps the grid's shape |
| `World.Moved` | player.py:19-49 | A move changes one coordinate by exactly one and never leaves the player in place |
| `Text.DigitsRoundTrip` | game.py:78-79 | Reading back the decimal string `str(n)` gives `n` |
| `Text.NatToString` | game.py:78-79 | `str(n)` is a non-empty digit string; it is one character exactly when `n < 10` |
| `Text.IntOf` | game.py:69-72 | `int(s)` succeeds exactly when, with the white space around it skipped, the text is an optional `+` or `-` followed by digits with single underscores between them; the value is the digits' value with the sign. The white space skipped is ASCII 9-13, the space and the Unicode spaces, not the separators 28-31 |
| `Text.DigitsAreNumeral` | game.py:69-72 | A plain digit string is such a numeral and denotes its digits' value |
| `Text.IntOfSigned` | game.py:69-72 | `int("+5") == 5` and `int("-3") == -3` |
| `Text.IntOfUnderscore` | game.py:69-72 | `int("1_0") == 10` |
| `Text.IntOfLeadingZeros` | game.py:69-72 | `int("007") == 7` |
| `Text.IntOfUnicodeSpace` | game.py:69-72 | A vertical tab before and a no-break space after the digits are skipped |
| `Text.IntOfFileSeparator` | game.py:69-72 | `int("\x1c5")` and `int("5\x1f")` raise ValueError: the ASCII separators are not skipped |
| `Text.IntOfDoubleUnderscore` | game.py:69-72 | `int("1__0")` raises ValueError |
| `Text.IntOfRefused` | game.py:69-72 | `int("_1")` and `int("+")` raise ValueError |
| `Text.IntOfSpacedSign` | game.py:69-72 | `int("- 3")` raises ValueError: no white space between the sign and the digits |
| `Text.ReadNumber` | game.py:69-72 | `int` reads back a numeral written by `str`, with any white space `int` skips before it and the line's newline after it |
| `Text.StripTail` | game.py:74 | Stripping a tail of stripped characters recovers a string that has none at its ends |
| `Text.SplitJoin` | game.py:74 | `split(sep)` of a `sep.join(fields)` with separator-free fields gives the fields back |
| `Text.SplitPiece` | game.py:74 | A separator-free piece followed by a separator splits off as one field |
| `Text.TerminatedIsJoin` | game.py:80-84 | Writing each field followed by the separator gives the join plus one separator |
| `Reals.Abs` | value_iteration.py:131 | `abs(r)` is non-negative and is `r` or `-r` |
| `Reals.Larger` | value_iteration.py:131 | `max(a, b)` is one of `a` and `b` and at least both |
| `Reals.MaxIsLargest` | value_iteration.py:140 | `max(s)` is an element of `s` and at least every element |
| `Reals.IndexOf` | value_iteration.py:140 | `s.index(v)` is a position holding `v`, and no earlier position holds it |
| `Reals.FirstMaxIndexIsFirstMax` | value_iteration.py:140 | `s.index(max(s))` holds the maximum; earlier entries are strictly smaller and later ones no larger |
| `Reals.MaxLipschitz` | value_iteration.py:131 | Lists that differ entry-wise by at most `d` have maxima at most `d` apart |
| `Planning.GetReward` | value_iteration.py:57-68 | The default table, then the `with_key` overrides, then `with_sword`, then `with_treasure`, so a held treasure makes T cost -1 again |
| `Planning.DefaultTotal` | value_iteration.py:24-36 | The default table gives a reward to every cell symbol |
| `Planning.BuildStates` | value_iteration.py:70-74 | `buit_states` returns an nbLine x nbCol table in which every cell holds `[0, 0]` |
| `Planning.GreedyIsFirstMax` | value_iteration.py:140 | The letter chosen for a cell belongs to its first largest value; every earlier value is strictly smaller |
| `Planning.BestPolicy` | value_iteration.py:135-142 | `best_policy` has the level's shape, and every cell holds the letter of its first maximal action value |
| `Planning.ContextsExactly` | value_iteration.py:78-91 | The twelve contexts solved are exactly those in which a held treasure comes with the key |
| `Planning.ContextsDistinct` | policy_iteration.py:5-26 | The twelve contexts are pairwise distinct |
| `Game.DrawnCell` | game.py:48-56 | A cell draw yields a wall, enemy, trap, crack or blank, and never an item |
| `Game.BaseGrid` | game.py:46-56 | After the cell pass, the grid has the requested shape and holds no platform |
| `Game.PlaceAll` | game.py:57-62 | The placement loops keep the grid's shape and never create a platform |
| `Game.Generated` | game.py:39-64 | A generated grid has the requested shape, the start at the bottom-right corner, the treasure at [0][0] and no moving platform |
| `Game.Corners` | game.py:63-64 | The treasure is written at [0][0] and then the start at the bottom-right corner, which wins in a 1x1 grid |
| `Game.Level.constructor` | game.py:5-9 | A new level has no lines, no columns and an empty grid |
| `Game.Level.Generate` | game.py:39-64 | `generate` sets the dimensions and leaves exactly the grid its draws determine |
| `Game.Level.FillBlank` | game.py:42-45 | The first pass leaves an nbLine x nbCol grid of blanks |
| `Game.Level.DrawCells` | game.py:46-56 | The double loop draws every cell in row-major order |
| `Game.Level.DrawCell` | game.py:48-56 | One iteration draws cell (i, j) and leaves later cells blank |
| `Game.Level.PlaceEach` | game.py:57-62 | A placement loop writes its symbol at each drawn position in turn, and later writes win |
| `Game.Level.HasKey` | game.py:115-120 | `has_key` is true exactly when some cell of the grid is a key |
| `Game.ExtendWalk` | game.py:129-139 | Stepping from a walk's end to a passable neighbour gives a walk |
| `Game.Found` | game.py:131-134 | An objective next to the end of a walk makes the way possible |
| `Game.Exhausted` | game.py:127-140 | Once the search stack is empty, no walk from the start sees the objective |
| `Game.WalkStaysSeen` | game.py:127-140 | Once every visited cell is closed, a walk never leaves the visited cells |
| `Game.Push` | game.py:136-139 | Pushing a passable, unvisited neighbour keeps every visited cell reachable by a recorded walk |
| `Game.Level.WayPossible` | game.py:122-140 | `way_possible(obj)` is true exactly when some walk from the bottom-right cell, over cells that are neither walls nor cracks, ends next to a cell holding `obj` |
| `Game.Level.Explore` | game.py:129-139 | The neighbour loop answers true only when the way is possible; otherwise it pushes each passable unvisited neighbour |
| `Game.Level.Solvable` | game.py:102-113 | `solvable` is false on an empty grid; otherwise it is true exactly when a key exists and both a key and the treasure can be reached |
| `Game.Level.Attempt` | game.py:30-31 | One attempt generates from its draws and then tests solvability |
| `Game.Level.GenerateSolvable` | game.py:24-37 | Dimensions below 4 change nothing; otherwise the grid kept is the first solvable one of the first ten attempts, or empty when none of them is, even if the eleventh is solvable |
| `Game.Attempts` | game.py:24-37 | The attempts' grids are the generated grids of their draws, in order |
| `Game.RetryResult` | game.py:24-37 | The grid `generate_solvable` keeps is either empty or solvable |
| `Game.RetryFinds` | game.py:24-37 | When one of the rounds that may be kept is solvable, the grid kept is not empty |
| `Game.Level.Save` | game.py:76-84 | `save` writes the number of lines, the number of columns, then one comma-separated line per row |
| `Game.Level.Load` | game.py:66-74 | `load` reads lines in order, stops at the first one that raises, and never clears rows already in the grid |
| `Game.ParseFields` | game.py:74 | A row is accepted only when every field is exactly one known symbol, and then it has one cell per field |
| `Game.LoadRowLine` | game.py:73-74 | Loading a row line written by `save` appends exactly that row |
| `Game.LoadLinesHeader` | game.py:69-70 | Loading the first header line sets nbLine |
| `Game.LoadColumnsHeader` | game.py:71-72 | Loading the second header line sets nbCol |
| `Game.LoadHeaders` | game.py:69-72 | Loading both header lines sets both dimensions |
| `Game.LoadStops` | game.py:66-74 | Once a line fails, the later lines change nothing |
| `Game.LoadKeepsRows` | game.py:66-74 | Loading only appends rows: the rows already in the grid stay in front |
| `Game.LoadRows` | game.py:73-74 | After lines that loaded, the row lines of a grid append exactly its rows |
| `Game.LoadSaved` | game.py:66-84 | Loading what `save` wrote into any level appends the saved rows and sets the saved dimensions |
| `Avatar.Fresh` | player.py:5-17 | A new player stands at the bottom-right corner with no items, has not won, and has `hp` lives |
| `Avatar.Step` | player.py:19-49 | A move records the old position, moves one step exactly when the target is inside the grid and not a wall, and keeps the items |
| `Avatar.ItemsKeepConsistent` | player.py:57-76 | Picking up items as `grid_reaction` does never gives a treasure without a key, nor a win without a treasure |
| `Avatar.FirstLanding` | player.py:85-89 | The teleport keeps the first drawn position it may land on, and every earlier draw was refused |
| `Avatar.Glide` | player.py:91-115 | A platform draw is accepted exactly when its neighbour can be entered (for player2, also off the previous line or column), and the player then moves to that neighbour |
| `Avatar.FirstGlide` | player.py:92-114 | The platform loop stops at the first accepted draw, and every earlier draw was refused |
| `PlayerOne.Touch` | player.py:57-83 | The reactions that keep the position (or send to the start by a trap) keep the player valid and change the items as the cell demands |
| `PlayerOne.React` | player.py:56-116 | `grid_reaction` keeps the player valid and its previous position, and reports a move exactly on a portal or a platform |
| `PlayerOne.ReactLife` | player.py:67-83 | One life is lost in a crack, to an unarmed unlucky enemy fight, or in a trap with a draw below 0.1; otherwise no life is lost |
| `PlayerOne.ReactGrid` | player.py:57-76 | A key, a sword, an enemy and a treasure taken with the key leave a blank cell; no other cell changes |
| `PlayerOne.ReactPosition` | player.py:77-115 | A trap draw in [0.1, 0.4) sends the player to the corner, a teleport keeps the first draw that is not a wall, and a platform moves one step; nothing else moves the player |
| `PlayerOne.ReactKeepsConsistent` | player.py:56-116 | No reaction makes the item flags incoherent |
| `PlayerOne.Player.constructor` | player.py:5-17 | A new player takes the level's grid and dimensions and starts fresh |
| `PlayerOne.Player.MoveUp` | player.py:19-25 | `move_up` is the step up |
| `PlayerOne.Player.MoveDown` | player.py:27-33 | `move_down` is the step down |
| `PlayerOne.Player.MoveLeft` | player.py:35-41 | `move_left` is the step left |
| `PlayerOne.Player.MoveRight` | player.py:43-49 | `move_right` is the step right |
| `PlayerOne.Player.GridReaction` | player.py:56-116 | The new fields and the returned flag are those of the reaction |
| `PlayerOne.Player.TouchCell` | player.py:57-83 | The branches of the other cells update the fields as the reaction does |
| `PlayerOne.Player.Teleport` | player.py:84-90 | The rejection loop ends at the first drawn position that is not a wall |
| `PlayerOne.Player.Ride` | player.py:91-115 | The platform loop ends one step away, at the first accepted draw |
| `PlayerTwo.StateOf` | player2.py:55-61 | `get_state` flags the player as critical exactly when one more lost life would kill it |
| `PlayerTwo.Touch` | player2.py:64-93 | The reactions other than teleport and platform keep the player valid and change the items as the cell demands |
| `PlayerTwo.React` | player2.py:63-128 | `grid_reaction` keeps the player valid and its previous position |
| `PlayerTwo.ReactOutcome` | player2.py:63-128 | The player must react again exactly when the cell moved it; something happened also when a life was lost in a crack or a trap |
| `PlayerTwo.ReactLife` | player2.py:74-93 | An unarmed unlucky enemy fight costs a life but the enemy stays; the trap's thresholds are inclusive |
| `PlayerTwo.ReactGrid` | player2.py:64-84 | Only the key, the sword and a taken treasure leave a blank cell |
| `PlayerTwo.ReactPosition` | player2.py:85-126 | A teleport keeps the first draw that is neither a wall nor the previous position; a platform moves one step off the previous line or column |
| `PlayerTwo.ReactKeepsConsistent` | player2.py:63-128 | No reaction makes the item flags incoherent |
| `PlayerTwo.Player2.constructor` | player2.py:6-18 | A new player takes the level's grid and dimensions and starts fresh |
| `PlayerTwo.Player2.MoveUp` | player2.py:20-26 | `move_up` is the step up |
| `PlayerTwo.Player2.MoveDown` | player2.py:28-34 | `move_down` is the step down |
| `PlayerTwo.Player2.MoveLeft` | player2.py:36-42 | `move_left` is the step left |
| `PlayerTwo.Player2.MoveRight` | player2.py:44-50 | `move_right` is the step right |
| `PlayerTwo.Player2.Move` | qlearning.py:53-58 | The MOVES table sends each direction to its own move |
| `PlayerTwo.Player2.GetState` | player2.py:55-61 | `get_state` returns the items and the critical flag |
| `PlayerTwo.Player2.GridReaction` | player2.py:63-128 | The new fields and the returned pair are those of the reaction |
| `PlayerTwo.Player2.TouchCell` | player2.py:64-93 | The branches of the other cells update the fields and return the pair as the reaction does |
| `PlayerTwo.Player2.Teleport` | player2.py:94-101 | The rejection loop ends at the first drawn position that is neither a wall nor the previous position |
| `PlayerTwo.Player2.Ride` | player2.py:102-126 | The platform loop ends one step away, off the previous line or column, at the first accepted draw |
| `QLearn.Validate` | qlearning.py:107-120 | The constructor accepts exactly alpha, gamma and epsilon in [0, 1] with strategy "constant" or "decrease"; the first failed check gives its own message |
| `QLearn.PlayerState` | qlearning.py:145-151 | Without an origin, the state is the player's position and its `get_state` flags |
| `QLearn.GetState` | qlearning.py:152-170 | With an origin and a direction, the state is the neighbour in that direction with the same flags; without a direction it is the origin |
| `QLearn.GetReward` | qlearning.py:339-369 | A dead player gets the death reward |
| `QLearn.RewardValues` | qlearning.py:18-44 | In closed form: a wall costs as much as death; an item not held is worth 100; the treasure with the key 1000; the start with the treasure 1000000; anything else costs 1 |
| `QLearn.RewardPositive` | qlearning.py:339-369 | The reward is positive exactly when the step collects something, never exceeds 1000000, and reaches it only on the winning step |
| `QLearn.Blend` | qlearning.py:335-337 | An update shrinks the gap to the target by the factor `1 - alpha` |
| `QLearn.BlendBetween` | qlearning.py:335-337 | With alpha in [0, 1], the new value lies between the old one and the target |
| `QLearn.UpdatedOnlyAt` | qlearning.py:327-337 | `update_q` adds the state if missing, changes no other state's value, and shrinks the updated gap by `1 - alpha` |
| `QLearn.TiesAtMax` | qlearning.py:281-289 | The moves tied at the maximum start with the first maximal one, so they are never empty |
| `QLearn.Scan` | qlearning.py:281-289 | The scan keeps exactly the moves whose value equals the maximum, in scanning order |
| `QLearn.Shown` | qlearning.py:191-202 | `policy` shows a block exactly for walls and portals, and the best arrow for every cell that is not a platform |
| `QLearn.StopBounds` | qlearning.py:385-389 | Training always stops after MAX_ITER, never stops at MIN_ITER or before, and stops below MAX_ITER only TIME_BEFORE_CAN_EXIT after the last lift of epsilon |
| `QLearn.Decayed` | qlearning.py:390-391 | The decay lowers epsilon by 0.001, never below 0 |
| `QLearn.PushWin` | qlearning.py:487-491 | The window appends the result and drops the oldest ones beyond 1000 |
| `QLearn.WindowBounded` | qlearning.py:487-491 | Starting from at most 1000 results, the window never holds more than 1000 |
| `QLearn.QLearning.Create` | qlearning.py:73-123 | Building the agent with the source's default arguments fails exactly when a check fails, with that check's message; otherwise the new agent holds the level, its grid, the health, the given parameters, an empty table, the validated strategy and zero counters |
| `QLearn.QLearning.constructor` | qlearning.py:73-123 | On parameters that pass the checks, the fields take the given values, the table is empty and the strategy is the validated one |
| `QLearn.QLearning.QValuesAt` | qlearning.py:263-280 | The k-th candidate value is the value of the state reached by the k-th move of UP, DOWN, LEFT, RIGHT |
| `QLearn.QLearning.GetMaxNextQ` | qlearning.py:247-294 | The value returned is the maximum over the four moves, and the move returned reaches it; without randomness it is the first maximal move |
| `QLearn.QLearning.UpdateQ` | qlearning.py:327-337 | The table afterwards is the old one updated at `s` towards `reward + gamma * max_q_next_action` |
| `QLearn.QLearning.Epsilon` | qlearning.py:317-325 | Reading epsilon under the decreasing strategy after TIME_BEFORE_EPS_BUMP steps lifts it to 0.1 and records the iteration; otherwise nothing changes |
| `QLearn.QLearning.BeginEpisode` | qlearning.py:385-393 | An episode either stops training or counts itself and, under the decreasing strategy, decays epsilon |
| `QLearn.QLearning.LearnStep` | qlearning.py:426-476 | A blocked move updates the state it aimed at with -100 as reward and continuation; a move that succeeds updates the state after the move and, after a reaction that happened (crack, trap, portal or platform), the state after that too |
| `QLearn.QLearning.PolicyCell` | qlearning.py:191-202 | One cell of `policy` is the character shown for that cell |
| `QLearn.QLearning.PolicyRow` | qlearning.py:189-202 | One line of `policy` has nbCol cells, each shown as its cell |
| `QLearn.QLearning.Policy` | qlearning.py:172-204 | `policy` has the level's shape, and every cell shows what the agent would do there |
| `ValueIter.ExpectNonExpansive` | value_iteration.py:193-211 | `get_possible_moves` moves no more than the best values it reads: its weights are non-negative and sum to at most 1 |
| `ValueIter.ActionValueLipschitz` | value_iteration.py:103-127 | With `gamma >= 0`, an action's score moves at most `gamma * d` when the best values move at most `d` |
| `ValueIter.SweepAt` | value_iteration.py:100-130 | Every cell of the swept table holds that cell's four scores, computed from the previous table alone |
| `ValueIter.SweepContracts` | value_iteration.py:97-131 | One sweep is a contraction: tables whose best values are within `d` are within `gamma * d` after a sweep |
| `ValueIter.LineDeltaBelow` | value_iteration.py:131 | The running delta of a line is below `e` exactly when its start and every cell's change are |
| `ValueIter.DeltaBelow` | value_iteration.py:131-132 | The sweep's delta is below `e` exactly when `e > 0` and every cell's best value changed by less than `e` |
| `ValueIter.Run` | value_iteration.py:97-133 | A run that stops returns a table and its sweep whose delta is below epsilon |
| `ValueIter.RunNext` | value_iteration.py:132-133 | With budget left, a run stops at the sweep of the current table when its delta is below epsilon, and otherwise continues from that sweep |
| `ValueIter.RunStops` | value_iteration.py:132-133 | When a run stops, epsilon is positive and the last sweep changed every cell's best value by less than epsilon |
| `ValueIter.VACallsMatch` | value_iteration.py:78-91 | Every context of `solve_v_a` is solved with its own flags, has_sword included |
| `ValueIter.CellScores` | value_iteration.py:102-127 | The loop over the four actions builds exactly the cell's scores |
| `ValueIter.SweepLine` | value_iteration.py:101-131 | One line of the sweep overwrites each cell with its scores and keeps the largest change seen |
| `ValueIter.Sweep` | value_iteration.py:97-131 | A sweep yields the table every cell of which is recomputed from the copy `prev_v`, and the largest change of a best value |
| `ValueIter.Solver.constructor` | value_iteration.py:15-54 | A new solver holds the level and no sword |
| `ValueIter.Solver.ValueIteration` | value_iteration.py:93-133 | `value_iteration` records has_sword, starts from `buit_states` and returns the greedy policy of the first table whose sweep changed every best value by less than epsilon |
| `PolicyIter.VarNameInjective` | policy_iteration.py:76 | Below 10, the name `str(y) + str(x)` gives back its cell |
| `PolicyIter.VarNameCollision` | policy_iteration.py:76 | From 10 on, names collide: cells (1, 11) and (11, 1) both get the variable "111" |
| `PolicyIter.VarNameNotDead` | policy_iteration.py:191 | No cell variable is the death variable |
| `PolicyIter.PutKeys` | policy_iteration.py:192 | Assigning to a dict appends a new key at the end, keeps an old key in place, and keeps distinct keys distinct |
| `PolicyIter.FromKeysContents` | policy_iteration.py:190 | `dict.fromkeys(names, 0)` has exactly the given names as keys, each holding 0 |
| `PolicyIter.FromKeysInOrder` | policy_iteration.py:190 | With distinct names, `fromkeys` keeps all of them, in order |
| `PolicyIter.AddLinesAt` | policy_iteration.py:68-77 | Row-major order: the entry of (y, x) is at position `y * nbCol + x` |
| `PolicyIter.NamesAt` | policy_iteration.py:68-77 | There are `nbLine * nbCol` variables, and cell (y, x) has position `y * nbCol + x` |
| `PolicyIter.InitialPolicyAt` | policy_iteration.py:68-77 | The starting policy has nbCol letters per line: 'd' on line 0 and 'u' everywhere else |
| `PolicyIter.InitPI` | policy_iteration.py:68-77 | `init_p_i` appends the starting policy's lines to `p0` and the cell names in row-major order to `variables` |
| `PolicyIter.Reshape` | policy_iteration.py:166-173 | The solution is read back line by line: `dt1[y][x] == ar[y * nbCol + x]` |
| `PolicyIter.BuildDt1` | policy_iteration.py:166-173 | `build_dt1` appends the solution's lines |
| `PolicyIter.EnterTrap` | policy_iteration.py:81-84 | Entering a trap puts 0.6 gamma on its own variable, 0.3 gamma on the swapped corner variable and 0.1 gamma on death; nothing else changes |
| `PolicyIter.EnterCrack` | policy_iteration.py:85-86 | Entering a crack puts 1, not gamma, on death and changes nothing else |
| `PolicyIter.EnterEnemy` | policy_iteration.py:87-93 | Entering an enemy puts gamma with the sword or 0.7 gamma without it on its own variable, and 0.3 gamma on death either way |
| `PolicyIter.EnterPlain` | policy_iteration.py:94-95 | Entering any other cell puts gamma on its own variable and changes nothing else |
| `PolicyIter.SetVariablesCoefficients` | policy_iteration.py:80-95 | `set_variables` writes the coefficients of the Enter lemmas for the cell entered |
| `PolicyIter.Target` | policy_iteration.py:100-123 | A letter leads to its neighbour, which may be entered exactly when it is inside the level and not a wall |
| `PolicyIter.FollowStep` | policy_iteration.py:99-123 | An ordinary cell adds the neighbour's negated reward and sets its coefficients when the neighbour can be entered, and otherwise adds its own negated reward |
| `PolicyIter.PortalTallyFacts` | policy_iteration.py:127-137 | The portal's count lists exactly the reached cells, and `cpt`, the number of open cells, is the listed ones plus the cracks |
| `PolicyIter.CountPortal` | policy_iteration.py:127-137 | The double loop computes that count |
| `PolicyIter.MarkAllValues` | policy_iteration.py:139-141 | Marking fails exactly when a name is not a key; otherwise it keeps the keys and sets every listed key that did not hold -1 |
| `PolicyIter.MarkLoop` | policy_iteration.py:139-141 | The marking loop fails at the first name that is not a key, and otherwise marks as above |
| `PolicyIter.PortalSpreadValues` | policy_iteration.py:125-141 | With every cell named, a portal never raises KeyError: death gets `nbDead / cpt * gamma`, each reached cell not at -1 gets `gamma / cpt`, and nothing else changes |
| `PolicyIter.PortalStep` | policy_iteration.py:124-141 | The portal branch computes that spread |
| `PolicyIter.NeighboursFacts` | policy_iteration.py:146-161 | A platform lists each of its neighbours inside the level once, and only those |
| `PolicyIter.NeighbourKeys` | policy_iteration.py:144-161 | The platform's loop lists the variables of those neighbours and counts them |
| `PolicyIter.SpreadValues` | policy_iteration.py:162-163 | Spreading over `cpt` keys gives each `gamma / cpt` and changes nothing else |
| `PolicyIter.SpreadLoop` | policy_iteration.py:162-163 | The spreading loop computes that spread |
| `PolicyIter.PlatformStep` | policy_iteration.py:142-163 | The platform branch gives one share of gamma to each neighbour inside the level |
| `PolicyIter.DefinedRest` | policy_iteration.py:98-163 | Each call adds one right-hand side, or two for a portal whose bottom-right cell is a platform; with every cell named it never fails |
| `PolicyIter.DefineEquations` | policy_iteration.py:98-163 | `define_equations` adds the coefficients and right-hand sides of the cell's equation, or raises KeyError |
| `PolicyIter.RowStart` | policy_iteration.py:190-192 | A fresh row has every variable at 0, death at 0 and the cell's own variable at -1 |
| `PolicyIter.RowStartKeys` | policy_iteration.py:190-192 | A fresh row has every cell's variable as a key |
| `PolicyIter.DeathRowShape` | policy_iteration.py:196-199 | The death row holds a 0 for each variable and then a single 1 |
| `PolicyIter.CellRow` | policy_iteration.py:190-193 | The row of a cell is the fresh row filled by `define_equations` |
| `PolicyIter.WriteLine` | policy_iteration.py:188-194 | One line of the loop appends the equations of its cells in order |
| `PolicyIter.LinesFailOn` | policy_iteration.py:188-194 | Once a line of equations fails, the whole system fails |
| `PolicyIter.EquationsShape` | policy_iteration.py:185-199 | With every cell named, the system has one row per cell plus the death row, which comes last with right-hand side 500 |
| `PolicyIter.WriteEquations` | policy_iteration.py:185-199 | The equation loop builds exactly that system |
| `PolicyIter.PossibleMove` | policy_iteration.py:244-258 | `get_possible_move` raises exactly on a trap when the swapped corner is outside the level; a crack gives dead, and any other cell except an enemy gives its own value |
| `PolicyIter.PossibleMoveEnemy` | policy_iteration.py:252-256 | An enemy is worth its value with the sword and `0.7 v - 30` without it, which is less as long as `v > dead` |
| `PolicyIter.PossibleMoveMonotone` | policy_iteration.py:244-258 | A larger solution never makes a move worth less |
| `PolicyIter.Assess` | policy_iteration.py:208-227 | An action is closed exactly when its neighbour cannot be entered, and fails exactly when the neighbour's possible move raises |
| `PolicyIter.UpdateResting` | policy_iteration.py:230-232 | A portal, platform or wall scores 0 for all four actions, so it always turns to 'u' |
| `PolicyIter.CollectFails` | policy_iteration.py:208-229 | Collecting the actions fails exactly when one of them fails |
| `PolicyIter.UpdateNone` | policy_iteration.py:205-232 | An ordinary cell's update raises exactly when an action fails or no action can be scored |
| `PolicyIter.UpdateFirstMax` | policy_iteration.py:232 | An ordinary cell turns to a scored action that nothing beats, and every action before it in u, d, l, r scores strictly less |
| `PolicyIter.ActTarget` | policy_iteration.py:208-226 | The bounds and wall tests of an action decide whether its neighbour can be entered, and find that neighbour |
| `PolicyIter.ActStep` | policy_iteration.py:208-227 | One pass of `for act in a` computes that action's assessment |
| `PolicyIter.ActValuesLoop` | policy_iteration.py:205-229 | The action loop builds the dict `value` of the cell, or raises |
| `PolicyIter.CellUpdate` | policy_iteration.py:205-232 | A cell's new letter is its update |
| `PolicyIter.ImprovedFacts` | policy_iteration.py:204-235 | The improved policy has the level's shape and holds every cell's update; it fails exactly when some update raises |
| `PolicyIter.ImproveLine` | policy_iteration.py:206-235 | One line of the improvement holds its cells' updates, and `ctn` is set exactly when a letter changes |
| `PolicyIter.Improvement` | policy_iteration.py:204-235 | The improvement sweep computes the improved policy, and `ctn` is true exactly when it differs from the old one |
| `PolicyIter.InitialPolicyShaped` | policy_iteration.py:180-181 | The starting policy has the level's shape |
| `PolicyIter.RoundResting` | policy_iteration.py:204-235 | A round leaves portals, platforms and walls at 'u' |
| `PolicyIter.LoopStops` | policy_iteration.py:183-241 | The loop returns a policy that one more round gives back, or the result of all its rounds |
| `PolicyIter.LoopAdvances` | policy_iteration.py:183-241 | A round that changes the policy leaves the loop one round fewer, starting from the new policy |
| `PolicyIter.LoopFixed` | policy_iteration.py:239-240 | The loop stops at once on a policy that a round gives back |
| `PolicyIter.PolicyLoopResting` | policy_iteration.py:183-241 | After at least one round, the policy returned has the level's shape and leaves portals, platforms and walls at 'u' |
| `PolicyIter.PolicyRound` | policy_iteration.py:184-235 | One round writes the system, solves it, reads it back and improves the policy; `ctn` is true exactly when a letter changed |
| `PolicyIter.PolicyIteration` | policy_iteration.py:176-241 | `policy_iteration` is at most 500 rounds from the starting policy, stopping at the first round that changes nothing |
| `PolicyIter.PICallsAsWrittenMismatch` | policy_iteration.py:5-26 | As written, exactly the five sword-less entries that leave out has_sword are solved as if the player held the sword |
| `PolicyIter.PICallsMatch` | policy_iteration.py:5-26 | With the flag passed, every context is solved with its own flags |
| `OldSolver.Reward` | solver.py:9-21 | The reward is -10 for a wall, dead (-100) for a crack, 10^15 for the sword and -1 for every other cell |
| `OldSolver.AllowedMoves` | solver.py:75-95 | A move is allowed exactly when it stays inside the level and does not go down onto the last line |
| `OldSolver.CornerInRangeSquare` | solver.py:151-154 | The corner `prev_v[nbCol-1][nbLine-1]` exists exactly in a square level |
| `OldSolver.MovesFailWhen` | solver.py:71-96 | A cell fails exactly when one of its allowed moves raises IndexError |
| `OldSolver.LinesFailWhen` | solver.py:66-104 | A sweep fails exactly when one of its lines does |
| `OldSolver.SquareNeverFails` | solver.py:151-154 | A square level never makes a sweep fail |
| `OldSolver.TimesParts` | solver.py:147-149 | Adding `k` shares of `x` out of `k` gives `x` |
| `OldSolver.MeanBounds` | solver.py:147-149 | The average of a non-empty list lies between any bounds of its entries |
| `OldSolver.MeanClose` | solver.py:147-149 | Averages of lists that are `d` apart entry by entry are `d` apart |
| `OldSolver.Neighbour` | solver.py:135-146 | For each direction a platform lists one value when the move is allowed and none otherwise |
| `OldSolver.AddParts` | solver.py:147-149 | `for num in p: p1 += num * 1/cpt` computes the mean of `p` |
| `OldSolver.PlatformList` | solver.py:133-146 | The platform's loop lists the best values of the allowed neighbours and counts them |
| `OldSolver.PortalList` | solver.py:163-172 | The portal's loop lists a value for every open cell, dead for a crack, and counts them |
| `OldSolver.GetPossibleMoves` | solver.py:130-178 | `get_possible_moves` raises IndexError exactly when the swapped corner is read outside the level; otherwise it returns the expectation |
| `OldSolver.ExpectNonExpansive` | solver.py:130-178 | The expectation moves no more than the best values it reads, for every kind of cell |
| `OldSolver.ActionValueLipschitz` | solver.py:73-96 | With `gamma >= 0`, a move's score moves at most `gamma * d` when the best values move at most `d` |
| `OldSolver.SweepAt` | solver.py:66-101 | Every cell of the swept table holds that cell's four scores, computed from the previous table |
| `OldSolver.SweepContracts` | solver.py:66-104 | One sweep is a contraction by `gamma` |
| `OldSolver.Run` | solver.py:61-110 | A run that stops returns a table and its sweep whose delta is below epsilon |
| `OldSolver.RunStops` | solver.py:105-110 | When a run stops, epsilon is positive and the last sweep changed every best value by less than epsilon |
| `OldSolver.CellScores` | solver.py:71-96 | The list `q` of a cell fails exactly when the cell does, and otherwise holds its four scores |
| `OldSolver.MoveScore` | solver.py:73-96 | A move's score is -10000 when refused, and otherwise the reward plus gamma times the expectation; it fails exactly when that expectation raises |
| `OldSolver.SweepLine` | solver.py:67-104 | One line of the sweep fails exactly when the line does, and otherwise holds its scores and the running delta |
| `OldSolver.SweepStep` | solver.py:67-104 | Storing a swept line keeps the table shaped, the lines so far and the running delta |
| `OldSolver.Sweep` | solver.py:66-104 | A sweep fails exactly when some cell raises, and otherwise is the table recomputed from `prev_v` with the largest change of a best value |
| `OldSolver.NeighbourKey` | solver.py:252-264 | For each direction a platform lists one variable when the move is allowed and none otherwise |
| `OldSolver.AroundKeysMatch` | solver.py:251-268 | `set_variables` and `get_possible_moves` see the same platform neighbours in the same order, so both divide by the same `cpt` |
| `OldSolver.SetVariablesPlatform` | solver.py:251-268 | A platform gives each allowed neighbour `gamma / cpt` and changes nothing else |
| `OldSolver.SetVariablesChance` | solver.py:269-273 | The chance cell puts 0.6 gamma on itself, 0.1 gamma on death and 0.3 gamma on the swapped corner variable |
| `OldSolver.SetVariablesCrack` | solver.py:274-276 | A crack puts 1, not gamma, on death and changes nothing else |
| `OldSolver.SetVariablesEnemy` | solver.py:277-283 | An enemy puts gamma on itself with the sword and leaves death alone; without the sword it puts 0.7 gamma on itself and 0.3 gamma on death |
| `OldSolver.SetVariablesPortal` | solver.py:284-299 | A portal gives death `nbDead / cpt * gamma` and every reached cell `gamma / cpt`; nothing else changes |
| `OldSolver.SetVariablesPlain` | solver.py:300-301 | Any other cell puts gamma on its own variable |
| `OldSolver.SetVariablesAgree` | solver.py:249-301 | Away from platforms and portals, with the test on 'R', it writes what policy_iteration.py's `set_variables` writes, except for an enemy met with the sword, where only policy_iteration.py puts 0.3 gamma on death; as written, with the test on 'T', the same holds away from traps and treasures too |
| `OldSolver.AroundKeyList` | solver.py:251-264 | The platform's loop lists one variable per allowed move and counts them |
| `OldSolver.PutNames` | solver.py:298-299 | `for var in p: eq[var] = v` puts `v` on every listed variable |
| `OldSolver.SetVariablesAt` | solver.py:249-301 | `set_variables` writes, branch by branch, the coefficients of the cell entered |
| `OldSolver.ExpectAsWritten` | solver.py:151-154 | As written, a trap is treated like a plain cell, and a treasure gets the trap's outcomes and raises IndexError in a level that is not square |
| `OldSolver.ExpectCorrected` | solver.py:28-30 | With the test on 'R' instead, a trap has the outcomes of the comment (0.1 dead, 0.3 the corner, 0.6 itself), and a treasure is a plain cell that never raises |
| `OldSolver.SetVariablesAsWritten` | solver.py:269-273 | As written, a trap gets gamma on its own variable, and a treasure gets the trap's three coefficients |
| `OldSolver.SetVariablesCorrected` | solver.py:269-273 | With the test on 'R' instead, a trap gets what policy_iteration.py writes for one, and a treasure gets gamma on its own variable |
| `OldSolver.Solver.constructor` | solver.py:6-44 | A new solver holds the level and no sword |
| `OldSolver.Solver.ValueIteration` | solver.py:61-110 | `value_iteration` as written, with the trap's outcomes on the treasure: it fails when a sweep raises, and otherwise returns the first table whose sweep changed every best value by less than epsilon |
| `OldSolver.Solver.ValueIterationCorrected` | solver.py:61-110 | The same loop with the trap test on 'R', as the comment at solver.py:28-30 intends |
| `OldSolver.Solver.IterateWith` | solver.py:61-110 | The loop of `value_iteration` for a given chance cell: None when a sweep raises or the budget runs out, otherwise the first table whose sweep changed every best value by less than epsilon |
| `OldSolver.Solver.SetVariablesOn` | solver.py:249-301 | `set_variables` as written, with the test on 'T', on a cell of the level, with the sword as it is held now |
| `OldSolver.Solver.SetVariablesOnCorrected` | solver.py:249-301 | `set_variables` with the test on 'R' |
| `OldSolver.NoChanceNeverFails` | solver.py:71-110 | A level without the tested chance cell never raises IndexError |
| `OldSolver.TreasureLevelFails` | solver.py:151-152 | On the 2 x 3 level `[[T, B, B], [B, B, S]]` value iteration raises as written and never raises with the test on 'R' |

## Left out

- I/O is not modelled:
  - the console and curses front ends, `display*` and the `timer` decorator;
  - files, so save and load work on lists of lines;
  - wall-clock time and printing.
- Randomness is supplied by the caller:
  - every `random.uniform`/`randint` value is a parameter;
  - a rejection loop (teleport, moving platform) receives the sequence of draws;
  - such a loop requires that some draw is accepted, because on draws that never succeed it does not terminate.
- `np.linalg.solve` is a parameter of `PolicyIter.PolicyIteration`.
  - The model says nothing about its numerics or about singular systems.
- Python floats are modelled as exact `real` numbers:
  - rounding, and `1 / cpt` as a float, are not represented;
  - `gamma / cpt` is stated as a product with `cpt`.
- `ValueIter.Solver.ValueIteration` and `OldSolver.Solver.ValueIteration` replace the source's `while True` with a budget of sweeps.
  - They return None when the budget is exhausted.
  - Whether the source terminates is not claimed.
- `QLearning.train` is not modelled as a whole. These pieces are modelled:
  - the epsilon schedule, the stop rule and the decay;
  - the table updates of one step;
  - the results window.
- `QLearning.reset` is left out.
  - It calls `level.load(name)`, but `Level.load` takes no argument, so it raises TypeError.
- The display and persistence helpers of qlearning.py are left out, because they are I/O:
  - `print_policy`;
  - saving and loading the Q table.
- `QLearn.QLearning.GetMaxNextQ` receives the random choice among tied moves as a `pick` index.
- The shadowed first `value_iteration` of solver.py (solver.py:46-58) is left out, because the second definition replaces it.
- solver.py's `policy_iteration` (solver.py:180-247) is left out, because it calls names that do not exist.
- linear_programming.py is not part of this model.
- `solve_v_a` and `solve_p_i` are modelled as their lists of calls (`VACalls`, `PICalls`), not as the dicts of policies they build.
- Python dicts are modelled as values, so the aliasing between a level's grid and a player's grid is not captured.
  - The player updates its own `grid` field.
- IndexError, KeyError and ValueError are modelled as `None` results.
- The solvers in `ValueIter`, `PolicyIter` and `OldSolver` require that the grid covers nbLine x nbCol (`World.Covers`). A loaded level whose header promises more lines or columns than its rows hold makes the source raise IndexError; the model excludes that case instead of returning None.
- `OldSolver.Solver.ValueIteration` returns the table, as solver.py does, not a policy.
- `Game.Level.Load` rejects symbols outside World's alphabet, where the source would store them.
- `Game.Level.Load` stops at a header whose number is negative, where Python stores the negative dimension, because a level's dimensions are `nat`.
- `Text.IntOf` reads ASCII digits only, where Python's `int()` also reads the decimal digits of other scripts (such as Arabic-Indic digits).
- `QLearn.GetReward` states only the death case in its own contract. The closed form is in `QLearn.RewardValues`.

## Findings

| source | as written | input that shows it | evidently intended | confidence | as-written member | corrected member |
|---|---|---|---|---|---|---|
| policy_iteration.py:5-26 | five entries of `solve_p_i` for sword-less contexts omit `has_sword`, which defaults to True | any level: context (True, False, False, True), or any of entries 2, 3, 6, 8 and 9 | each context solved with its own has_sword flag, as `solve_v_a` does | not executed | `PolicyIter.PICallsAsWrittenMismatch` | `PolicyIter.PICallsMatch` |
| solver.py:151 | `get_possible_moves` tests 'T' (treasure) for the chance outcomes of a trap | the 2x3 level `[[T, B, B], [B, B, S]]` raises IndexError (`OldSolver.TreasureLevelFails`); a trap is valued as a blank | test 'R', as the comment at solver.py:28-30 describes | not executed | `OldSolver.ExpectAsWritten` | `OldSolver.ExpectCorrected` |
| solver.py:269 | `set_variables` tests 'T' instead of 'R' for the trap's coefficients | any trap cell gets gamma on its own variable instead of 0.6/0.3/0.1 gamma | test 'R', as policy_iteration.py:81-84 does | not executed | `OldSolver.SetVariablesAsWritten` | `OldSolver.SetVariablesCorrected` |

Further behaviour these members state, which may not be what the authors meant:

- `OldSolver.SetVariablesAgree`: solver.py drops the 0.3 gamma death entry for an enemy met with the sword, which policy_iteration.py keeps.
- `PolicyIter.EnterCrack`: a crack writes 1, not gamma, on death.
- `PolicyIter.PossibleMove`: the trap reads the solution at line `nbCol - 1` and column `nbLine - 1`, which raises in a level that is not square, and so does solver.py (`OldSolver.SquareNeverFails`).
- `PolicyIter.VarNameCollision`: variable names collide from 10 lines or columns on.
