/**
  The Q-learning agent of qlearning.py: its configuration check, the state it
  learns on (a position and four flags), the reward table with its overrides,
  the greedy choice among the four moves, the temporal-difference update, the
  exploration schedule and the rules by which one training step updates the
  table. Rewards and Q values are `real`; the random tie-break of the greedy
  choice is a parameter.
*/
module QLearn {
  import opened Wrappers
  import opened World
  import opened Avatar
  import opened Reals
  import PlayerTwo
  import Game

  /** MAX_ITER, MIN_ITER, TIME_BEFORE_EPS_BUMP and TIME_BEFORE_CAN_EXIT (qlearning.py:60-67). */
  const MaxIter: int := 80000
  const MinIter: int := 20000
  const TimeBeforeEpsBump: int := 500
  const TimeBeforeCanExit: int := 10000

  /** A learning state: position, key, sword, treasure, and whether one more hit is fatal. */
  datatype QState = QState(x: int, y: int, hasKey: bool, hasSword: bool, hasTreasure: bool, critical: bool)

  datatype Strategy = Constant | Decrease

  predicate InUnit(r: real) {
    0.0 <= r <= 1.0
  }

  /**
    The checks of QLearning.__init__ (qlearning.py:107-120), in their order:
    the first parameter out of range, or an unknown strategy, is reported with
    the message the constructor raises.
  */
  function Validate(alpha: real, gamma: real, epsilon: real, strategy: string): (r: Result<Strategy, string>)
    ensures r.Ok? <==> InUnit(alpha) && InUnit(gamma) && InUnit(epsilon) && (strategy == "constant" || strategy == "decrease")
    ensures r.Ok? ==> (r.value == Decrease <==> strategy == "decrease")
    ensures !InUnit(alpha) ==> r == Err("Learning rate 'alpha' must be between 0 and 1.")
    ensures InUnit(alpha) && !InUnit(gamma) ==> r == Err("Discount factor 'gamma' must be between 0 and 1.")
    ensures InUnit(alpha) && InUnit(gamma) && !InUnit(epsilon) ==> r == Err("Epsilon must be between 0 and 1.")
  {
    if alpha > 1.0 || alpha < 0.0 then Err("Learning rate 'alpha' must be between 0 and 1.")
    else if gamma > 1.0 || gamma < 0.0 then Err("Discount factor 'gamma' must be between 0 and 1.")
    else if epsilon > 1.0 || epsilon < 0.0 then Err("Epsilon must be between 0 and 1.")
    else if strategy == "constant" then Ok(Constant)
    else if strategy == "decrease" then Ok(Decrease)
    else Err("Invalid epsilon strategy: " + strategy)
  }

  /** get_state without an origin (qlearning.py:145-151): the player's own state. */
  function PlayerState(h: Hero): (s: QState)
    ensures Pos(s.x, s.y) == Pos(h.x, h.y)
    ensures (s.hasKey, s.hasSword, s.hasTreasure, s.critical) == PlayerTwo.StateOf(h)
  {
    QState(h.x, h.y, h.hasKey, h.hasSword, h.hasTreasure, h.life <= 1)
  }

  /**
    get_state with an origin (qlearning.py:152-170): the state a move in
    direction `d` would reach, or the origin itself without a direction.
  */
  function GetState(s: QState, d: Option<Direction>): (r: QState)
    ensures d.None? ==> r == s
    ensures d.Some? ==> Pos(r.x, r.y) == Moved(Pos(s.x, s.y), d.value)
    ensures r.(x := s.x, y := s.y) == s
  {
    var x := if d == Some(Right) then s.x + 1 else if d == Some(Left) then s.x - 1 else s.x;
    var y := if d == Some(Up) then s.y - 1 else if d == Some(Down) then s.y + 1 else s.y;
    s.(x := x, y := y)
  }

  /** REWARDS['death'] (qlearning.py:19). */
  const Death: int := -100

  /** REWARDS['default'] (qlearning.py:20-32). */
  function DefaultReward(c: Cell): int {
    match c
    case Sword => 100
    case Key => 100
    case Wall => -100
    case _ => -1
  }

  /** REWARDS['with_key'] (qlearning.py:36-39). */
  function KeyReward(c: Cell): Option<int> {
    match c
    case Treasure => Some(1000)
    case Key => Some(-1)
    case _ => None
  }

  /** REWARDS['with_sword'] (qlearning.py:33-35). */
  function SwordReward(c: Cell): Option<int> {
    if c == Sword then Some(-1) else None
  }

  /** REWARDS['with_treasure'] (qlearning.py:40-43). */
  function TreasureReward(c: Cell): Option<int> {
    match c
    case Start => Some(1000000)
    case Treasure => Some(-1)
    case _ => None
  }

  /** `table.get(cell, reward)`: the override if the table has one. */
  function Override(reward: int, o: Option<int>): int {
    if o.Some? then o.value else reward
  }

  /**
    get_reward (qlearning.py:339-369): the death reward for a dead player;
    otherwise the default reward of the cell, overridden in turn by the key,
    the sword and the treasure tables for the items the state holds.
  */
  function GetReward(s: QState, cell: Cell, isDead: bool): (r: int)
    ensures isDead ==> r == Death
  {
    if isDead then Death
    else
      var r0 := DefaultReward(cell);
      var r1 := if s.hasKey then Override(r0, KeyReward(cell)) else r0;
      var r2 := if s.hasSword then Override(r1, SwordReward(cell)) else r1;
      if s.hasTreasure then Override(r2, TreasureReward(cell)) else r2
  }

  /**
    The rewards in closed form: a wall costs as much as death, an item not yet
    held is worth 100, the treasure once the key is held 1000, the start once
    the treasure is held 1000000, and every other step costs 1. In particular
    the treasure override, applied last, makes the treasure cell worth -1 to a
    player holding both the key and the treasure.
  */
  lemma RewardValues(s: QState, cell: Cell, isDead: bool)
    requires !isDead
    ensures GetReward(s, cell, isDead) ==
      if cell == Wall then Death
      else if (cell == Key && !s.hasKey) || (cell == Sword && !s.hasSword) then 100
      else if cell == Treasure && s.hasKey && !s.hasTreasure then 1000
      else if cell == Start && s.hasTreasure then 1000000
      else -1
  {
  }

  /** The only states the reward is positive in are those where the step collects something, and the win is the largest reward. */
  lemma RewardPositive(s: QState, cell: Cell, isDead: bool)
    ensures GetReward(s, cell, isDead) > 0 <==>
      !isDead && ((cell == Key && !s.hasKey) || (cell == Sword && !s.hasSword)
                  || (cell == Treasure && s.hasKey && !s.hasTreasure) || (cell == Start && s.hasTreasure))
    ensures GetReward(s, cell, isDead) <= 1000000
    ensures GetReward(s, cell, isDead) == 1000000 <==> !isDead && cell == Start && s.hasTreasure
  {
    if !isDead {
      RewardValues(s, cell, isDead);
    }
  }

  /** `Q.get(s, default_q)`. */
  function ValueIn(q: map<QState, real>, defaultQ: real, s: QState): real {
    if s in q then q[s] else defaultQ
  }

  /** One step of size `alpha` from `q` towards `target`: what remains of the gap is `1 - alpha` of it. */
  function Blend(q: real, target: real, alpha: real): (r: real)
    ensures r - target == (1.0 - alpha) * (q - target)
  {
    q + alpha * (target - q)
  }

  /** With a learning rate in [0, 1], the new value lies between the old value and the target. */
  lemma BlendBetween(q: real, target: real, alpha: real)
    requires InUnit(alpha)
    ensures q <= target ==> q <= Blend(q, target, alpha) <= target
    ensures target <= q ==> target <= Blend(q, target, alpha) <= q
  {
    var g := q - target;
    var b := 1.0 - alpha;
    assert 0.0 <= b <= 1.0;
    if g >= 0.0 {
      assert 0.0 <= b * g <= g by {
        assert b * g <= 1.0 * g;
      }
    } else {
      assert g <= b * g <= 0.0 by {
        assert 1.0 * g <= b * g;
      }
    }
  }

  /**
    The table after update_q (qlearning.py:335-337) of `s` with `reward` and
    the best next value `next`: its value moves towards `reward + gamma * next`.
  */
  function Updated(q: map<QState, real>, defaultQ: real, alpha: real, gamma: real, s: QState, reward: real, next: real): map<QState, real> {
    q[s := Blend(ValueIn(q, defaultQ, s), reward + gamma * next, alpha)]
  }

  /**
    An update adds `s` to the table if it was missing, leaves every other
    state's value as it was, and shrinks the gap between the value of `s` and
    the target by the factor `1 - alpha`.
  */
  lemma UpdatedOnlyAt(q: map<QState, real>, defaultQ: real, alpha: real, gamma: real, s: QState, reward: real, next: real)
    ensures Updated(q, defaultQ, alpha, gamma, s, reward, next).Keys == q.Keys + {s}
    ensures forall t :: t != s ==> ValueIn(Updated(q, defaultQ, alpha, gamma, s, reward, next), defaultQ, t) == ValueIn(q, defaultQ, t)
    ensures ValueIn(Updated(q, defaultQ, alpha, gamma, s, reward, next), defaultQ, s) - (reward + gamma * next)
            == (1.0 - alpha) * (ValueIn(q, defaultQ, s) - (reward + gamma * next))
  {
  }

  /** The order in which get_max_next_q builds and scans its candidates (qlearning.py:263-280). */
  const Order: seq<Direction> := [Up, Down, Left, Right]

  /**
    The candidates of `vs` (the values of the moves in `Order`) among the first
    `k` that equal `m`, as direction-value pairs in scanning order.
  */
  function Ties(vs: seq<real>, m: real, k: nat): (t: seq<(Direction, real)>)
    requires k <= |vs| <= 4
    ensures forall i :: 0 <= i < |t| ==> t[i].1 == m && exists j :: 0 <= j < k && t[i] == (Order[j], vs[j])
  {
    if k == 0 then [] else Ties(vs, m, k - 1) + (if vs[k - 1] == m then [(Order[k - 1], vs[k - 1])] else [])
  }

  /** No candidate among the first `k` reaches a value above all of them. */
  lemma {:induction false} TiesNone(vs: seq<real>, m: real, k: nat)
    requires k <= |vs| <= 4
    requires forall i :: 0 <= i < k ==> vs[i] < m
    ensures Ties(vs, m, k) == []
  {
    if k > 0 {
      TiesNone(vs, m, k - 1);
    }
  }

  /** Once the first candidate with value `m` is scanned, it stays at the head of the ties. */
  lemma {:induction false} TiesHead(vs: seq<real>, m: real, f: nat, k: nat)
    requires f < k <= |vs| <= 4
    requires Ties(vs, m, f) == [] && vs[f] == m
    ensures |Ties(vs, m, k)| > 0 && Ties(vs, m, k)[0] == (Order[f], m)
  {
    if k > f + 1 {
      TiesHead(vs, m, f, k - 1);
    }
  }

  /** The ties at the maximum start with the first maximal candidate, so they are never empty. */
  lemma TiesAtMax(vs: seq<real>)
    requires 0 < |vs| <= 4
    ensures |Ties(vs, Max(vs), |vs|)| > 0
    ensures Ties(vs, Max(vs), |vs|)[0] == (Order[FirstMaxIndex(vs)], Max(vs))
  {
    var f := FirstMaxIndex(vs);
    FirstMaxIndexIsFirstMax(vs);
    TiesNone(vs, Max(vs), f);
    TiesHead(vs, Max(vs), f, |vs|);
  }

  /** Python's `max(s)` of a one-longer prefix. */
  lemma MaxSnoc(vs: seq<real>, k: nat)
    requires 0 < k < |vs|
    ensures Max(vs[..k + 1]) == Larger(Max(vs[..k]), vs[k])
  {
    assert vs[..k + 1][..k] == vs[..k];
  }

  /**
    The scan of get_max_next_q (qlearning.py:281-289) over the values `vs` of
    the moves in `Order`: it keeps every candidate equal to the best value seen.
  */
  method Scan(vs: seq<real>) returns (maximums: seq<(Direction, real)>)
    requires |vs| == 4
    ensures maximums == Ties(vs, Max(vs), 4)
  {
    maximums := [];
    var maxValue: Option<real> := None;
    for i := 0 to 4
      invariant i == 0 ==> maximums == [] && maxValue == None
      invariant i > 0 ==> maxValue == Some(Max(vs[..i])) && maximums == Ties(vs, Max(vs[..i]), i)
    {
      var v := vs[i];
      if maxValue.None? {
        assert vs[..1] == [v];
        maximums := [(Order[i], v)];
        maxValue := Some(v);
      } else {
        MaxSnoc(vs, i);
        if v > maxValue.value {
          MaxIsLargest(vs[..i]);
          TiesNone(vs, v, i);
          maximums := [(Order[i], v)];
          maxValue := Some(v);
        } else if v == maxValue.value {
          maximums := maximums + [(Order[i], v)];
        }
      }
    }
    assert vs[..4] == vs;
  }

  /** The arrows policy prints (DIRS_DISP, qlearning.py:46-51). */
  function Arrow(d: Direction): char {
    match d
    case Up => '^'
    case Down => 'v'
    case Right => '>'
    case Left => '<'
  }

  /** What policy shows for a cell: a block for walls and portals, a dash for platforms, else the best arrow (qlearning.py:191-202). */
  function Shown(c: Cell, best: Direction): (ch: char)
    ensures ch == '█' <==> c == Wall || c == Portal
    ensures c != Wall && c != Portal && c != Platform ==> ch == Arrow(best)
  {
    if c == Wall || c == Portal then '█' else if c == Platform then '-' else Arrow(best)
  }

  /** The player attributes policy is asked about; missing ones default to false. */
  datatype Attrs = Attrs(hasKey: bool, hasSword: bool, hasTreasure: bool, critical: bool)

  /** The stopping test at the top of train's loop (qlearning.py:385-389). */
  predicate Stop(iter: int, iterAtLift: int) {
    (iter - iterAtLift > TimeBeforeCanExit && iter > MinIter) || iter > MaxIter
  }

  /**
    Training always stops after MaxIter iterations, never before MinIter, and
    below MaxIter only once TimeBeforeCanExit iterations have passed since the
    last lift of epsilon.
  */
  lemma StopBounds(iter: int, iterAtLift: int)
    ensures iter > MaxIter ==> Stop(iter, iterAtLift)
    ensures iter <= MinIter ==> !Stop(iter, iterAtLift)
    ensures Stop(iter, iterAtLift) && iter <= MaxIter ==> iter > iterAtLift + TimeBeforeCanExit
  {
  }

  /** The per-episode decay of epsilon (qlearning.py:390-391): down by 0.001, never below 0. */
  function Decayed(e: real): (r: real)
    ensures r >= 0.0 && (e >= 0.0 ==> r <= e)
    ensures r > 0.0 ==> r == e - 0.001
  {
    Larger(0.0, e - 0.001)
  }

  /** The window of recent results (qlearning.py:489-491): append, then drop the oldest beyond 1000. */
  function PushWin(wins: seq<int>, w: int): (r: seq<int>)
    ensures |wins| <= 1000 ==> |r| <= 1000
    ensures |r| > 0 && r[|r| - 1] == w
    ensures |r| <= |wins| + 1 && r == (wins + [w])[|wins| + 1 - |r|..]
    ensures |r| == if |wins| + 1 > 1000 then |wins| else |wins| + 1
  {
    var t := wins + [w];
    if |t| > 1000 then t[1..] else t
  }

  /** Keeping the window bounded: after any sequence of episodes started from at most 1000 results, at most 1000 remain. */
  lemma {:induction false} WindowBounded(wins: seq<int>, results: seq<int>)
    requires |wins| <= 1000
    ensures |PushAll(wins, results)| <= 1000
    decreases |results|
  {
    if |results| > 0 {
      WindowBounded(PushWin(wins, results[0]), results[1..]);
    }
  }

  function PushAll(wins: seq<int>, results: seq<int>): seq<int>
    decreases |results|
  {
    if |results| == 0 then wins else PushAll(PushWin(wins, results[0]), results[1..])
  }

  class QLearning {
    var level: Game.Level
    var grid: Grid
    var playerHealth: int
    var Q: map<QState, real>
    var defaultQ: real
    var alpha: real
    var gamma: real
    var time: int
    var epsilon: real
    var oEpsilon: real
    var strategy: Strategy
    var iterAtLift: int
    var iter: int

    /** __init__ (qlearning.py:73-123) on parameters that pass its checks. */
    constructor (level: Game.Level, defaultQ: real, alpha: real, gamma: real, epsilon: real, strategy: string, playerHealth: int)
      requires Validate(alpha, gamma, epsilon, strategy).Ok?
      ensures this.level == level && grid == level.grid && this.playerHealth == playerHealth
      ensures Q == map[] && this.defaultQ == defaultQ && this.alpha == alpha && this.gamma == gamma
      ensures this.epsilon == epsilon && oEpsilon == epsilon && this.strategy == Validate(alpha, gamma, epsilon, strategy).value
      ensures time == 0 && iterAtLift == 0 && iter == 0
    {
      this.level := level;
      grid := level.grid;
      this.playerHealth := playerHealth;
      Q := map[];
      this.defaultQ := defaultQ;
      this.alpha := alpha;
      this.gamma := gamma;
      time := 0;
      this.epsilon := epsilon;
      oEpsilon := epsilon;
      this.strategy := if strategy == "decrease" then Decrease else Constant;
      iterAtLift := 0;
      iter := 0;
    }

    /**
      Building the agent (qlearning.py:73-123) with its defaults: it fails with
      the message of the first check that fails, listed in Validate.
    */
    static method Create(level: Game.Level, defaultQ: real := 10.0, alpha: real := 0.1, gamma: real := 0.9,
                         epsilon: real := 0.01, strategy: string := "constant", playerHealth: int := 1)
      returns (r: Result<QLearning, string>)
      ensures r.Err? <==> Validate(alpha, gamma, epsilon, strategy).Err?
      ensures r.Err? ==> r.error == Validate(alpha, gamma, epsilon, strategy).error
      ensures r.Ok? ==> fresh(r.value) && r.value.Q == map[] && r.value.alpha == alpha && r.value.gamma == gamma
                        && r.value.epsilon == epsilon && r.value.oEpsilon == epsilon && r.value.defaultQ == defaultQ
                        && r.value.strategy == Validate(alpha, gamma, epsilon, strategy).value
    ensures r.Ok? ==> r.value.level == level && r.value.grid == level.grid && r.value.playerHealth == playerHealth
                        && r.value.time == 0 && r.value.iterAtLift == 0 && r.value.iter == 0
    {
      var v := Validate(alpha, gamma, epsilon, strategy);
      if v.Err? {
        return Err(v.error);
      }
      var agent := new QLearning(level, defaultQ, alpha, gamma, epsilon, strategy, playerHealth);
      return Ok(agent);
    }

    /** `Q.get(s, default_q)`. */
    function Value(s: QState): real
      reads this
    {
      ValueIn(Q, defaultQ, s)
    }

    /** The values of the four moves from `origin`, in the order UP, DOWN, LEFT, RIGHT. */
    function QValues(origin: QState): (vs: seq<real>)
      reads this
      ensures |vs| == 4
    {
      [Value(GetState(origin, Some(Up))), Value(GetState(origin, Some(Down))),
       Value(GetState(origin, Some(Left))), Value(GetState(origin, Some(Right)))]
    }

    /** Entry `k` of QValues is the value of the state reached by the `k`-th move of Order. */
    lemma QValuesAt(origin: QState)
      ensures forall k :: 0 <= k < 4 ==> QValues(origin)[k] == Value(GetState(origin, Some(Order[k])))
    {
    }

    /**
      get_max_next_q (qlearning.py:247-294): the best value of the four moves
      from `origin` and a move reaching it. With `noRandom` it is the first
      maximal move in the order UP, DOWN, LEFT, RIGHT; otherwise the tie chosen
      by `pick`.
    */
    method GetMaxNextQ(origin: QState, noRandom: bool, pick: nat) returns (d: Direction, q: real)
      ensures q == Max(QValues(origin))
      ensures forall k :: 0 <= k < 4 ==> Value(GetState(origin, Some(Order[k]))) <= q
      ensures Value(GetState(origin, Some(d))) == q
      ensures noRandom ==> d == Order[FirstMaxIndex(QValues(origin))]
      ensures |Ties(QValues(origin), q, 4)| > 0
      ensures !noRandom ==> (d, q) == Ties(QValues(origin), q, 4)[pick % |Ties(QValues(origin), q, 4)|]
    {
      var vs := QValues(origin);
      QValuesAt(origin);
      MaxIsLargest(vs);
      var maximums := Scan(vs);
      TiesAtMax(vs);
      var t := if noRandom then maximums[0] else maximums[pick % |maximums|];
      d, q := t.0, t.1;
      var j :| 0 <= j < 4 && t == (Order[j], vs[j]);
    }

    /** update_q (qlearning.py:327-337): move the value of `s` towards `reward + gamma * max_q_next_action`. */
    method UpdateQ(s: QState, reward: real, maxNext: real)
      modifies this`Q
      ensures Q == Updated(old(Q), defaultQ, alpha, gamma, s, reward, maxNext)
    {
      var q := Value(s);
      Q := Q[s := q];
      Q := Q[s := Blend(Q[s], reward + gamma * maxNext, alpha)];
    }

    /**
      The epsilon property (qlearning.py:317-325): under the decreasing
      strategy, reading it after more than TimeBeforeEpsBump steps of an
      episode lifts it to 0.1 and records the iteration of the lift.
    */
    method Epsilon() returns (e: real)
      modifies this`epsilon, this`iterAtLift
      ensures e == epsilon
      ensures strategy == Decrease && time > TimeBeforeEpsBump ==> epsilon == 0.1 && iterAtLift == iter
      ensures !(strategy == Decrease && time > TimeBeforeEpsBump) ==> epsilon == old(epsilon) && iterAtLift == old(iterAtLift)
    {
      if strategy == Decrease && time > TimeBeforeEpsBump {
        epsilon := 0.1;
        iterAtLift := iter;
      }
      return epsilon;
    }

    /**
      The head of train's episode loop (qlearning.py:385-393): stop, or decay
      epsilon under the decreasing strategy and count the episode.
    */
    method BeginEpisode() returns (stop: bool)
      modifies this`epsilon, this`iter
      ensures stop == Stop(old(iter), iterAtLift)
      ensures stop ==> iter == old(iter) && epsilon == old(epsilon)
      ensures !stop ==> iter == old(iter) + 1 && epsilon == if strategy == Decrease then Decayed(old(epsilon)) else old(epsilon)
    {
      if iter - iterAtLift > TimeBeforeCanExit && iter > MinIter {
        return true;
      }
      if iter > MaxIter {
        return true;
      }
      if strategy == Decrease {
        epsilon := Larger(0.0, epsilon - 0.001);
      }
      iter := iter + 1;
      return false;
    }

    /**
      The table updates of one training step (qlearning.py:426-476). A blocked
      move in direction `d` from `current` updates the state it would have
      reached, with the wall reward -100 as both reward and continuation. A
      move that succeeded updates `afterMove`, the state just after the move,
      and also `afterReaction`, the state after the cell's chain reaction, when
      a reaction happened; both use the reward of the final `cell`, and the
      continuation is the best value from `afterReaction`, or 0 if the player
      died.
    */
    method LearnStep(current: QState, d: Direction, moved: bool, afterMove: QState, afterReaction: QState,
                     cell: Cell, dead: bool, happened: bool)
      modifies this`Q
      ensures !moved ==> Q == Updated(old(Q), defaultQ, alpha, gamma, GetState(current, Some(d)), -100.0, -100.0)
      ensures moved ==>
        var m := if dead then 0.0 else Max(old(QValues(afterReaction)));
        var q1 := if happened
                  then Updated(old(Q), defaultQ, alpha, gamma, afterReaction, GetReward(afterReaction, cell, dead) as real, m)
                  else old(Q);
        Q == Updated(q1, defaultQ, alpha, gamma, afterMove, GetReward(afterMove, cell, dead) as real, m)
    {
      var reward: int;
      var maxQ: real;
      var s := afterMove;
      if moved {
        reward := GetReward(afterMove, cell, dead);
        var _, best := GetMaxNextQ(afterReaction, true, 0);
        maxQ := best;
        if dead {
          maxQ := 0.0;
        }
        if happened {
          var rewardAfterReaction := GetReward(afterReaction, cell, dead);
          UpdateQ(afterReaction, rewardAfterReaction as real, maxQ);
        }
        UpdateQ(s, reward as real, maxQ);
      } else {
        s := GetState(current, Some(d));
        reward := DefaultReward(Wall);
        maxQ := reward as real;
        UpdateQ(s, reward as real, maxQ);
      }
    }

    /** The move policy shows from `s`: the first maximal one. */
    function Best(s: QState): Direction
      reads this
    {
      Order[FirstMaxIndex(QValues(s))]
    }

    /** What policy shows at column `x` of line `y` for a player with `attrs`. */
    function ShownAt(x: int, y: int, attrs: Attrs): char
      reads this
      requires 0 <= y < |grid| && 0 <= x < |grid[y]|
    {
      Shown(grid[y][x], Best(QState(x, y, attrs.hasKey, attrs.hasSword, attrs.hasTreasure, attrs.critical)))
    }

    /** What policy shows for the cell at column `x` of line `y` (qlearning.py:191-202). */
    method PolicyCell(x: int, y: int, attrs: Attrs) returns (c: char)
      requires 0 <= y < |grid| && 0 <= x < |grid[y]|
      ensures c == ShownAt(x, y, attrs)
    {
      var cell := grid[y][x];
      if cell == Wall || cell == Portal {
        c := '█';
      } else if cell == Platform {
        c := '-';
      } else {
        var state := QState(x, y, attrs.hasKey, attrs.hasSword, attrs.hasTreasure, attrs.critical);
        var d, _ := GetMaxNextQ(state, true, 0);
        c := Arrow(d);
      }
    }

    /** The first `n` cells of line `y` as policy shows them. */
    ghost function ShownRow(y: int, attrs: Attrs, n: nat): (row: seq<char>)
      reads this
      requires 0 <= y < |grid| && n <= |grid[y]|
      ensures |row| == n
    {
      if n == 0 then [] else ShownRow(y, attrs, n - 1) + [ShownAt(n - 1, y, attrs)]
    }

    lemma {:induction false} ShownRowAt(y: int, attrs: Attrs, n: nat, x: int)
      requires 0 <= y < |grid| && n <= |grid[y]| && 0 <= x < n
      ensures ShownRow(y, attrs, n)[x] == ShownAt(x, y, attrs)
      decreases n
    {
      if x < n - 1 {
        ShownRowAt(y, attrs, n - 1, x);
      }
    }

    /** One line of policy (qlearning.py:189-202). */
    method PolicyRow(y: int, attrs: Attrs) returns (row: seq<char>)
      requires 0 <= y < |grid| && level.nbCol <= |grid[y]|
      ensures |row| == level.nbCol
      ensures forall x :: 0 <= x < |row| ==> row[x] == ShownAt(x, y, attrs)
    {
      row := [];
      var x := 0;
      while x < level.nbCol
        invariant 0 <= x <= level.nbCol && row == ShownRow(y, attrs, x)
      {
        var c := PolicyCell(x, y, attrs);
        row := row + [c];
        x := x + 1;
      }
      forall i | 0 <= i < x
        ensures row[i] == ShownAt(i, y, attrs)
      {
        ShownRowAt(y, attrs, x, i);
      }
    }

    /**
      policy (qlearning.py:172-204): for each cell of the level, what the
      agent would do there with the given attributes.
    */
    method Policy(attrs: Attrs) returns (p: seq<seq<char>>)
      requires Covers(grid, level.nbLine, level.nbCol)
      ensures |p| == level.nbLine
      ensures forall y :: 0 <= y < |p| ==> |p[y]| == level.nbCol
      ensures forall y, x :: 0 <= y < |p| && 0 <= x < |p[y]| ==>
        p[y][x] == ShownAt(x, y, attrs)
    {
      p := [];
      var y := 0;
      var n := level.nbLine;
      while y < n
        invariant 0 <= y <= n && |p| == y
        invariant forall i :: 0 <= i < y ==> |p[i]| == level.nbCol
        invariant forall i, x :: 0 <= i < y && 0 <= x < |p[i]| ==>
          p[i][x] == ShownAt(x, i, attrs)
      {
        var row := PolicyRow(y, attrs);
        p := p + [row];
        y := y + 1;
      }
    }
  }
}
