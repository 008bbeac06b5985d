/**
  The value-iteration solver of value_iteration.py. Every cell holds the
  values of its four actions (up, down, right, left); one synchronous sweep
  recomputes all of them from a copy of the previous table, and the solver
  stops when the largest change of a cell's best value falls below epsilon.
  The unbounded `while True` loop is given a budget of sweeps.
*/
module ValueIter {
  import opened Wrappers
  import opened World
  import opened Reals
  import opened Planning
  import Game

  /** Solver.damage and Solver.dead (value_iteration.py:17, 20). */
  const Damage: real := -2.0
  const Dead: real := -500.0

  /** The score of an action that leaves the grid or walks into a wall (value_iteration.py:104). */
  const Invalid: real := -10000.0

  /** The order of the actions in a cell's values (value_iteration.py:95). */
  const Actions: seq<Direction> := [Up, Down, Right, Left]

  /** What losing a life costs: the damage, or death when the player is critical (value_iteration.py:194-196, 203-205). */
  function Loss(critical: bool): real {
    if critical then Dead else Damage
  }

  /**
    get_possible_moves (value_iteration.py:193-211): the expected value of
    arriving on `p`, from the best values of the previous table. A trap hurts
    with probability 0.1, sends back to the start with 0.3 and does nothing
    with 0.6; a crack is death; an enemy hurts with probability 0.3 unless
    the sword is held.
  */
  function Expect(g: Grid, nbLine: int, nbCol: int, prev: Values, p: Pos, critical: bool, hasSword: bool): real
    requires Covers(g, nbLine, nbCol) && Shaped(prev, nbLine, nbCol) && InBounds(nbLine, nbCol, p)
  {
    var own := Max(prev[p.y][p.x]);
    match g[p.y][p.x]
    case Trap => 0.1 * Loss(critical) + 0.3 * Max(prev[nbLine - 1][nbCol - 1]) + 0.6 * own
    case Crack => Dead
    case Enemy => if hasSword then own else 0.7 * own + 0.3 * Loss(critical)
    case _ => own
  }

  /** The best values of `a` and `b` differ by at most `d` in every cell. */
  predicate Close(a: Values, b: Values, nbLine: int, nbCol: int, d: real)
    requires Shaped(a, nbLine, nbCol) && Shaped(b, nbLine, nbCol)
  {
    forall y, x :: 0 <= y < nbLine && 0 <= x < nbCol ==> Abs(Max(a[y][x]) - Max(b[y][x])) <= d
  }

  /** The expectation never moves further than the best values it is computed from: its weights sum to at most 1. */
  lemma ExpectNonExpansive(g: Grid, nbLine: int, nbCol: int, a: Values, b: Values, p: Pos, critical: bool, hasSword: bool, d: real)
    requires Covers(g, nbLine, nbCol) && Shaped(a, nbLine, nbCol) && Shaped(b, nbLine, nbCol) && InBounds(nbLine, nbCol, p)
    requires Close(a, b, nbLine, nbCol, d)
    ensures Abs(Expect(g, nbLine, nbCol, a, p, critical, hasSword) - Expect(g, nbLine, nbCol, b, p, critical, hasSword)) <= d
  {
    var own := Max(a[p.y][p.x]) - Max(b[p.y][p.x]);
    var start := Max(a[nbLine - 1][nbCol - 1]) - Max(b[nbLine - 1][nbCol - 1]);
    assert Abs(own) <= d && Abs(start) <= d;
  }

  /** The score of one action: its reward plus `gamma` times what follows it (value_iteration.py:127). */
  function Score(reward: real, gamma: real, e: real): real {
    reward + gamma * e
  }

  /** The product of two non-negative numbers is non-negative. */
  lemma NonNegProduct(a: real, b: real)
    requires 0.0 <= a && 0.0 <= b
    ensures 0.0 <= a * b
  {
  }

  /** With a non-negative discount, scores whose futures are at most `d` apart are at most `gamma * d` apart. */
  lemma ScoreLipschitz(reward: real, gamma: real, u: real, w: real, d: real)
    requires 0.0 <= gamma && Abs(u - w) <= d
    ensures Abs(Score(reward, gamma, u) - Score(reward, gamma, w)) <= gamma * d
  {
    var e := u - w;
    assert -d <= e <= d;
    assert Score(reward, gamma, u) - Score(reward, gamma, w) == gamma * e;
    assert gamma * (d - e) >= 0.0 && gamma * (d + e) >= 0.0 by {
      NonNegProduct(gamma, d - e);
      NonNegProduct(gamma, d + e);
    }
    assert gamma * (d - e) == gamma * d - gamma * e && gamma * (d + e) == gamma * d + gamma * e;
  }

  /**
    The score of action `d` from `p` (value_iteration.py:103-127): the reward
    of the target cell plus `gamma` times its expectation when the target is
    inside the grid and not a wall, else -10000 plus `gamma` times 0.
  */
  function ActionValue(g: Grid, nbLine: int, nbCol: int, r: Rewards, prev: Values, p: Pos, d: Direction,
                       gamma: real, critical: bool, hasSword: bool): real
    requires Covers(g, nbLine, nbCol) && Shaped(prev, nbLine, nbCol) && InBounds(nbLine, nbCol, p) && Total(r)
  {
    var t := Moved(p, d);
    if CanEnter(g, nbLine, nbCol, t) then Score(r[g[t.y][t.x]] as real, gamma, Expect(g, nbLine, nbCol, prev, t, critical, hasSword))
    else Score(Invalid, gamma, 0.0)
  }

  /** With a non-negative discount, an action's score moves at most `gamma * d` when the best values move at most `d`. */
  lemma ActionValueLipschitz(g: Grid, nbLine: int, nbCol: int, r: Rewards, a: Values, b: Values, p: Pos, dir: Direction,
                             gamma: real, critical: bool, hasSword: bool, d: real)
    requires Covers(g, nbLine, nbCol) && Shaped(a, nbLine, nbCol) && Shaped(b, nbLine, nbCol) && InBounds(nbLine, nbCol, p) && Total(r)
    requires 0.0 <= gamma && Close(a, b, nbLine, nbCol, d)
    ensures Abs(ActionValue(g, nbLine, nbCol, r, a, p, dir, gamma, critical, hasSword)
                - ActionValue(g, nbLine, nbCol, r, b, p, dir, gamma, critical, hasSword)) <= gamma * d
  {
    var t := Moved(p, dir);
    if CanEnter(g, nbLine, nbCol, t) {
      ExpectNonExpansive(g, nbLine, nbCol, a, b, t, critical, hasSword, d);
      ScoreLipschitz(r[g[t.y][t.x]] as real, gamma, Expect(g, nbLine, nbCol, a, t, critical, hasSword), Expect(g, nbLine, nbCol, b, t, critical, hasSword), d);
    } else {
      assert Abs(Max(a[p.y][p.x]) - Max(b[p.y][p.x])) <= d;
      ScoreLipschitz(Invalid, gamma, 0.0, 0.0, d);
    }
  }

  /** The four action scores of cell `p` in the order of Actions: the list `q` of value_iteration.py:102-127. */
  function Backup(g: Grid, nbLine: int, nbCol: int, r: Rewards, prev: Values, p: Pos, gamma: real, critical: bool, hasSword: bool): (q: seq<real>)
    requires Covers(g, nbLine, nbCol) && Shaped(prev, nbLine, nbCol) && InBounds(nbLine, nbCol, p) && Total(r)
    ensures |q| == 4
  {
    seq(4, k requires 0 <= k < 4 => ActionValue(g, nbLine, nbCol, r, prev, p, Actions[k], gamma, critical, hasSword))
  }

  /** The first `n` cells of line `y` of the table after one sweep. */
  function SweepLineOf(g: Grid, nbLine: int, nbCol: nat, r: Rewards, prev: Values, y: int, gamma: real, critical: bool, hasSword: bool, n: nat): (line: seq<seq<real>>)
    requires Covers(g, nbLine, nbCol) && Shaped(prev, nbLine, nbCol) && 0 <= y < nbLine && Total(r) && n <= nbCol
    ensures |line| == n && forall x :: 0 <= x < n ==> |line[x]| == 4
  {
    if n == 0 then []
    else SweepLineOf(g, nbLine, nbCol, r, prev, y, gamma, critical, hasSword, n - 1) + [Backup(g, nbLine, nbCol, r, prev, Pos(n - 1, y), gamma, critical, hasSword)]
  }

  /** Cell `x` of a swept line holds that cell's four scores. */
  lemma {:induction false} SweepLineOfAt(g: Grid, nbLine: int, nbCol: nat, r: Rewards, prev: Values, y: int, gamma: real, critical: bool, hasSword: bool, n: nat, x: int)
    requires Covers(g, nbLine, nbCol) && Shaped(prev, nbLine, nbCol) && 0 <= y < nbLine && Total(r) && 0 <= x < n <= nbCol
    ensures SweepLineOf(g, nbLine, nbCol, r, prev, y, gamma, critical, hasSword, n)[x] == Backup(g, nbLine, nbCol, r, prev, Pos(x, y), gamma, critical, hasSword)
  {
    if x < n - 1 {
      SweepLineOfAt(g, nbLine, nbCol, r, prev, y, gamma, critical, hasSword, n - 1, x);
    }
  }

  /** The first `m` lines of the table after one sweep. */
  function SweepLines(g: Grid, nbLine: nat, nbCol: nat, r: Rewards, prev: Values, gamma: real, critical: bool, hasSword: bool, m: nat): (v: Values)
    requires Covers(g, nbLine, nbCol) && Shaped(prev, nbLine, nbCol) && Total(r) && m <= nbLine
    ensures |v| == m && forall y :: 0 <= y < m ==> |v[y]| == nbCol && forall x :: 0 <= x < nbCol ==> |v[y][x]| == 4
  {
    if m == 0 then []
    else SweepLines(g, nbLine, nbCol, r, prev, gamma, critical, hasSword, m - 1) + [SweepLineOf(g, nbLine, nbCol, r, prev, m - 1, gamma, critical, hasSword, nbCol)]
  }

  /** Line `y` of the swept lines is that line swept. */
  lemma {:induction false} SweepLinesAt(g: Grid, nbLine: nat, nbCol: nat, r: Rewards, prev: Values, gamma: real, critical: bool, hasSword: bool, m: nat, y: int)
    requires Covers(g, nbLine, nbCol) && Shaped(prev, nbLine, nbCol) && Total(r) && 0 <= y < m <= nbLine
    ensures SweepLines(g, nbLine, nbCol, r, prev, gamma, critical, hasSword, m)[y] == SweepLineOf(g, nbLine, nbCol, r, prev, y, gamma, critical, hasSword, nbCol)
  {
    if y < m - 1 {
      SweepLinesAt(g, nbLine, nbCol, r, prev, gamma, critical, hasSword, m - 1, y);
    }
  }

  /** The table after one sweep: every cell's scores computed from `prev` alone. */
  function SweepOf(g: Grid, nbLine: nat, nbCol: nat, r: Rewards, prev: Values, gamma: real, critical: bool, hasSword: bool): (v: Values)
    requires Covers(g, nbLine, nbCol) && Shaped(prev, nbLine, nbCol) && Total(r)
    ensures Readable(v, nbLine, nbCol)
  {
    SweepLines(g, nbLine, nbCol, r, prev, gamma, critical, hasSword, nbLine)
  }

  /** Every cell of the swept table holds the four scores of that cell, computed from `prev`. */
  lemma SweepAt(g: Grid, nbLine: nat, nbCol: nat, r: Rewards, prev: Values, gamma: real, critical: bool, hasSword: bool, y: int, x: int)
    requires Covers(g, nbLine, nbCol) && Shaped(prev, nbLine, nbCol) && Total(r) && 0 <= y < nbLine && 0 <= x < nbCol
    ensures SweepOf(g, nbLine, nbCol, r, prev, gamma, critical, hasSword)[y][x] == Backup(g, nbLine, nbCol, r, prev, Pos(x, y), gamma, critical, hasSword)
  {
    SweepLinesAt(g, nbLine, nbCol, r, prev, gamma, critical, hasSword, nbLine, y);
    SweepLineOfAt(g, nbLine, nbCol, r, prev, y, gamma, critical, hasSword, nbCol, x);
  }

  /**
    One sweep is a contraction by `gamma`: tables whose best values are
    within `d` of each other are within `gamma * d` after a sweep.
  */
  lemma SweepContracts(g: Grid, nbLine: nat, nbCol: nat, r: Rewards, a: Values, b: Values, gamma: real, critical: bool, hasSword: bool, d: real)
    requires Covers(g, nbLine, nbCol) && Shaped(a, nbLine, nbCol) && Shaped(b, nbLine, nbCol) && Total(r)
    requires 0.0 <= gamma && Close(a, b, nbLine, nbCol, d)
    ensures Close(SweepOf(g, nbLine, nbCol, r, a, gamma, critical, hasSword), SweepOf(g, nbLine, nbCol, r, b, gamma, critical, hasSword), nbLine, nbCol, gamma * d)
  {
    var va := SweepOf(g, nbLine, nbCol, r, a, gamma, critical, hasSword);
    var vb := SweepOf(g, nbLine, nbCol, r, b, gamma, critical, hasSword);
    forall y, x | 0 <= y < nbLine && 0 <= x < nbCol
      ensures Abs(Max(va[y][x]) - Max(vb[y][x])) <= gamma * d
    {
      var p := Pos(x, y);
      SweepAt(g, nbLine, nbCol, r, a, gamma, critical, hasSword, y, x);
      SweepAt(g, nbLine, nbCol, r, b, gamma, critical, hasSword, y, x);
      var qa := Backup(g, nbLine, nbCol, r, a, p, gamma, critical, hasSword);
      var qb := Backup(g, nbLine, nbCol, r, b, p, gamma, critical, hasSword);
      forall k | 0 <= k < 4
        ensures Abs(qa[k] - qb[k]) <= gamma * d
      {
        ActionValueLipschitz(g, nbLine, nbCol, r, a, b, p, Actions[k], gamma, critical, hasSword, d);
      }
      MaxLipschitz(qa, qb, gamma * d);
    }
  }

  /** How much the best value of cell `x` changes from line `a` to line `b`. */
  function CellChange(a: seq<seq<real>>, b: seq<seq<real>>, x: int): real
    requires 0 <= x < |a| && 0 <= x < |b| && |a[x]| > 0 && |b[x]| > 0
  {
    Abs(Max(a[x]) - Max(b[x]))
  }

  /** `delta = max(delta, ...)` over the first `n` cells of a line, starting from `acc`. */
  function LineDelta(acc: real, a: seq<seq<real>>, b: seq<seq<real>>, n: nat): real
    requires n <= |a| && n <= |b| && forall x :: 0 <= x < n ==> |a[x]| > 0 && |b[x]| > 0
  {
    if n == 0 then acc else Larger(LineDelta(acc, a, b, n - 1), CellChange(a, b, n - 1))
  }

  /** `delta` after the first `m` lines of a sweep (value_iteration.py:99, 131). */
  function Delta(a: Values, b: Values, m: nat, nbCol: nat): real
    requires m <= |a| && m <= |b| && forall y :: 0 <= y < m ==> nbCol <= |a[y]| && nbCol <= |b[y]| && forall x :: 0 <= x < nbCol ==> |a[y][x]| > 0 && |b[y][x]| > 0
  {
    if m == 0 then 0.0 else LineDelta(Delta(a, b, m - 1, nbCol), a[m - 1], b[m - 1], nbCol)
  }

  /** The line's delta is below `e` exactly when the start and every cell's change are. */
  lemma {:induction false} LineDeltaBelow(acc: real, a: seq<seq<real>>, b: seq<seq<real>>, n: nat, e: real)
    requires n <= |a| && n <= |b| && forall x :: 0 <= x < n ==> |a[x]| > 0 && |b[x]| > 0
    ensures LineDelta(acc, a, b, n) < e <==> acc < e && forall x :: 0 <= x < n ==> CellChange(a, b, x) < e
  {
    if n > 0 {
      LineDeltaBelow(acc, a, b, n - 1, e);
    }
  }

  /** The sweep's delta is below `e` exactly when `e` is positive and every cell's best value changed by less than `e`. */
  lemma {:induction false} DeltaBelow(a: Values, b: Values, m: nat, nbCol: nat, e: real)
    requires m <= |a| && m <= |b| && forall y :: 0 <= y < m ==> nbCol <= |a[y]| && nbCol <= |b[y]| && forall x :: 0 <= x < nbCol ==> |a[y][x]| > 0 && |b[y][x]| > 0
    ensures Delta(a, b, m, nbCol) < e <==> 0.0 < e && forall y, x :: 0 <= y < m && 0 <= x < nbCol ==> CellChange(a[y], b[y], x) < e
  {
    if m > 0 {
      DeltaBelow(a, b, m - 1, nbCol, e);
      LineDeltaBelow(Delta(a, b, m - 1, nbCol), a[m - 1], b[m - 1], nbCol, e);
    }
  }

  /**
    The sweeps of `while True` from table `v`, at most `budget` of them: the
    last sweep's input and output once it moved every best value by less
    than `epsilon`, or None if the budget runs out first.
  */
  ghost function Run(g: Grid, nbLine: nat, nbCol: nat, r: Rewards, gamma: real, epsilon: real, critical: bool, hasSword: bool,
                     v: Values, budget: nat): (res: Option<(Values, Values)>)
    requires Covers(g, nbLine, nbCol) && Shaped(v, nbLine, nbCol) && Total(r)
    ensures res.Some? ==> Shaped(res.value.0, nbLine, nbCol) && res.value.1 == SweepOf(g, nbLine, nbCol, r, res.value.0, gamma, critical, hasSword)
    ensures res.Some? ==> Delta(res.value.0, res.value.1, nbLine, nbCol) < epsilon
    decreases budget
  {
    if budget == 0 then None
    else
      var next := SweepOf(g, nbLine, nbCol, r, v, gamma, critical, hasSword);
      if Delta(v, next, nbLine, nbCol) < epsilon then Some((v, next))
      else Run(g, nbLine, nbCol, r, gamma, epsilon, critical, hasSword, next, budget - 1)
  }
  /** A run with budget left either stops at the sweep of `prev` or goes on from it. */
  lemma RunNext(g: Grid, nbLine: nat, nbCol: nat, r: Rewards, gamma: real, epsilon: real, critical: bool, hasSword: bool,
                prev: Values, left: nat, v: Values, delta: real)
    requires Covers(g, nbLine, nbCol) && Shaped(prev, nbLine, nbCol) && Total(r) && left > 0
    requires v == SweepOf(g, nbLine, nbCol, r, prev, gamma, critical, hasSword) && delta == Delta(prev, v, nbLine, nbCol)
    ensures delta < epsilon ==> Run(g, nbLine, nbCol, r, gamma, epsilon, critical, hasSword, prev, left) == Some((prev, v))
    ensures delta >= epsilon ==> Run(g, nbLine, nbCol, r, gamma, epsilon, critical, hasSword, prev, left)
                                 == Run(g, nbLine, nbCol, r, gamma, epsilon, critical, hasSword, v, left - 1)
  {
  }


  /** When a run stops, epsilon is positive and its last sweep changed every cell's best value by less than epsilon. */
  lemma RunStops(g: Grid, nbLine: nat, nbCol: nat, r: Rewards, gamma: real, epsilon: real, critical: bool, hasSword: bool,
                 v: Values, budget: nat)
    requires Covers(g, nbLine, nbCol) && Shaped(v, nbLine, nbCol) && Total(r)
    requires Run(g, nbLine, nbCol, r, gamma, epsilon, critical, hasSword, v, budget).Some?
    ensures var (u, w) := Run(g, nbLine, nbCol, r, gamma, epsilon, critical, hasSword, v, budget).value;
            0.0 < epsilon && forall y, x :: 0 <= y < nbLine && 0 <= x < nbCol ==> CellChange(u[y], w[y], x) < epsilon
  {
    var (u, w) := Run(g, nbLine, nbCol, r, gamma, epsilon, critical, hasSword, v, budget).value;
    DeltaBelow(u, w, nbLine, nbCol, epsilon);
  }

  /** The calls of solve_v_a (value_iteration.py:78-91), one per entry of Contexts. */
  const VACalls: seq<Call> := [
    Call(false, false, false, true, false), Call(false, true, false, true, true), Call(true, false, false, true, false),
    Call(true, false, true, true, false), Call(true, true, false, true, true), Call(true, true, true, true, true),
    Call(false, false, false, false, false), Call(false, true, false, false, true), Call(true, false, false, false, false),
    Call(true, false, true, false, false), Call(true, true, false, false, true), Call(true, true, true, false, true)]

  /** Every context of solve_v_a is solved with its own flags, including has_sword. */
  lemma VACallsMatch()
    ensures |VACalls| == |Contexts| && forall i :: 0 <= i < |Contexts| ==> Matches(Contexts[i], VACalls[i])
  {
  }

  /** The scores of the actions of cell (x, y), built as value_iteration.py:102-127 appends them. */
  method CellScores(g: Grid, nbLine: nat, nbCol: nat, hasSword: bool, prev: Values, x: int, y: int, gamma: real, r: Rewards, critical: bool) returns (q: seq<real>)
    requires Covers(g, nbLine, nbCol) && Shaped(prev, nbLine, nbCol) && Total(r)
    requires InBounds(nbLine, nbCol, Pos(x, y))
    ensures q == Backup(g, nbLine, nbCol, r, prev, Pos(x, y), gamma, critical, hasSword)
  {
    q := [];
    for k := 0 to 4
      invariant |q| == k
      invariant forall i :: 0 <= i < k ==> q[i] == ActionValue(g, nbLine, nbCol, r, prev, Pos(x, y), Actions[i], gamma, critical, hasSword)
    {
      var ra := Invalid;
      var p1 := 0.0;
      var t := Moved(Pos(x, y), Actions[k]);
      if CanEnter(g, nbLine, nbCol, t) {
        ra := r[g[t.y][t.x]] as real;
        p1 := Expect(g, nbLine, nbCol, prev, t, critical, hasSword);
      }
      q := q + [Score(ra, gamma, p1)];
    }
  }

  /** Line `y` of one sweep: each cell's scores overwrite it, and `delta` keeps the largest change seen. */
  method SweepLine(g: Grid, nbLine: nat, nbCol: nat, hasSword: bool, prev: Values, y: int, gamma: real, r: Rewards, critical: bool, delta0: real) returns (line: seq<seq<real>>, delta: real)
    requires Covers(g, nbLine, nbCol) && Shaped(prev, nbLine, nbCol) && Total(r)
    requires 0 <= y < nbLine
    ensures line == SweepLineOf(g, nbLine, nbCol, r, prev, y, gamma, critical, hasSword, nbCol)
    ensures delta == LineDelta(delta0, prev[y], line, nbCol)
  {
    ghost var target := SweepLineOf(g, nbLine, nbCol, r, prev, y, gamma, critical, hasSword, nbCol);
    line := prev[y];
    delta := delta0;
    var x := 0;
    while x < nbCol
      invariant 0 <= x <= nbCol && |line| == nbCol
      invariant forall i :: 0 <= i < x ==> line[i] == target[i]
      invariant delta == LineDelta(delta0, prev[y], target, x)
    {
      var q := CellScores(g, nbLine, nbCol, hasSword, prev, x, y, gamma, r, critical);
      SweepLineOfAt(g, nbLine, nbCol, r, prev, y, gamma, critical, hasSword, nbCol, x);
      line := line[x := q];
      delta := Larger(delta, Abs(Max(prev[y][x]) - Max(line[x])));
      x := x + 1;
    }
    assert line == target;
  }

  /**
    One sweep of value_iteration (value_iteration.py:97-131): `v` starts as
    a copy of `prev`, every cell is overwritten from `prev` alone, and
    `delta` is the largest change of a cell's best value.
  */
  method Sweep(g: Grid, nbLine: nat, nbCol: nat, hasSword: bool, prev: Values, gamma: real, r: Rewards, critical: bool) returns (v: Values, delta: real)
    requires Covers(g, nbLine, nbCol) && Shaped(prev, nbLine, nbCol) && Total(r)
    ensures v == SweepOf(g, nbLine, nbCol, r, prev, gamma, critical, hasSword)
    ensures delta == Delta(prev, v, nbLine, nbCol)
  {
    ghost var target := SweepOf(g, nbLine, nbCol, r, prev, gamma, critical, hasSword);
    v := prev;
    delta := 0.0;
    var y := 0;
    while y < nbLine
      invariant 0 <= y <= nbLine && |v| == nbLine
      invariant forall i :: 0 <= i < y ==> v[i] == target[i]
      invariant delta == Delta(prev, target, y, nbCol)
    {
      var line;
      line, delta := SweepLine(g, nbLine, nbCol, hasSword, prev, y, gamma, r, critical, delta);
      SweepLinesAt(g, nbLine, nbCol, r, prev, gamma, critical, hasSword, nbLine, y);
      v := v[y := line];
      y := y + 1;
    }
    assert v == target;
  }

  /** The Solver class of value_iteration.py; of its fields only has_sword changes. */
  class Solver {
    const level: Game.Level
    var hasSword: bool

    /** Solver.__init__ (value_iteration.py:15-54). */
    constructor (level: Game.Level)
      ensures this.level == level && !hasSword
    {
      this.level := level;
      hasSword := false;
    }

    /**
      value_iteration (value_iteration.py:93-133) with at most `budget`
      sweeps: it records has_sword, starts from buit_states and returns the
      greedy policy of the first table whose sweep changed every best value
      by less than epsilon; None when the budget runs out first.
    */
    method ValueIteration(gamma: real, epsilon: real, r: Rewards, critical: bool, hasSword: bool, budget: nat)
      returns (res: Option<seq<seq<char>>>)
      requires Covers(level.grid, level.nbLine, level.nbCol) && Total(r)
      modifies this`hasSword
      ensures this.hasSword == hasSword
      ensures var run := Run(level.grid, level.nbLine, level.nbCol, r, gamma, epsilon, critical, hasSword, Initial(level.nbLine, level.nbCol), budget);
              res.Some? <==> run.Some?
      ensures var run := Run(level.grid, level.nbLine, level.nbCol, r, gamma, epsilon, critical, hasSword, Initial(level.nbLine, level.nbCol), budget);
              res.Some? ==> (|res.value| == level.nbLine
                && forall y :: 0 <= y < level.nbLine ==>
                     (|res.value[y]| == level.nbCol && forall x :: 0 <= x < level.nbCol ==> res.value[y][x] == Greedy(run.value.1[y][x])))
    {
      this.hasSword := hasSword;
      var g, nbLine, nbCol := level.grid, level.nbLine, level.nbCol;
      var v := BuildStates(level.nbLine, level.nbCol);
      var left: nat := budget;
      while left > 0
        invariant this.hasSword == hasSword && Shaped(v, nbLine, nbCol) && left <= budget
        invariant Run(g, nbLine, nbCol, r, gamma, epsilon, critical, hasSword, Initial(nbLine, nbCol), budget)
                  == Run(g, nbLine, nbCol, r, gamma, epsilon, critical, hasSword, v, left)
      {
        var prev := v;
        var delta;
        v, delta := Sweep(g, nbLine, nbCol, this.hasSword, prev, gamma, r, critical);
        RunNext(g, nbLine, nbCol, r, gamma, epsilon, critical, hasSword, prev, left, v, delta);
        if delta < epsilon {
          var p := BestPolicy(v, level.nbLine, level.nbCol);
          return Some(p);
        }
        left := left - 1;
      }
      assert Run(g, nbLine, nbCol, r, gamma, epsilon, critical, hasSword, v, 0) == None;
      return None;
    }
  }
}
