/**
  What the planning solvers (value_iteration.py, policy_iteration.py and
  solver.py) share: the reward table of one player context, the table of
  per-cell action values they start from, the greedy policy read off such a
  table, and the twelve player contexts they are solved for.
*/
module Planning {
  import opened World
  import opened Reals

  /** A reward for every cell symbol. */
  type Rewards = map<Cell, int>

  /** The table has an entry for every cell. */
  predicate Total(r: Rewards) {
    forall c: Cell :: c in r
  }

  /**
    The default table (value_iteration.py:24-36, policy_iteration.py:31-43):
    -1 everywhere except -1000 for a wall, 500 for the sword and 1000 for the key.
  */
  const DefaultRewards: Rewards :=
    map[Start := -1, Blank := -1, Wall := -1000, Enemy := -1, Trap := -1, Crack := -1,
        Treasure := -1, Sword := 500, Key := 1000, Portal := -1, Platform := -1]

  lemma DefaultTotal()
    ensures Total(DefaultRewards)
  {
    forall c: Cell
      ensures c in DefaultRewards
    {
      match c
      case Start => case Blank => case Wall => case Enemy => case Trap => case Crack =>
      case Treasure => case Sword => case Key => case Portal => case Platform =>
    }
  }

  /**
    get_reward (value_iteration.py:57-68; policy_iteration.py:29-65 has the
    same table and overrides): a copy of the default table with the key
    overrides (K, T), then the sword override (W), then the treasure overrides
    (S, T) applied in that order, so that with the treasure T is -1 again.
  */
  function GetReward(hasKey: bool, hasSword: bool, hasTreasure: bool): (r: Rewards)
    ensures Total(r)
    ensures r[Key] == if hasKey then -1 else 1000
    ensures r[Sword] == if hasSword then -1 else 500
    ensures r[Treasure] == if hasTreasure then -1 else if hasKey then 1000 else -1
    ensures r[Start] == if hasTreasure then 1000 else -1
    ensures r[Wall] == -1000
    ensures forall c :: c != Key && c != Sword && c != Treasure && c != Start && c != Wall ==> r[c] == -1
  {
    assert Total(DefaultRewards) by { DefaultTotal(); }
    var withKey := if hasKey then DefaultRewards[Key := -1][Treasure := 1000] else DefaultRewards;
    var withSword := if hasSword then withKey[Sword := -1] else withKey;
    if hasTreasure then withSword[Start := 1000][Treasure := -1] else withSword
  }

  /** The values of the actions of every cell, line by line. */
  type Values = seq<seq<seq<real>>>

  /** `v` has `nbLine` lines of `nbCol` cells, each with at least one action value. */
  predicate Shaped(v: Values, nbLine: int, nbCol: int) {
    |v| == nbLine && forall y :: 0 <= y < |v| ==> |v[y]| == nbCol && forall x :: 0 <= x < nbCol ==> |v[y][x]| > 0
  }

  /** The starting table: every cell holds the two values `[0, 0]`. */
  function Initial(nbLine: nat, nbCol: nat): (v: Values)
    ensures Shaped(v, nbLine, nbCol)
    ensures forall y, x :: 0 <= y < nbLine && 0 <= x < nbCol ==> v[y][x] == [0.0, 0.0]
  {
    seq(nbLine, _ => seq(nbCol, _ => [0.0, 0.0]))
  }

  /** buit_states (value_iteration.py:70-74) and the table Solver.__init__ builds (solver.py:34-36). */
  method BuildStates(nbLine: nat, nbCol: nat) returns (v: Values)
    ensures v == Initial(nbLine, nbCol)
  {
    v := [];
    var line := 0;
    while line < nbLine
      invariant 0 <= line <= nbLine && |v| == line
      invariant forall y :: 0 <= y < line ==> v[y] == seq(nbCol, _ => [0.0, 0.0])
    {
      v := v + [seq(nbCol, _ => [0.0, 0.0])];
      line := line + 1;
    }
  }

  /** The letters of the actions by their position in a cell's values (value_iteration.py:49-54, solver.py:22-27). */
  const Letters: seq<char> := ['u', 'd', 'r', 'l']

  /** The letter of the first largest value: `a[q.index(max(q))]`. */
  function Greedy(q: seq<real>): char
    requires 0 < |q| <= 4
  {
    Letters[FirstMaxIndex(q)]
  }

  /** The greedy letter is that of a largest value, and every value before it is strictly smaller. */
  lemma GreedyIsFirstMax(q: seq<real>)
    requires 0 < |q| <= 4
    ensures exists k :: 0 <= k < |q| && Greedy(q) == Letters[k] && q[k] == Max(q) && forall i :: 0 <= i < k ==> q[i] < q[k]
  {
    FirstMaxIndexIsFirstMax(q);
    var k := FirstMaxIndex(q);
    assert Greedy(q) == Letters[k] && q[k] == Max(q);
  }

  /** Every cell holds between one and four values. */
  predicate Readable(v: Values, nbLine: int, nbCol: int) {
    Shaped(v, nbLine, nbCol) && forall y, x :: 0 <= y < nbLine && 0 <= x < nbCol ==> |v[y][x]| <= 4
  }

  /** The first `n` letters of line `y` of the greedy policy of `v`. */
  function GreedyLine(v: Values, y: int, n: nat): (line: seq<char>)
    requires 0 <= y < |v| && n <= |v[y]| && forall x :: 0 <= x < n ==> 0 < |v[y][x]| <= 4
    ensures |line| == n && forall x :: 0 <= x < n ==> line[x] == Greedy(v[y][x])
  {
    if n == 0 then [] else GreedyLine(v, y, n - 1) + [Greedy(v[y][n - 1])]
  }

  /**
    best_policy (value_iteration.py:135-142, solver.py:112-119): for every
    cell, the letter of its first largest value.
  */
  method BestPolicy(v: Values, nbLine: nat, nbCol: nat) returns (res: seq<seq<char>>)
    requires Readable(v, nbLine, nbCol)
    ensures |res| == nbLine
    ensures forall y :: 0 <= y < nbLine ==> |res[y]| == nbCol && forall x :: 0 <= x < nbCol ==> res[y][x] == Greedy(v[y][x])
  {
    res := [];
    var y := 0;
    while y < nbLine
      invariant 0 <= y <= nbLine && |res| == y
      invariant forall i :: 0 <= i < y ==> res[i] == GreedyLine(v, i, nbCol)
    {
      var line := [];
      var x := 0;
      while x < nbCol
        invariant 0 <= x <= nbCol && line == GreedyLine(v, y, x)
      {
        line := line + [Greedy(v[y][x])];
        x := x + 1;
      }
      res := res + [line];
      y := y + 1;
    }
  }

  /** A player context: (has key, has sword, has treasure, one more hit is fatal). */
  type Context = (bool, bool, bool, bool)

  /** The keys of solve_v_a (value_iteration.py:78-91) and solve_p_i (policy_iteration.py:5-26), in their order. */
  const Contexts: seq<Context> := [
    (false, false, false, true), (false, true, false, true), (true, false, false, true),
    (true, false, true, true), (true, true, false, true), (true, true, true, true),
    (false, false, false, false), (false, true, false, false), (true, false, false, false),
    (true, false, true, false), (true, true, false, false), (true, true, true, false)]

  /** The solvers cover exactly the contexts in which a treasure comes with the key. */
  lemma ContextsExactly()
    ensures forall c: Context :: c in Contexts <==> (c.2 ==> c.0)
  {
    forall c: Context | c.2 ==> c.0
      ensures c in Contexts
    {
      var (k, s, t, critical) := c;
      var i := (if critical then 0 else 6)
        + (if !k then (if s then 1 else 0) else if !s then (if t then 3 else 2) else (if t then 5 else 4));
      assert Contexts[i] == c;
    }
  }

  /** Each of the twelve contexts is solved once. */
  lemma ContextsDistinct()
    ensures |Contexts| == 12
    ensures forall i, j :: 0 <= i < j < |Contexts| ==> Contexts[i] != Contexts[j]
  {
  }

  /**
    The arguments one entry of a solve_* table passes: the flags given to
    get_reward, the critical flag and the has_sword flag.
  */
  datatype Call = Call(hasKey: bool, hasSword: bool, hasTreasure: bool, critical: bool, swordArg: bool)

  /** The call made for a context passes the context's own flags throughout. */
  predicate Matches(c: Context, call: Call) {
    call == Call(c.0, c.1, c.2, c.3, c.1)
  }
}
