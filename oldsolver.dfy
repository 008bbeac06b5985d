/**
  The older planning solver of solver.py. Its value iteration works on the
  same table of action values as value_iteration.py, with its own rewards,
  its own expectations for platforms, portals and traps, and a move down that
  is only allowed while `y < nbLine - 2`; its set_variables writes the
  coefficients of entering a cell into an equation row.

  solver.py tests the treasure symbol 'T' where the trap's outcomes are
  meant (solver.py:151, 269; the comment at solver.py:28-30 lists them under
  'R'). The functions below take the cell whose outcomes are the trap's as the
  parameter `chance`. The Solver class runs them as written, with
  ChanceAsWritten (the treasure); its Corrected methods and the comparison
  with policy_iteration.py use Chance, the trap.
*/
module OldSolver {
  import opened Wrappers
  import opened World
  import opened Reals
  import opened Planning
  import PolicyIter
  import ValueIter
  import Game

  // ---------------------------------------------------------------------------
  // Rewards, constants and moves
  // ---------------------------------------------------------------------------

  /** Solver.dead (solver.py:8). */
  const Dead: real := -100.0

  /** What get_possible_moves gives a crack (solver.py:155-156). */
  const Fall: real := -1000.0

  /** The cell with the trap's outcomes: the trap (see the module comment). */
  const Chance: Cell := Trap

  /** The cell solver.py:151 and 269 test instead: the treasure 'T'. */
  const ChanceAsWritten: Cell := Treasure

  /** Solver.r (solver.py:9-21): -10 for a wall, dead for a crack, 10^15 for the sword and -1 for every other cell. */
  function Reward(c: Cell): (v: int)
    ensures c == Wall ==> v == -10
    ensures c == Crack ==> v == -100
    ensures c == Sword ==> v == 1000000000000000
    ensures c != Wall && c != Crack && c != Sword ==> v == -1
  {
    match c
    case Wall => -10
    case Crack => -100
    case Sword => 1000000000000000
    case _ => -1
  }

  /** The tests value_iteration makes before a move (solver.py:75-95); a move down needs `y < nbLine - 2`. */
  predicate Allowed(nbLine: int, nbCol: int, p: Pos, d: Direction) {
    match d
    case Up => p.y > 0
    case Down => p.y < nbLine - 2
    case Left => p.x > 0
    case Right => p.x < nbCol - 1
  }

  /** From inside the level, a move is allowed exactly when it stays inside and does not go down onto the last line. */
  lemma AllowedMoves(nbLine: int, nbCol: int, p: Pos, d: Direction)
    requires InBounds(nbLine, nbCol, p)
    ensures Allowed(nbLine, nbCol, p, d) <==> InBounds(nbLine, nbCol, Moved(p, d)) && !(d == Down && Moved(p, d).y == nbLine - 1)
  {
  }

  /** The move is allowed and its target is not a wall (solver.py:76-95). */
  predicate Enters(g: Grid, nbLine: int, nbCol: int, p: Pos, d: Direction)
    requires Covers(g, nbLine, nbCol) && InBounds(nbLine, nbCol, p)
  {
    Allowed(nbLine, nbCol, p, d) && var t := Moved(p, d); g[t.y][t.x] != Wall
  }

  /** `prev_v[nbCol - 1][nbLine - 1]`, the corner a chance cell reads, exists in an `nbLine` x `nbCol` table. */
  predicate CornerInRange(nbLine: int, nbCol: int) {
    0 <= nbCol - 1 < nbLine && 0 <= nbLine - 1 < nbCol
  }

  /** The corner exists exactly in a square level. */
  lemma CornerInRangeSquare(nbLine: nat, nbCol: nat)
    requires nbLine > 0 && nbCol > 0
    ensures CornerInRange(nbLine, nbCol) <==> nbLine == nbCol
  {
  }

  /** Arriving on `t` raises IndexError: it is a chance cell (not a platform, which is checked first) and the corner is out of range. */
  predicate Faulty(g: Grid, nbLine: int, nbCol: int, chance: Cell, t: Pos)
    requires Covers(g, nbLine, nbCol) && InBounds(nbLine, nbCol, t)
  {
    g[t.y][t.x] != Platform && g[t.y][t.x] == chance && !CornerInRange(nbLine, nbCol)
  }

  /** The move from `p` in direction `d` is made and raises IndexError. */
  predicate FaultyMove(g: Grid, nbLine: int, nbCol: int, chance: Cell, p: Pos, d: Direction)
    requires Covers(g, nbLine, nbCol) && InBounds(nbLine, nbCol, p)
  {
    Enters(g, nbLine, nbCol, p, d) && Faulty(g, nbLine, nbCol, chance, Moved(p, d))
  }

  /** One of the first `k` moves from `p`, in the order u, d, r, l, is made and raises IndexError. */
  predicate MovesFail(g: Grid, nbLine: int, nbCol: int, chance: Cell, p: Pos, k: nat)
    requires Covers(g, nbLine, nbCol) && InBounds(nbLine, nbCol, p) && k <= 4
  {
    k > 0 && (MovesFail(g, nbLine, nbCol, chance, p, k - 1) || FaultyMove(g, nbLine, nbCol, chance, p, ValueIter.Actions[k - 1]))
  }

  /** Scoring cell `p` raises IndexError for one of its four moves. */
  predicate CellFails(g: Grid, nbLine: int, nbCol: int, chance: Cell, p: Pos)
    requires Covers(g, nbLine, nbCol) && InBounds(nbLine, nbCol, p)
  {
    MovesFail(g, nbLine, nbCol, chance, p, 4)
  }

  /** Scoring one of the first `n` cells of line `y` raises IndexError. */
  predicate CellsFail(g: Grid, nbLine: int, nbCol: int, chance: Cell, y: int, n: nat)
    requires Covers(g, nbLine, nbCol) && 0 <= y < nbLine && n <= nbCol
  {
    n > 0 && (CellsFail(g, nbLine, nbCol, chance, y, n - 1) || CellFails(g, nbLine, nbCol, chance, Pos(n - 1, y)))
  }

  /** Scoring some cell of line `y` raises IndexError. */
  predicate LineFails(g: Grid, nbLine: int, nbCol: nat, chance: Cell, y: int)
    requires Covers(g, nbLine, nbCol) && 0 <= y < nbLine
  {
    CellsFail(g, nbLine, nbCol, chance, y, nbCol)
  }

  /** Scoring some cell of the first `m` lines raises IndexError. */
  predicate LinesFail(g: Grid, nbLine: int, nbCol: nat, chance: Cell, m: nat)
    requires Covers(g, nbLine, nbCol) && m <= nbLine
  {
    m > 0 && (LinesFail(g, nbLine, nbCol, chance, m - 1) || LineFails(g, nbLine, nbCol, chance, m - 1))
  }

  /** A sweep raises IndexError somewhere. It does not depend on the values, so the first sweep fails or none does. */
  predicate Fails(g: Grid, nbLine: nat, nbCol: nat, chance: Cell)
    requires Covers(g, nbLine, nbCol)
  {
    LinesFail(g, nbLine, nbCol, chance, nbLine)
  }

  /** The first `k` moves fail exactly when one of them is made and raises IndexError. */
  lemma {:induction false} MovesFailWhen(g: Grid, nbLine: int, nbCol: int, chance: Cell, p: Pos, k: nat)
    requires Covers(g, nbLine, nbCol) && InBounds(nbLine, nbCol, p) && k <= 4
    ensures MovesFail(g, nbLine, nbCol, chance, p, k) <==> exists i :: 0 <= i < k && FaultyMove(g, nbLine, nbCol, chance, p, ValueIter.Actions[i])
  {
    if k > 0 {
      MovesFailWhen(g, nbLine, nbCol, chance, p, k - 1);
    }
  }

  /** The first `n` cells of a line fail exactly when one of them does. */
  lemma {:induction false} CellsFailWhen(g: Grid, nbLine: int, nbCol: int, chance: Cell, y: int, n: nat)
    requires Covers(g, nbLine, nbCol) && 0 <= y < nbLine && n <= nbCol
    ensures CellsFail(g, nbLine, nbCol, chance, y, n) <==> exists x :: 0 <= x < n && CellFails(g, nbLine, nbCol, chance, Pos(x, y))
  {
    if n > 0 {
      CellsFailWhen(g, nbLine, nbCol, chance, y, n - 1);
    }
  }

  /** The first `m` lines fail exactly when one of them does. */
  lemma {:induction false} LinesFailWhen(g: Grid, nbLine: int, nbCol: nat, chance: Cell, m: nat)
    requires Covers(g, nbLine, nbCol) && m <= nbLine
    ensures LinesFail(g, nbLine, nbCol, chance, m) <==> exists y :: 0 <= y < m && LineFails(g, nbLine, nbCol, chance, y)
  {
    if m > 0 {
      LinesFailWhen(g, nbLine, nbCol, chance, m - 1);
    }
  }

  /** In a cell that does not fail, none of the four moves does. */
  lemma MovesSafe(g: Grid, nbLine: nat, nbCol: nat, chance: Cell, p: Pos)
    requires Covers(g, nbLine, nbCol) && InBounds(nbLine, nbCol, p) && !CellFails(g, nbLine, nbCol, chance, p)
    ensures forall k :: 0 <= k < 4 ==> !FaultyMove(g, nbLine, nbCol, chance, p, ValueIter.Actions[k])
  {
    MovesFailWhen(g, nbLine, nbCol, chance, p, 4);
  }

  /** In a level that does not fail, no line and no cell does. */
  lemma CellSafe(g: Grid, nbLine: nat, nbCol: nat, chance: Cell, p: Pos)
    requires Covers(g, nbLine, nbCol) && InBounds(nbLine, nbCol, p) && !Fails(g, nbLine, nbCol, chance)
    ensures !LineFails(g, nbLine, nbCol, chance, p.y) && !CellFails(g, nbLine, nbCol, chance, p)
  {
    LinesFailWhen(g, nbLine, nbCol, chance, nbLine);
    assert !LineFails(g, nbLine, nbCol, chance, p.y);
    CellsFailWhen(g, nbLine, nbCol, chance, p.y, nbCol);
    assert !CellFails(g, nbLine, nbCol, chance, Pos(p.x, p.y));
  }

  /** Once one of the first `j` moves fails, one of the first `k >= j` does. */
  lemma {:induction false} MovesFailGrow(g: Grid, nbLine: int, nbCol: int, chance: Cell, p: Pos, j: nat, k: nat)
    requires Covers(g, nbLine, nbCol) && InBounds(nbLine, nbCol, p) && j <= k <= 4
    requires MovesFail(g, nbLine, nbCol, chance, p, j)
    ensures MovesFail(g, nbLine, nbCol, chance, p, k)
  {
    if j < k {
      MovesFailGrow(g, nbLine, nbCol, chance, p, j, k - 1);
    }
  }

  /** Once one of the first `j` cells of a line fails, one of the first `n >= j` does. */
  lemma {:induction false} CellsFailGrow(g: Grid, nbLine: int, nbCol: int, chance: Cell, y: int, j: nat, n: nat)
    requires Covers(g, nbLine, nbCol) && 0 <= y < nbLine && j <= n <= nbCol
    requires CellsFail(g, nbLine, nbCol, chance, y, j)
    ensures CellsFail(g, nbLine, nbCol, chance, y, n)
  {
    if j < n {
      CellsFailGrow(g, nbLine, nbCol, chance, y, j, n - 1);
    }
  }

  /** Once one of the first `j` lines fails, one of the first `m >= j` does. */
  lemma {:induction false} LinesFailGrow(g: Grid, nbLine: int, nbCol: nat, chance: Cell, j: nat, m: nat)
    requires Covers(g, nbLine, nbCol) && j <= m <= nbLine
    requires LinesFail(g, nbLine, nbCol, chance, j)
    ensures LinesFail(g, nbLine, nbCol, chance, m)
  {
    if j < m {
      LinesFailGrow(g, nbLine, nbCol, chance, j, m - 1);
    }
  }

  /** A square level never fails: the corner a chance cell reads then exists. */
  lemma SquareNeverFails(g: Grid, nbLine: nat, nbCol: nat, chance: Cell)
    requires Covers(g, nbLine, nbCol) && nbLine == nbCol
    ensures !Fails(g, nbLine, nbCol, chance)
  {
    forall y | 0 <= y < nbLine
      ensures !LineFails(g, nbLine, nbCol, chance, y)
    {
      forall x | 0 <= x < nbCol
        ensures !CellFails(g, nbLine, nbCol, chance, Pos(x, y))
      {
        MovesFailWhen(g, nbLine, nbCol, chance, Pos(x, y), 4);
      }
      CellsFailWhen(g, nbLine, nbCol, chance, y, nbCol);
    }
    LinesFailWhen(g, nbLine, nbCol, chance, nbLine);
  }

  /** A level without the chance cell never fails: no read of the missing corner happens. */
  lemma NoChanceNeverFails(g: Grid, nbLine: nat, nbCol: nat, chance: Cell)
    requires Covers(g, nbLine, nbCol)
    requires forall y, x :: 0 <= y < nbLine && 0 <= x < nbCol ==> g[y][x] != chance
    ensures !Fails(g, nbLine, nbCol, chance)
  {
    forall y | 0 <= y < nbLine
      ensures !LineFails(g, nbLine, nbCol, chance, y)
    {
      forall x | 0 <= x < nbCol
        ensures !CellFails(g, nbLine, nbCol, chance, Pos(x, y))
      {
        MovesFailWhen(g, nbLine, nbCol, chance, Pos(x, y), 4);
      }
      CellsFailWhen(g, nbLine, nbCol, chance, y, nbCol);
    }
    LinesFailWhen(g, nbLine, nbCol, chance, nbLine);
  }

  /**
    The 2 x 3 level with the treasure at [0][0] and the start at [1][2]: as
    written, scoring the move left from [0][1] reads `prev_v[2]` of a 2-line
    table and raises IndexError; with the trap test the level has no chance
    cell and every sweep succeeds.
  */
  lemma TreasureLevelFails()
    ensures var g := [[Treasure, Blank, Blank], [Blank, Blank, Start]];
      && Covers(g, 2, 3) && Fails(g, 2, 3, ChanceAsWritten) && !Fails(g, 2, 3, Chance)
  {
    var g := [[Treasure, Blank, Blank], [Blank, Blank, Start]];
    var p := Pos(1, 0);
    assert Moved(p, Left) == Pos(0, 0);
    assert FaultyMove(g, 2, 3, ChanceAsWritten, p, ValueIter.Actions[3]);
    MovesFailWhen(g, 2, 3, ChanceAsWritten, p, 4);
    CellsFailWhen(g, 2, 3, ChanceAsWritten, 0, 3);
    LinesFailWhen(g, 2, 3, ChanceAsWritten, 2);
    NoChanceNeverFails(g, 2, 3, Chance);
  }

  // ---------------------------------------------------------------------------
  // get_possible_moves
  // ---------------------------------------------------------------------------

  /** `num * 1/cpt`: one share of `num`. */
  function Part(num: real, cpt: nat): (r: real)
    requires cpt > 0
    ensures r * cpt as real == num
  {
    num / cpt as real
  }

  /** `p1 += num * 1/cpt` over the list `p`. */
  function SumParts(p: seq<real>, cpt: nat): real
    requires |p| > 0 ==> cpt > 0
  {
    if p == [] then 0.0 else SumParts(p[..|p| - 1], cpt) + Part(p[|p| - 1], cpt)
  }

  /** The average of `p`, each entry weighted `1/len(p)`; 0 for an empty list. */
  function Mean(p: seq<real>): real {
    SumParts(p, |p|)
  }

  /** A share of a larger number is larger. */
  lemma PartMonotone(x: real, y: real, cpt: nat)
    requires cpt > 0 && x <= y
    ensures Part(x, cpt) <= Part(y, cpt)
  {
  }

  /** Shares are linear: the share of a difference is the difference of the shares. */
  lemma PartLinear(x: real, y: real, cpt: nat)
    requires cpt > 0
    ensures Part(x, cpt) - Part(y, cpt) == Part(x - y, cpt)
    ensures Part(-x, cpt) == -Part(x, cpt)
  {
    var c := cpt as real;
    assert (Part(x, cpt) - Part(y, cpt)) * c == x - y;
    assert (-Part(x, cpt)) * c == -x;
  }

  /** `x` added up `k` times. */
  function Times(k: nat, x: real): real {
    if k == 0 then 0.0 else Times(k - 1, x) + x
  }

  /** `k` shares of `x` out of `k` make `x`. */
  lemma {:induction false} TimesParts(k: nat, x: real)
    requires k > 0
    ensures Times(k, Part(x, k)) == x
  {
    TimesIsProduct(k, Part(x, k));
  }

  /** Adding up `k` times is multiplying by `k`. */
  lemma {:induction false} TimesIsProduct(k: nat, x: real)
    ensures Times(k, x) == k as real * x
  {
    if k > 0 {
      TimesIsProduct(k - 1, x);
    }
  }

  /** The sum of the shares of `n` entries between `lo` and `hi` lies between `n` shares of each. */
  lemma {:induction false} SumPartsBounds(p: seq<real>, cpt: nat, lo: real, hi: real)
    requires cpt > 0 && forall i :: 0 <= i < |p| ==> lo <= p[i] <= hi
    ensures Times(|p|, Part(lo, cpt)) <= SumParts(p, cpt) <= Times(|p|, Part(hi, cpt))
  {
    if p != [] {
      var n := |p|;
      SumPartsBounds(p[..n - 1], cpt, lo, hi);
      PartMonotone(lo, p[n - 1], cpt);
      PartMonotone(p[n - 1], hi, cpt);
    }
  }

  /** The average of a non-empty list lies between any bounds of its entries. */
  lemma MeanBounds(p: seq<real>, lo: real, hi: real)
    requires |p| > 0 && forall i :: 0 <= i < |p| ==> lo <= p[i] <= hi
    ensures lo <= Mean(p) <= hi
  {
    SumPartsBounds(p, |p|, lo, hi);
    TimesParts(|p|, lo);
    TimesParts(|p|, hi);
  }

  /** Shares of numbers at most `d` apart are at most one share of `d` apart. */
  lemma PartClose(x: real, y: real, cpt: nat, d: real)
    requires cpt > 0 && Abs(x - y) <= d
    ensures Abs(Part(x, cpt) - Part(y, cpt)) <= Part(d, cpt)
  {
    PartLinear(x, y, cpt);
    PartLinear(d, 0.0, cpt);
    PartMonotone(x - y, d, cpt);
    PartMonotone(-d, x - y, cpt);
  }

  /** Lists of the same length that are at most `d` apart entry by entry. */
  ghost predicate Near(a: seq<real>, b: seq<real>, d: real) {
    |a| == |b| && forall i :: 0 <= i < |a| ==> Abs(a[i] - b[i]) <= d
  }

  /** Joining near lists gives near lists. */
  lemma NearJoin(a: seq<real>, a': seq<real>, b: seq<real>, b': seq<real>, d: real)
    requires Near(a, b, d) && Near(a', b', d)
    ensures Near(a + a', b + b', d)
  {
    forall i | 0 <= i < |a + a'|
      ensures Abs((a + a')[i] - (b + b')[i]) <= d
    {
      if i >= |a| {
        assert (a + a')[i] == a'[i - |a|] && (b + b')[i] == b'[i - |a|];
      }
    }
  }

  /** Sums of shares of lists that are `d` apart entry by entry are `n` shares of `d` apart. */
  lemma {:induction false} SumPartsClose(a: seq<real>, b: seq<real>, cpt: nat, d: real)
    requires cpt > 0 && Near(a, b, d)
    ensures Abs(SumParts(a, cpt) - SumParts(b, cpt)) <= Times(|a|, Part(d, cpt))
  {
    if a != [] {
      var n := |a|;
      SumPartsClose(a[..n - 1], b[..n - 1], cpt, d);
      PartClose(a[n - 1], b[n - 1], cpt, d);
    }
  }

  /** Averages of lists that are `d` apart entry by entry are `d` apart. */
  lemma MeanClose(a: seq<real>, b: seq<real>, d: real)
    requires Near(a, b, d) && 0.0 <= d
    ensures Abs(Mean(a) - Mean(b)) <= d
  {
    if a != [] {
      SumPartsClose(a, b, |a|, d);
      TimesParts(|a|, d);
    }
  }

  /** What a platform on `t` lists for direction `d`: the best value of that neighbour when the move is allowed (solver.py:135-146). */
  function Neighbour(nbLine: int, nbCol: int, prev: Values, t: Pos, d: Direction): (p: seq<real>)
    requires Shaped(prev, nbLine, nbCol) && InBounds(nbLine, nbCol, t)
    ensures |p| == if Allowed(nbLine, nbCol, t, d) then 1 else 0
  {
    if Allowed(nbLine, nbCol, t, d) then var n := Moved(t, d); [Max(prev[n.y][n.x])] else []
  }

  /**
    The list a platform on `t` averages (solver.py:133-146): the best values of
    its allowed neighbours, walls included, in the order up, down, left, right.
  */
  function AroundValues(nbLine: int, nbCol: int, prev: Values, t: Pos): seq<real>
    requires Shaped(prev, nbLine, nbCol) && InBounds(nbLine, nbCol, t)
  {
    Neighbour(nbLine, nbCol, prev, t, Up) + Neighbour(nbLine, nbCol, prev, t, Down)
    + Neighbour(nbLine, nbCol, prev, t, Left) + Neighbour(nbLine, nbCol, prev, t, Right)
  }

  /** What a portal counts for one open cell: dead for a crack, its best value otherwise (solver.py:167-171). */
  function PortalEntry(g: Grid, nbLine: int, nbCol: int, prev: Values, y: int, x: int): real
    requires Covers(g, nbLine, nbCol) && Shaped(prev, nbLine, nbCol) && InBounds(nbLine, nbCol, Pos(x, y))
  {
    if g[y][x] == Crack then Dead else Max(prev[y][x])
  }

  /** The portal's list for the open cells (y, 0) to (y, n - 1). */
  function PortalLine(g: Grid, nbLine: nat, nbCol: nat, prev: Values, y: nat, n: nat): seq<real>
    requires Covers(g, nbLine, nbCol) && Shaped(prev, nbLine, nbCol) && y < nbLine && n <= nbCol
  {
    if n == 0 then []
    else PortalLine(g, nbLine, nbCol, prev, y, n - 1) + (if g[y][n - 1] == Wall then [] else [PortalEntry(g, nbLine, nbCol, prev, y, n - 1)])
  }

  /** The portal's list for lines 0 to m - 1. */
  function PortalLines(g: Grid, nbLine: nat, nbCol: nat, prev: Values, m: nat): seq<real>
    requires Covers(g, nbLine, nbCol) && Shaped(prev, nbLine, nbCol) && m <= nbLine
  {
    if m == 0 then [] else PortalLines(g, nbLine, nbCol, prev, m - 1) + PortalLine(g, nbLine, nbCol, prev, m - 1, nbCol)
  }

  /** The list a portal averages, in row-major order (solver.py:163-172). */
  function PortalValues(g: Grid, nbLine: nat, nbCol: nat, prev: Values): seq<real>
    requires Covers(g, nbLine, nbCol) && Shaped(prev, nbLine, nbCol)
  {
    PortalLines(g, nbLine, nbCol, prev, nbLine)
  }

  /**
    get_possible_moves (solver.py:130-178): the expected value of arriving on
    `t`. A platform averages its allowed neighbours, the chance cell gives
    0.1 dead, 0.3 the corner `prev_v[nbCol - 1][nbLine - 1]` and 0.6 itself,
    a crack -1000, an enemy a 0.3 chance of dead without the sword, a portal
    the average over the open cells, and any other cell its best value.
  */
  function Expect(g: Grid, nbLine: nat, nbCol: nat, chance: Cell, prev: Values, t: Pos, hasSword: bool): real
    requires Covers(g, nbLine, nbCol) && Shaped(prev, nbLine, nbCol) && InBounds(nbLine, nbCol, t)
    requires !Faulty(g, nbLine, nbCol, chance, t)
  {
    var c, own := g[t.y][t.x], Max(prev[t.y][t.x]);
    if c == Platform then Mean(AroundValues(nbLine, nbCol, prev, t))
    else if c == chance then 0.1 * Dead + 0.3 * Max(prev[nbCol - 1][nbLine - 1]) + 0.6 * own
    else if c == Crack then Fall
    else if c == Enemy then (if hasSword then own else 0.7 * own + 0.3 * Dead)
    else if c == Portal then Mean(PortalValues(g, nbLine, nbCol, prev))
    else own
  }

  /** `for num in p: p1 += num * 1/cpt` (solver.py:147-149, 173-175), with `cpt` the length of `p`. */
  method AddParts(p: seq<real>, cpt: nat) returns (p1: real)
    requires cpt == |p|
    ensures p1 == Mean(p)
  {
    p1 := 0.0;
    for i := 0 to |p|
      invariant p1 == SumParts(p[..i], cpt)
    {
      assert p[..i + 1][..i] == p[..i];
      p1 := p1 + Part(p[i], cpt);
    }
    assert p[..|p|] == p;
  }

  /** The list and count of the platform branch (solver.py:133-146). */
  method PlatformList(nbLine: nat, nbCol: nat, prev: Values, y: nat, x: nat) returns (p: seq<real>, cpt: nat)
    requires Shaped(prev, nbLine, nbCol) && y < nbLine && x < nbCol
    ensures p == AroundValues(nbLine, nbCol, prev, Pos(x, y)) && cpt == |p|
  {
    cpt, p := 0, [];
    if y > 0 {
      cpt := cpt + 1;
      p := p + [Max(prev[y - 1][x])];
    }
    if y < nbLine - 2 {
      cpt := cpt + 1;
      p := p + [Max(prev[y + 1][x])];
    }
    if x > 0 {
      cpt := cpt + 1;
      p := p + [Max(prev[y][x - 1])];
    }
    if x < nbCol - 1 {
      cpt := cpt + 1;
      p := p + [Max(prev[y][x + 1])];
    }
  }

  /** The list and count of the portal branch, cell by cell in row-major order (solver.py:163-172). */
  method PortalList(g: Grid, nbLine: nat, nbCol: nat, prev: Values) returns (p: seq<real>, cpt: nat)
    requires Covers(g, nbLine, nbCol) && Shaped(prev, nbLine, nbCol)
    ensures p == PortalValues(g, nbLine, nbCol, prev) && cpt == |p|
  {
    p, cpt := [], 0;
    for y := 0 to nbLine
      invariant p == PortalLines(g, nbLine, nbCol, prev, y) && cpt == |p|
    {
      for x := 0 to nbCol
        invariant p == PortalLines(g, nbLine, nbCol, prev, y) + PortalLine(g, nbLine, nbCol, prev, y, x) && cpt == |p|
      {
        if g[y][x] != Wall {
          if g[y][x] != Crack {
            p := p + [Max(prev[y][x])];
          } else {
            p := p + [Dead];
          }
          cpt := cpt + 1;
        }
      }
    }
  }

  /**
    get_possible_moves (solver.py:130-178) for the cell (x, y): its expected
    value, or None where reading the corner raises IndexError.
  */
  method GetPossibleMoves(g: Grid, nbLine: nat, nbCol: nat, chance: Cell, y: nat, x: nat, prev: Values, hasSword: bool)
    returns (p1: Option<real>)
    requires Covers(g, nbLine, nbCol) && Shaped(prev, nbLine, nbCol) && y < nbLine && x < nbCol
    ensures p1.None? <==> Faulty(g, nbLine, nbCol, chance, Pos(x, y))
    ensures p1.Some? ==> p1.value == Expect(g, nbLine, nbCol, chance, prev, Pos(x, y), hasSword)
  {
    var c := g[y][x];
    if c == Platform {
      var p, cpt := PlatformList(nbLine, nbCol, prev, y, x);
      var s := AddParts(p, cpt);
      return Some(s);
    }
    if c == chance {
      if !(0 <= nbCol - 1 < nbLine && 0 <= nbLine - 1 < nbCol) {
        return None;
      }
      return Some(0.1 * Dead + 0.3 * Max(prev[nbCol - 1][nbLine - 1]) + 0.6 * Max(prev[y][x]));
    }
    if c == Crack {
      return Some(Fall);
    }
    if c == Enemy {
      if hasSword {
        return Some(Max(prev[y][x]));
      } else {
        return Some(0.7 * Max(prev[y][x]) + 0.3 * Dead);
      }
    }
    if c == Portal {
      var p, cpt := PortalList(g, nbLine, nbCol, prev);
      var s := AddParts(p, cpt);
      return Some(s);
    }
    return Some(Max(prev[y][x]));
  }

  // ---------------------------------------------------------------------------
  // The expectation moves no further than the values it reads
  // ---------------------------------------------------------------------------

  /** A platform's neighbour lists for tables close to each other are near. */
  lemma NeighbourNear(nbLine: int, nbCol: int, a: Values, b: Values, t: Pos, dir: Direction, d: real)
    requires Shaped(a, nbLine, nbCol) && Shaped(b, nbLine, nbCol) && InBounds(nbLine, nbCol, t)
    requires ValueIter.Close(a, b, nbLine, nbCol, d)
    ensures Near(Neighbour(nbLine, nbCol, a, t, dir), Neighbour(nbLine, nbCol, b, t, dir), d)
  {
    if Allowed(nbLine, nbCol, t, dir) {
      var n := Moved(t, dir);
      assert Abs(Max(a[n.y][n.x]) - Max(b[n.y][n.x])) <= d;
    }
  }

  /** So are the whole lists a platform averages. */
  lemma AroundNear(nbLine: int, nbCol: int, a: Values, b: Values, t: Pos, d: real)
    requires Shaped(a, nbLine, nbCol) && Shaped(b, nbLine, nbCol) && InBounds(nbLine, nbCol, t)
    requires ValueIter.Close(a, b, nbLine, nbCol, d)
    ensures Near(AroundValues(nbLine, nbCol, a, t), AroundValues(nbLine, nbCol, b, t), d)
  {
    NeighbourNear(nbLine, nbCol, a, b, t, Up, d);
    NeighbourNear(nbLine, nbCol, a, b, t, Down, d);
    NeighbourNear(nbLine, nbCol, a, b, t, Left, d);
    NeighbourNear(nbLine, nbCol, a, b, t, Right, d);
    var ua, da, la, ra := Neighbour(nbLine, nbCol, a, t, Up), Neighbour(nbLine, nbCol, a, t, Down), Neighbour(nbLine, nbCol, a, t, Left), Neighbour(nbLine, nbCol, a, t, Right);
    var ub, db, lb, rb := Neighbour(nbLine, nbCol, b, t, Up), Neighbour(nbLine, nbCol, b, t, Down), Neighbour(nbLine, nbCol, b, t, Left), Neighbour(nbLine, nbCol, b, t, Right);
    NearJoin(ua, da, ub, db, d);
    NearJoin(ua + da, la, ub + db, lb, d);
    NearJoin(ua + da + la, ra, ub + db + lb, rb, d);
  }

  /** A portal's lists for one line of tables close to each other are near: cracks count dead in both. */
  lemma {:induction false} PortalLineNear(g: Grid, nbLine: nat, nbCol: nat, a: Values, b: Values, y: nat, n: nat, d: real)
    requires Covers(g, nbLine, nbCol) && Shaped(a, nbLine, nbCol) && Shaped(b, nbLine, nbCol) && y < nbLine && n <= nbCol
    requires ValueIter.Close(a, b, nbLine, nbCol, d) && 0.0 <= d
    ensures Near(PortalLine(g, nbLine, nbCol, a, y, n), PortalLine(g, nbLine, nbCol, b, y, n), d)
  {
    if n > 0 {
      PortalLineNear(g, nbLine, nbCol, a, b, y, n - 1, d);
      var ea := if g[y][n - 1] == Wall then [] else [PortalEntry(g, nbLine, nbCol, a, y, n - 1)];
      var eb := if g[y][n - 1] == Wall then [] else [PortalEntry(g, nbLine, nbCol, b, y, n - 1)];
      assert Abs(Max(a[y][n - 1]) - Max(b[y][n - 1])) <= d;
      assert Near(ea, eb, d);
      NearJoin(PortalLine(g, nbLine, nbCol, a, y, n - 1), ea, PortalLine(g, nbLine, nbCol, b, y, n - 1), eb, d);
    }
  }

  /** And so are a portal's lists for lines 0 to m - 1. */
  lemma {:induction false} PortalLinesNear(g: Grid, nbLine: nat, nbCol: nat, a: Values, b: Values, m: nat, d: real)
    requires Covers(g, nbLine, nbCol) && Shaped(a, nbLine, nbCol) && Shaped(b, nbLine, nbCol) && m <= nbLine
    requires ValueIter.Close(a, b, nbLine, nbCol, d) && 0.0 <= d
    ensures Near(PortalLines(g, nbLine, nbCol, a, m), PortalLines(g, nbLine, nbCol, b, m), d)
  {
    if m > 0 {
      PortalLinesNear(g, nbLine, nbCol, a, b, m - 1, d);
      PortalLineNear(g, nbLine, nbCol, a, b, m - 1, nbCol, d);
      NearJoin(PortalLines(g, nbLine, nbCol, a, m - 1), PortalLine(g, nbLine, nbCol, a, m - 1, nbCol),
               PortalLines(g, nbLine, nbCol, b, m - 1), PortalLine(g, nbLine, nbCol, b, m - 1, nbCol), d);
    }
  }

  /**
    The expectation never moves further than the best values it reads: its
    weights are non-negative and sum to at most 1, for every kind of cell.
  */
  lemma ExpectNonExpansive(g: Grid, nbLine: nat, nbCol: nat, chance: Cell, a: Values, b: Values, t: Pos, hasSword: bool, d: real)
    requires Covers(g, nbLine, nbCol) && Shaped(a, nbLine, nbCol) && Shaped(b, nbLine, nbCol) && InBounds(nbLine, nbCol, t)
    requires !Faulty(g, nbLine, nbCol, chance, t) && ValueIter.Close(a, b, nbLine, nbCol, d)
    ensures Abs(Expect(g, nbLine, nbCol, chance, a, t, hasSword) - Expect(g, nbLine, nbCol, chance, b, t, hasSword)) <= d
  {
    var c := g[t.y][t.x];
    var own := Max(a[t.y][t.x]) - Max(b[t.y][t.x]);
    assert Abs(own) <= d;
    if c == Platform {
      AroundNear(nbLine, nbCol, a, b, t, d);
      MeanClose(AroundValues(nbLine, nbCol, a, t), AroundValues(nbLine, nbCol, b, t), d);
    } else if c == chance {
      var corner := Max(a[nbCol - 1][nbLine - 1]) - Max(b[nbCol - 1][nbLine - 1]);
      assert Abs(corner) <= d;
    } else if c == Portal {
      PortalLinesNear(g, nbLine, nbCol, a, b, nbLine, d);
      MeanClose(PortalValues(g, nbLine, nbCol, a), PortalValues(g, nbLine, nbCol, b), d);
    }
  }

  // ---------------------------------------------------------------------------
  // value_iteration
  // ---------------------------------------------------------------------------

  /**
    The score of move `dir` from `p` (solver.py:72-96): the reward of the
    target plus `gamma` times its expectation when the move is allowed and
    the target is not a wall, else -10000 plus `gamma` times 0.
  */
  function ActionValue(g: Grid, nbLine: nat, nbCol: nat, chance: Cell, prev: Values, p: Pos, dir: Direction, gamma: real, hasSword: bool): real
    requires Covers(g, nbLine, nbCol) && Shaped(prev, nbLine, nbCol) && InBounds(nbLine, nbCol, p)
    requires !FaultyMove(g, nbLine, nbCol, chance, p, dir)
  {
    var t := Moved(p, dir);
    if Enters(g, nbLine, nbCol, p, dir) then ValueIter.Score(Reward(g[t.y][t.x]) as real, gamma, Expect(g, nbLine, nbCol, chance, prev, t, hasSword))
    else ValueIter.Score(ValueIter.Invalid, gamma, 0.0)
  }

  /** With a non-negative discount, a move's score moves at most `gamma * d` when the best values move at most `d`. */
  lemma ActionValueLipschitz(g: Grid, nbLine: nat, nbCol: nat, chance: Cell, a: Values, b: Values, p: Pos, dir: Direction,
                             gamma: real, hasSword: bool, d: real)
    requires Covers(g, nbLine, nbCol) && Shaped(a, nbLine, nbCol) && Shaped(b, nbLine, nbCol) && InBounds(nbLine, nbCol, p)
    requires !FaultyMove(g, nbLine, nbCol, chance, p, dir)
    requires 0.0 <= gamma && ValueIter.Close(a, b, nbLine, nbCol, d)
    ensures Abs(ActionValue(g, nbLine, nbCol, chance, a, p, dir, gamma, hasSword)
                - ActionValue(g, nbLine, nbCol, chance, b, p, dir, gamma, hasSword)) <= gamma * d
  {
    var t := Moved(p, dir);
    if Enters(g, nbLine, nbCol, p, dir) {
      ExpectNonExpansive(g, nbLine, nbCol, chance, a, b, t, hasSword, d);
      ValueIter.ScoreLipschitz(Reward(g[t.y][t.x]) as real, gamma, Expect(g, nbLine, nbCol, chance, a, t, hasSword),
                               Expect(g, nbLine, nbCol, chance, b, t, hasSword), d);
    } else {
      assert Abs(Max(a[p.y][p.x]) - Max(b[p.y][p.x])) <= d;
      ValueIter.ScoreLipschitz(ValueIter.Invalid, gamma, 0.0, 0.0, d);
    }
  }

  /** The four scores of cell `p`, in the order u, d, r, l: the list `q` of solver.py:71-96. */
  function Backup(g: Grid, nbLine: nat, nbCol: nat, chance: Cell, prev: Values, p: Pos, gamma: real, hasSword: bool): (q: seq<real>)
    requires Covers(g, nbLine, nbCol) && Shaped(prev, nbLine, nbCol) && InBounds(nbLine, nbCol, p)
    requires !CellFails(g, nbLine, nbCol, chance, p)
    ensures |q| == 4
  {
    MovesSafe(g, nbLine, nbCol, chance, p);
    seq(4, k requires 0 <= k < 4 => ActionValue(g, nbLine, nbCol, chance, prev, p, ValueIter.Actions[k], gamma, hasSword))
  }

  /** The first `n` cells of line `y` of the table after one sweep, when none of them fails. */
  function SweepLineOf(g: Grid, nbLine: nat, nbCol: nat, chance: Cell, prev: Values, y: nat, gamma: real, hasSword: bool, n: nat): (line: seq<seq<real>>)
    requires Covers(g, nbLine, nbCol) && Shaped(prev, nbLine, nbCol) && y < nbLine && n <= nbCol
    requires !CellsFail(g, nbLine, nbCol, chance, y, n)
    ensures |line| == n && forall x :: 0 <= x < n ==> |line[x]| == 4
  {
    if n == 0 then []
    else SweepLineOf(g, nbLine, nbCol, chance, prev, y, gamma, hasSword, n - 1) + [Backup(g, nbLine, nbCol, chance, prev, Pos(n - 1, y), gamma, hasSword)]
  }

  /** Cell `x` of a swept line holds that cell's four scores. */
  lemma {:induction false} SweepLineOfAt(g: Grid, nbLine: nat, nbCol: nat, chance: Cell, prev: Values, y: nat, gamma: real, hasSword: bool, n: nat, x: nat)
    requires Covers(g, nbLine, nbCol) && Shaped(prev, nbLine, nbCol) && y < nbLine && x < n <= nbCol
    requires !CellsFail(g, nbLine, nbCol, chance, y, n)
    ensures !CellFails(g, nbLine, nbCol, chance, Pos(x, y))
    ensures SweepLineOf(g, nbLine, nbCol, chance, prev, y, gamma, hasSword, n)[x] == Backup(g, nbLine, nbCol, chance, prev, Pos(x, y), gamma, hasSword)
  {
    if x < n - 1 {
      SweepLineOfAt(g, nbLine, nbCol, chance, prev, y, gamma, hasSword, n - 1, x);
    }
  }

  /** The first `m` lines of the table after one sweep, when none of them fails. */
  function SweepLines(g: Grid, nbLine: nat, nbCol: nat, chance: Cell, prev: Values, gamma: real, hasSword: bool, m: nat): (v: Values)
    requires Covers(g, nbLine, nbCol) && Shaped(prev, nbLine, nbCol) && m <= nbLine
    requires !LinesFail(g, nbLine, nbCol, chance, m)
    ensures |v| == m && forall y :: 0 <= y < m ==> |v[y]| == nbCol && forall x :: 0 <= x < nbCol ==> |v[y][x]| == 4
  {
    if m == 0 then []
    else SweepLines(g, nbLine, nbCol, chance, prev, gamma, hasSword, m - 1) + [SweepLineOf(g, nbLine, nbCol, chance, prev, m - 1, gamma, hasSword, nbCol)]
  }

  /** Line `y` of the swept lines is that line swept. */
  lemma {:induction false} SweepLinesAt(g: Grid, nbLine: nat, nbCol: nat, chance: Cell, prev: Values, gamma: real, hasSword: bool, m: nat, y: nat)
    requires Covers(g, nbLine, nbCol) && Shaped(prev, nbLine, nbCol) && y < m <= nbLine
    requires !LinesFail(g, nbLine, nbCol, chance, m)
    ensures !LineFails(g, nbLine, nbCol, chance, y)
    ensures SweepLines(g, nbLine, nbCol, chance, prev, gamma, hasSword, m)[y] == SweepLineOf(g, nbLine, nbCol, chance, prev, y, gamma, hasSword, nbCol)
  {
    if y < m - 1 {
      SweepLinesAt(g, nbLine, nbCol, chance, prev, gamma, hasSword, m - 1, y);
    }
  }

  /** The table after one sweep: every cell's scores computed from `prev` alone. */
  function SweepOf(g: Grid, nbLine: nat, nbCol: nat, chance: Cell, prev: Values, gamma: real, hasSword: bool): (v: Values)
    requires Covers(g, nbLine, nbCol) && Shaped(prev, nbLine, nbCol)
    requires !Fails(g, nbLine, nbCol, chance)
    ensures Readable(v, nbLine, nbCol)
  {
    SweepLines(g, nbLine, nbCol, chance, prev, gamma, hasSword, nbLine)
  }

  /** Every cell of the swept table holds the four scores of that cell, computed from `prev`. */
  lemma SweepAt(g: Grid, nbLine: nat, nbCol: nat, chance: Cell, prev: Values, gamma: real, hasSword: bool, y: nat, x: nat)
    requires Covers(g, nbLine, nbCol) && Shaped(prev, nbLine, nbCol) && y < nbLine && x < nbCol
    requires !Fails(g, nbLine, nbCol, chance)
    ensures !CellFails(g, nbLine, nbCol, chance, Pos(x, y))
    ensures SweepOf(g, nbLine, nbCol, chance, prev, gamma, hasSword)[y][x] == Backup(g, nbLine, nbCol, chance, prev, Pos(x, y), gamma, hasSword)
  {
    SweepLinesAt(g, nbLine, nbCol, chance, prev, gamma, hasSword, nbLine, y);
    SweepLineOfAt(g, nbLine, nbCol, chance, prev, y, gamma, hasSword, nbCol, x);
  }

  /** A cell's best score moves at most `gamma * d` when the best values move at most `d`. */
  lemma BackupContracts(g: Grid, nbLine: nat, nbCol: nat, chance: Cell, a: Values, b: Values, p: Pos, gamma: real, hasSword: bool, d: real)
    requires Covers(g, nbLine, nbCol) && Shaped(a, nbLine, nbCol) && Shaped(b, nbLine, nbCol) && InBounds(nbLine, nbCol, p)
    requires !CellFails(g, nbLine, nbCol, chance, p)
    requires 0.0 <= gamma && ValueIter.Close(a, b, nbLine, nbCol, d)
    ensures Abs(Max(Backup(g, nbLine, nbCol, chance, a, p, gamma, hasSword)) - Max(Backup(g, nbLine, nbCol, chance, b, p, gamma, hasSword))) <= gamma * d
  {
    var qa := Backup(g, nbLine, nbCol, chance, a, p, gamma, hasSword);
    var qb := Backup(g, nbLine, nbCol, chance, b, p, gamma, hasSword);
    MovesSafe(g, nbLine, nbCol, chance, p);
    forall k | 0 <= k < 4
      ensures Abs(qa[k] - qb[k]) <= gamma * d
    {
      ActionValueLipschitz(g, nbLine, nbCol, chance, a, b, p, ValueIter.Actions[k], gamma, hasSword, d);
    }
    MaxLipschitz(qa, qb, gamma * d);
  }

  /**
    One sweep is a contraction by `gamma`: tables whose best values are
    within `d` of each other are within `gamma * d` after a sweep.
  */
  lemma SweepContracts(g: Grid, nbLine: nat, nbCol: nat, chance: Cell, a: Values, b: Values, gamma: real, hasSword: bool, d: real)
    requires Covers(g, nbLine, nbCol) && Shaped(a, nbLine, nbCol) && Shaped(b, nbLine, nbCol)
    requires !Fails(g, nbLine, nbCol, chance)
    requires 0.0 <= gamma && ValueIter.Close(a, b, nbLine, nbCol, d)
    ensures ValueIter.Close(SweepOf(g, nbLine, nbCol, chance, a, gamma, hasSword), SweepOf(g, nbLine, nbCol, chance, b, gamma, hasSword), nbLine, nbCol, gamma * d)
  {
    var va := SweepOf(g, nbLine, nbCol, chance, a, gamma, hasSword);
    var vb := SweepOf(g, nbLine, nbCol, chance, b, gamma, hasSword);
    forall y, x | 0 <= y < nbLine && 0 <= x < nbCol
      ensures Abs(Max(va[y][x]) - Max(vb[y][x])) <= gamma * d
    {
      SweepAt(g, nbLine, nbCol, chance, a, gamma, hasSword, y, x);
      SweepAt(g, nbLine, nbCol, chance, b, gamma, hasSword, y, x);
      BackupContracts(g, nbLine, nbCol, chance, a, b, Pos(x, y), gamma, hasSword, d);
    }
  }

  /**
    The sweeps of `while True` from table `v`, at most `budget` of them: the
    last sweep's input and output once it moved every best value by less
    than `epsilon`, or None if the budget runs out first.
  */
  ghost function Run(g: Grid, nbLine: nat, nbCol: nat, chance: Cell, gamma: real, epsilon: real, hasSword: bool, v: Values, budget: nat): (res: Option<(Values, Values)>)
    requires Covers(g, nbLine, nbCol) && Shaped(v, nbLine, nbCol) && !Fails(g, nbLine, nbCol, chance)
    ensures res.Some? ==> Shaped(res.value.0, nbLine, nbCol) && res.value.1 == SweepOf(g, nbLine, nbCol, chance, res.value.0, gamma, hasSword)
    ensures res.Some? ==> ValueIter.Delta(res.value.0, res.value.1, nbLine, nbCol) < epsilon
    decreases budget
  {
    if budget == 0 then None
    else
      var next := SweepOf(g, nbLine, nbCol, chance, v, gamma, hasSword);
      if ValueIter.Delta(v, next, nbLine, nbCol) < epsilon then Some((v, next))
      else Run(g, nbLine, nbCol, chance, gamma, epsilon, hasSword, next, budget - 1)
  }

  /** When a run stops, epsilon is positive and its last sweep changed every cell's best value by less than epsilon. */
  lemma RunStops(g: Grid, nbLine: nat, nbCol: nat, chance: Cell, gamma: real, epsilon: real, hasSword: bool, v: Values, budget: nat)
    requires Covers(g, nbLine, nbCol) && Shaped(v, nbLine, nbCol) && !Fails(g, nbLine, nbCol, chance)
    requires Run(g, nbLine, nbCol, chance, gamma, epsilon, hasSword, v, budget).Some?
    ensures var (u, w) := Run(g, nbLine, nbCol, chance, gamma, epsilon, hasSword, v, budget).value;
            0.0 < epsilon && forall y, x :: 0 <= y < nbLine && 0 <= x < nbCol ==> ValueIter.CellChange(u[y], w[y], x) < epsilon
  {
    var (u, w) := Run(g, nbLine, nbCol, chance, gamma, epsilon, hasSword, v, budget).value;
    ValueIter.DeltaBelow(u, w, nbLine, nbCol, epsilon);
  }

  /** The scores of a sweep from `prev`, cell by cell: Backup wherever the cell does not fail. */
  ghost function ScoreOf(g: Grid, nbLine: nat, nbCol: nat, chance: Cell, prev: Values, gamma: real, hasSword: bool): Pos -> seq<real>
    requires Covers(g, nbLine, nbCol) && Shaped(prev, nbLine, nbCol)
  {
    p => if InBounds(nbLine, nbCol, p) && !CellFails(g, nbLine, nbCol, chance, p) then Backup(g, nbLine, nbCol, chance, prev, p, gamma, hasSword) else []
  }

  /** `score` gives the four scores of every cell that does not fail. */
  ghost predicate IsScore(score: Pos -> seq<real>, g: Grid, nbLine: nat, nbCol: nat, chance: Cell, prev: Values, gamma: real, hasSword: bool)
    requires Covers(g, nbLine, nbCol) && Shaped(prev, nbLine, nbCol)
  {
    forall p {:trigger Backup(g, nbLine, nbCol, chance, prev, p, gamma, hasSword)} ::
      InBounds(nbLine, nbCol, p) && !CellFails(g, nbLine, nbCol, chance, p) ==> score(p) == Backup(g, nbLine, nbCol, chance, prev, p, gamma, hasSword)
  }

  /** ScoreOf is such a function. */
  lemma ScoreOfIsScore(g: Grid, nbLine: nat, nbCol: nat, chance: Cell, prev: Values, gamma: real, hasSword: bool)
    requires Covers(g, nbLine, nbCol) && Shaped(prev, nbLine, nbCol)
    ensures IsScore(ScoreOf(g, nbLine, nbCol, chance, prev, gamma, hasSword), g, nbLine, nbCol, chance, prev, gamma, hasSword)
  {
  }

  /** A line that agrees with `score` on its cells, none of which fails, is that line swept. */
  lemma {:induction false} LineIsSweep(g: Grid, nbLine: nat, nbCol: nat, chance: Cell, prev: Values, y: nat, gamma: real, hasSword: bool,
                                       score: Pos -> seq<real>, line: seq<seq<real>>)
    requires Covers(g, nbLine, nbCol) && Shaped(prev, nbLine, nbCol) && y < nbLine && |line| == nbCol
    requires !LineFails(g, nbLine, nbCol, chance, y) && IsScore(score, g, nbLine, nbCol, chance, prev, gamma, hasSword)
    requires forall x :: 0 <= x < nbCol ==> line[x] == score(Pos(x, y))
    ensures line == SweepLineOf(g, nbLine, nbCol, chance, prev, y, gamma, hasSword, nbCol)
  {
    var target := SweepLineOf(g, nbLine, nbCol, chance, prev, y, gamma, hasSword, nbCol);
    forall x | 0 <= x < nbCol
      ensures line[x] == target[x]
    {
      SweepLineOfAt(g, nbLine, nbCol, chance, prev, y, gamma, hasSword, nbCol, x);
    }
  }

  /** The lines of a sweep from `prev`: SweepLineOf wherever the line does not fail. */
  ghost function LinesOf(g: Grid, nbLine: nat, nbCol: nat, chance: Cell, prev: Values, gamma: real, hasSword: bool): int -> seq<seq<real>>
    requires Covers(g, nbLine, nbCol) && Shaped(prev, nbLine, nbCol)
  {
    y => if 0 <= y < nbLine && !LineFails(g, nbLine, nbCol, chance, y) then SweepLineOf(g, nbLine, nbCol, chance, prev, y, gamma, hasSword, nbCol) else []
  }

  /** `lines` gives every line that does not fail, swept. */
  ghost predicate IsLines(lines: int -> seq<seq<real>>, g: Grid, nbLine: nat, nbCol: nat, chance: Cell, prev: Values, gamma: real, hasSword: bool)
    requires Covers(g, nbLine, nbCol) && Shaped(prev, nbLine, nbCol)
  {
    forall y {:trigger SweepLineOf(g, nbLine, nbCol, chance, prev, y, gamma, hasSword, nbCol)} ::
      0 <= y < nbLine && !LineFails(g, nbLine, nbCol, chance, y) ==> lines(y) == SweepLineOf(g, nbLine, nbCol, chance, prev, y, gamma, hasSword, nbCol)
  }

  /** LinesOf is such a function. */
  lemma LinesOfIsLines(g: Grid, nbLine: nat, nbCol: nat, chance: Cell, prev: Values, gamma: real, hasSword: bool)
    requires Covers(g, nbLine, nbCol) && Shaped(prev, nbLine, nbCol)
    ensures IsLines(LinesOf(g, nbLine, nbCol, chance, prev, gamma, hasSword), g, nbLine, nbCol, chance, prev, gamma, hasSword)
  {
  }

  /** A table that agrees with `lines` on its lines, none of which fails, is the table swept. */
  lemma TableIsSweep(g: Grid, nbLine: nat, nbCol: nat, chance: Cell, prev: Values, gamma: real, hasSword: bool,
                     lines: int -> seq<seq<real>>, v: Values)
    requires Covers(g, nbLine, nbCol) && Shaped(prev, nbLine, nbCol) && |v| == nbLine
    requires !Fails(g, nbLine, nbCol, chance) && IsLines(lines, g, nbLine, nbCol, chance, prev, gamma, hasSword)
    requires forall y :: 0 <= y < nbLine ==> v[y] == lines(y)
    ensures v == SweepOf(g, nbLine, nbCol, chance, prev, gamma, hasSword)
  {
    var target := SweepOf(g, nbLine, nbCol, chance, prev, gamma, hasSword);
    forall y | 0 <= y < nbLine
      ensures v[y] == target[y]
    {
      SweepLinesAt(g, nbLine, nbCol, chance, prev, gamma, hasSword, nbLine, y);
    }
  }

  /**
    The list `q` of one cell (solver.py:71-96): for each move in the order
    u, d, r, l, -10000 plus `gamma` times 0 when the move is refused, else
    the target's reward plus `gamma` times its expectation; None at the
    first move whose expectation raises IndexError.
  */
  method CellScores(g: Grid, nbLine: nat, nbCol: nat, chance: Cell, prev: Values, x: nat, y: nat, gamma: real, hasSword: bool,
                    ghost score: Pos -> seq<real>)
    returns (q: Option<seq<real>>)
    requires Covers(g, nbLine, nbCol) && Shaped(prev, nbLine, nbCol) && InBounds(nbLine, nbCol, Pos(x, y))
    requires IsScore(score, g, nbLine, nbCol, chance, prev, gamma, hasSword)
    ensures q.None? <==> CellFails(g, nbLine, nbCol, chance, Pos(x, y))
    ensures q.Some? ==> |q.value| == 4 && q.value == score(Pos(x, y))
  {
    var p := Pos(x, y);
    var s := [];
    for k := 0 to 4
      invariant |s| == k && !MovesFail(g, nbLine, nbCol, chance, p, k)
      invariant forall i :: 0 <= i < k ==> !FaultyMove(g, nbLine, nbCol, chance, p, ValueIter.Actions[i])
      invariant forall i :: 0 <= i < k ==> s[i] == ActionValue(g, nbLine, nbCol, chance, prev, p, ValueIter.Actions[i], gamma, hasSword)
    {
      var r := MoveScore(g, nbLine, nbCol, chance, prev, p, ValueIter.Actions[k], gamma, hasSword);
      if r.None? {
        MovesFailGrow(g, nbLine, nbCol, chance, p, k + 1, 4);
        return None;
      }
      s := s + [r.value];
    }
    assert s == Backup(g, nbLine, nbCol, chance, prev, p, gamma, hasSword);
    return Some(s);
  }

  /**
    The score of one move from `p` (solver.py:73-96): -10000 plus nothing when
    the move is not allowed or hits a wall, otherwise the reward of the cell
    entered plus gamma times its expectation; None when that raises IndexError.
  */
  method MoveScore(g: Grid, nbLine: nat, nbCol: nat, chance: Cell, prev: Values, p: Pos, dir: Direction, gamma: real, hasSword: bool)
    returns (r: Option<real>)
    requires Covers(g, nbLine, nbCol) && Shaped(prev, nbLine, nbCol) && InBounds(nbLine, nbCol, p)
    ensures r.None? <==> FaultyMove(g, nbLine, nbCol, chance, p, dir)
    ensures r.Some? ==> !FaultyMove(g, nbLine, nbCol, chance, p, dir) && r.value == ActionValue(g, nbLine, nbCol, chance, prev, p, dir, gamma, hasSword)
  {
    var ra := ValueIter.Invalid;
    var p1 := 0.0;
    var t := Moved(p, dir);
    if Allowed(nbLine, nbCol, p, dir) && g[t.y][t.x] != Wall {
      ra := Reward(g[t.y][t.x]) as real;
      var e := GetPossibleMoves(g, nbLine, nbCol, chance, t.y, t.x, prev, hasSword);
      if e.None? {
        return None;
      }
      p1 := e.value;
    }
    return Some(ValueIter.Score(ra, gamma, p1));
  }

  /** The running delta over the first `n` cells depends on those cells only. */
  lemma {:induction false} LineDeltaPrefix(acc: real, a: seq<seq<real>>, b: seq<seq<real>>, c: seq<seq<real>>, n: nat)
    requires n <= |a| && n <= |b| && n <= |c| && forall x :: 0 <= x < n ==> |a[x]| > 0 && |b[x]| > 0 && b[x] == c[x]
    ensures ValueIter.LineDelta(acc, a, b, n) == ValueIter.LineDelta(acc, a, c, n)
  {
    if n > 0 {
      LineDeltaPrefix(acc, a, b, c, n - 1);
    }
  }

  /** The running delta over the first `m` lines depends on those lines only. */
  lemma {:induction false} DeltaPrefix(a: Values, b: Values, c: Values, m: nat, nbCol: nat)
    requires m <= |a| && m <= |b| && m <= |c|
    requires forall y :: 0 <= y < m ==> nbCol <= |a[y]| && nbCol <= |b[y]| && b[y] == c[y] && forall x :: 0 <= x < nbCol ==> |a[y][x]| > 0 && |b[y][x]| > 0
    ensures ValueIter.Delta(a, b, m, nbCol) == ValueIter.Delta(a, c, m, nbCol)
  {
    if m > 0 {
      DeltaPrefix(a, b, c, m - 1, nbCol);
    }
  }

  /**
    Line `y` of one sweep: each cell's scores overwrite it and `delta` keeps
    the largest change seen; None when a cell of the line raises IndexError.
  */
  method SweepLine(g: Grid, nbLine: nat, nbCol: nat, chance: Cell, prev: Values, y: nat, gamma: real, hasSword: bool, delta0: real,
                   ghost score: Pos -> seq<real>, ghost lines: int -> seq<seq<real>>)
    returns (res: Option<(seq<seq<real>>, real)>)
    requires Covers(g, nbLine, nbCol) && Shaped(prev, nbLine, nbCol) && y < nbLine
    requires IsScore(score, g, nbLine, nbCol, chance, prev, gamma, hasSword)
    requires IsLines(lines, g, nbLine, nbCol, chance, prev, gamma, hasSword)
    ensures res.None? <==> LineFails(g, nbLine, nbCol, chance, y)
    ensures res.Some? ==> res.value.0 == lines(y)
    ensures res.Some? ==> |res.value.0| == nbCol && forall x :: 0 <= x < nbCol ==> |res.value.0[x]| == 4
    ensures res.Some? ==> res.value.1 == ValueIter.LineDelta(delta0, prev[y], res.value.0, nbCol)
  {
    var line := prev[y];
    var delta := delta0;
    var x := 0;
    while x < nbCol
      invariant 0 <= x <= nbCol && |line| == nbCol && !CellsFail(g, nbLine, nbCol, chance, y, x)
      invariant forall i :: 0 <= i < nbCol ==> |line[i]| > 0
      invariant forall i :: 0 <= i < x ==> |line[i]| == 4
      invariant forall i :: 0 <= i < x ==> line[i] == score(Pos(i, y))
      invariant delta == ValueIter.LineDelta(delta0, prev[y], line, x)
    {
      var q := CellScores(g, nbLine, nbCol, chance, prev, x, y, gamma, hasSword, score);
      if q.None? {
        CellsFailGrow(g, nbLine, nbCol, chance, y, x + 1, nbCol);
        return None;
      }
      ghost var before := line;
      line := line[x := q.value];
      LineDeltaPrefix(delta0, prev[y], before, line, x);
      delta := Larger(delta, Abs(Max(prev[y][x]) - Max(line[x])));
      x := x + 1;
    }
    LineIsSweep(g, nbLine, nbCol, chance, prev, y, gamma, hasSword, score, line);
    return Some((line, delta));
  }

  /** Storing line y of the sweep keeps the table shaped, the lines so far and the running delta. */
  lemma SweepStep(g: Grid, nbLine: nat, nbCol: nat, chance: Cell, prev: Values, lines: int -> seq<seq<real>>, v: Values, y: nat,
                  line: seq<seq<real>>, delta: real, delta': real)
    requires Covers(g, nbLine, nbCol) && Shaped(prev, nbLine, nbCol) && Shaped(v, nbLine, nbCol) && y < nbLine
    requires !LinesFail(g, nbLine, nbCol, chance, y) && !LineFails(g, nbLine, nbCol, chance, y)
    requires forall i :: 0 <= i < y ==> v[i] == lines(i)
    requires line == lines(y) && |line| == nbCol && forall x :: 0 <= x < nbCol ==> |line[x]| == 4
    requires delta == ValueIter.Delta(prev, v, y, nbCol) && delta' == ValueIter.LineDelta(delta, prev[y], line, nbCol)
    ensures Shaped(v[y := line], nbLine, nbCol) && !LinesFail(g, nbLine, nbCol, chance, y + 1)
    ensures forall i :: 0 <= i <= y ==> v[y := line][i] == lines(i)
    ensures delta' == ValueIter.Delta(prev, v[y := line], y + 1, nbCol)
  {
    DeltaPrefix(prev, v, v[y := line], y, nbCol);
  }

  /**
    One sweep of value_iteration (solver.py:66-104): `v` starts as a copy of
    `prev`, every cell is overwritten from `prev` alone and `delta` is the
    largest change of a cell's best value; None when a cell raises IndexError.
  */
  method Sweep(g: Grid, nbLine: nat, nbCol: nat, chance: Cell, prev: Values, gamma: real, hasSword: bool)
    returns (res: Option<(Values, real)>)
    requires Covers(g, nbLine, nbCol) && Shaped(prev, nbLine, nbCol)
    ensures res.None? <==> Fails(g, nbLine, nbCol, chance)
    ensures res.Some? ==>
              res.value.0 == SweepOf(g, nbLine, nbCol, chance, prev, gamma, hasSword)
              && res.value.1 == ValueIter.Delta(prev, res.value.0, nbLine, nbCol)
  {
    ScoreOfIsScore(g, nbLine, nbCol, chance, prev, gamma, hasSword);
    ghost var score :| IsScore(score, g, nbLine, nbCol, chance, prev, gamma, hasSword);
    LinesOfIsLines(g, nbLine, nbCol, chance, prev, gamma, hasSword);
    ghost var lines :| IsLines(lines, g, nbLine, nbCol, chance, prev, gamma, hasSword);
    var v := prev;
    var delta := 0.0;
    var y := 0;
    while y < nbLine
      invariant 0 <= y <= nbLine && Shaped(v, nbLine, nbCol) && !LinesFail(g, nbLine, nbCol, chance, y)
      invariant forall i :: 0 <= i < y ==> v[i] == lines(i)
      invariant delta == ValueIter.Delta(prev, v, y, nbCol)
    {
      var line := SweepLine(g, nbLine, nbCol, chance, prev, y, gamma, hasSword, delta, score, lines);
      if line.None? {
        LinesFailGrow(g, nbLine, nbCol, chance, y + 1, nbLine);
        return None;
      }
      SweepStep(g, nbLine, nbCol, chance, prev, lines, v, y, line.value.0, delta, line.value.1);
      v := v[y := line.value.0];
      delta := line.value.1;
      y := y + 1;
    }
    TableIsSweep(g, nbLine, nbCol, chance, prev, gamma, hasSword, lines, v);
    return Some((v, delta));
  }

  // ---------------------------------------------------------------------------
  // set_variables
  // ---------------------------------------------------------------------------

  /** The variable a platform on `t` lists for direction `d`, when the move is allowed (solver.py:252-264). */
  function NeighbourKey(nbLine: int, nbCol: int, t: Pos, d: Direction): (k: seq<PolicyIter.Key>)
    requires InBounds(nbLine, nbCol, t)
    ensures |k| == if Allowed(nbLine, nbCol, t, d) then 1 else 0
  {
    if Allowed(nbLine, nbCol, t, d) then [PolicyIter.Own(Moved(t, d))] else []
  }

  /** The variables a platform on `t` spreads over, in the order up, down, left, right (solver.py:251-264). */
  function AroundKeys(nbLine: int, nbCol: int, t: Pos): seq<PolicyIter.Key>
    requires InBounds(nbLine, nbCol, t)
  {
    NeighbourKey(nbLine, nbCol, t, Up) + NeighbourKey(nbLine, nbCol, t, Down)
    + NeighbourKey(nbLine, nbCol, t, Left) + NeighbourKey(nbLine, nbCol, t, Right)
  }

  /** `k` names and `v` holds the best value of one allowed neighbour of `t`. */
  ghost predicate PairedAt(nbLine: int, nbCol: int, prev: Values, t: Pos, k: PolicyIter.Key, v: real)
    requires Shaped(prev, nbLine, nbCol) && InBounds(nbLine, nbCol, t)
  {
    exists d: Direction :: Allowed(nbLine, nbCol, t, d) && k == PolicyIter.Own(Moved(t, d)) && v == Max(prev[Moved(t, d).y][Moved(t, d).x])
  }

  /** Position by position, `ks` and `vs` describe the same allowed neighbours of `t`. */
  ghost predicate Paired(nbLine: int, nbCol: int, prev: Values, t: Pos, ks: seq<PolicyIter.Key>, vs: seq<real>)
    requires Shaped(prev, nbLine, nbCol) && InBounds(nbLine, nbCol, t)
  {
    |ks| == |vs| && forall i :: 0 <= i < |ks| ==> PairedAt(nbLine, nbCol, prev, t, ks[i], vs[i])
  }

  /** Pairings of consecutive pieces join. */
  lemma PairedJoin(nbLine: int, nbCol: int, prev: Values, t: Pos, ks: seq<PolicyIter.Key>, vs: seq<real>, ks': seq<PolicyIter.Key>, vs': seq<real>)
    requires Shaped(prev, nbLine, nbCol) && InBounds(nbLine, nbCol, t)
    requires Paired(nbLine, nbCol, prev, t, ks, vs) && Paired(nbLine, nbCol, prev, t, ks', vs')
    ensures Paired(nbLine, nbCol, prev, t, ks + ks', vs + vs')
  {
    forall i | 0 <= i < |ks + ks'|
      ensures PairedAt(nbLine, nbCol, prev, t, (ks + ks')[i], (vs + vs')[i])
    {
      if i < |ks| {
        assert (ks + ks')[i] == ks[i] && (vs + vs')[i] == vs[i];
      } else {
        assert (ks + ks')[i] == ks'[i - |ks|] && (vs + vs')[i] == vs'[i - |ks|];
      }
    }
  }

  /**
    set_variables and get_possible_moves see the same neighbours of a
    platform: the variables it spreads over and the values it averages come
    in the same order, one per allowed move, so both divide by the same
    `cpt`; every allowed neighbour is listed.
  */
  lemma AroundKeysMatch(nbLine: int, nbCol: int, prev: Values, t: Pos)
    requires Shaped(prev, nbLine, nbCol) && InBounds(nbLine, nbCol, t)
    ensures Paired(nbLine, nbCol, prev, t, AroundKeys(nbLine, nbCol, t), AroundValues(nbLine, nbCol, prev, t))
    ensures forall d: Direction :: Allowed(nbLine, nbCol, t, d) ==> PolicyIter.Own(Moved(t, d)) in AroundKeys(nbLine, nbCol, t)
  {
    forall d: Direction
      ensures Paired(nbLine, nbCol, prev, t, NeighbourKey(nbLine, nbCol, t, d), Neighbour(nbLine, nbCol, prev, t, d))
    {
      if Allowed(nbLine, nbCol, t, d) {
        assert PairedAt(nbLine, nbCol, prev, t, NeighbourKey(nbLine, nbCol, t, d)[0], Neighbour(nbLine, nbCol, prev, t, d)[0]);
      }
    }
    var ku, kd, kl, kr := NeighbourKey(nbLine, nbCol, t, Up), NeighbourKey(nbLine, nbCol, t, Down), NeighbourKey(nbLine, nbCol, t, Left), NeighbourKey(nbLine, nbCol, t, Right);
    var vu, vd, vl, vr := Neighbour(nbLine, nbCol, prev, t, Up), Neighbour(nbLine, nbCol, prev, t, Down), Neighbour(nbLine, nbCol, prev, t, Left), Neighbour(nbLine, nbCol, prev, t, Right);
    PairedJoin(nbLine, nbCol, prev, t, ku, vu, kd, vd);
    PairedJoin(nbLine, nbCol, prev, t, ku + kd, vu + vd, kl, vl);
    PairedJoin(nbLine, nbCol, prev, t, ku + kd + kl, vu + vd + vl, kr, vr);
    forall d: Direction | Allowed(nbLine, nbCol, t, d)
      ensures PolicyIter.Own(Moved(t, d)) in AroundKeys(nbLine, nbCol, t)
    {
      assert PolicyIter.Own(Moved(t, d)) in NeighbourKey(nbLine, nbCol, t, d);
      match d
      case Up =>
      case Down =>
      case Left =>
      case Right =>
    }
  }

  /** The variables of a list of names. */
  function NameKeys(ps: seq<string>): (ks: seq<PolicyIter.Key>)
    ensures |ks| == |ps| && forall i :: 0 <= i < |ps| ==> ks[i] == PolicyIter.Named(ps[i])
  {
    seq(|ps|, i requires 0 <= i < |ps| => PolicyIter.Named(ps[i]))
  }

  /** The portal branch (solver.py:284-299): death gets the crack share, each other open cell one share; `cpt` counts a portal, so it is positive. */
  function PortalWrites(g: Grid, nbLine: nat, nbCol: nat, p: Pos, eq: PolicyIter.Dict, gamma: real): (e: PolicyIter.Dict)
    requires Covers(g, nbLine, nbCol) && InBounds(nbLine, nbCol, p) && g[p.y][p.x] == Portal && PolicyIter.ValidDict(eq)
    ensures PolicyIter.ValidDict(e)
  {
    var t := PolicyIter.PortalTally(g, nbLine, nbCol);
    PolicyIter.PortalTallyFacts(g, nbLine, nbCol);
    PolicyIter.PutAll(PolicyIter.Put(eq, PolicyIter.DeadKey, PolicyIter.Share(t.nbDead, t.cpt, gamma)), NameKeys(t.p), PolicyIter.Share(1, t.cpt, gamma))
  }

  /**
    set_variables (solver.py:249-301): the coefficients of entering the cell
    under `p`, checked in the source's order: platform, the chance cell,
    crack, enemy, portal, anything else. The chance cell writes what a trap
    writes in policy_iteration.py.
  */
  function SetVariables(g: Grid, nbLine: nat, nbCol: nat, chance: Cell, p: Pos, eq: PolicyIter.Dict, gamma: real, hasSword: bool): (e: PolicyIter.Dict)
    requires Covers(g, nbLine, nbCol) && InBounds(nbLine, nbCol, p) && PolicyIter.ValidDict(eq)
    ensures PolicyIter.ValidDict(e)
  {
    var c, own := g[p.y][p.x], PolicyIter.Own(p);
    if c == Platform then PolicyIter.Spread(eq, AroundKeys(nbLine, nbCol, p), gamma)
    else if c == chance then PolicyIter.Enter(Trap, eq, own, PolicyIter.TrapKey(nbLine, nbCol), gamma, hasSword)
    else if c == Crack then PolicyIter.Put(eq, PolicyIter.DeadKey, 1.0)
    else if c == Enemy then
      (if hasSword then PolicyIter.Put(eq, own, 1.0 * gamma)
       else PolicyIter.Put(PolicyIter.Put(eq, own, 0.7 * gamma), PolicyIter.DeadKey, 0.3 * gamma))
    else if c == Portal then PortalWrites(g, nbLine, nbCol, p, eq, gamma)
    else PolicyIter.Put(eq, own, 1.0 * gamma)
  }

  /**
    A platform gives each allowed neighbour `gamma / cpt`, with `cpt` the
    number of values get_possible_moves averages there, and changes nothing
    else; keys are only appended.
  */
  lemma SetVariablesPlatform(g: Grid, nbLine: nat, nbCol: nat, chance: Cell, prev: Values, p: Pos, eq: PolicyIter.Dict, gamma: real, hasSword: bool)
    requires Covers(g, nbLine, nbCol) && Shaped(prev, nbLine, nbCol) && InBounds(nbLine, nbCol, p) && PolicyIter.ValidDict(eq)
    requires g[p.y][p.x] == Platform
    ensures var ks, e := AroundKeys(nbLine, nbCol, p), SetVariables(g, nbLine, nbCol, chance, p, eq, gamma, hasSword);
      && |ks| == |AroundValues(nbLine, nbCol, prev, p)|
      && eq.keys <= e.keys
      && (forall d: Direction :: Allowed(nbLine, nbCol, p, d) ==> PolicyIter.Own(Moved(p, d)) in ks)
      && (forall d: Direction :: Allowed(nbLine, nbCol, p, d) ==>
            PolicyIter.Own(Moved(p, d)) in e.vals && e.vals[PolicyIter.Own(Moved(p, d))] == PolicyIter.Share(1, |ks|, gamma))
      && PolicyIter.SameElsewhere(eq, e, set k | k in ks)
  {
    AroundKeysMatch(nbLine, nbCol, prev, p);
    PolicyIter.SpreadValues(eq, AroundKeys(nbLine, nbCol, p), gamma);
  }

  /**
    The chance cell puts 0.6 gamma on its own variable, 0.1 gamma on death
    and 0.3 gamma on the swapped corner variable `str(nbCol - 1) + str(nbLine - 1)`
    (unless that is its own), and changes nothing else.
  */
  lemma SetVariablesChance(g: Grid, nbLine: nat, nbCol: nat, chance: Cell, p: Pos, eq: PolicyIter.Dict, gamma: real, hasSword: bool)
    requires Covers(g, nbLine, nbCol) && InBounds(nbLine, nbCol, p) && PolicyIter.ValidDict(eq)
    requires g[p.y][p.x] == chance && chance != Platform
    ensures var e, own, trap := SetVariables(g, nbLine, nbCol, chance, p, eq, gamma, hasSword), PolicyIter.Own(p), PolicyIter.TrapKey(nbLine, nbCol);
      && eq.keys <= e.keys && PolicyIter.SameElsewhere(eq, e, {PolicyIter.DeadKey, trap, own})
      && own in e.vals && e.vals[own] == 0.6 * gamma
      && PolicyIter.DeadKey in e.vals && e.vals[PolicyIter.DeadKey] == 0.1 * gamma
      && (trap != own ==> trap in e.vals && e.vals[trap] == 0.3 * gamma)
  {
    var own, trap := PolicyIter.Own(p), PolicyIter.TrapKey(nbLine, nbCol);
    PolicyIter.VarNameNotDead(p.y, p.x);
    PolicyIter.VarNameNotDead(nbCol - 1, nbLine - 1);
    PolicyIter.EnterTrap(eq, own, trap, gamma, hasSword);
  }

  /** A crack puts 1, not gamma, on death and changes nothing else. */
  lemma SetVariablesCrack(g: Grid, nbLine: nat, nbCol: nat, chance: Cell, p: Pos, eq: PolicyIter.Dict, gamma: real, hasSword: bool)
    requires Covers(g, nbLine, nbCol) && InBounds(nbLine, nbCol, p) && PolicyIter.ValidDict(eq)
    requires g[p.y][p.x] == Crack && chance != Crack
    ensures var e := SetVariables(g, nbLine, nbCol, chance, p, eq, gamma, hasSword);
      && eq.keys <= e.keys && PolicyIter.SameElsewhere(eq, e, {PolicyIter.DeadKey})
      && PolicyIter.DeadKey in e.vals && e.vals[PolicyIter.DeadKey] == 1.0
  {
  }

  /**
    An enemy puts gamma on its own variable with the sword and leaves death
    alone; without the sword it puts 0.7 gamma on its own variable and 0.3
    gamma on death. Nothing else changes.
  */
  lemma SetVariablesEnemy(g: Grid, nbLine: nat, nbCol: nat, chance: Cell, p: Pos, eq: PolicyIter.Dict, gamma: real, hasSword: bool)
    requires Covers(g, nbLine, nbCol) && InBounds(nbLine, nbCol, p) && PolicyIter.ValidDict(eq)
    requires g[p.y][p.x] == Enemy && chance != Enemy
    ensures var e, own := SetVariables(g, nbLine, nbCol, chance, p, eq, gamma, hasSword), PolicyIter.Own(p);
      && eq.keys <= e.keys && own in e.vals
      && (hasSword ==> PolicyIter.SameElsewhere(eq, e, {own}) && e.vals[own] == gamma)
      && (!hasSword ==> PolicyIter.SameElsewhere(eq, e, {own, PolicyIter.DeadKey}) && e.vals[own] == 0.7 * gamma
                        && PolicyIter.DeadKey in e.vals && e.vals[PolicyIter.DeadKey] == 0.3 * gamma)
  {
    PolicyIter.VarNameNotDead(p.y, p.x);
  }

  /**
    A portal gives death `nbDead / cpt * gamma` and every reached cell
    (open and not a crack) `gamma / cpt`, `cpt` counting the open cells and
    `nbDead` the cracks; nothing else changes.
  */
  lemma SetVariablesPortal(g: Grid, nbLine: nat, nbCol: nat, chance: Cell, p: Pos, eq: PolicyIter.Dict, gamma: real, hasSword: bool)
    requires Covers(g, nbLine, nbCol) && InBounds(nbLine, nbCol, p) && PolicyIter.ValidDict(eq)
    requires g[p.y][p.x] == Portal && chance != Portal
    ensures var t, e := PolicyIter.PortalTally(g, nbLine, nbCol), SetVariables(g, nbLine, nbCol, chance, p, eq, gamma, hasSword);
      && t.cpt > 0 && t.cpt == |t.p| + t.nbDead
      && eq.keys <= e.keys
      && PolicyIter.DeadKey in e.vals && e.vals[PolicyIter.DeadKey] == PolicyIter.Share(t.nbDead, t.cpt, gamma)
      && (forall y, x :: PolicyIter.Reached(g, nbLine, nbCol, y, x) ==>
            PolicyIter.Named(PolicyIter.VarName(y, x)) in e.vals && e.vals[PolicyIter.Named(PolicyIter.VarName(y, x))] == PolicyIter.Share(1, t.cpt, gamma))
      && PolicyIter.SameElsewhere(eq, e, {PolicyIter.DeadKey} + set s | s in t.p :: PolicyIter.Named(s))
  {
    assert SetVariables(g, nbLine, nbCol, chance, p, eq, gamma, hasSword) == PortalWrites(g, nbLine, nbCol, p, eq, gamma);
    PortalWritesValues(g, nbLine, nbCol, p, eq, gamma);
  }

  /** The writes of the portal branch, as SetVariablesPortal states them. */
  lemma PortalWritesValues(g: Grid, nbLine: nat, nbCol: nat, p: Pos, eq: PolicyIter.Dict, gamma: real)
    requires Covers(g, nbLine, nbCol) && InBounds(nbLine, nbCol, p) && PolicyIter.ValidDict(eq)
    requires g[p.y][p.x] == Portal
    ensures var t, e := PolicyIter.PortalTally(g, nbLine, nbCol), PortalWrites(g, nbLine, nbCol, p, eq, gamma);
      && t.cpt > 0 && t.cpt == |t.p| + t.nbDead
      && eq.keys <= e.keys
      && PolicyIter.DeadKey in e.vals && e.vals[PolicyIter.DeadKey] == PolicyIter.Share(t.nbDead, t.cpt, gamma)
      && (forall y, x :: PolicyIter.Reached(g, nbLine, nbCol, y, x) ==>
            PolicyIter.Named(PolicyIter.VarName(y, x)) in e.vals && e.vals[PolicyIter.Named(PolicyIter.VarName(y, x))] == PolicyIter.Share(1, t.cpt, gamma))
      && PolicyIter.SameElsewhere(eq, e, {PolicyIter.DeadKey} + set s | s in t.p :: PolicyIter.Named(s))
  {
    var t := PolicyIter.PortalTally(g, nbLine, nbCol);
    PolicyIter.PortalTallyFacts(g, nbLine, nbCol);
    assert t.cpt > 0 by {
      assert g[p.y][p.x] != Wall;
    }
    PortalNames(g, nbLine, nbCol);
    DeathThenAll(eq, NameKeys(t.p), PolicyIter.Share(t.nbDead, t.cpt, gamma), PolicyIter.Share(1, t.cpt, gamma));
  }

  /** Setting death to `a` and then keys other than death to `v`: both hold, keys are only appended and nothing else changes. */
  lemma DeathThenAll(eq: PolicyIter.Dict, ks: seq<PolicyIter.Key>, a: real, v: real)
    requires PolicyIter.ValidDict(eq) && PolicyIter.DeadKey !in ks
    ensures var e := PolicyIter.PutAll(PolicyIter.Put(eq, PolicyIter.DeadKey, a), ks, v);
      && eq.keys <= e.keys
      && PolicyIter.DeadKey in e.vals && e.vals[PolicyIter.DeadKey] == a
      && (forall k :: k in ks ==> k in e.vals && e.vals[k] == v)
      && PolicyIter.SameElsewhere(eq, e, {PolicyIter.DeadKey} + set k | k in ks)
  {
    PolicyIter.PutAllValues(PolicyIter.Put(eq, PolicyIter.DeadKey, a), ks, v);
  }

  /**
    The variables a portal lists: none is death, every reached cell's is
    among them, and they are the names of the count.
  */
  lemma PortalNames(g: Grid, nbLine: nat, nbCol: nat)
    requires Covers(g, nbLine, nbCol)
    ensures var t := PolicyIter.PortalTally(g, nbLine, nbCol);
      && PolicyIter.DeadKey !in NameKeys(t.p)
      && (forall y, x :: PolicyIter.Reached(g, nbLine, nbCol, y, x) ==> PolicyIter.Named(PolicyIter.VarName(y, x)) in NameKeys(t.p))
      && (set k | k in NameKeys(t.p)) == set s | s in t.p :: PolicyIter.Named(s)
  {
    var t := PolicyIter.PortalTally(g, nbLine, nbCol);
    var ks := NameKeys(t.p);
    PolicyIter.PortalTallyFacts(g, nbLine, nbCol);
    if PolicyIter.DeadKey in ks {
      var i :| 0 <= i < |ks| && ks[i] == PolicyIter.DeadKey;
      assert t.p[i] in t.p;
      var y, x :| PolicyIter.Reached(g, nbLine, nbCol, y, x) && t.p[i] == PolicyIter.VarName(y, x);
      PolicyIter.VarNameNotDead(y, x);
    }
    forall s | s in t.p
      ensures PolicyIter.Named(s) in ks
    {
      var i :| 0 <= i < |t.p| && t.p[i] == s;
      assert ks[i] == PolicyIter.Named(s);
    }
    forall y, x | PolicyIter.Reached(g, nbLine, nbCol, y, x)
      ensures PolicyIter.Named(PolicyIter.VarName(y, x)) in ks
    {
      assert PolicyIter.ReachedName(g, nbLine, nbCol, PolicyIter.VarName(y, x));
    }
  }

  /** Any other cell puts gamma on its own variable and changes nothing else. */
  lemma SetVariablesPlain(g: Grid, nbLine: nat, nbCol: nat, chance: Cell, p: Pos, eq: PolicyIter.Dict, gamma: real, hasSword: bool)
    requires Covers(g, nbLine, nbCol) && InBounds(nbLine, nbCol, p) && PolicyIter.ValidDict(eq)
    requires g[p.y][p.x] !in {Platform, chance, Crack, Enemy, Portal}
    ensures var e, own := SetVariables(g, nbLine, nbCol, chance, p, eq, gamma, hasSword), PolicyIter.Own(p);
      && eq.keys <= e.keys && PolicyIter.SameElsewhere(eq, e, {own})
      && own in e.vals && e.vals[own] == gamma
  {
  }

  /**
    Away from platforms and portals, solver.py with its test on 'R' writes what
    policy_iteration.py's set_variables writes (policy_iteration.py:80-95),
    except for an enemy met with the sword: there only policy_iteration.py also
    puts 0.3 gamma on death, so a dict without a death entry comes out with one
    from it and without one from solver.py. As written, with the test on 'T',
    traps and treasures differ as well (SetVariablesAsWritten).
  */
  lemma SetVariablesAgree(g: Grid, nbLine: nat, nbCol: nat, p: Pos, eq: PolicyIter.Dict, gamma: real, hasSword: bool)
    requires Covers(g, nbLine, nbCol) && InBounds(nbLine, nbCol, p) && PolicyIter.ValidDict(eq)
    requires g[p.y][p.x] != Platform && g[p.y][p.x] != Portal
    ensures !(g[p.y][p.x] == Enemy && hasSword) ==>
              SetVariables(g, nbLine, nbCol, Chance, p, eq, gamma, hasSword) == PolicyIter.SetVariables(g, nbLine, nbCol, p, eq, gamma, hasSword)
    ensures !(g[p.y][p.x] == Enemy && hasSword) && g[p.y][p.x] != Trap && g[p.y][p.x] != Treasure ==>
              SetVariables(g, nbLine, nbCol, ChanceAsWritten, p, eq, gamma, hasSword) == PolicyIter.SetVariables(g, nbLine, nbCol, p, eq, gamma, hasSword)
    ensures g[p.y][p.x] == Enemy && hasSword && PolicyIter.DeadKey !in eq.vals ==>
              && PolicyIter.DeadKey !in SetVariables(g, nbLine, nbCol, Chance, p, eq, gamma, hasSword).vals
              && PolicyIter.DeadKey in PolicyIter.SetVariables(g, nbLine, nbCol, p, eq, gamma, hasSword).vals
  {
    PolicyIter.VarNameNotDead(p.y, p.x);
  }

  /** The list and count of the platform branch (solver.py:251-264): one variable per allowed move. */
  method AroundKeyList(nbLine: nat, nbCol: nat, y: nat, x: nat) returns (ps: seq<PolicyIter.Key>, cpt: nat)
    requires y < nbLine && x < nbCol
    ensures ps == AroundKeys(nbLine, nbCol, Pos(x, y)) && cpt == |ps|
  {
    cpt, ps := 0, [];
    if y > 0 {
      cpt := cpt + 1;
      ps := ps + [PolicyIter.Named(PolicyIter.VarName(y - 1, x))];
    }
    if y < nbLine - 2 {
      cpt := cpt + 1;
      ps := ps + [PolicyIter.Named(PolicyIter.VarName(y + 1, x))];
    }
    if x > 0 {
      cpt := cpt + 1;
      ps := ps + [PolicyIter.Named(PolicyIter.VarName(y, x - 1))];
    }
    if x < nbCol - 1 {
      cpt := cpt + 1;
      ps := ps + [PolicyIter.Named(PolicyIter.VarName(y, x + 1))];
    }
  }

  /** `for var in p: eq[var] = v` over names (solver.py:298-299). */
  method PutNames(eq: PolicyIter.Dict, ps: seq<string>, v: real) returns (e: PolicyIter.Dict)
    requires PolicyIter.ValidDict(eq)
    ensures e == PolicyIter.PutAll(eq, NameKeys(ps), v)
  {
    e := eq;
    for i := 0 to |ps|
      invariant PolicyIter.ValidDict(e) && e == PolicyIter.PutAll(eq, NameKeys(ps[..i]), v)
    {
      assert NameKeys(ps[..i + 1])[..i] == NameKeys(ps[..i]);
      e := PolicyIter.Put(e, PolicyIter.Named(ps[i]), v);
    }
    assert ps[..|ps|] == ps;
  }

  /** set_variables on the cell (y, x), branch by branch (solver.py:249-301). */
  method SetVariablesAt(g: Grid, nbLine: nat, nbCol: nat, chance: Cell, y: nat, x: nat, eq: PolicyIter.Dict, gamma: real, hasSword: bool)
    returns (e: PolicyIter.Dict)
    requires Covers(g, nbLine, nbCol) && y < nbLine && x < nbCol && PolicyIter.ValidDict(eq)
    ensures e == SetVariables(g, nbLine, nbCol, chance, Pos(x, y), eq, gamma, hasSword)
  {
    var own := PolicyIter.Named(PolicyIter.VarName(y, x));
    if g[y][x] == Platform {
      var ps, cpt := AroundKeyList(nbLine, nbCol, y, x);
      e := PolicyIter.SpreadLoop(eq, ps, cpt, gamma);
      return;
    }
    if g[y][x] == chance {
      e := PolicyIter.Put(eq, PolicyIter.DeadKey, 0.1 * gamma);
      e := PolicyIter.Put(e, PolicyIter.Named(PolicyIter.VarName(nbCol - 1, nbLine - 1)), 0.3 * gamma);
      e := PolicyIter.Put(e, own, 0.6 * gamma);
      return;
    }
    if g[y][x] == Crack {
      e := PolicyIter.Put(eq, PolicyIter.DeadKey, 1.0);
      return;
    }
    if g[y][x] == Enemy {
      if hasSword {
        e := PolicyIter.Put(eq, own, 1.0 * gamma);
      } else {
        e := PolicyIter.Put(eq, own, 0.7 * gamma);
        e := PolicyIter.Put(e, PolicyIter.DeadKey, 0.3 * gamma);
      }
      return;
    }
    if g[y][x] == Portal {
      var p, cpt, nbDead := PolicyIter.CountPortal(g, nbLine, nbCol);
      PolicyIter.PortalTallyFacts(g, nbLine, nbCol);
      assert cpt > 0 by {
        assert g[y][x] != Wall;
      }
      e := PolicyIter.Put(eq, PolicyIter.DeadKey, PolicyIter.Share(nbDead, cpt, gamma));
      e := PutNames(e, p, PolicyIter.Share(1, cpt, gamma));
      return;
    }
    e := PolicyIter.Put(eq, own, 1.0 * gamma);
  }

  // ---------------------------------------------------------------------------
  // The chance cell: as written and corrected
  // ---------------------------------------------------------------------------

  /**
    As written, get_possible_moves treats a trap like any plain cell and gives
    a treasure the trap's outcomes, raising IndexError on it when the level is
    not square.
  */
  lemma ExpectAsWritten(g: Grid, nbLine: nat, nbCol: nat, prev: Values, t: Pos, hasSword: bool)
    requires Covers(g, nbLine, nbCol) && Shaped(prev, nbLine, nbCol) && InBounds(nbLine, nbCol, t)
    ensures g[t.y][t.x] == Trap ==>
              !Faulty(g, nbLine, nbCol, ChanceAsWritten, t) && Expect(g, nbLine, nbCol, ChanceAsWritten, prev, t, hasSword) == Max(prev[t.y][t.x])
    ensures g[t.y][t.x] == Treasure ==> (Faulty(g, nbLine, nbCol, ChanceAsWritten, t) <==> !CornerInRange(nbLine, nbCol))
    ensures g[t.y][t.x] == Treasure && CornerInRange(nbLine, nbCol) ==>
              Expect(g, nbLine, nbCol, ChanceAsWritten, prev, t, hasSword) == 0.1 * Dead + 0.3 * Max(prev[nbCol - 1][nbLine - 1]) + 0.6 * Max(prev[t.y][t.x])
  {
  }

  /**
    With the trap as the chance cell, a trap has the outcomes of the comment at
    solver.py:28-30 (0.1 dead, 0.3 the corner, 0.6 itself) and a treasure is a
    plain cell that never raises.
  */
  lemma ExpectCorrected(g: Grid, nbLine: nat, nbCol: nat, prev: Values, t: Pos, hasSword: bool)
    requires Covers(g, nbLine, nbCol) && Shaped(prev, nbLine, nbCol) && InBounds(nbLine, nbCol, t)
    ensures g[t.y][t.x] == Treasure ==>
              !Faulty(g, nbLine, nbCol, Chance, t) && Expect(g, nbLine, nbCol, Chance, prev, t, hasSword) == Max(prev[t.y][t.x])
    ensures g[t.y][t.x] == Trap ==> (Faulty(g, nbLine, nbCol, Chance, t) <==> !CornerInRange(nbLine, nbCol))
    ensures g[t.y][t.x] == Trap && CornerInRange(nbLine, nbCol) ==>
              Expect(g, nbLine, nbCol, Chance, prev, t, hasSword) == 0.1 * Dead + 0.3 * Max(prev[nbCol - 1][nbLine - 1]) + 0.6 * Max(prev[t.y][t.x])
  {
  }

  /**
    As written, set_variables gives a trap the plain coefficient gamma on its
    own variable and a treasure the trap's three coefficients.
  */
  lemma SetVariablesAsWritten(g: Grid, nbLine: nat, nbCol: nat, p: Pos, eq: PolicyIter.Dict, gamma: real, hasSword: bool)
    requires Covers(g, nbLine, nbCol) && InBounds(nbLine, nbCol, p) && PolicyIter.ValidDict(eq)
    ensures g[p.y][p.x] == Trap ==>
              SetVariables(g, nbLine, nbCol, ChanceAsWritten, p, eq, gamma, hasSword) == PolicyIter.Put(eq, PolicyIter.Own(p), gamma)
    ensures g[p.y][p.x] == Treasure ==>
              SetVariables(g, nbLine, nbCol, ChanceAsWritten, p, eq, gamma, hasSword)
              == PolicyIter.Enter(Trap, eq, PolicyIter.Own(p), PolicyIter.TrapKey(nbLine, nbCol), gamma, hasSword)
  {
  }

  /**
    With the trap as the chance cell, set_variables writes for a trap what
    policy_iteration.py writes for one, and for a treasure the plain
    coefficient gamma on its own variable.
  */
  lemma SetVariablesCorrected(g: Grid, nbLine: nat, nbCol: nat, p: Pos, eq: PolicyIter.Dict, gamma: real, hasSword: bool)
    requires Covers(g, nbLine, nbCol) && InBounds(nbLine, nbCol, p) && PolicyIter.ValidDict(eq)
    ensures g[p.y][p.x] == Treasure ==>
              SetVariables(g, nbLine, nbCol, Chance, p, eq, gamma, hasSword) == PolicyIter.Put(eq, PolicyIter.Own(p), gamma)
    ensures g[p.y][p.x] == Trap ==>
              SetVariables(g, nbLine, nbCol, Chance, p, eq, gamma, hasSword) == PolicyIter.SetVariables(g, nbLine, nbCol, p, eq, gamma, hasSword)
  {
  }

  /** The Solver class of solver.py: the level it plans for and whether the sword is held. */
  class Solver {
    const level: Game.Level
    var hasSword: bool

    /** Solver.__init__ (solver.py:6-44): no sword yet. */
    constructor (level: Game.Level)
      ensures this.level == level && !hasSword
    {
      this.level := level;
      hasSword := false;
    }

    /**
      value_iteration (solver.py:61-110) with at most `budget` sweeps, from
      the table of `[0, 0]` cells, as written: the trap's outcomes go to the
      treasure. The first table whose sweep changed every best value by less
      than epsilon; None when the budget runs out first or when a sweep raises
      IndexError.
    */
    method ValueIteration(gamma: real, epsilon: real, budget: nat) returns (res: Option<Values>)
      requires Covers(level.grid, level.nbLine, level.nbCol)
      ensures Fails(level.grid, level.nbLine, level.nbCol, ChanceAsWritten) ==> res.None?
      ensures !Fails(level.grid, level.nbLine, level.nbCol, ChanceAsWritten) ==>
                var run := Run(level.grid, level.nbLine, level.nbCol, ChanceAsWritten, gamma, epsilon, hasSword, Initial(level.nbLine, level.nbCol), budget);
                (res.Some? <==> run.Some?) && (res.Some? ==> res.value == run.value.1)
    {
      res := IterateWith(ChanceAsWritten, gamma, epsilon, budget);
    }

    /** value_iteration with the trap test solver.py's comment intends: the trap's outcomes go to the trap. */
    method ValueIterationCorrected(gamma: real, epsilon: real, budget: nat) returns (res: Option<Values>)
      requires Covers(level.grid, level.nbLine, level.nbCol)
      ensures Fails(level.grid, level.nbLine, level.nbCol, Chance) ==> res.None?
      ensures !Fails(level.grid, level.nbLine, level.nbCol, Chance) ==>
                var run := Run(level.grid, level.nbLine, level.nbCol, Chance, gamma, epsilon, hasSword, Initial(level.nbLine, level.nbCol), budget);
                (res.Some? <==> run.Some?) && (res.Some? ==> res.value == run.value.1)
    {
      res := IterateWith(Chance, gamma, epsilon, budget);
    }

    /** The loop of value_iteration, with `chance` the cell given the trap's outcomes. */
    method IterateWith(chance: Cell, gamma: real, epsilon: real, budget: nat) returns (res: Option<Values>)
      requires Covers(level.grid, level.nbLine, level.nbCol)
      ensures Fails(level.grid, level.nbLine, level.nbCol, chance) ==> res.None?
      ensures !Fails(level.grid, level.nbLine, level.nbCol, chance) ==>
                var run := Run(level.grid, level.nbLine, level.nbCol, chance, gamma, epsilon, hasSword, Initial(level.nbLine, level.nbCol), budget);
                (res.Some? <==> run.Some?) && (res.Some? ==> res.value == run.value.1)
    {
      var g, nbLine, nbCol := level.grid, level.nbLine, level.nbCol;
      var v := BuildStates(nbLine, nbCol);
      var left: nat := budget;
      while left > 0
        invariant Shaped(v, nbLine, nbCol) && left <= budget
        invariant !Fails(g, nbLine, nbCol, chance) ==>
                    Run(g, nbLine, nbCol, chance, gamma, epsilon, hasSword, Initial(nbLine, nbCol), budget)
                    == Run(g, nbLine, nbCol, chance, gamma, epsilon, hasSword, v, left)
      {
        var prev := v;
        var next := Sweep(g, nbLine, nbCol, chance, prev, gamma, hasSword);
        if next.None? {
          return None;
        }
        v := next.value.0;
        assert Run(g, nbLine, nbCol, chance, gamma, epsilon, hasSword, prev, left)
               == if next.value.1 < epsilon then Some((prev, v)) else Run(g, nbLine, nbCol, chance, gamma, epsilon, hasSword, v, left - 1);
        if next.value.1 < epsilon {
          return Some(v);
        }
        left := left - 1;
      }
      return None;
    }

    /** set_variables (solver.py:249-301) for the cell (y, x) of the level, with the sword as held now, testing 'T' as written. */
    method SetVariablesOn(y: nat, x: nat, eq: PolicyIter.Dict, gamma: real) returns (e: PolicyIter.Dict)
      requires Covers(level.grid, level.nbLine, level.nbCol) && y < level.nbLine && x < level.nbCol && PolicyIter.ValidDict(eq)
      ensures e == SetVariables(level.grid, level.nbLine, level.nbCol, ChanceAsWritten, Pos(x, y), eq, gamma, hasSword)
    {
      e := SetVariablesAt(level.grid, level.nbLine, level.nbCol, ChanceAsWritten, y, x, eq, gamma, hasSword);
    }

    /** set_variables with the trap test policy_iteration.py makes. */
    method SetVariablesOnCorrected(y: nat, x: nat, eq: PolicyIter.Dict, gamma: real) returns (e: PolicyIter.Dict)
      requires Covers(level.grid, level.nbLine, level.nbCol) && y < level.nbLine && x < level.nbCol && PolicyIter.ValidDict(eq)
      ensures e == SetVariables(level.grid, level.nbLine, level.nbCol, Chance, Pos(x, y), eq, gamma, hasSword)
    {
      e := SetVariablesAt(level.grid, level.nbLine, level.nbCol, Chance, y, x, eq, gamma, hasSword);
    }
  }
}
