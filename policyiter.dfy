/**
  The policy-iteration solver of policy_iteration.py. A policy gives every
  cell a letter; each round writes one linear equation per cell (plus one for
  death) over the variables named `str(y) + str(x)`, hands the system to a
  solver, reads the solution back line by line and improves every cell's
  letter greedily. The loop stops when no letter changes, or after 500 rounds.
*/
module PolicyIter {
  import opened Wrappers
  import opened World
  import opened Text
  import opened Reals
  import opened Planning
  import Game

  // ---------------------------------------------------------------------------
  // Equation rows: Python dicts keyed by variable names (and one integer key)
  // ---------------------------------------------------------------------------

  /** A key of an equation dict: a string, or the integer key of the death row (policy_iteration.py:197). */
  datatype Key = Named(name: string) | Numbered(n: int)

  /** The variable of the death state (policy_iteration.py:191). */
  const DeadKey: Key := Named("dead")

  /** The variable of cell (y, x): `str(y) + str(x)` (policy_iteration.py:76). */
  function VarName(y: nat, x: nat): string {
    NatToString(y) + NatToString(x)
  }

  /** Below 10, the two digits of a variable name give back its cell. */
  lemma VarNameInjective(y: nat, x: nat, y': nat, x': nat)
    requires y < 10 && x < 10 && y' < 10 && x' < 10
    ensures VarName(y, x) == VarName(y', x') <==> y == y' && x == x'
  {
    SingleDigit(y);
    SingleDigit(x);
    SingleDigit(y');
    SingleDigit(x');
    if VarName(y, x) == VarName(y', x') {
      assert VarName(y, x)[0] == VarName(y', x')[0] && VarName(y, x)[1] == VarName(y', x')[1];
    }
  }

  /** From 10 on, names collide: cells (1, 11) and (11, 1) share the variable "111". */
  lemma VarNameCollision()
    ensures VarName(1, 11) == VarName(11, 1) == "111"
  {
    assert NatToString(11) == NatToString(1) + [DigitChar(1)];
  }

  /** No cell variable is the death variable: names of cells are digits only. */
  lemma VarNameNotDead(y: nat, x: nat)
    ensures Named(VarName(y, x)) != DeadKey
  {
    var s := VarName(y, x);
    assert IsDigits(s) by {
      assert forall i :: 0 <= i < |s| ==> s[i] == if i < |NatToString(y)| then NatToString(y)[i] else NatToString(x)[i - |NatToString(y)|];
    }
    assert !IsDigits("dead") by {
      assert !('0' <= "dead"[0] <= '9');
    }
  }

  /** A Python dict: its keys in insertion order and the value of each. */
  datatype Dict = Dict(keys: seq<Key>, vals: map<Key, real>)

  /** The listed keys are exactly those that have a value. */
  ghost predicate ValidDict(d: Dict) {
    forall k :: k in d.vals <==> k in d.keys
  }

  /** No key is listed twice. */
  ghost predicate Distinct(keys: seq<Key>) {
    forall i, j :: 0 <= i < j < |keys| ==> keys[i] != keys[j]
  }

  /** `d[k] = v`: a new key goes to the end, an old one keeps its place. */
  function Put(d: Dict, k: Key, v: real): (e: Dict)
    requires ValidDict(d)
    ensures ValidDict(e)
  {
    Dict(if k in d.vals then d.keys else d.keys + [k], d.vals[k := v])
  }

  /** Only a new key lengthens the dict, at its end, and distinct keys stay distinct. */
  lemma PutKeys(d: Dict, k: Key, v: real)
    requires ValidDict(d)
    ensures Put(d, k, v).keys == if k in d.keys then d.keys else d.keys + [k]
    ensures Distinct(d.keys) ==> Distinct(Put(d, k, v).keys)
  {
  }

  /** `list(d.values())`: the values in the order of the keys. */
  function Values(d: Dict): (vs: seq<real>)
    requires ValidDict(d)
    ensures |vs| == |d.keys|
  {
    seq(|d.keys|, i requires 0 <= i < |d.keys| => d.vals[d.keys[i]])
  }

  /** `dict.fromkeys(names, 0)`: each distinct name once, in order of first occurrence, all holding 0. */
  function FromKeys(names: seq<string>): (d: Dict)
    ensures ValidDict(d)
  {
    if names == [] then Dict([], map[]) else Put(FromKeys(names[..|names| - 1]), Named(names[|names| - 1]), 0.0)
  }

  /** The dict made by `fromkeys` has exactly the given names as keys, every one holding 0. */
  lemma {:induction false} FromKeysContents(names: seq<string>)
    ensures forall k :: k in FromKeys(names).vals <==> k.Named? && k.name in names
    ensures forall k :: k in FromKeys(names).vals ==> FromKeys(names).vals[k] == 0.0
    ensures |FromKeys(names).keys| <= |names|
  {
    if names != [] {
      var init := names[..|names| - 1];
      FromKeysContents(init);
      assert names == init + [names[|names| - 1]];
    }
  }

  /** With distinct names, `fromkeys` keeps all of them, in their order. */
  lemma {:induction false} FromKeysInOrder(names: seq<string>)
    requires forall i, j :: 0 <= i < j < |names| ==> names[i] != names[j]
    ensures |FromKeys(names).keys| == |names|
    ensures forall i :: 0 <= i < |names| ==> FromKeys(names).keys[i] == Named(names[i])
  {
    if names != [] {
      var init := names[..|names| - 1];
      FromKeysInOrder(init);
      FromKeysContents(init);
      assert Named(names[|names| - 1]) !in FromKeys(init).vals;
    }
  }

  /** With distinct names, no key of `fromkeys` is listed twice. */
  lemma FromKeysDistinct(names: seq<string>)
    requires forall i, j :: 0 <= i < j < |names| ==> names[i] != names[j]
    ensures Distinct(FromKeys(names).keys)
  {
    FromKeysInOrder(names);
  }

  // ---------------------------------------------------------------------------
  // init_p_i and build_dt1
  // ---------------------------------------------------------------------------

  /** `acc` with `f(y, 0), ..., f(y, n - 1)` appended: line `y` up to column `n`. */
  function AddLine<T>(acc: seq<T>, f: (nat, nat) -> T, y: nat, n: nat): (r: seq<T>)
    ensures |r| == |acc| + n
  {
    if n == 0 then acc else AddLine(acc, f, y, n - 1) + [f(y, n - 1)]
  }

  /** `acc` with lines `0` to `m - 1` appended, each of `nbCol` entries. */
  function AddLines<T>(acc: seq<T>, f: (nat, nat) -> T, m: nat, nbCol: nat): seq<T> {
    if m == 0 then acc else AddLine(AddLines(acc, f, m - 1, nbCol), f, m - 1, nbCol)
  }

  /** Appending a line keeps what was there and puts column `x` at offset `x`. */
  lemma {:induction false} AddLineAt<T>(acc: seq<T>, f: (nat, nat) -> T, y: nat, n: nat, i: nat)
    requires i < |acc| + n
    ensures AddLine(acc, f, y, n)[i] == if i < |acc| then acc[i] else f(y, i - |acc|)
  {
    if n > 0 && i < |acc| + n - 1 {
      AddLineAt(acc, f, y, n - 1, i);
    }
  }

  /** `m` lines of `nbCol` entries. */
  lemma {:induction false} AddLinesLength<T>(f: (nat, nat) -> T, m: nat, nbCol: nat)
    ensures |AddLines([], f, m, nbCol)| == m * nbCol
  {
    if m > 0 {
      AddLinesLength(f, m - 1, nbCol);
      assert (m - 1) * nbCol + nbCol == m * nbCol;
    }
  }

  /** `a * b + c` stays below `m * b` when `a < m` and `c < b`. */
  lemma RowMajorBound(a: nat, c: nat, m: nat, b: nat)
    requires a < m && c < b
    ensures a * b + c < m * b
    decreases m - a
  {
    assert (a + 1) * b == a * b + b;
    if a + 1 < m {
      RowMajorBound(a + 1, c, m, b);
    }
  }

  /** Row-major order: the entry of (y, x) is at position `y * nbCol + x`. */
  lemma {:induction false} AddLinesAt<T>(f: (nat, nat) -> T, m: nat, nbCol: nat, y: nat, x: nat)
    requires y < m && x < nbCol
    ensures y * nbCol + x < |AddLines([], f, m, nbCol)|
    ensures AddLines([], f, m, nbCol)[y * nbCol + x] == f(y, x)
  {
    AddLinesLength(f, m - 1, nbCol);
    var before, i := AddLines([], f, m - 1, nbCol), y * nbCol + x;
    if y == m - 1 {
      assert i == |before| + x;
      AddLineAt(before, f, m - 1, nbCol, i);
    } else {
      RowMajorBound(y, x, m - 1, nbCol);
      assert i < |before|;
      AddLineAt(before, f, m - 1, nbCol, i);
      AddLinesAt(f, m - 1, nbCol, y, x);
    }
  }

  /** The variables of the first `m` lines, in row-major order. */
  function Names(m: nat, nbCol: nat): seq<string> {
    AddLines([], VarName, m, nbCol)
  }

  /** There are `nbCol` variables per line, and cell (y, x) has position `y * nbCol + x`. */
  lemma NamesAt(m: nat, nbCol: nat, y: nat, x: nat)
    requires y < m && x < nbCol
    ensures |Names(m, nbCol)| == m * nbCol
    ensures y * nbCol + x < |Names(m, nbCol)| && Names(m, nbCol)[y * nbCol + x] == VarName(y, x)
  {
    AddLinesLength(VarName, m, nbCol);
    AddLinesAt(VarName, m, nbCol, y, x);
  }

  /** The starting letter of line `y`: `'d'` on line 0, `'u'` below. */
  function StartLetter(y: nat): char {
    if y == 0 then 'd' else 'u'
  }

  /** `acc` with the starting policy's first `m` lines appended. */
  function AddStartLines(acc: seq<seq<char>>, m: nat, nbCol: nat): (p: seq<seq<char>>)
    ensures |p| == |acc| + m
  {
    if m == 0 then acc else AddStartLines(acc, m - 1, nbCol) + [seq(nbCol, _ => StartLetter(m - 1))]
  }

  /** The starting policy of an `nbLine` x `nbCol` level. */
  function InitialPolicy(nbLine: nat, nbCol: nat): seq<seq<char>> {
    AddStartLines([], nbLine, nbCol)
  }

  /** Appending starting lines keeps what was there; line `y` has `nbCol` letters, `'d'` on line 0 and `'u'` below. */
  lemma {:induction false} AddStartLinesAt(acc: seq<seq<char>>, m: nat, nbCol: nat, i: nat)
    requires i < |acc| + m
    ensures AddStartLines(acc, m, nbCol)[i] == if i < |acc| then acc[i] else seq(nbCol, _ => StartLetter(i - |acc|))
  {
    if m > 0 && i < |acc| + m - 1 {
      AddStartLinesAt(acc, m - 1, nbCol, i);
    }
  }

  /** The starting policy has `nbCol` letters per line: `'d'` on line 0 and `'u'` everywhere else. */
  lemma InitialPolicyAt(nbLine: nat, nbCol: nat, y: nat, x: nat)
    requires y < nbLine && x < nbCol
    ensures |InitialPolicy(nbLine, nbCol)| == nbLine && |InitialPolicy(nbLine, nbCol)[y]| == nbCol
    ensures InitialPolicy(nbLine, nbCol)[y][x] == if y == 0 then 'd' else 'u'
  {
    AddStartLinesAt([], nbLine, nbCol, y);
  }

  /**
    init_p_i (policy_iteration.py:68-77): appends the starting policy's lines
    to `p0` and the cells' variable names, in row-major order, to `variables`.
  */
  method InitPI(nbLine: nat, nbCol: nat, variables: seq<string>, p0: seq<seq<char>>) returns (variables': seq<string>, p0': seq<seq<char>>)
    ensures variables' == AddLines(variables, VarName, nbLine, nbCol)
    ensures p0' == AddStartLines(p0, nbLine, nbCol)
  {
    variables', p0' := variables, p0;
    for y := 0 to nbLine
      invariant variables' == AddLines(variables, VarName, y, nbCol)
      invariant p0' == AddStartLines(p0, y, nbCol)
    {
      var line := [];
      for x := 0 to nbCol
        invariant |line| == x && forall j :: 0 <= j < x ==> line[j] == StartLetter(y)
        invariant variables' == AddLine(AddLines(variables, VarName, y, nbCol), VarName, y, x)
      {
        if y == 0 {
          line := line + ['d'];
        } else {
          line := line + ['u'];
        }
        variables' := variables' + [VarName(y, x)];
      }
      assert line == seq(nbCol, _ => StartLetter(y));
      p0' := p0' + [line];
    }
  }

  /** The solution read back line by line: `dt1[y][x] == ar[y * nbCol + x]`. */
  function Reshape(ar: seq<real>, nbLine: nat, nbCol: nat): (dt1: seq<seq<real>>)
    requires nbLine * nbCol <= |ar|
    ensures |dt1| == nbLine && forall y :: 0 <= y < nbLine ==> |dt1[y]| == nbCol
  {
    seq(nbLine, y requires 0 <= y < nbLine =>
      seq(nbCol, x requires 0 <= x < nbCol => RowMajorBound(y, x, nbLine, nbCol); ar[y * nbCol + x]))
  }

  /** build_dt1 (policy_iteration.py:166-173): appends the lines of the solution, counting through it in order. */
  method BuildDt1(nbLine: nat, nbCol: nat, ar: seq<real>, dt1: seq<seq<real>>) returns (dt1': seq<seq<real>>)
    requires nbLine * nbCol <= |ar|
    ensures dt1' == dt1 + Reshape(ar, nbLine, nbCol)
  {
    dt1' := dt1;
    var cpt := 0;
    ghost var target := Reshape(ar, nbLine, nbCol);
    for y := 0 to nbLine
      invariant cpt == y * nbCol
      invariant |dt1'| == |dt1| + y && dt1'[..|dt1|] == dt1
      invariant forall i :: 0 <= i < y ==> dt1'[|dt1| + i] == target[i]
    {
      var line := [];
      for x := 0 to nbCol
        invariant cpt == y * nbCol + x && |line| == x
        invariant forall j :: 0 <= j < x ==> line[j] == target[y][j]
      {
        RowMajorBound(y, x, nbLine, nbCol);
        line := line + [ar[cpt]];
        cpt := cpt + 1;
      }
      assert line == target[y];
      dt1' := dt1' + [line];
    }
    assert dt1' == dt1 + target;
  }

  // ---------------------------------------------------------------------------
  // set_variables
  // ---------------------------------------------------------------------------

  /** The variable of the cell under `p`. */
  function Own(p: Pos): Key
    requires p.x >= 0 && p.y >= 0
  {
    Named(VarName(p.y, p.x))
  }

  /** The variable a trap's second outcome goes to: line and column swapped, `str(nbCol - 1) + str(nbLine - 1)`. */
  function TrapKey(nbLine: nat, nbCol: nat): Key
    requires nbLine > 0 && nbCol > 0
  {
    Named(VarName(nbCol - 1, nbLine - 1))
  }

  /**
    set_variables (policy_iteration.py:80-95): the coefficients of entering
    the cell under `p`, by what the cell is.
  */
  function SetVariables(g: Grid, nbLine: nat, nbCol: nat, p: Pos, eq: Dict, gamma: real, hasSword: bool): (e: Dict)
    requires Covers(g, nbLine, nbCol) && InBounds(nbLine, nbCol, p) && ValidDict(eq)
    ensures ValidDict(e)
  {
    Enter(At(g, nbLine, nbCol, p), eq, Own(p), TrapKey(nbLine, nbCol), gamma, hasSword)
  }

  /** The writes of set_variables for a cell `c` whose variable is `own`, `trap` being the swapped corner variable. */
  function Enter(c: Cell, eq: Dict, own: Key, trap: Key, gamma: real, hasSword: bool): (e: Dict)
    requires ValidDict(eq)
    ensures ValidDict(e)
  {
    match c
    case Trap => Put(Put(Put(eq, DeadKey, 0.1 * gamma), trap, 0.3 * gamma), own, 0.6 * gamma)
    case Crack => Put(eq, DeadKey, 1.0)
    case Enemy => Put(Put(eq, own, if hasSword then 1.0 * gamma else 0.7 * gamma), DeadKey, 0.3 * gamma)
    case _ => Put(eq, own, 1.0 * gamma)
  }

  /** `e` holds what `d` holds at every key outside `ks`. */
  ghost predicate SameElsewhere(d: Dict, e: Dict, ks: set<Key>) {
    forall k :: k !in ks ==> (k in e.vals <==> k in d.vals) && (k in d.vals ==> e.vals[k] == d.vals[k])
  }

  /**
    Entering a trap puts 0.6 gamma on the trap's own variable, 0.3 gamma on the
    swapped corner variable (unless that is the trap's own) and 0.1 gamma on
    death; nothing else changes and keys are only appended.
  */
  lemma EnterTrap(eq: Dict, own: Key, trap: Key, gamma: real, hasSword: bool)
    requires ValidDict(eq) && own != DeadKey && trap != DeadKey
    ensures var e := Enter(Trap, eq, own, trap, gamma, hasSword);
      && eq.keys <= e.keys && SameElsewhere(eq, e, {DeadKey, trap, own})
      && e.vals[own] == 0.6 * gamma && e.vals[DeadKey] == 0.1 * gamma
      && (trap != own ==> e.vals[trap] == 0.3 * gamma)
  {
  }

  /** Entering a crack puts 1 (not gamma) on death and changes nothing else. */
  lemma EnterCrack(eq: Dict, own: Key, trap: Key, gamma: real, hasSword: bool)
    requires ValidDict(eq)
    ensures var e := Enter(Crack, eq, own, trap, gamma, hasSword);
      && eq.keys <= e.keys && SameElsewhere(eq, e, {DeadKey}) && e.vals[DeadKey] == 1.0
  {
  }

  /**
    Entering an enemy puts gamma (with the sword) or 0.7 gamma (without) on its
    own variable and, in both cases, 0.3 gamma on death; nothing else changes.
  */
  lemma EnterEnemy(eq: Dict, own: Key, trap: Key, gamma: real, hasSword: bool)
    requires ValidDict(eq) && own != DeadKey
    ensures var e := Enter(Enemy, eq, own, trap, gamma, hasSword);
      && eq.keys <= e.keys && SameElsewhere(eq, e, {DeadKey, own})
      && e.vals[own] == (if hasSword then gamma else 0.7 * gamma) && e.vals[DeadKey] == 0.3 * gamma
  {
  }

  /** Entering any other cell puts gamma on its own variable and changes nothing else. */
  lemma EnterPlain(c: Cell, eq: Dict, own: Key, trap: Key, gamma: real, hasSword: bool)
    requires ValidDict(eq) && c != Trap && c != Crack && c != Enemy
    ensures var e := Enter(c, eq, own, trap, gamma, hasSword);
      && eq.keys <= e.keys && SameElsewhere(eq, e, {own}) && e.vals[own] == gamma
  {
  }

  /** set_variables writes, for the cell under `p`, the coefficients the Enter lemmas list; cell variables are never the death variable. */
  lemma SetVariablesCoefficients(g: Grid, nbLine: nat, nbCol: nat, p: Pos, eq: Dict, gamma: real, hasSword: bool)
    requires Covers(g, nbLine, nbCol) && InBounds(nbLine, nbCol, p) && ValidDict(eq)
    ensures SetVariables(g, nbLine, nbCol, p, eq, gamma, hasSword) == Enter(At(g, nbLine, nbCol, p), eq, Own(p), TrapKey(nbLine, nbCol), gamma, hasSword)
    ensures Own(p) != DeadKey && TrapKey(nbLine, nbCol) != DeadKey
  {
    VarNameNotDead(p.y, p.x);
    VarNameNotDead(nbCol - 1, nbLine - 1);
  }

  // ---------------------------------------------------------------------------
  // define_equations
  // ---------------------------------------------------------------------------

  /** `dt` has a letter for every cell of the `nbLine` x `nbCol` box. */
  predicate PolicyCovers(dt: seq<seq<char>>, nbLine: int, nbCol: int) {
    nbLine <= |dt| && forall i :: 0 <= i < nbLine ==> nbCol <= |dt[i]|
  }

  /** The move a policy letter stands for: 'u', 'd', 'l', and anything else is right. */
  function LetterMove(c: char): Direction {
    if c == 'u' then Up else if c == 'd' then Down else if c == 'l' then Left else Right
  }

  /**
    A cell that is neither portal nor platform (policy_iteration.py:99-123):
    follow the cell's letter; when the cell it leads to can be entered, its
    reward goes to the right-hand side (negated) and its coefficients are set,
    otherwise the cell's own reward, negated, and no coefficient.
  */
  function Follow(g: Grid, nbLine: nat, nbCol: nat, p: Pos, dt: seq<seq<char>>, eq: Dict, rest: seq<real>, gamma: real, r: Rewards, hasSword: bool): (res: (Dict, seq<real>))
    requires Covers(g, nbLine, nbCol) && InBounds(nbLine, nbCol, p) && PolicyCovers(dt, nbLine, nbCol) && ValidDict(eq) && Total(r)
    ensures ValidDict(res.0)
    ensures |res.1| == |rest| + 1 && res.1[..|rest|] == rest
  {
    var t := Moved(p, LetterMove(dt[p.y][p.x]));
    if CanEnter(g, nbLine, nbCol, t) then (SetVariables(g, nbLine, nbCol, t, eq, gamma, hasSword), rest + [(-r[At(g, nbLine, nbCol, t)]) as real])
    else (eq, rest + [(-r[At(g, nbLine, nbCol, p)]) as real])
  }

  /** What the portal branch counts: the names of open cells that are not cracks, the open cells, and the cracks. */
  datatype Tally = Tally(p: seq<string>, cpt: nat, nbDead: nat)

  /** Counting one cell: walls are skipped, cracks count as dead, other cells are listed. */
  function CountCell(t: Tally, c: Cell, name: string): Tally {
    if c == Wall then t else if c != Crack then Tally(t.p + [name], t.cpt + 1, t.nbDead) else Tally(t.p, t.cpt + 1, t.nbDead + 1)
  }

  /** `t` after counting cells (y, 0) to (y, n - 1). */
  function TallyLine(t: Tally, g: Grid, nbLine: nat, nbCol: nat, y: nat, n: nat): Tally
    requires Covers(g, nbLine, nbCol) && y < nbLine && n <= nbCol
  {
    if n == 0 then t else CountCell(TallyLine(t, g, nbLine, nbCol, y, n - 1), g[y][n - 1], VarName(y, n - 1))
  }

  /** `t` after counting lines 0 to m - 1. */
  function TallyLines(t: Tally, g: Grid, nbLine: nat, nbCol: nat, m: nat): Tally
    requires Covers(g, nbLine, nbCol) && m <= nbLine
  {
    if m == 0 then t else TallyLine(TallyLines(t, g, nbLine, nbCol, m - 1), g, nbLine, nbCol, m - 1, nbCol)
  }

  /** The count of the whole level, in row-major order (policy_iteration.py:127-137). */
  function PortalTally(g: Grid, nbLine: nat, nbCol: nat): Tally
    requires Covers(g, nbLine, nbCol)
  {
    TallyLines(Tally([], 0, 0), g, nbLine, nbCol, nbLine)
  }

  /** A portal reaches the cell: it is inside the box, open and not a crack. */
  ghost predicate Reached(g: Grid, nbLine: nat, nbCol: nat, y: int, x: int)
    requires Covers(g, nbLine, nbCol)
  {
    0 <= y < nbLine && 0 <= x < nbCol && g[y][x] != Wall && g[y][x] != Crack
  }

  /** `s` is the variable of a reached cell. */
  ghost predicate ReachedName(g: Grid, nbLine: nat, nbCol: nat, s: string)
    requires Covers(g, nbLine, nbCol)
  {
    exists y, x :: Reached(g, nbLine, nbCol, y, x) && s == VarName(y, x)
  }

  /** Counting a line: open cells raise `cpt`, which is the listed plus the dead ones, and the listed names are the line's reached cells. */
  lemma {:induction false} TallyLineFacts(t: Tally, g: Grid, nbLine: nat, nbCol: nat, y: nat, n: nat)
    requires Covers(g, nbLine, nbCol) && y < nbLine && n <= nbCol
    ensures var u := TallyLine(t, g, nbLine, nbCol, y, n);
      && (t.cpt == |t.p| + t.nbDead ==> u.cpt == |u.p| + u.nbDead)
      && u.cpt >= t.cpt && (forall x :: 0 <= x < n && g[y][x] != Wall ==> u.cpt > t.cpt)
      && (forall s :: s in u.p <==> s in t.p || exists x :: Reached(g, nbLine, nbCol, y, x) && x < n && s == VarName(y, x))
  {
    if n > 0 {
      TallyLineFacts(t, g, nbLine, nbCol, y, n - 1);
    }
  }

  /** Counting lines 0 to m - 1: the same facts over every line counted. */
  lemma {:induction false} TallyLinesFacts(t: Tally, g: Grid, nbLine: nat, nbCol: nat, m: nat)
    requires Covers(g, nbLine, nbCol) && m <= nbLine
    ensures var u := TallyLines(t, g, nbLine, nbCol, m);
      && (t.cpt == |t.p| + t.nbDead ==> u.cpt == |u.p| + u.nbDead)
      && u.cpt >= t.cpt && (forall y, x :: 0 <= y < m && 0 <= x < nbCol && g[y][x] != Wall ==> u.cpt > t.cpt)
      && (forall s :: s in u.p <==> s in t.p || exists y, x :: Reached(g, nbLine, nbCol, y, x) && y < m && s == VarName(y, x))
  {
    if m > 0 {
      TallyLinesFacts(t, g, nbLine, nbCol, m - 1);
      TallyLineFacts(TallyLines(t, g, nbLine, nbCol, m - 1), g, nbLine, nbCol, m - 1, nbCol);
    }
  }

  /**
    The portal's count lists exactly the names of the reached cells, and
    `cpt`, the number of open cells, is the listed plus the cracks; it is
    positive as soon as one cell is open.
  */
  lemma PortalTallyFacts(g: Grid, nbLine: nat, nbCol: nat)
    requires Covers(g, nbLine, nbCol)
    ensures var u := PortalTally(g, nbLine, nbCol);
      && u.cpt == |u.p| + u.nbDead
      && (forall y, x :: 0 <= y < nbLine && 0 <= x < nbCol && g[y][x] != Wall ==> u.cpt > 0)
      && (forall s :: s in u.p <==> ReachedName(g, nbLine, nbCol, s))
  {
    TallyLinesFacts(Tally([], 0, 0), g, nbLine, nbCol, nbLine);
  }

  /**
    `for var in p: if eq[var] != -1: eq[var] = v`: a name that is not a key
    raises KeyError.
  */
  function MarkAll(eq: Dict, ps: seq<string>, v: real): (res: Option<Dict>)
    requires ValidDict(eq)
    ensures res.Some? ==> ValidDict(res.value)
  {
    if ps == [] then Some(eq)
    else match MarkAll(eq, ps[..|ps| - 1], v)
      case None => None
      case Some(e) =>
        var k := Named(ps[|ps| - 1]);
        if k !in e.vals then None else if e.vals[k] != -1.0 then Some(Put(e, k, v)) else Some(e)
  }

  /**
    MarkAll fails exactly when a name is missing; otherwise it keeps the keys
    and sets every listed key that did not hold -1 to `v`.
  */
  lemma {:induction false} MarkAllValues(eq: Dict, ps: seq<string>, v: real)
    requires ValidDict(eq)
    ensures MarkAll(eq, ps, v).Some? <==> forall i :: 0 <= i < |ps| ==> Named(ps[i]) in eq.vals
    ensures MarkAll(eq, ps, v).Some? ==>
      var e := MarkAll(eq, ps, v).value;
      && e.keys == eq.keys
      && forall k :: k in eq.vals ==> k in e.vals && e.vals[k] == if k.Named? && k.name in ps && eq.vals[k] != -1.0 then v else eq.vals[k]
  {
    if ps != [] {
      var init, last := ps[..|ps| - 1], ps[|ps| - 1];
      MarkAllValues(eq, init, v);
      assert ps == init + [last];
      var res := MarkAll(eq, init, v);
      if res.Some? && Named(last) in res.value.vals {
        var e := res.value;
        var k0 := Named(last);
        var e' := MarkAll(eq, ps, v).value;
        assert e'.keys == e.keys;
        forall k | k in eq.vals
          ensures k in e'.vals && e'.vals[k] == if k.Named? && k.name in ps && eq.vals[k] != -1.0 then v else eq.vals[k]
        {
          if k != k0 {
            assert k.Named? && k.name in ps <==> k.Named? && k.name in init;
          }
        }
      }
    }
  }

  /** `n` shares out of `d` of the discount `gamma`. */
  function Share(n: nat, d: nat, gamma: real): (r: real)
    requires d > 0
    ensures r * d as real == n as real * gamma
  {
    n as real / d as real * gamma
  }

  /** The spread of a portal (policy_iteration.py:125-141): death by the share of cracks, every other reached cell by one share. */
  function PortalSpread(g: Grid, nbLine: nat, nbCol: nat, p: Pos, eq: Dict, gamma: real): (res: Option<Dict>)
    requires Covers(g, nbLine, nbCol) && InBounds(nbLine, nbCol, p) && At(g, nbLine, nbCol, p) == Portal && ValidDict(eq)
    ensures res.Some? ==> ValidDict(res.value)
  {
    var t := PortalTally(g, nbLine, nbCol);
    PortalTallyFacts(g, nbLine, nbCol);
    MarkAll(Put(eq, DeadKey, Share(t.nbDead, t.cpt, gamma)), t.p, Share(1, t.cpt, gamma))
  }

  /**
    Setting death to `a` and then marking names that are all keys, none of
    them "dead", never fails, and only the marked keys change besides death.
  */
  lemma MarkAfterDeath(eq: Dict, ps: seq<string>, a: real, v: real)
    requires ValidDict(eq) && "dead" !in ps && forall i :: 0 <= i < |ps| ==> Named(ps[i]) in eq.vals
    ensures var res := MarkAll(Put(eq, DeadKey, a), ps, v);
      && res.Some?
      && res.value.keys == Put(eq, DeadKey, a).keys
      && DeadKey in res.value.vals && res.value.vals[DeadKey] == a
      && forall k :: k in eq.vals && k != DeadKey ==>
           k in res.value.vals && res.value.vals[k] == if k.Named? && k.name in ps && eq.vals[k] != -1.0 then v else eq.vals[k]
  {
    MarkAllValues(Put(eq, DeadKey, a), ps, v);
  }

  /**
    With every cell's variable a key, a portal never raises KeyError: death
    gets the crack share `nbDead / cpt * gamma`, each reached cell whose
    coefficient is not -1 gets `gamma / cpt`, and nothing else changes.
  */
  lemma PortalSpreadValues(g: Grid, nbLine: nat, nbCol: nat, p: Pos, eq: Dict, gamma: real)
    requires Covers(g, nbLine, nbCol) && InBounds(nbLine, nbCol, p) && At(g, nbLine, nbCol, p) == Portal && ValidDict(eq)
    requires forall y, x :: 0 <= y < nbLine && 0 <= x < nbCol ==> Named(VarName(y, x)) in eq.vals
    ensures PortalSpread(g, nbLine, nbCol, p, eq, gamma).Some?
    ensures var t, e := PortalTally(g, nbLine, nbCol), PortalSpread(g, nbLine, nbCol, p, eq, gamma).value;
      && t.cpt > 0
      && DeadKey in e.vals && e.vals[DeadKey] == Share(t.nbDead, t.cpt, gamma)
      && e.keys == Put(eq, DeadKey, 0.0).keys
      && forall k :: k in eq.vals && k != DeadKey ==>
           k in e.vals && e.vals[k] == if k.Named? && ReachedName(g, nbLine, nbCol, k.name) && eq.vals[k] != -1.0
                                       then Share(1, t.cpt, gamma) else eq.vals[k]
  {
    var t := PortalTally(g, nbLine, nbCol);
    TallyNamesAreKeys(g, nbLine, nbCol, eq);
    PortalTallyFacts(g, nbLine, nbCol);
    assert t.cpt > 0 by {
      assert g[p.y][p.x] != Wall;
    }
    var a, v := Share(t.nbDead, t.cpt, gamma), Share(1, t.cpt, gamma);
    MarkAfterDeath(eq, t.p, a, v);
    assert PortalSpread(g, nbLine, nbCol, p, eq, gamma) == MarkAll(Put(eq, DeadKey, a), t.p, v);
  }

  /** Every name a portal lists is a cell's variable, hence a key, and none is "dead". */
  lemma TallyNamesAreKeys(g: Grid, nbLine: nat, nbCol: nat, eq: Dict)
    requires Covers(g, nbLine, nbCol)
    requires forall y, x :: 0 <= y < nbLine && 0 <= x < nbCol ==> Named(VarName(y, x)) in eq.vals
    ensures var t := PortalTally(g, nbLine, nbCol);
      && "dead" !in t.p && forall i :: 0 <= i < |t.p| ==> Named(t.p[i]) in eq.vals
  {
    var t := PortalTally(g, nbLine, nbCol);
    PortalTallyFacts(g, nbLine, nbCol);
    forall i | 0 <= i < |t.p|
      ensures Named(t.p[i]) in eq.vals
    {
      assert t.p[i] in t.p;
      var y, x :| Reached(g, nbLine, nbCol, y, x) && t.p[i] == VarName(y, x);
    }
    if "dead" in t.p {
      var y, x :| Reached(g, nbLine, nbCol, y, x) && "dead" == VarName(y, x);
      VarNameNotDead(y, x);
    }
  }

  /** The neighbours a platform spreads over, in the order up, down, left, right (policy_iteration.py:146-161). */
  function Neighbours(nbLine: nat, nbCol: nat, p: Pos): (ns: seq<Pos>)
    requires InBounds(nbLine, nbCol, p)
    ensures forall i :: 0 <= i < |ns| ==> InBounds(nbLine, nbCol, ns[i])
  {
    (if p.y > 0 then [Pos(p.x, p.y - 1)] else [])
    + (if p.y < nbLine - 1 then [Pos(p.x, p.y + 1)] else [])
    + (if p.x > 0 then [Pos(p.x - 1, p.y)] else [])
    + (if p.x < nbCol - 1 then [Pos(p.x + 1, p.y)] else [])
  }

  /** The variables of those neighbours, in the same order. */
  function PlatformKeys(nbLine: nat, nbCol: nat, p: Pos): (ks: seq<Key>)
    requires InBounds(nbLine, nbCol, p)
  {
    (if p.y > 0 then [Own(Pos(p.x, p.y - 1))] else [])
    + (if p.y < nbLine - 1 then [Own(Pos(p.x, p.y + 1))] else [])
    + (if p.x > 0 then [Own(Pos(p.x - 1, p.y))] else [])
    + (if p.x < nbCol - 1 then [Own(Pos(p.x + 1, p.y))] else [])
  }

  /** The platform's keys are the variables of its neighbours, position by position. */
  lemma PlatformKeysNeighbours(nbLine: nat, nbCol: nat, p: Pos)
    requires InBounds(nbLine, nbCol, p)
    ensures var ks, ns := PlatformKeys(nbLine, nbCol, p), Neighbours(nbLine, nbCol, p);
      |ks| == |ns| && forall i :: 0 <= i < |ks| ==> ks[i] == Own(ns[i])
  {
  }

  /** `for num in p: eq[num] = v`. */
  function PutAll(eq: Dict, ks: seq<Key>, v: real): (e: Dict)
    requires ValidDict(eq)
    ensures ValidDict(e)
  {
    if ks == [] then eq else Put(PutAll(eq, ks[..|ks| - 1], v), ks[|ks| - 1], v)
  }

  /** Every listed key holds `v` afterwards, keys are only appended and nothing else changes. */
  lemma {:induction false} PutAllValues(eq: Dict, ks: seq<Key>, v: real)
    requires ValidDict(eq)
    ensures eq.keys <= PutAll(eq, ks, v).keys
    ensures forall k :: k in ks ==> k in PutAll(eq, ks, v).vals && PutAll(eq, ks, v).vals[k] == v
    ensures SameElsewhere(eq, PutAll(eq, ks, v), set k | k in ks)
  {
    if ks != [] {
      var init := ks[..|ks| - 1];
      PutAllValues(eq, init, v);
      assert ks == init + [ks[|ks| - 1]];
    }
  }

  /** One share of gamma to each of the keys `ks`; no keys, no division. */
  function Spread(eq: Dict, ks: seq<Key>, gamma: real): (e: Dict)
    requires ValidDict(eq)
    ensures ValidDict(e)
  {
    if |ks| == 0 then eq else PutAll(eq, ks, Share(1, |ks|, gamma))
  }

  /** The spread of a platform (policy_iteration.py:142-163): one share of gamma to each neighbour inside the level. */
  function PlatformSpread(nbLine: nat, nbCol: nat, p: Pos, eq: Dict, gamma: real): (e: Dict)
    requires InBounds(nbLine, nbCol, p) && ValidDict(eq)
    ensures ValidDict(e)
  {
    Spread(eq, PlatformKeys(nbLine, nbCol, p), gamma)
  }

  /** A platform lists each of its neighbours inside the level, and only those. */
  lemma NeighboursFacts(nbLine: nat, nbCol: nat, p: Pos)
    requires InBounds(nbLine, nbCol, p)
    ensures var ns := Neighbours(nbLine, nbCol, p);
      && |ns| == (if p.y > 0 then 1 else 0) + (if p.y < nbLine - 1 then 1 else 0) + (if p.x > 0 then 1 else 0) + (if p.x < nbCol - 1 then 1 else 0)
      && (forall d: Direction :: InBounds(nbLine, nbCol, Moved(p, d)) ==> Moved(p, d) in ns)
      && (forall i :: 0 <= i < |ns| ==> exists d: Direction :: InBounds(nbLine, nbCol, Moved(p, d)) && ns[i] == Moved(p, d))
  {
    var ns := Neighbours(nbLine, nbCol, p);
    forall d: Direction | InBounds(nbLine, nbCol, Moved(p, d))
      ensures Moved(p, d) in ns
    {
      match d
      case Up =>
      case Down =>
      case Left =>
      case Right =>
    }
    forall i | 0 <= i < |ns|
      ensures exists d: Direction :: InBounds(nbLine, nbCol, Moved(p, d)) && ns[i] == Moved(p, d)
    {
      if p.y > 0 && ns[i] == Pos(p.x, p.y - 1) {
        assert Moved(p, Up) == ns[i];
      } else if p.y < nbLine - 1 && ns[i] == Pos(p.x, p.y + 1) {
        assert Moved(p, Down) == ns[i];
      } else if p.x > 0 && ns[i] == Pos(p.x - 1, p.y) {
        assert Moved(p, Left) == ns[i];
      } else {
        assert Moved(p, Right) == ns[i];
      }
    }
  }

  /**
    Spreading over `cpt` keys gives each of them `gamma / cpt` and changes
    nothing else; for a platform the keys are its neighbours inside the level,
    walls included (NeighboursFacts).
  */
  lemma SpreadValues(eq: Dict, ks: seq<Key>, gamma: real)
    requires ValidDict(eq)
    ensures var e := Spread(eq, ks, gamma);
      && eq.keys <= e.keys
      && (forall k :: k in ks ==> k in e.vals && e.vals[k] == Share(1, |ks|, gamma))
      && SameElsewhere(eq, e, set k | k in ks)
  {
    if |ks| > 0 {
      PutAllValues(eq, ks, Share(1, |ks|, gamma));
    }
  }

  /**
    define_equations (policy_iteration.py:98-163). The portal's counting loops
    rebind `y` and `x`, so the platform test that follows looks at the
    bottom-right cell: a portal whose bottom-right cell is a platform also
    writes that platform's spread and a second right-hand side.
  */
  function Defined(g: Grid, nbLine: nat, nbCol: nat, p: Pos, dt: seq<seq<char>>, eq: Dict, rest: seq<real>, gamma: real, r: Rewards, hasSword: bool): (res: Option<(Dict, seq<real>)>)
    requires Covers(g, nbLine, nbCol) && InBounds(nbLine, nbCol, p) && PolicyCovers(dt, nbLine, nbCol) && ValidDict(eq) && Total(r)
    ensures res.Some? ==> ValidDict(res.value.0)
  {
    var c := At(g, nbLine, nbCol, p);
    if c != Portal && c != Platform then Some(Follow(g, nbLine, nbCol, p, dt, eq, rest, gamma, r, hasSword))
    else if c == Portal then
      match PortalSpread(g, nbLine, nbCol, p, eq, gamma)
      case None => None
      case Some(e) =>
        var corner := Pos(nbCol - 1, nbLine - 1);
        if At(g, nbLine, nbCol, corner) == Platform then Some((PlatformSpread(nbLine, nbCol, corner, e, gamma), rest + [0.0, 0.0]))
        else Some((e, rest + [0.0]))
    else Some((PlatformSpread(nbLine, nbCol, p, eq, gamma), rest + [0.0]))
  }

  /**
    Each call adds one right-hand side, except a portal whose bottom-right cell
    is a platform, which adds two; with every cell's variable a key, it never
    fails.
  */
  lemma DefinedRest(g: Grid, nbLine: nat, nbCol: nat, p: Pos, dt: seq<seq<char>>, eq: Dict, rest: seq<real>, gamma: real, r: Rewards, hasSword: bool)
    requires Covers(g, nbLine, nbCol) && InBounds(nbLine, nbCol, p) && PolicyCovers(dt, nbLine, nbCol) && ValidDict(eq) && Total(r)
    requires forall y, x :: 0 <= y < nbLine && 0 <= x < nbCol ==> Named(VarName(y, x)) in eq.vals
    ensures var res := Defined(g, nbLine, nbCol, p, dt, eq, rest, gamma, r, hasSword);
      && res.Some?
      && res.value.1[..|rest|] == rest
      && |res.value.1| == |rest| + if At(g, nbLine, nbCol, p) == Portal && g[nbLine - 1][nbCol - 1] == Platform then 2 else 1
  {
    var c := At(g, nbLine, nbCol, p);
    if c == Portal {
      PortalSpreadDefined(g, nbLine, nbCol, p, eq, gamma);
    } else if c != Platform {
      assert Defined(g, nbLine, nbCol, p, dt, eq, rest, gamma, r, hasSword) == Some(Follow(g, nbLine, nbCol, p, dt, eq, rest, gamma, r, hasSword));
    }
  }

  /** With every cell's variable a key, a portal never raises KeyError. */
  lemma PortalSpreadDefined(g: Grid, nbLine: nat, nbCol: nat, p: Pos, eq: Dict, gamma: real)
    requires Covers(g, nbLine, nbCol) && InBounds(nbLine, nbCol, p) && At(g, nbLine, nbCol, p) == Portal && ValidDict(eq)
    requires forall y, x :: 0 <= y < nbLine && 0 <= x < nbCol ==> Named(VarName(y, x)) in eq.vals
    ensures PortalSpread(g, nbLine, nbCol, p, eq, gamma).Some?
  {
    PortalSpreadValues(g, nbLine, nbCol, p, eq, gamma);
  }

  /**
    The four letter cases of define_equations (policy_iteration.py:100-123):
    the neighbour the letter points to, and whether the tests let it be
    entered (inside the level and not a wall).
  */
  method Target(g: Grid, nbLine: nat, nbCol: nat, y: nat, x: nat, letter: char) returns (t: Pos, open: bool)
    requires Covers(g, nbLine, nbCol) && y < nbLine && x < nbCol
    ensures t == Moved(Pos(x, y), LetterMove(letter)) && (open <==> CanEnter(g, nbLine, nbCol, t))
  {
    if letter == 'u' {
      t := Pos(x, y - 1);
      open := y > 0 && g[y - 1][x] != Wall;
    } else if letter == 'd' {
      t := Pos(x, y + 1);
      open := y < nbLine - 1 && g[y + 1][x] != Wall;
    } else if letter == 'l' {
      t := Pos(x - 1, y);
      open := x > 0 && g[y][x - 1] != Wall;
    } else {
      t := Pos(x + 1, y);
      open := x < nbCol - 1 && g[y][x + 1] != Wall;
    }
  }

  /**
    The branch of define_equations for a cell that is neither portal nor
    platform (policy_iteration.py:99-123): the right-hand side gets the
    negated reward of the neighbour the letter points to and the neighbour's
    coefficients are set, or, when it cannot be entered, the cell's own
    negated reward.
  */
  method FollowStep(g: Grid, nbLine: nat, nbCol: nat, y: nat, x: nat, dt: seq<seq<char>>, eq: Dict, rest: seq<real>, gamma: real, r: Rewards, hasSword: bool)
    returns (eq': Dict, rest': seq<real>)
    requires Covers(g, nbLine, nbCol) && y < nbLine && x < nbCol && PolicyCovers(dt, nbLine, nbCol) && ValidDict(eq) && Total(r)
    ensures (eq', rest') == Follow(g, nbLine, nbCol, Pos(x, y), dt, eq, rest, gamma, r, hasSword)
  {
    var t, open := Target(g, nbLine, nbCol, y, x, dt[y][x]);
    if open {
      rest' := rest + [(-r[g[t.y][t.x]]) as real];
      eq' := SetVariables(g, nbLine, nbCol, t, eq, gamma, hasSword);
    } else {
      eq', rest' := eq, rest + [(-r[g[y][x]]) as real];
    }
  }

  /** The count of the portal branch, cell by cell in row-major order (policy_iteration.py:127-137). */
  method CountPortal(g: Grid, nbLine: nat, nbCol: nat) returns (p: seq<string>, cpt: nat, nbDead: nat)
    requires Covers(g, nbLine, nbCol)
    ensures Tally(p, cpt, nbDead) == PortalTally(g, nbLine, nbCol)
  {
    p, cpt, nbDead := [], 0, 0;
    for y := 0 to nbLine
      invariant Tally(p, cpt, nbDead) == TallyLines(Tally([], 0, 0), g, nbLine, nbCol, y)
    {
      for x := 0 to nbCol
        invariant Tally(p, cpt, nbDead) == TallyLine(TallyLines(Tally([], 0, 0), g, nbLine, nbCol, y), g, nbLine, nbCol, y, x)
      {
        if g[y][x] != Wall {
          if g[y][x] != Crack {
            p := p + [VarName(y, x)];
          } else {
            nbDead := nbDead + 1;
          }
          cpt := cpt + 1;
        }
      }
    }
  }

  /** `for var in p: if eq[var] != -1: eq[var] = v`, failing on the first name that is not a key (policy_iteration.py:139-141). */
  method MarkLoop(eq: Dict, ps: seq<string>, v: real) returns (res: Option<Dict>)
    requires ValidDict(eq)
    ensures res == MarkAll(eq, ps, v)
  {
    var e := eq;
    for i := 0 to |ps|
      invariant ValidDict(e) && MarkAll(eq, ps[..i], v) == Some(e)
    {
      assert ps[..i + 1][..i] == ps[..i];
      var k := Named(ps[i]);
      if k !in e.vals {
        assert MarkAll(eq, ps[..i + 1], v) == None;
        MarkAllFails(eq, ps, v, i + 1);
        return None;
      }
      if e.vals[k] != -1.0 {
        e := Put(e, k, v);
      }
    }
    assert ps[..|ps|] == ps;
    return Some(e);
  }

  /** Once a prefix fails, so does the whole list. */
  lemma {:induction false} MarkAllFails(eq: Dict, ps: seq<string>, v: real, n: nat)
    requires ValidDict(eq) && n <= |ps| && MarkAll(eq, ps[..n], v).None?
    ensures MarkAll(eq, ps, v).None?
    decreases |ps| - n
  {
    if n < |ps| {
      assert ps[..n + 1][..n] == ps[..n];
      MarkAllFails(eq, ps, v, n + 1);
    } else {
      assert ps[..n] == ps;
    }
  }

  /**
    The neighbour list of the platform branch at (cy, cx)
    (policy_iteration.py:144-161): `cpt` counts the neighbours inside the
    level, each test guarded by the cell at (cy, cx) itself not being a wall.
  */
  method NeighbourKeys(nbLine: nat, nbCol: nat, g: Grid, cy: nat, cx: nat) returns (ps: seq<Key>, cpt: nat)
    requires Covers(g, nbLine, nbCol) && cy < nbLine && cx < nbCol && g[cy][cx] == Platform
    ensures ps == PlatformKeys(nbLine, nbCol, Pos(cx, cy)) && cpt == |ps|
  {
    cpt, ps := 0, [];
    if cy > 0 {
      if g[cy][cx] != Wall {
        cpt := cpt + 1;
        ps := ps + [Own(Pos(cx, cy - 1))];
      }
    }
    if cy < nbLine - 1 {
      if g[cy][cx] != Wall {
        cpt := cpt + 1;
        ps := ps + [Own(Pos(cx, cy + 1))];
      }
    }
    if cx > 0 {
      if g[cy][cx] != Wall {
        cpt := cpt + 1;
        ps := ps + [Own(Pos(cx - 1, cy))];
      }
    }
    if cx < nbCol - 1 {
      if g[cy][cx] != Wall {
        cpt := cpt + 1;
        ps := ps + [Own(Pos(cx + 1, cy))];
      }
    }
  }

  /** `for num in p: eq[num] = (1 / cpt) * gamma` with `cpt` the length of `p` (policy_iteration.py:162-163). */
  method SpreadLoop(eq: Dict, ps: seq<Key>, cpt: nat, gamma: real) returns (eq': Dict)
    requires ValidDict(eq) && cpt == |ps|
    ensures eq' == Spread(eq, ps, gamma)
  {
    eq' := eq;
    for i := 0 to |ps|
      invariant ValidDict(eq') && (cpt > 0 ==> eq' == PutAll(eq, ps[..i], Share(1, cpt, gamma)))
      invariant cpt == 0 ==> eq' == eq
    {
      assert ps[..i + 1][..i] == ps[..i];
      eq' := Put(eq', ps[i], Share(1, cpt, gamma));
    }
    assert ps[..|ps|] == ps;
  }

  /** The platform branch at (cy, cx) (policy_iteration.py:142-163): one share of gamma to each neighbour inside the level. */
  method PlatformStep(nbLine: nat, nbCol: nat, g: Grid, cy: nat, cx: nat, eq: Dict, gamma: real) returns (eq': Dict)
    requires Covers(g, nbLine, nbCol) && cy < nbLine && cx < nbCol && g[cy][cx] == Platform && ValidDict(eq)
    ensures eq' == PlatformSpread(nbLine, nbCol, Pos(cx, cy), eq, gamma)
  {
    var ps, cpt := NeighbourKeys(nbLine, nbCol, g, cy, cx);
    eq' := SpreadLoop(eq, ps, cpt, gamma);
  }

  /**
    define_equations (policy_iteration.py:98-163): adds the coefficients and the
    right-hand side(s) of the equation of cell (y, x); None where the source
    raises KeyError.
  */
  method DefineEquations(g: Grid, nbLine: nat, nbCol: nat, y: nat, x: nat, dt: seq<seq<char>>, eq: Dict, rest: seq<real>, gamma: real, r: Rewards, hasSword: bool)
    returns (res: Option<(Dict, seq<real>)>)
    requires Covers(g, nbLine, nbCol) && y < nbLine && x < nbCol && PolicyCovers(dt, nbLine, nbCol) && ValidDict(eq) && Total(r)
    ensures res == Defined(g, nbLine, nbCol, Pos(x, y), dt, eq, rest, gamma, r, hasSword)
  {
    if g[y][x] != Portal && g[y][x] != Platform {
      var e, rs := FollowStep(g, nbLine, nbCol, y, x, dt, eq, rest, gamma, r, hasSword);
      return Some((e, rs));
    }
    var e, rs := eq, rest;
    var cy, cx := y, x;
    if g[y][x] == Portal {
      rs := rs + [0.0];
      var marked := PortalStep(g, nbLine, nbCol, y, x, e, gamma);
      if marked.None? {
        return None;
      }
      e := marked.value;
      // the counting loops of the portal branch leave their variables at the bottom-right cell
      cy, cx := nbLine - 1, nbCol - 1;
    }
    if g[cy][cx] == Platform {
      assert rs + [0.0] == if g[y][x] == Portal then rest + [0.0, 0.0] else rest + [0.0];
      rs := rs + [0.0];
      e := PlatformStep(nbLine, nbCol, g, cy, cx, e, gamma);
    }
    return Some((e, rs));
  }

  /**
    The portal branch at (y, x) (policy_iteration.py:124-141): death gets the
    share of cracks among the open cells, then every listed name that does not
    hold -1 gets one share; None where a name is not a key.
  */
  method PortalStep(g: Grid, nbLine: nat, nbCol: nat, y: nat, x: nat, eq: Dict, gamma: real) returns (res: Option<Dict>)
    requires Covers(g, nbLine, nbCol) && y < nbLine && x < nbCol && g[y][x] == Portal && ValidDict(eq)
    ensures res == PortalSpread(g, nbLine, nbCol, Pos(x, y), eq, gamma)
  {
    var p, cpt, nbDead := CountPortal(g, nbLine, nbCol);
    PortalTallyFacts(g, nbLine, nbCol);
    assert cpt > 0 by {
      assert g[y][x] != Wall;
    }
    var e := Put(eq, DeadKey, Share(nbDead, cpt, gamma));
    res := MarkLoop(e, p, Share(1, cpt, gamma));
  }

  // ---------------------------------------------------------------------------
  // The linear system of one round (policy_iteration.py:185-199)
  // ---------------------------------------------------------------------------

  /** A system: one row of coefficients per equation, and the right-hand sides. */
  type System = (seq<seq<real>>, seq<real>)

  /** The row of cell (y, x) before define_equations: every variable 0, death 0, the cell's own variable -1. */
  function RowStart(variables: seq<string>, y: nat, x: nat): (eq: Dict)
    ensures ValidDict(eq)
  {
    Put(Put(FromKeys(variables), DeadKey, 0.0), Named(VarName(y, x)), -1.0)
  }

  /** `sys` with the equations of cells (y, 0) to (y, n - 1) appended; None once one of them fails. */
  function EquationsLine(sys: Option<System>, g: Grid, nbLine: nat, nbCol: nat, variables: seq<string>, dt: seq<seq<char>>, gamma: real, r: Rewards, hasSword: bool, y: nat, n: nat): Option<System>
    requires Covers(g, nbLine, nbCol) && PolicyCovers(dt, nbLine, nbCol) && Total(r) && y < nbLine && n <= nbCol
  {
    if n == 0 || sys.None? then sys
    else match EquationsLine(sys, g, nbLine, nbCol, variables, dt, gamma, r, hasSword, y, n - 1)
      case None => None
      case Some(s) =>
        match Defined(g, nbLine, nbCol, Pos(n - 1, y), dt, RowStart(variables, y, n - 1), s.1, gamma, r, hasSword)
        case None => None
        case Some(d) => Some((s.0 + [Values(d.0)], d.1))
  }

  /** The equations of lines 0 to m - 1, in row-major order. */
  function EquationsLines(g: Grid, nbLine: nat, nbCol: nat, variables: seq<string>, dt: seq<seq<char>>, gamma: real, r: Rewards, hasSword: bool, m: nat): Option<System>
    requires Covers(g, nbLine, nbCol) && PolicyCovers(dt, nbLine, nbCol) && Total(r) && m <= nbLine
  {
    if m == 0 then Some(([], []))
    else EquationsLine(EquationsLines(g, nbLine, nbCol, variables, dt, gamma, r, hasSword, m - 1), g, nbLine, nbCol, variables, dt, gamma, r, hasSword, m - 1, nbCol)
  }

  /**
    The death row (policy_iteration.py:194-198): every variable 0 and a 1 under
    the integer key `len(eqdeath) - 1`, which no variable name equals, so it is
    appended as one more entry.
  */
  function DeathRow(variables: seq<string>): (row: seq<real>)
  {
    var d := FromKeys(variables);
    Values(Put(d, Numbered(|d.keys| - 1), 1.0))
  }

  /** The whole system of one round: the cells' equations and then the death equation, whose right-hand side is 500. */
  function Equations(g: Grid, nbLine: nat, nbCol: nat, variables: seq<string>, dt: seq<seq<char>>, gamma: real, r: Rewards, hasSword: bool): Option<System>
    requires Covers(g, nbLine, nbCol) && PolicyCovers(dt, nbLine, nbCol) && Total(r)
  {
    match EquationsLines(g, nbLine, nbCol, variables, dt, gamma, r, hasSword, nbLine)
    case None => None
    case Some(s) => Some((s.0 + [DeathRow(variables)], s.1 + [500.0]))
  }

  /** The death row holds a 0 for each variable and then a single 1. */
  lemma DeathRowShape(variables: seq<string>)
    ensures var d := FromKeys(variables);
      DeathRow(variables) == seq(|d.keys|, _ => 0.0) + [1.0]
  {
    var d := FromKeys(variables);
    FromKeysContents(variables);
    var e := Put(d, Numbered(|d.keys| - 1), 1.0);
    assert Numbered(|d.keys| - 1) !in d.vals;
    assert e.keys == d.keys + [Numbered(|d.keys| - 1)];
    var row := DeathRow(variables);
    assert |row| == |d.keys| + 1;
    forall i | 0 <= i < |d.keys|
      ensures row[i] == 0.0
    {
      assert d.keys[i] in d.vals;
    }
  }

  /** The number of portals among cells (y, 0) to (y, n - 1). */
  function PortalsLine(g: Grid, nbLine: nat, nbCol: nat, y: nat, n: nat): nat
    requires Covers(g, nbLine, nbCol) && y < nbLine && n <= nbCol
  {
    if n == 0 then 0 else PortalsLine(g, nbLine, nbCol, y, n - 1) + if g[y][n - 1] == Portal then 1 else 0
  }

  /** The number of portals in lines 0 to m - 1. */
  function Portals(g: Grid, nbLine: nat, nbCol: nat, m: nat): nat
    requires Covers(g, nbLine, nbCol) && m <= nbLine
  {
    if m == 0 then 0 else Portals(g, nbLine, nbCol, m - 1) + PortalsLine(g, nbLine, nbCol, m - 1, nbCol)
  }

  /** Every cell's variable is among `variables`. */
  ghost predicate AllNamed(nbLine: nat, nbCol: nat, variables: seq<string>) {
    forall y, x :: 0 <= y < nbLine && 0 <= x < nbCol ==> VarName(y, x) in variables
  }

  /** A row starts with every cell's variable as a key when `variables` names them all. */
  lemma RowStartKeys(nbLine: nat, nbCol: nat, variables: seq<string>, y: nat, x: nat)
    requires AllNamed(nbLine, nbCol, variables)
    ensures forall y', x' :: 0 <= y' < nbLine && 0 <= x' < nbCol ==> Named(VarName(y', x')) in RowStart(variables, y, x).vals
  {
    FromKeysContents(variables);
  }

  /** Whether the bottom-right cell is a platform, the case in which a portal adds a second right-hand side. */
  function CornerPlatform(g: Grid, nbLine: nat, nbCol: nat): bool
    requires Covers(g, nbLine, nbCol)
  {
    nbLine > 0 && nbCol > 0 && g[nbLine - 1][nbCol - 1] == Platform
  }

  /**
    With every cell named, a line of equations never fails: it adds one row
    per cell, and one right-hand side per cell plus one per portal when the
    bottom-right cell is a platform.
  */
  lemma {:induction false} EquationsLineShape(s: System, g: Grid, nbLine: nat, nbCol: nat, variables: seq<string>, dt: seq<seq<char>>, gamma: real, r: Rewards, hasSword: bool, y: nat, n: nat)
    requires Covers(g, nbLine, nbCol) && PolicyCovers(dt, nbLine, nbCol) && Total(r) && y < nbLine && n <= nbCol
    requires AllNamed(nbLine, nbCol, variables)
    ensures var res := EquationsLine(Some(s), g, nbLine, nbCol, variables, dt, gamma, r, hasSword, y, n);
      && res.Some?
      && |res.value.0| == |s.0| + n
      && |res.value.1| == |s.1| + n + if CornerPlatform(g, nbLine, nbCol) then PortalsLine(g, nbLine, nbCol, y, n) else 0
  {
    if n > 0 {
      EquationsLineShape(s, g, nbLine, nbCol, variables, dt, gamma, r, hasSword, y, n - 1);
      var before := EquationsLine(Some(s), g, nbLine, nbCol, variables, dt, gamma, r, hasSword, y, n - 1).value;
      RowStartKeys(nbLine, nbCol, variables, y, n - 1);
      DefinedRest(g, nbLine, nbCol, Pos(n - 1, y), dt, RowStart(variables, y, n - 1), before.1, gamma, r, hasSword);
    }
  }

  /** The number of cells in `m` lines of `n` cells, counted line by line. */
  function Area(m: nat, n: nat): nat {
    if m == 0 then 0 else Area(m - 1, n) + n
  }

  lemma {:induction false} AreaIsProduct(m: nat, n: nat)
    ensures Area(m, n) == m * n
  {
    if m > 0 {
      AreaIsProduct(m - 1, n);
      assert (m - 1) * n + n == m * n;
    }
  }

  /** The same over lines 0 to m - 1. */
  lemma {:induction false} EquationsLinesShape(g: Grid, nbLine: nat, nbCol: nat, variables: seq<string>, dt: seq<seq<char>>, gamma: real, r: Rewards, hasSword: bool, m: nat)
    requires Covers(g, nbLine, nbCol) && PolicyCovers(dt, nbLine, nbCol) && Total(r) && m <= nbLine
    requires AllNamed(nbLine, nbCol, variables)
    ensures var res := EquationsLines(g, nbLine, nbCol, variables, dt, gamma, r, hasSword, m);
      && res.Some?
      && |res.value.0| == Area(m, nbCol)
      && |res.value.1| == Area(m, nbCol) + if CornerPlatform(g, nbLine, nbCol) then Portals(g, nbLine, nbCol, m) else 0
  {
    if m > 0 {
      EquationsLinesShape(g, nbLine, nbCol, variables, dt, gamma, r, hasSword, m - 1);
      var before := EquationsLines(g, nbLine, nbCol, variables, dt, gamma, r, hasSword, m - 1).value;
      EquationsLineShape(before, g, nbLine, nbCol, variables, dt, gamma, r, hasSword, m - 1, nbCol);
    }
  }

  /**
    With every cell named, the system of a round has one row per cell plus the
    death row, which comes last with right-hand side 500; there are as many
    right-hand sides as rows unless a portal meets a platform in the
    bottom-right cell, which adds one more per portal.
  */
  lemma EquationsShape(g: Grid, nbLine: nat, nbCol: nat, variables: seq<string>, dt: seq<seq<char>>, gamma: real, r: Rewards, hasSword: bool)
    requires Covers(g, nbLine, nbCol) && PolicyCovers(dt, nbLine, nbCol) && Total(r)
    requires AllNamed(nbLine, nbCol, variables)
    ensures var res := Equations(g, nbLine, nbCol, variables, dt, gamma, r, hasSword);
      && res.Some?
      && |res.value.0| == nbLine * nbCol + 1
      && res.value.0[nbLine * nbCol] == DeathRow(variables)
      && |res.value.1| == |res.value.0| + (if CornerPlatform(g, nbLine, nbCol) then Portals(g, nbLine, nbCol, nbLine) else 0)
      && res.value.1[|res.value.1| - 1] == 500.0
  {
    EquationsLinesShape(g, nbLine, nbCol, variables, dt, gamma, r, hasSword, nbLine);
    AreaIsProduct(nbLine, nbCol);
  }

  /**
    The equations of one round (policy_iteration.py:185-199): for every cell
    in row-major order a fresh row is set up and define_equations fills it,
    then the death row and its right-hand side 500 are appended.
  */
  method WriteEquations(g: Grid, nbLine: nat, nbCol: nat, variables: seq<string>, dt: seq<seq<char>>, gamma: real, r: Rewards, hasSword: bool)
    returns (res: Option<System>)
    requires Covers(g, nbLine, nbCol) && PolicyCovers(dt, nbLine, nbCol) && Total(r)
    ensures res == Equations(g, nbLine, nbCol, variables, dt, gamma, r, hasSword)
  {
    var eqs: seq<seq<real>> := [];
    var rest: seq<real> := [];
    for y := 0 to nbLine
      invariant EquationsLines(g, nbLine, nbCol, variables, dt, gamma, r, hasSword, y) == Some((eqs, rest))
    {
      var line := WriteLine(g, nbLine, nbCol, variables, dt, gamma, r, hasSword, y, (eqs, rest));
      if line.None? {
        LinesFailOn(g, nbLine, nbCol, variables, dt, gamma, r, hasSword, y + 1, nbLine);
        return None;
      }
      eqs, rest := line.value.0, line.value.1;
    }
    var eqdeath := FromKeys(variables);
    eqdeath := Put(eqdeath, Numbered(|eqdeath.keys| - 1), 1.0);
    assert Values(eqdeath) == DeathRow(variables);
    ghost var lines := EquationsLines(g, nbLine, nbCol, variables, dt, gamma, r, hasSword, nbLine);
    assert lines == Some((eqs, rest));
    rest := rest + [500.0];
    eqs := eqs + [Values(eqdeath)];
    return Some((eqs, rest));
  }

  /** The row of cell (y, x) (policy_iteration.py:190-193): a fresh dict, death at 0, the cell itself at -1, then define_equations. */
  method CellRow(g: Grid, nbLine: nat, nbCol: nat, variables: seq<string>, dt: seq<seq<char>>, gamma: real, r: Rewards, hasSword: bool, y: nat, x: nat, rest: seq<real>)
    returns (d: Option<(Dict, seq<real>)>)
    requires Covers(g, nbLine, nbCol) && PolicyCovers(dt, nbLine, nbCol) && Total(r) && y < nbLine && x < nbCol
    ensures d == Defined(g, nbLine, nbCol, Pos(x, y), dt, RowStart(variables, y, x), rest, gamma, r, hasSword)
  {
    var eq := FromKeys(variables);
    eq := Put(eq, DeadKey, 0.0);
    eq := Put(eq, Named(VarName(y, x)), -1.0);
    d := DefineEquations(g, nbLine, nbCol, y, x, dt, eq, rest, gamma, r, hasSword);
  }

  /** The equations of the cells of line `y`, appended to `sys` one cell at a time (policy_iteration.py:186-192). */
  method WriteLine(g: Grid, nbLine: nat, nbCol: nat, variables: seq<string>, dt: seq<seq<char>>, gamma: real, r: Rewards, hasSword: bool, y: nat, sys: System)
    returns (res: Option<System>)
    requires Covers(g, nbLine, nbCol) && PolicyCovers(dt, nbLine, nbCol) && Total(r) && y < nbLine
    ensures res == EquationsLine(Some(sys), g, nbLine, nbCol, variables, dt, gamma, r, hasSword, y, nbCol)
  {
    var eqs, rest := sys.0, sys.1;
    for x := 0 to nbCol
      invariant EquationsLine(Some(sys), g, nbLine, nbCol, variables, dt, gamma, r, hasSword, y, x) == Some((eqs, rest))
    {
      var d := CellRow(g, nbLine, nbCol, variables, dt, gamma, r, hasSword, y, x, rest);
      EquationsLineNext(sys, g, nbLine, nbCol, variables, dt, gamma, r, hasSword, y, x, eqs, rest, d);
      if d.None? {
        return None;
      }
      eqs := eqs + [Values(d.value.0)];
      rest := d.value.1;
    }
    return Some((eqs, rest));
  }

  /** The equations of cell x extend the line written so far, and a failure there fails the whole line. */
  lemma EquationsLineNext(sys: System, g: Grid, nbLine: nat, nbCol: nat, variables: seq<string>, dt: seq<seq<char>>, gamma: real, r: Rewards, hasSword: bool, y: nat, x: nat, eqs: seq<seq<real>>, rest: seq<real>, d: Option<(Dict, seq<real>)>)
    requires Covers(g, nbLine, nbCol) && PolicyCovers(dt, nbLine, nbCol) && Total(r) && y < nbLine && x < nbCol
    requires EquationsLine(Some(sys), g, nbLine, nbCol, variables, dt, gamma, r, hasSword, y, x) == Some((eqs, rest))
    requires d == Defined(g, nbLine, nbCol, Pos(x, y), dt, RowStart(variables, y, x), rest, gamma, r, hasSword)
    ensures d.None? ==> EquationsLine(Some(sys), g, nbLine, nbCol, variables, dt, gamma, r, hasSword, y, nbCol).None?
    ensures d.Some? ==> EquationsLine(Some(sys), g, nbLine, nbCol, variables, dt, gamma, r, hasSword, y, x + 1) == Some((eqs + [Values(d.value.0)], d.value.1))
  {
    if d.None? {
      LineFailsOn(Some(sys), g, nbLine, nbCol, variables, dt, gamma, r, hasSword, y, x + 1, nbCol);
    }
  }

  /** Within a line, failure carries over to every later cell. */
  lemma {:induction false} LineFailsOn(sys: Option<System>, g: Grid, nbLine: nat, nbCol: nat, variables: seq<string>, dt: seq<seq<char>>, gamma: real, r: Rewards, hasSword: bool, y: nat, n: nat, n': nat)
    requires Covers(g, nbLine, nbCol) && PolicyCovers(dt, nbLine, nbCol) && Total(r) && y < nbLine && n <= n' <= nbCol
    requires EquationsLine(sys, g, nbLine, nbCol, variables, dt, gamma, r, hasSword, y, n).None?
    ensures EquationsLine(sys, g, nbLine, nbCol, variables, dt, gamma, r, hasSword, y, n').None?
    decreases n' - n
  {
    if n < n' {
      LineFailsOn(sys, g, nbLine, nbCol, variables, dt, gamma, r, hasSword, y, n, n' - 1);
    }
  }

  /** Failure of the first m lines carries over to all lines. */
  lemma {:induction false} LinesFailOn(g: Grid, nbLine: nat, nbCol: nat, variables: seq<string>, dt: seq<seq<char>>, gamma: real, r: Rewards, hasSword: bool, m: nat, m': nat)
    requires Covers(g, nbLine, nbCol) && PolicyCovers(dt, nbLine, nbCol) && Total(r) && m <= m' <= nbLine
    requires EquationsLines(g, nbLine, nbCol, variables, dt, gamma, r, hasSword, m).None?
    ensures EquationsLines(g, nbLine, nbCol, variables, dt, gamma, r, hasSword, m').None?
    decreases m' - m
  {
    if m < m' {
      LinesFailOn(g, nbLine, nbCol, variables, dt, gamma, r, hasSword, m, m' - 1);
    }
  }

  // ---------------------------------------------------------------------------
  // Improving the policy (policy_iteration.py:200-258)
  // ---------------------------------------------------------------------------

  /** The penalty get_possible_move charges for damage (policy_iteration.py:245). */
  const Damage: real := -10.0

  /** The value get_possible_move gives to death (policy_iteration.py:246). */
  const Dead: real := -100.0

  /** `dt1` holds a value for every cell of the `nbLine` x `nbCol` box. */
  predicate ValuesCover(dt1: seq<seq<real>>, nbLine: nat, nbCol: nat) {
    nbLine <= |dt1| && forall y :: 0 <= y < nbLine ==> nbCol <= |dt1[y]|
  }

  /**
    get_possible_move (policy_iteration.py:244-258): the expected value of
    entering the cell under `p`. A trap reads the solution at line nbCol - 1,
    column nbLine - 1, which only exists when those fit the level; None where
    the source raises IndexError.
  */
  function PossibleMove(g: Grid, nbLine: nat, nbCol: nat, p: Pos, dt1: seq<seq<real>>, hasSword: bool): (m: Option<real>)
    requires Covers(g, nbLine, nbCol) && InBounds(nbLine, nbCol, p) && ValuesCover(dt1, nbLine, nbCol)
    ensures m.None? <==> At(g, nbLine, nbCol, p) == Trap && !(nbCol - 1 < nbLine && nbLine - 1 < nbCol)
    ensures At(g, nbLine, nbCol, p) == Crack ==> m == Some(Dead)
    ensures At(g, nbLine, nbCol, p) !in {Trap, Crack, Enemy} ==> m == Some(dt1[p.y][p.x])
  {
    var own := dt1[p.y][p.x];
    match At(g, nbLine, nbCol, p)
    case Trap =>
      if nbCol - 1 < nbLine && nbLine - 1 < nbCol then Some(0.1 * Damage + 0.3 * dt1[nbCol - 1][nbLine - 1] + 0.6 * own) else None
    case Crack => Some(Dead)
    case Enemy => Some(if hasSword then own else 0.7 * own + 0.3 * Dead)
    case _ => Some(own)
  }

  /** Meeting an enemy with the sword is worth the cell's value; without it, the value less a 0.3 chance of death. */
  lemma PossibleMoveEnemy(g: Grid, nbLine: nat, nbCol: nat, p: Pos, dt1: seq<seq<real>>)
    requires Covers(g, nbLine, nbCol) && InBounds(nbLine, nbCol, p) && ValuesCover(dt1, nbLine, nbCol) && At(g, nbLine, nbCol, p) == Enemy
    ensures PossibleMove(g, nbLine, nbCol, p, dt1, true) == Some(dt1[p.y][p.x])
    ensures PossibleMove(g, nbLine, nbCol, p, dt1, false) == Some(0.7 * dt1[p.y][p.x] - 30.0)
    ensures dt1[p.y][p.x] > Dead ==> PossibleMove(g, nbLine, nbCol, p, dt1, false).value < PossibleMove(g, nbLine, nbCol, p, dt1, true).value
  {
  }

  /** A larger solution never makes a move worth less. */
  lemma PossibleMoveMonotone(g: Grid, nbLine: nat, nbCol: nat, p: Pos, dt1: seq<seq<real>>, dt1': seq<seq<real>>, hasSword: bool)
    requires Covers(g, nbLine, nbCol) && InBounds(nbLine, nbCol, p) && ValuesCover(dt1, nbLine, nbCol) && ValuesCover(dt1', nbLine, nbCol)
    requires forall y, x :: 0 <= y < nbLine && 0 <= x < nbCol ==> dt1[y][x] <= dt1'[y][x]
    ensures var m, m' := PossibleMove(g, nbLine, nbCol, p, dt1, hasSword), PossibleMove(g, nbLine, nbCol, p, dt1', hasSword);
      m.Some? ==> m'.Some? && m.value <= m'.value
  {
  }

  /** The actions in the order policy_iteration scores them (policy_iteration.py:176). */
  const Acts: seq<char> := ['u', 'd', 'l', 'r']

  /** A cell that does not act: portals, platforms and walls. */
  predicate Resting(c: Cell) {
    c == Portal || c == Platform || c == Wall
  }

  /** The neighbour action `Acts[i]` leads to from p. */
  function Toward(p: Pos, i: nat): Pos
    requires i < 4
  {
    Moved(p, LetterMove(Acts[i]))
  }

  /**
    What one action is worth from a cell: nothing when its neighbour cannot be
    entered, a failure when the neighbour's possible move raises IndexError,
    else a score.
  */
  datatype Assessment = Closed | Failing | Worth(v: real)

  /** One branch of the `for act in a` loop (policy_iteration.py:208-227), for action `Acts[i]` at p. */
  function Assess(g: Grid, nbLine: nat, nbCol: nat, p: Pos, dt1: seq<seq<real>>, gamma: real, r: Rewards, hasSword: bool, i: nat): (a: Assessment)
    requires Covers(g, nbLine, nbCol) && ValuesCover(dt1, nbLine, nbCol) && Total(r) && i < 4
    ensures a.Closed? <==> !CanEnter(g, nbLine, nbCol, Toward(p, i))
    ensures a.Failing? <==> CanEnter(g, nbLine, nbCol, Toward(p, i)) && PossibleMove(g, nbLine, nbCol, Toward(p, i), dt1, hasSword).None?
  {
    var t := Toward(p, i);
    if !CanEnter(g, nbLine, nbCol, t) then Closed
    else match PossibleMove(g, nbLine, nbCol, t, dt1, hasSword)
      case None => Failing
      case Some(m) => Worth(m * gamma + r[At(g, nbLine, nbCol, t)] as real)
  }

  /** The four actions of cell p, assessed in the order of Acts. */
  function Assessments(g: Grid, nbLine: nat, nbCol: nat, p: Pos, dt1: seq<seq<real>>, gamma: real, r: Rewards, hasSword: bool): (ws: seq<Assessment>)
    requires Covers(g, nbLine, nbCol) && ValuesCover(dt1, nbLine, nbCol) && Total(r)
    ensures |ws| == 4 && forall i :: 0 <= i < 4 ==> ws[i] == Assess(g, nbLine, nbCol, p, dt1, gamma, r, hasSword, i)
  {
    seq(4, i requires 0 <= i < 4 => Assess(g, nbLine, nbCol, p, dt1, gamma, r, hasSword, i))
  }

  /**
    The dict `value` built from the first `n` assessments: each scored action
    under its letter, in order; None once one of them fails.
  */
  function Collect(ws: seq<Assessment>, n: nat): Option<seq<(char, real)>>
    requires n <= |ws| <= 4
  {
    if n == 0 then Some([])
    else match Collect(ws, n - 1)
      case None => None
      case Some(vs) =>
        match ws[n - 1]
        case Closed => Some(vs)
        case Failing => None
        case Worth(v) => Some(vs + [(Acts[n - 1], v)])
  }

  /** The dict `value` of cell p: all four actions at 0 for a resting cell, else the scored ones. */
  function ActValues(g: Grid, nbLine: nat, nbCol: nat, p: Pos, dt1: seq<seq<real>>, gamma: real, r: Rewards, hasSword: bool): Option<seq<(char, real)>>
    requires Covers(g, nbLine, nbCol) && InBounds(nbLine, nbCol, p) && ValuesCover(dt1, nbLine, nbCol) && Total(r)
  {
    if Resting(At(g, nbLine, nbCol, p)) then Some([('u', 0.0), ('d', 0.0), ('l', 0.0), ('r', 0.0)])
    else Collect(Assessments(g, nbLine, nbCol, p, dt1, gamma, r, hasSword), 4)
  }

  /** The scores of a list of scored actions. */
  function Scores(vs: seq<(char, real)>): (s: seq<real>)
    ensures |s| == |vs| && forall i :: 0 <= i < |vs| ==> s[i] == vs[i].1
  {
    seq(|vs|, i requires 0 <= i < |vs| => vs[i].1)
  }

  /**
    `max(value, key=value.get)` (policy_iteration.py:230): the first action
    with the largest score; None when no action could be scored (ValueError).
  */
  function Update(g: Grid, nbLine: nat, nbCol: nat, p: Pos, dt1: seq<seq<real>>, gamma: real, r: Rewards, hasSword: bool): Option<char>
    requires Covers(g, nbLine, nbCol) && InBounds(nbLine, nbCol, p) && ValuesCover(dt1, nbLine, nbCol) && Total(r)
  {
    match ActValues(g, nbLine, nbCol, p, dt1, gamma, r, hasSword)
    case None => None
    case Some(vs) => if vs == [] then None else Some(vs[FirstMaxIndex(Scores(vs))].0)
  }

  /** A resting cell keeps all four actions at 0, so it always turns to 'u', the first of them. */
  lemma UpdateResting(g: Grid, nbLine: nat, nbCol: nat, p: Pos, dt1: seq<seq<real>>, gamma: real, r: Rewards, hasSword: bool)
    requires Covers(g, nbLine, nbCol) && InBounds(nbLine, nbCol, p) && ValuesCover(dt1, nbLine, nbCol) && Total(r)
    requires Resting(At(g, nbLine, nbCol, p))
    ensures Update(g, nbLine, nbCol, p, dt1, gamma, r, hasSword) == Some('u')
  {
    var vs := [('u', 0.0), ('d', 0.0), ('l', 0.0), ('r', 0.0)];
    var s := Scores(vs);
    FirstMaxIndexIsFirstMax(s);
    var k := FirstMaxIndex(s);
    assert k == 0 by {
      assert s[0] == s[k];
    }
  }

  /** Collecting the first `n` assessments fails exactly when one of them fails. */
  lemma {:induction false} CollectFails(ws: seq<Assessment>, n: nat)
    requires n <= |ws| <= 4
    ensures Collect(ws, n).None? <==> exists i :: 0 <= i < n && ws[i].Failing?
  {
    if n > 0 {
      CollectFails(ws, n - 1);
      if ws[n - 1].Failing? {
        assert Collect(ws, n).None?;
      }
    }
  }

  /** The position of a letter in Acts; 4 for any other character. */
  function Rank(c: char): (k: nat)
    ensures k <= 4 && (k < 4 <==> c in Acts) && (k < 4 ==> Acts[k] == c)
  {
    if c == 'u' then 0 else if c == 'd' then 1 else if c == 'l' then 2 else if c == 'r' then 3 else 4
  }

  /**
    Every entry of a successful collection among the first `n` is a scored
    action under its own letter with its score, and the entries follow the
    order of Acts.
  */
  lemma {:induction false} CollectRanks(ws: seq<Assessment>, n: nat)
    requires n <= |ws| <= 4 && Collect(ws, n).Some?
    ensures var vs := Collect(ws, n).value;
      && |vs| <= n
      && (forall j :: 0 <= j < |vs| ==> Rank(vs[j].0) < n && ws[Rank(vs[j].0)] == Worth(vs[j].1))
      && (forall j, k :: 0 <= j < k < |vs| ==> Rank(vs[j].0) < Rank(vs[k].0))
  {
    if n > 0 {
      assert Collect(ws, n - 1).Some?;
      CollectRanks(ws, n - 1);
      var vs := Collect(ws, n).value;
      var before := Collect(ws, n - 1).value;
      if ws[n - 1].Worth? {
        var last := (Acts[n - 1], ws[n - 1].v);
        assert vs == before + [last];
        assert Rank(last.0) == n - 1;
        forall j | 0 <= j < |vs|
          ensures Rank(vs[j].0) < n && ws[Rank(vs[j].0)] == Worth(vs[j].1)
        {
          if j < |before| {
            assert vs[j] == before[j];
          }
        }
        forall j, k | 0 <= j < k < |vs|
          ensures Rank(vs[j].0) < Rank(vs[k].0)
        {
          assert vs[j] == before[j];
          if k < |before| {
            assert vs[k] == before[k];
          }
        }
      }
    }
  }

  /** A successful collection among the first `n` lists every scored action, and none of them failed. */
  lemma {:induction false} CollectComplete(ws: seq<Assessment>, n: nat)
    requires n <= |ws| <= 4 && Collect(ws, n).Some?
    ensures var vs := Collect(ws, n).value;
      && (forall i :: 0 <= i < n && ws[i].Worth? ==> exists j :: 0 <= j < |vs| && vs[j] == (Acts[i], ws[i].v))
      && (forall i :: 0 <= i < n ==> !ws[i].Failing?)
  {
    if n > 0 {
      assert Collect(ws, n - 1).Some?;
      CollectComplete(ws, n - 1);
      var vs := Collect(ws, n).value;
      var before := Collect(ws, n - 1).value;
      if ws[n - 1].Worth? {
        assert vs == before + [(Acts[n - 1], ws[n - 1].v)];
        assert vs[|before|] == (Acts[n - 1], ws[n - 1].v);
        forall i | 0 <= i < n - 1 && ws[i].Worth?
          ensures exists j :: 0 <= j < |vs| && vs[j] == (Acts[i], ws[i].v)
        {
          var j :| 0 <= j < |before| && before[j] == (Acts[i], ws[i].v);
          assert vs[j] == before[j];
        }
      }
    }
  }

  /**
    In a non-empty list of scored actions ordered as Acts, listing every
    scored action once, the first largest entry is a scored action no other
    beats, and every action before it in Acts scores strictly less.
  */
  lemma FirstMaxRank(ws: seq<Assessment>, vs: seq<(char, real)>)
    requires |ws| == 4 && vs != []
    requires forall j :: 0 <= j < |vs| ==> Rank(vs[j].0) < 4 && ws[Rank(vs[j].0)] == Worth(vs[j].1)
    requires forall j, k :: 0 <= j < k < |vs| ==> Rank(vs[j].0) < Rank(vs[k].0)
    requires forall i :: 0 <= i < 4 && ws[i].Worth? ==> exists j :: 0 <= j < |vs| && vs[j] == (Acts[i], ws[i].v)
    ensures var i := Rank(vs[FirstMaxIndex(Scores(vs))].0);
      && i < 4 && ws[i].Worth?
      && (forall k :: 0 <= k < 4 && ws[k].Worth? ==> ws[k].v <= ws[i].v)
      && (forall k :: 0 <= k < i && ws[k].Worth? ==> ws[k].v < ws[i].v)
  {
    var s := Scores(vs);
    FirstMaxIndexIsFirstMax(s);
    var m := FirstMaxIndex(s);
    var i := Rank(vs[m].0);
    assert ws[i].v == s[m];
    forall k | 0 <= k < 4 && ws[k].Worth?
      ensures ws[k].v <= s[m]
      ensures k < i ==> ws[k].v < s[m]
    {
      var j :| 0 <= j < |vs| && vs[j] == (Acts[k], ws[k].v);
      FirstMaxBeats(vs, k, j);
    }
  }

  /** The entry `j` of action `k` scores no more than the first largest entry, and less when `k` comes first in Acts. */
  lemma FirstMaxBeats(vs: seq<(char, real)>, k: nat, j: nat)
    requires vs != [] && k < 4 && j < |vs| && vs[j].0 == Acts[k]
    requires forall j, k :: 0 <= j < k < |vs| ==> Rank(vs[j].0) < Rank(vs[k].0)
    ensures var m := FirstMaxIndex(Scores(vs));
      && vs[j].1 <= vs[m].1
      && (k < Rank(vs[m].0) ==> vs[j].1 < vs[m].1)
  {
    var s := Scores(vs);
    FirstMaxIndexIsFirstMax(s);
    var m := FirstMaxIndex(s);
    assert Rank(vs[j].0) == k && s[j] == vs[j].1 && s[m] == vs[m].1;
    if j < m {
      assert s[j] < s[m];
    } else if j > m {
      assert Rank(vs[m].0) < k;
    }
  }

  /**
    Outside portals, platforms and walls, `max` raises ValueError or an action
    raises IndexError (None) exactly when some action fails or no action can
    be scored.
  */
  lemma UpdateNone(g: Grid, nbLine: nat, nbCol: nat, p: Pos, dt1: seq<seq<real>>, gamma: real, r: Rewards, hasSword: bool)
    requires Covers(g, nbLine, nbCol) && InBounds(nbLine, nbCol, p) && ValuesCover(dt1, nbLine, nbCol) && Total(r)
    requires !Resting(At(g, nbLine, nbCol, p))
    ensures var ws := Assessments(g, nbLine, nbCol, p, dt1, gamma, r, hasSword);
      Update(g, nbLine, nbCol, p, dt1, gamma, r, hasSword).None? <==>
        (exists i :: 0 <= i < 4 && ws[i].Failing?) || (forall i :: 0 <= i < 4 ==> ws[i].Closed?)
  {
    var ws := Assessments(g, nbLine, nbCol, p, dt1, gamma, r, hasSword);
    CollectFails(ws, 4);
    if Collect(ws, 4).Some? {
      CollectRanks(ws, 4);
      CollectComplete(ws, 4);
      var vs := Collect(ws, 4).value;
      if vs == [] {
        forall i | 0 <= i < 4
          ensures ws[i].Closed?
        {
          assert !ws[i].Worth?;
        }
      } else {
        assert ws[Rank(vs[0].0)].Worth?;
      }
    }
  }

  /**
    Outside portals, platforms and walls, the new letter is that of a scored
    action whose score no other scored action beats, and every action listed
    before it in Acts scores strictly less: the first largest, as `max` takes it.
  */
  lemma UpdateFirstMax(g: Grid, nbLine: nat, nbCol: nat, p: Pos, dt1: seq<seq<real>>, gamma: real, r: Rewards, hasSword: bool)
    requires Covers(g, nbLine, nbCol) && InBounds(nbLine, nbCol, p) && ValuesCover(dt1, nbLine, nbCol) && Total(r)
    requires !Resting(At(g, nbLine, nbCol, p)) && Update(g, nbLine, nbCol, p, dt1, gamma, r, hasSword).Some?
    ensures var ws := Assessments(g, nbLine, nbCol, p, dt1, gamma, r, hasSword);
      var i := Rank(Update(g, nbLine, nbCol, p, dt1, gamma, r, hasSword).value);
      && i < 4 && ws[i].Worth?
      && (forall k :: 0 <= k < 4 && ws[k].Worth? ==> ws[k].v <= ws[i].v)
      && (forall k :: 0 <= k < i && ws[k].Worth? ==> ws[k].v < ws[i].v)
  {
    var ws := Assessments(g, nbLine, nbCol, p, dt1, gamma, r, hasSword);
    var vs := Collect(ws, 4).value;
    assert vs != [] && Update(g, nbLine, nbCol, p, dt1, gamma, r, hasSword).value == vs[FirstMaxIndex(Scores(vs))].0;
    CollectFirstMax(ws, vs);
  }

  /** The first largest of the collected scores, in terms of the four assessments. */
  lemma CollectFirstMax(ws: seq<Assessment>, vs: seq<(char, real)>)
    requires |ws| == 4 && Collect(ws, 4) == Some(vs) && vs != []
    ensures var i := Rank(vs[FirstMaxIndex(Scores(vs))].0);
      && i < 4 && ws[i].Worth?
      && (forall k :: 0 <= k < 4 && ws[k].Worth? ==> ws[k].v <= ws[i].v)
      && (forall k :: 0 <= k < i && ws[k].Worth? ==> ws[k].v < ws[i].v)
  {
    CollectRanks(ws, 4);
    CollectComplete(ws, 4);
    FirstMaxRank(ws, vs);
  }

  /**
    The bounds test and the wall test of action `act` at (y, x)
    (policy_iteration.py:208-226): whether its neighbour can be entered, and
    which cell that is.
  */
  method ActTarget(g: Grid, nbLine: nat, nbCol: nat, y: nat, x: nat, act: char) returns (ty: nat, tx: nat, open: bool)
    requires Covers(g, nbLine, nbCol) && y < nbLine && x < nbCol && act in Acts
    ensures open <==> CanEnter(g, nbLine, nbCol, Toward(Pos(x, y), Rank(act)))
    ensures open ==> Toward(Pos(x, y), Rank(act)) == Pos(tx, ty)
  {
    ty, tx, open := y, x, false;
    if act == 'u' {
      if y > 0 {
        ty, open := y - 1, g[y - 1][x] != Wall;
      }
    } else if act == 'd' {
      if y < nbLine - 1 {
        ty, open := y + 1, g[y + 1][x] != Wall;
      }
    } else if act == 'l' {
      if x > 0 {
        tx, open := x - 1, g[y][x - 1] != Wall;
      }
    } else {
      if x < nbCol - 1 {
        tx, open := x + 1, g[y][x + 1] != Wall;
      }
    }
  }

  /**
    One pass of `for act in a` outside portals, platforms and walls
    (policy_iteration.py:208-227): the bounds test and the wall test for the
    neighbour of action `act` at (y, x), then its possible move.
  */
  method ActStep(g: Grid, nbLine: nat, nbCol: nat, y: nat, x: nat, dt1: seq<seq<real>>, gamma: real, r: Rewards, hasSword: bool, act: char)
    returns (a: Assessment)
    requires Covers(g, nbLine, nbCol) && ValuesCover(dt1, nbLine, nbCol) && Total(r)
    requires y < nbLine && x < nbCol && act in Acts
    ensures a == Assess(g, nbLine, nbCol, Pos(x, y), dt1, gamma, r, hasSword, Rank(act))
  {
    var ty, tx, open := ActTarget(g, nbLine, nbCol, y, x, act);
    if !open {
      return Closed;
    }
    assert Toward(Pos(x, y), Rank(act)) == Pos(tx, ty);
    assert At(g, nbLine, nbCol, Pos(tx, ty)) == g[ty][tx];
    var m := PossibleMove(g, nbLine, nbCol, Pos(tx, ty), dt1, hasSword);
    if m.None? {
      return Failing;
    }
    a := Worth(m.value * gamma + r[g[ty][tx]] as real);
    assert a == Assess(g, nbLine, nbCol, Pos(x, y), dt1, gamma, r, hasSword, Rank(act)) by {
      var t := Toward(Pos(x, y), Rank(act));
      assert t == Pos(tx, ty) && CanEnter(g, nbLine, nbCol, t);
      assert PossibleMove(g, nbLine, nbCol, t, dt1, hasSword) == m;
      assert At(g, nbLine, nbCol, t) == g[ty][tx];
      assert Assess(g, nbLine, nbCol, Pos(x, y), dt1, gamma, r, hasSword, Rank(act)) == Worth(m.value * gamma + r[At(g, nbLine, nbCol, t)] as real);
    }
  }

  /**
    The dict `value` of cell (y, x) built action by action (policy_iteration.py:205-229);
    None where get_possible_move raises.
  */
  method ActValuesLoop(g: Grid, nbLine: nat, nbCol: nat, y: nat, x: nat, dt1: seq<seq<real>>, gamma: real, r: Rewards, hasSword: bool)
    returns (value: Option<seq<(char, real)>>)
    requires Covers(g, nbLine, nbCol) && ValuesCover(dt1, nbLine, nbCol) && Total(r) && y < nbLine && x < nbCol
    ensures value == ActValues(g, nbLine, nbCol, Pos(x, y), dt1, gamma, r, hasSword)
  {
    var p := Pos(x, y);
    var resting := g[y][x] == Portal || g[y][x] == Platform || g[y][x] == Wall;
    ghost var ws := Assessments(g, nbLine, nbCol, p, dt1, gamma, r, hasSword);
    var vs: seq<(char, real)> := [];
    for i := 0 to 4
      invariant resting ==> vs == [('u', 0.0), ('d', 0.0), ('l', 0.0), ('r', 0.0)][..i]
      invariant !resting ==> Collect(ws, i) == Some(vs)
    {
      var act := Acts[i];
      if !resting {
        var a := ActStep(g, nbLine, nbCol, y, x, dt1, gamma, r, hasSword, act);
        assert a == ws[i];
        match a
        case Closed =>
        case Failing =>
          CollectFailsOn(ws, i + 1, 4);
          return None;
        case Worth(v) =>
          vs := vs + [(act, v)];
      } else {
        vs := vs + [(act, 0.0)];
      }
    }
    assert resting ==> vs == [('u', 0.0), ('d', 0.0), ('l', 0.0), ('r', 0.0)];
    return Some(vs);
  }

  /** Once a collection has failed, collecting more keeps failing. */
  lemma {:induction false} CollectFailsOn(ws: seq<Assessment>, n: nat, n': nat)
    requires n <= n' <= |ws| <= 4 && Collect(ws, n).None?
    ensures Collect(ws, n').None?
    decreases n' - n
  {
    if n < n' {
      CollectFailsOn(ws, n, n' - 1);
    }
  }

  // ---------------------------------------------------------------------------
  // One improvement sweep and the outer loop (policy_iteration.py:176-241)
  // ---------------------------------------------------------------------------

  /** A policy of exactly `nbLine` lines of `nbCol` letters, as init_p_i builds it. */
  predicate PolicyShaped(dt: seq<seq<char>>, nbLine: nat, nbCol: nat) {
    |dt| == nbLine && forall y :: 0 <= y < |dt| ==> |dt[y]| == nbCol
  }

  /** Every cell's update, line by line. */
  function UpdateTable(g: Grid, nbLine: nat, nbCol: nat, dt1: seq<seq<real>>, gamma: real, r: Rewards, hasSword: bool): (u: seq<seq<Option<char>>>)
    requires Covers(g, nbLine, nbCol) && ValuesCover(dt1, nbLine, nbCol) && Total(r)
    ensures |u| == nbLine && forall y :: 0 <= y < nbLine ==> |u[y]| == nbCol
    ensures forall y, x :: 0 <= y < nbLine && 0 <= x < nbCol ==> u[y][x] == Update(g, nbLine, nbCol, Pos(x, y), dt1, gamma, r, hasSword)
  {
    seq(nbLine, y requires 0 <= y < nbLine =>
      seq(nbCol, x requires 0 <= x < nbCol => Update(g, nbLine, nbCol, Pos(x, y), dt1, gamma, r, hasSword)))
  }

  /** The first `n` letters of line y of a table of updates; None once one of them raises. */
  function FillLine(u: seq<seq<Option<char>>>, y: nat, n: nat): Option<seq<char>>
    requires y < |u| && n <= |u[y]|
  {
    if n == 0 then Some([])
    else match FillLine(u, y, n - 1)
      case None => None
      case Some(line) =>
        match u[y][n - 1]
        case None => None
        case Some(c) => Some(line + [c])
  }

  /** The first `m` lines of `nbCol` letters of a table of updates. */
  function FillLines(u: seq<seq<Option<char>>>, m: nat, nbCol: nat): Option<seq<seq<char>>>
    requires m <= |u| && forall y :: 0 <= y < |u| ==> nbCol <= |u[y]|
  {
    if m == 0 then Some([])
    else match FillLines(u, m - 1, nbCol)
      case None => None
      case Some(lines) =>
        match FillLine(u, m - 1, nbCol)
        case None => None
        case Some(line) => Some(lines + [line])
  }

  /** The improved policy: every cell's new letter from the solution `dt1`. */
  function Improved(g: Grid, nbLine: nat, nbCol: nat, dt1: seq<seq<real>>, gamma: real, r: Rewards, hasSword: bool): Option<seq<seq<char>>>
    requires Covers(g, nbLine, nbCol) && ValuesCover(dt1, nbLine, nbCol) && Total(r)
  {
    FillLines(UpdateTable(g, nbLine, nbCol, dt1, gamma, r, hasSword), nbLine, nbCol)
  }

  /** The first `n` letters of line y are the table's entries; None exactly when one of them is None. */
  lemma {:induction false} FillLineFacts(u: seq<seq<Option<char>>>, y: nat, n: nat)
    requires y < |u| && n <= |u[y]|
    ensures var o := FillLine(u, y, n);
      && (o.None? <==> exists x :: 0 <= x < n && u[y][x].None?)
      && (o.Some? ==> |o.value| == n && forall x :: 0 <= x < n ==> u[y][x] == Some(o.value[x]))
  {
    if n > 0 {
      FillLineFacts(u, y, n - 1);
      var o := FillLine(u, y, n);
      if o.Some? {
        var before := FillLine(u, y, n - 1);
        assert before.Some?;
        assert o.value == before.value + [u[y][n - 1].value];
      }
    }
  }

  /** Once the first `n` letters of a line fail, so do the first `n'`. */
  lemma {:induction false} FillLineNone(u: seq<seq<Option<char>>>, y: nat, n: nat, n': nat)
    requires y < |u| && n <= n' <= |u[y]| && FillLine(u, y, n).None?
    ensures FillLine(u, y, n').None?
    decreases n' - n
  {
    if n < n' {
      FillLineNone(u, y, n, n' - 1);
    }
  }

  /** Once the first `m` lines fail, so do the first `m'`. */
  lemma {:induction false} FillLinesNone(u: seq<seq<Option<char>>>, m: nat, m': nat, nbCol: nat)
    requires m <= m' <= |u| && (forall y :: 0 <= y < |u| ==> nbCol <= |u[y]|) && FillLines(u, m, nbCol).None?
    ensures FillLines(u, m', nbCol).None?
    decreases m' - m
  {
    if m < m' {
      FillLinesNone(u, m, m' - 1, nbCol);
    }
  }

  /** The first `m` lines hold the table's entries; None exactly when one of them is None. */
  lemma {:induction false} FillLinesFacts(u: seq<seq<Option<char>>>, m: nat, nbCol: nat)
    requires m <= |u| && forall y :: 0 <= y < |u| ==> nbCol <= |u[y]|
    ensures var o := FillLines(u, m, nbCol);
      && (o.None? <==> exists y, x :: 0 <= y < m && 0 <= x < nbCol && u[y][x].None?)
      && (o.Some? ==> |o.value| == m && forall y :: 0 <= y < m ==> |o.value[y]| == nbCol)
      && (o.Some? ==> forall y, x :: 0 <= y < m && 0 <= x < nbCol ==> u[y][x] == Some(o.value[y][x]))
  {
    if m > 0 {
      FillLinesFacts(u, m - 1, nbCol);
      FillLineFacts(u, m - 1, nbCol);
      var o := FillLines(u, m, nbCol);
      if o.Some? {
        var before := FillLines(u, m - 1, nbCol);
        assert before.Some?;
        assert o.value == before.value + [FillLine(u, m - 1, nbCol).value];
      }
    }
  }

  /**
    The improved policy has the level's shape and holds every cell's update,
    portals, platforms and walls turned to 'u'; None exactly when some cell's
    update raises.
  */
  lemma ImprovedFacts(g: Grid, nbLine: nat, nbCol: nat, dt1: seq<seq<real>>, gamma: real, r: Rewards, hasSword: bool)
    requires Covers(g, nbLine, nbCol) && ValuesCover(dt1, nbLine, nbCol) && Total(r)
    ensures var o := Improved(g, nbLine, nbCol, dt1, gamma, r, hasSword);
      && (o.None? <==> exists y, x :: 0 <= y < nbLine && 0 <= x < nbCol && Update(g, nbLine, nbCol, Pos(x, y), dt1, gamma, r, hasSword).None?)
      && (o.Some? ==> PolicyShaped(o.value, nbLine, nbCol))
      && (o.Some? ==> forall y, x :: 0 <= y < nbLine && 0 <= x < nbCol ==> Update(g, nbLine, nbCol, Pos(x, y), dt1, gamma, r, hasSword) == Some(o.value[y][x]))
      && (o.Some? ==> forall y, x :: 0 <= y < nbLine && 0 <= x < nbCol && Resting(g[y][x]) ==> o.value[y][x] == 'u')
  {
    var u := UpdateTable(g, nbLine, nbCol, dt1, gamma, r, hasSword);
    FillLinesFacts(u, nbLine, nbCol);
    forall y, x | 0 <= y < nbLine && 0 <= x < nbCol && Resting(g[y][x])
      ensures Update(g, nbLine, nbCol, Pos(x, y), dt1, gamma, r, hasSword) == Some('u')
    {
      UpdateResting(g, nbLine, nbCol, Pos(x, y), dt1, gamma, r, hasSword);
    }
  }

  /** Writing `c` at position x of a line that still holds `orig[x]` there changes it exactly when c differs. */
  lemma WriteLetter(line: seq<char>, orig: seq<char>, x: nat, c: char)
    requires |line| == |orig| && x < |line| && line[x] == orig[x]
    ensures (line[x := c] == orig) <==> (line == orig && c == orig[x])
  {
    if line[x := c] == orig {
      assert c == line[x := c][x];
      forall j | 0 <= j < |line|
        ensures line[j] == orig[j]
      {
        if j != x {
          assert line[j] == line[x := c][j];
        }
      }
    }
    if line == orig && c == orig[x] {
      assert line[x := c] == orig;
    }
  }

  /** Writing line l at position y of a policy that still holds `dt[y]` there changes it exactly when l differs. */
  lemma WritePolicyLine(cur: seq<seq<char>>, dt: seq<seq<char>>, y: nat, l: seq<char>)
    requires |cur| == |dt| && y < |cur| && cur[y] == dt[y]
    ensures (cur[y := l] == dt) <==> (cur == dt && l == dt[y])
  {
    if cur[y := l] == dt {
      assert l == cur[y := l][y];
      forall i | 0 <= i < |cur|
        ensures cur[i] == dt[i]
      {
        if i != y {
          assert cur[i] == cur[y := l][i];
        }
      }
    }
  }

  /** The update of cell (y, x): the first action with the largest score (policy_iteration.py:205-230). */
  method CellUpdate(g: Grid, nbLine: nat, nbCol: nat, y: nat, x: nat, dt1: seq<seq<real>>, gamma: real, r: Rewards, hasSword: bool)
    returns (update: Option<char>)
    requires Covers(g, nbLine, nbCol) && ValuesCover(dt1, nbLine, nbCol) && Total(r) && y < nbLine && x < nbCol
    ensures update == Update(g, nbLine, nbCol, Pos(x, y), dt1, gamma, r, hasSword)
  {
    var value := ActValuesLoop(g, nbLine, nbCol, y, x, dt1, gamma, r, hasSword);
    if value.None? || value.value == [] {
      return None;
    }
    return Some(value.value[FirstMaxIndex(Scores(value.value))].0);
  }

  /**
    One line of the improvement sweep (policy_iteration.py:204-234): every
    letter of `line` replaced by its cell's update; `ctn` is set when a letter
    changes. None where an update raises.
  */
  method ImproveLine(g: Grid, nbLine: nat, nbCol: nat, dt1: seq<seq<real>>, gamma: real, r: Rewards, hasSword: bool, y: nat, line: seq<char>, ctn: bool)
    returns (res: Option<seq<char>>, ctn': bool)
    requires Covers(g, nbLine, nbCol) && ValuesCover(dt1, nbLine, nbCol) && Total(r) && y < nbLine && |line| == nbCol
    ensures res == FillLine(UpdateTable(g, nbLine, nbCol, dt1, gamma, r, hasSword), y, nbCol)
    ensures res.Some? ==> (ctn' <==> ctn || res.value != line)
    ensures res.Some? ==> |res.value| == nbCol
  {
    ghost var u := UpdateTable(g, nbLine, nbCol, dt1, gamma, r, hasSword);
    var cur := line;
    ctn' := ctn;
    for x := 0 to nbCol
      invariant |cur| == nbCol && cur[x..] == line[x..]
      invariant FillLine(u, y, x) == Some(cur[..x])
      invariant ctn' <==> ctn || cur != line
    {
      var update := CellUpdate(g, nbLine, nbCol, y, x, dt1, gamma, r, hasSword);
      if update.None? {
        FillLineNone(u, y, x + 1, nbCol);
        return None, ctn';
      }
      ghost var ctn0 := ctn';
      if cur[x] != update.value {
        ctn' := true;
      }
      ImproveLineStep(u, y, line, cur, x, update.value, ctn, ctn0, ctn');
      cur := cur[x := update.value];
    }
    assert cur[..nbCol] == cur;
    return Some(cur), ctn';
  }

  /** Writing the update of cell x keeps the invariants of ImproveLine's loop. */
  lemma ImproveLineStep(u: seq<seq<Option<char>>>, y: nat, line: seq<char>, cur: seq<char>, x: nat, c: char, ctn: bool, ctn0: bool, ctn': bool)
    requires y < |u| && |u[y]| == |line| && x < |line|
    requires |cur| == |line| && cur[x..] == line[x..] && FillLine(u, y, x) == Some(cur[..x])
    requires (ctn0 <==> ctn || cur != line) && u[y][x] == Some(c) && (ctn' <==> ctn0 || cur[x] != c)
    ensures var next := cur[x := c];
      && |next| == |line| && next[x + 1..] == line[x + 1..]
      && FillLine(u, y, x + 1) == Some(next[..x + 1]) && (ctn' <==> ctn || next != line)
  {
    assert cur[x] == line[x] by { assert cur[x..][0] == line[x..][0]; }
    WriteLetter(cur, line, x, c);
    var next := cur[x := c];
    assert next[..x + 1] == cur[..x] + [c];
    assert next[x + 1..] == cur[x..][1..];
    assert line[x + 1..] == line[x..][1..];
  }

  /**
    The improvement sweep (policy_iteration.py:204-235): every cell of `dt`
    gets its update from the solution `dt1`, and `ctn` records whether any
    letter changed; None where an update raises.
  */
  method Improvement(g: Grid, nbLine: nat, nbCol: nat, dt: seq<seq<char>>, dt1: seq<seq<real>>, gamma: real, r: Rewards, hasSword: bool)
    returns (res: Option<seq<seq<char>>>, ctn: bool)
    requires Covers(g, nbLine, nbCol) && ValuesCover(dt1, nbLine, nbCol) && Total(r) && PolicyShaped(dt, nbLine, nbCol)
    ensures res == Improved(g, nbLine, nbCol, dt1, gamma, r, hasSword)
    ensures res.Some? ==> (ctn <==> res.value != dt)
  {
    ghost var u := UpdateTable(g, nbLine, nbCol, dt1, gamma, r, hasSword);
    var cur := dt;
    ctn := false;
    for y := 0 to nbLine
      invariant PolicyShaped(cur, nbLine, nbCol) && cur[y..] == dt[y..]
      invariant FillLines(u, y, nbCol) == Some(cur[..y])
      invariant ctn <==> cur != dt
    {
      var line;
      ghost var ctn0 := ctn;
      assert cur[y] == dt[y] by { assert cur[y..][0] == dt[y..][0]; }
      line, ctn := ImproveLine(g, nbLine, nbCol, dt1, gamma, r, hasSword, y, cur[y], ctn);
      if line.None? {
        FillLinesNone(u, y + 1, nbLine, nbCol);
        return None, ctn;
      }
      ImprovementStep(u, nbLine, nbCol, dt, cur, y, line.value, ctn0, ctn);
      cur := cur[y := line.value];
    }
    assert cur[..nbLine] == cur;
    return Some(cur), ctn;
  }

  /** One line of the improvement sweep keeps the invariants of its loop. */
  lemma ImprovementStep(u: seq<seq<Option<char>>>, nbLine: nat, nbCol: nat, dt: seq<seq<char>>, cur: seq<seq<char>>, y: nat, l: seq<char>, ctn: bool, ctn': bool)
    requires |u| == nbLine && (forall i :: 0 <= i < nbLine ==> |u[i]| == nbCol)
    requires PolicyShaped(cur, nbLine, nbCol) && PolicyShaped(dt, nbLine, nbCol) && y < nbLine && cur[y..] == dt[y..]
    requires FillLines(u, y, nbCol) == Some(cur[..y]) && (ctn <==> cur != dt)
    requires FillLine(u, y, nbCol) == Some(l) && |l| == nbCol && (ctn' <==> ctn || l != cur[y])
    ensures var next := cur[y := l];
      && PolicyShaped(next, nbLine, nbCol) && next[y + 1..] == dt[y + 1..]
      && FillLines(u, y + 1, nbCol) == Some(next[..y + 1]) && (ctn' <==> next != dt)
  {
    assert cur[y] == dt[y] by { assert cur[y..][0] == dt[y..][0]; }
    WritePolicyLine(cur, dt, y, l);
    var next := cur[y := l];
    assert next[..y + 1] == cur[..y] + [l];
    assert next[y + 1..] == cur[y..][1..];
    assert dt[y + 1..] == dt[y..][1..];
  }

  /** The starting policy has the level's shape. */
  lemma InitialPolicyShaped(nbLine: nat, nbCol: nat)
    ensures PolicyShaped(InitialPolicy(nbLine, nbCol), nbLine, nbCol)
  {
    forall y | 0 <= y < nbLine
      ensures |InitialPolicy(nbLine, nbCol)[y]| == nbCol
    {
      AddStartLinesAt([], nbLine, nbCol, y);
    }
  }

  /**
    The linear solver numpy.linalg.solve is outside this model: a parameter
    that maps a system to its solution, None where it raises LinAlgError.
  */
  type Solve = System -> Option<seq<real>>

  /**
    One round of the while loop (policy_iteration.py:184-235): write the
    system for policy `dt`, solve it, reshape the solution (build_dt1, which
    raises IndexError on a short solution) and improve the policy. A policy
    that does not cover the level raises IndexError in define_equations.
  */
  function Round(g: Grid, nbLine: nat, nbCol: nat, dt: seq<seq<char>>, gamma: real, r: Rewards, hasSword: bool, solve: Solve): (res: Option<seq<seq<char>>>)
    requires Covers(g, nbLine, nbCol) && Total(r)
  {
    if !PolicyCovers(dt, nbLine, nbCol) then None
    else match Equations(g, nbLine, nbCol, Names(nbLine, nbCol), dt, gamma, r, hasSword)
    case None => None
    case Some(sys) =>
      match solve(sys)
      case None => None
      case Some(ar) =>
        if |ar| < nbLine * nbCol then None
        else
          Improved(g, nbLine, nbCol, Reshape(ar, nbLine, nbCol), gamma, r, hasSword)
  }

  /** A round leaves portals, platforms and walls at 'u'. */
  lemma RoundResting(g: Grid, nbLine: nat, nbCol: nat, dt: seq<seq<char>>, gamma: real, r: Rewards, hasSword: bool, solve: Solve)
    requires Covers(g, nbLine, nbCol) && Total(r)
    requires Round(g, nbLine, nbCol, dt, gamma, r, hasSword, solve).Some?
    ensures RestingUp(g, nbLine, nbCol, Round(g, nbLine, nbCol, dt, gamma, r, hasSword, solve).value)
  {
    var sys := Equations(g, nbLine, nbCol, Names(nbLine, nbCol), dt, gamma, r, hasSword).value;
    var ar := solve(sys).value;
    ImprovedFacts(g, nbLine, nbCol, Reshape(ar, nbLine, nbCol), gamma, r, hasSword);
  }

  /** `d` has the level's shape, with 'u' on every portal, platform and wall. */
  predicate RestingUp(g: Grid, nbLine: nat, nbCol: nat, d: seq<seq<char>>)
    requires Covers(g, nbLine, nbCol)
  {
    PolicyShaped(d, nbLine, nbCol) && forall y, x :: 0 <= y < nbLine && 0 <= x < nbCol && Resting(g[y][x]) ==> d[y][x] == 'u'
  }

  /** A step of a loop over policies: the next policy, or None where the round raises. */
  type Step = seq<seq<char>> -> Option<seq<seq<char>>>

  /** The round of one level and player context, as a step. */
  function PolicyStep(g: Grid, nbLine: nat, nbCol: nat, gamma: real, r: Rewards, hasSword: bool, solve: Solve): Step
    requires Covers(g, nbLine, nbCol) && Total(r)
  {
    d => Round(g, nbLine, nbCol, d, gamma, r, hasSword, solve)
  }

  /** `step` computes the round of this level and player context on every policy. */
  ghost predicate IsRoundStep(step: Step, g: Grid, nbLine: nat, nbCol: nat, gamma: real, r: Rewards, hasSword: bool, solve: Solve)
    requires Covers(g, nbLine, nbCol) && Total(r)
  {
    forall d {:trigger Round(g, nbLine, nbCol, d, gamma, r, hasSword, solve)} :: step(d) == Round(g, nbLine, nbCol, d, gamma, r, hasSword, solve)
  }

  /** PolicyStep is such a step. */
  lemma PolicyStepIsRoundStep(g: Grid, nbLine: nat, nbCol: nat, gamma: real, r: Rewards, hasSword: bool, solve: Solve)
    requires Covers(g, nbLine, nbCol) && Total(r)
    ensures IsRoundStep(PolicyStep(g, nbLine, nbCol, gamma, r, hasSword, solve), g, nbLine, nbCol, gamma, r, hasSword, solve)
  {
  }

  /**
    The while loop with `k` rounds left: stop with the policy once a round
    changes no letter (ctn stays False), or when the rounds run out.
  */
  function Loop(step: Step, dt: seq<seq<char>>, k: nat): Option<seq<seq<char>>>
    decreases k
  {
    if k == 0 then Some(dt)
    else match step(dt)
      case None => None
      case Some(next) => if next == dt then Some(dt) else Loop(step, next, k - 1)
  }

  /** `k` steps one after the other, with no stopping test. */
  function Iterate(step: Step, dt: seq<seq<char>>, k: nat): Option<seq<seq<char>>>
    decreases k
  {
    if k == 0 then Some(dt)
    else match step(dt)
      case None => None
      case Some(next) => Iterate(step, next, k - 1)
  }

  /** The loop returns a policy that one more step gives back, or the result of all `k` steps. */
  lemma {:induction false} LoopStops(step: Step, dt: seq<seq<char>>, k: nat)
    requires Loop(step, dt, k).Some?
    ensures var d := Loop(step, dt, k).value;
      step(d) == Some(d) || Iterate(step, dt, k) == Some(d)
    decreases k
  {
    if k > 0 {
      var next := step(dt).value;
      if next != dt {
        LoopStops(step, next, k - 1);
      }
    }
  }

  /** A step that changes the policy leaves the loop one step fewer to go from the new policy. */
  lemma LoopAdvances(step: Step, dt: seq<seq<char>>, next: seq<seq<char>>, k: nat)
    requires k > 0 && step(dt) == Some(next) && next != dt
    ensures Loop(step, dt, k) == Loop(step, next, k - 1)
  {
  }

  /** The loop stops at once on a policy the step gives back. */
  lemma LoopFixed(step: Step, dt: seq<seq<char>>, k: nat)
    requires step(dt) == Some(dt)
    ensures Loop(step, dt, k) == Some(dt)
  {
  }

  /** A property every step's result has holds of the loop's result after at least one step. */
  lemma {:induction false} LoopKeeps(step: Step, p: seq<seq<char>> -> bool, dt: seq<seq<char>>, k: nat)
    requires k > 0 && Loop(step, dt, k).Some?
    requires forall d :: step(d).Some? ==> p(step(d).value)
    ensures p(Loop(step, dt, k).value)
    decreases k
  {
    var next := step(dt).value;
    if next != dt && k > 1 {
      LoopKeeps(step, p, next, k - 1);
    }
  }

  /**
    After at least one round, the policy the loop returns has the level's
    shape and portals, platforms and walls at 'u'.
  */
  lemma PolicyLoopResting(step: Step, g: Grid, nbLine: nat, nbCol: nat, gamma: real, r: Rewards, hasSword: bool, solve: Solve, dt: seq<seq<char>>, k: nat)
    requires Covers(g, nbLine, nbCol) && Total(r) && k > 0
    requires IsRoundStep(step, g, nbLine, nbCol, gamma, r, hasSword, solve)
    requires Loop(step, dt, k).Some?
    ensures RestingUp(g, nbLine, nbCol, Loop(step, dt, k).value)
  {
    forall d | step(d).Some?
      ensures RestingUp(g, nbLine, nbCol, step(d).value)
    {
      RoundResting(g, nbLine, nbCol, d, gamma, r, hasSword, solve);
    }
    LoopKeeps(step, d => RestingUp(g, nbLine, nbCol, d), dt, k);
  }

  /**
    The body of the while loop (policy_iteration.py:184-235) for policy `dt`:
    the next policy, and whether any letter changed; None where the round raises.
  */
  method PolicyRound(g: Grid, nbLine: nat, nbCol: nat, variables: seq<string>, dt: seq<seq<char>>, gamma: real, r: Rewards, hasSword: bool, solve: Solve, ghost step: Step)
    returns (next: Option<seq<seq<char>>>, ctn: bool)
    requires Covers(g, nbLine, nbCol) && Total(r) && PolicyShaped(dt, nbLine, nbCol) && variables == Names(nbLine, nbCol)
    requires IsRoundStep(step, g, nbLine, nbCol, gamma, r, hasSword, solve)
    ensures next == step(dt)
    ensures next.Some? ==> PolicyShaped(next.value, nbLine, nbCol) && (ctn <==> next.value != dt)
  {
    var sys := WriteEquations(g, nbLine, nbCol, variables, dt, gamma, r, hasSword);
    if sys.None? {
      assert Round(g, nbLine, nbCol, dt, gamma, r, hasSword, solve) == None;
      return None, false;
    }
    var ar := solve(sys.value);
    if ar.None? || |ar.value| < nbLine * nbCol {
      assert Round(g, nbLine, nbCol, dt, gamma, r, hasSword, solve) == None;
      return None, false;
    }
    var dt1 := BuildDt1(nbLine, nbCol, ar.value, []);
    assert dt1 == Reshape(ar.value, nbLine, nbCol);
    next, ctn := Improvement(g, nbLine, nbCol, dt, dt1, gamma, r, hasSword);
    ImprovedFacts(g, nbLine, nbCol, dt1, gamma, r, hasSword);
    assert next == Round(g, nbLine, nbCol, dt, gamma, r, hasSword, solve);
  }

  /**
    policy_iteration (policy_iteration.py:176-241): from the starting policy
    of init_p_i, at most 500 rounds of writing the system, solving it and
    improving the policy, stopping once a round changes nothing. The critical
    flag is accepted and not used, as in the source. `step` stands for the
    round (PolicyStep is one).
  */
  method PolicyIteration(gamma: real, level: Game.Level, r: Rewards, critical: bool, hasSword: bool, solve: Solve, ghost step: Step)
    returns (res: Option<seq<seq<char>>>)
    requires Covers(level.grid, level.nbLine, level.nbCol) && Total(r)
    requires IsRoundStep(step, level.grid, level.nbLine, level.nbCol, gamma, r, hasSword, solve)
    ensures res == Loop(step, InitialPolicy(level.nbLine, level.nbCol), 500)
  {
    var g, nbLine, nbCol := level.grid, level.nbLine, level.nbCol;
    var variables, p0 := InitPI(nbLine, nbCol, [], []);
    InitialPolicyShaped(nbLine, nbCol);
    var dt := p0;
    var cpt := 0;
    ghost var left: nat := 500;
    while cpt < 500
      invariant 0 <= cpt <= 500 && left == 500 - cpt && PolicyShaped(dt, nbLine, nbCol)
      invariant Loop(step, InitialPolicy(nbLine, nbCol), 500) == Loop(step, dt, left)
    {
      cpt := cpt + 1;
      var next, ctn := PolicyRound(g, nbLine, nbCol, variables, dt, gamma, r, hasSword, solve, step);
      if next.None? {
        return None;
      }
      ghost var prev := dt;
      dt := next.value;
      if !ctn {
        return Some(dt);
      }
      LoopAdvances(step, prev, dt, left);
      left := left - 1;
    }
    return Some(dt);
  }

  /**
    The calls of solve_p_i (policy_iteration.py:5-26) as written: five entries
    leave out the has_sword argument, which then takes its default True.
  */
  const PICallsAsWritten: seq<Call> := [
    Call(false, false, false, true, false), Call(false, true, false, true, true), Call(true, false, false, true, true),
    Call(true, false, true, true, true), Call(true, true, false, true, true), Call(true, true, true, true, true),
    Call(false, false, false, false, true), Call(false, true, false, false, true), Call(true, false, false, false, true),
    Call(true, false, true, false, true), Call(true, true, false, false, true), Call(true, true, true, false, true)]

  /** Exactly the five sword-less contexts that leave out has_sword are solved as if the player held the sword. */
  lemma PICallsAsWrittenMismatch()
    ensures |PICallsAsWritten| == |Contexts|
    ensures forall i :: 0 <= i < |Contexts| ==> (!Matches(Contexts[i], PICallsAsWritten[i]) <==> i in {2, 3, 6, 8, 9})
    ensures forall i :: 0 <= i < |Contexts| && !Matches(Contexts[i], PICallsAsWritten[i]) ==> !Contexts[i].1 && PICallsAsWritten[i].swordArg
  {
  }

  /** The calls of solve_p_i with has_sword passed as the context's own flag, as value_iteration.py:78-91 does. */
  const PICalls: seq<Call> := [
    Call(false, false, false, true, false), Call(false, true, false, true, true), Call(true, false, false, true, false),
    Call(true, false, true, true, false), Call(true, true, false, true, true), Call(true, true, true, true, true),
    Call(false, false, false, false, false), Call(false, true, false, false, true), Call(true, false, false, false, false),
    Call(true, false, true, false, false), Call(true, true, false, false, true), Call(true, true, true, false, true)]

  /** Every context is solved with its own flags. */
  lemma PICallsMatch()
    ensures |PICalls| == |Contexts| && forall i :: 0 <= i < |Contexts| ==> Matches(Contexts[i], PICalls[i])
  {
  }
}
