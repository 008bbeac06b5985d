/**
  The level: a grid of cell symbols, its random generation (with every random
  draw supplied by the caller), the solvability check built on a depth-first
  search from the bottom-right cell, and the text format of saved levels.
*/
module Game {
  import opened Wrappers
  import opened World
  import Text

  // ---------------------------------------------------------------------------
  // Generation (game.py:39-64)
  // ---------------------------------------------------------------------------

  /**
    The draws behind one cell: the three `uniform(0, 1)` values compared with
    the wall, obstacle and crack proportions, and whether `randint(0, 1)` chose
    an enemy rather than a trap.
  */
  datatype CellDraw = CellDraw(wall: real, obstacle: real, enemy: bool, crack: real)

  /**
    Every draw of one call of `generate`. The numbers of swords, portals and
    keys placed (max_sword, max_portal, max_key) are the lengths of the
    placement lists; each placement is the `randint` pair for its line and column.
  */
  datatype Draws = Draws(cells: seq<seq<CellDraw>>, swords: seq<Pos>, portals: seq<Pos>, keys: seq<Pos>)

  /** One cell draw per grid cell, and every placement inside the grid (as `randint` guarantees). */
  predicate WellFormed(d: Draws, nbLine: int, nbCol: int) {
    && |d.cells| == nbLine
    && (forall i :: 0 <= i < nbLine ==> |d.cells[i]| == nbCol)
    && (forall k :: 0 <= k < |d.swords| ==> InBounds(nbLine, nbCol, d.swords[k]))
    && (forall k :: 0 <= k < |d.portals| ==> InBounds(nbLine, nbCol, d.portals[k]))
    && (forall k :: 0 <= k < |d.keys| ==> InBounds(nbLine, nbCol, d.keys[k]))
  }

  /** The symbol one cell draw gives (game.py:48-56): a wall, else an enemy or a trap, else a crack, else blank. */
  function DrawnCell(d: CellDraw, pw: real, po: real, pc: real): (c: Cell)
    ensures c == Wall || c == Enemy || c == Trap || c == Crack || c == Blank
  {
    if d.wall < pw then Wall
    else if d.obstacle < po then (if d.enemy then Enemy else Trap)
    else if d.crack < pc then Crack
    else Blank
  }

  /** The grid after the cell-by-cell pass, before any placement. */
  function BaseGrid(d: Draws, nbLine: nat, nbCol: nat, pw: real, po: real, pc: real): (g: Grid)
    requires WellFormed(d, nbLine, nbCol)
    ensures IsRect(g, nbLine, nbCol)
    ensures NoPlatform(g)
  {
    seq(nbLine, i requires 0 <= i < nbLine =>
      seq(nbCol, j requires 0 <= j < nbCol => DrawnCell(d.cells[i][j], pw, po, pc)))
  }

  /** The grid while the cell pass is at line `i`, column `j`: earlier cells drawn, later cells still blank. */
  function PartialGrid(d: Draws, nbLine: nat, nbCol: nat, pw: real, po: real, pc: real, i: int, j: int): (g: Grid)
    requires WellFormed(d, nbLine, nbCol)
    ensures IsRect(g, nbLine, nbCol)
  {
    seq(nbLine, r requires 0 <= r < nbLine =>
      seq(nbCol, c requires 0 <= c < nbCol =>
        if r < i || (r == i && c < j) then DrawnCell(d.cells[r][c], pw, po, pc) else Blank))
  }

  /** An `nbLine` x `nbCol` grid of blank cells. */
  function Blanks(nbLine: nat, nbCol: nat): (g: Grid)
    ensures IsRect(g, nbLine, nbCol)
  {
    seq(nbLine, _ => seq(nbCol, _ => Blank))
  }

  lemma PartialStart(d: Draws, nbLine: nat, nbCol: nat, pw: real, po: real, pc: real)
    requires WellFormed(d, nbLine, nbCol)
    ensures PartialGrid(d, nbLine, nbCol, pw, po, pc, 0, 0) == Blanks(nbLine, nbCol)
  {
    var g := PartialGrid(d, nbLine, nbCol, pw, po, pc, 0, 0);
    var blank := Blanks(nbLine, nbCol);
    assert |g| == |blank|;
    forall r | 0 <= r < nbLine ensures g[r] == blank[r] {
      assert forall c :: 0 <= c < nbCol ==> g[r][c] == Blank;
    }
  }

  lemma PartialStep(d: Draws, nbLine: nat, nbCol: nat, pw: real, po: real, pc: real, i: nat, j: nat)
    requires WellFormed(d, nbLine, nbCol) && i < nbLine && j < nbCol
    ensures PartialGrid(d, nbLine, nbCol, pw, po, pc, i, j + 1)
         == SetCell(PartialGrid(d, nbLine, nbCol, pw, po, pc, i, j), Pos(j, i), DrawnCell(d.cells[i][j], pw, po, pc))
    ensures DrawnCell(d.cells[i][j], pw, po, pc) == Blank ==>
      PartialGrid(d, nbLine, nbCol, pw, po, pc, i, j + 1) == PartialGrid(d, nbLine, nbCol, pw, po, pc, i, j)
  {
    var g := PartialGrid(d, nbLine, nbCol, pw, po, pc, i, j);
    var h := PartialGrid(d, nbLine, nbCol, pw, po, pc, i, j + 1);
    var s := SetCell(g, Pos(j, i), DrawnCell(d.cells[i][j], pw, po, pc));
    forall r | 0 <= r < nbLine ensures h[r] == s[r] {
      assert forall c :: 0 <= c < nbCol ==> h[r][c] == s[r][c];
    }
    if DrawnCell(d.cells[i][j], pw, po, pc) == Blank {
      forall r | 0 <= r < nbLine ensures h[r] == g[r] {
        assert forall c :: 0 <= c < nbCol ==> h[r][c] == g[r][c];
      }
    }
  }

  lemma PartialRow(d: Draws, nbLine: nat, nbCol: nat, pw: real, po: real, pc: real, i: nat)
    requires WellFormed(d, nbLine, nbCol) && i < nbLine
    ensures PartialGrid(d, nbLine, nbCol, pw, po, pc, i, nbCol) == PartialGrid(d, nbLine, nbCol, pw, po, pc, i + 1, 0)
  {
    var g := PartialGrid(d, nbLine, nbCol, pw, po, pc, i, nbCol);
    var h := PartialGrid(d, nbLine, nbCol, pw, po, pc, i + 1, 0);
    forall r | 0 <= r < nbLine ensures h[r] == g[r] {
      assert forall c :: 0 <= c < nbCol ==> h[r][c] == g[r][c];
    }
  }

  lemma PartialEnd(d: Draws, nbLine: nat, nbCol: nat, pw: real, po: real, pc: real)
    requires WellFormed(d, nbLine, nbCol)
    ensures PartialGrid(d, nbLine, nbCol, pw, po, pc, nbLine, 0) == BaseGrid(d, nbLine, nbCol, pw, po, pc)
  {
    var g := PartialGrid(d, nbLine, nbCol, pw, po, pc, nbLine, 0);
    var h := BaseGrid(d, nbLine, nbCol, pw, po, pc);
    forall r | 0 <= r < nbLine ensures h[r] == g[r] {
      assert forall c :: 0 <= c < nbCol ==> h[r][c] == g[r][c];
    }
  }

  predicate NoPlatform(g: Grid) {
    forall i, j :: 0 <= i < |g| && 0 <= j < |g[i]| ==> g[i][j] != Platform
  }

  /** `g` with `c` written under `p`, inside an `nbLine` x `nbCol` grid. */
  function Put(g: Grid, nbLine: nat, nbCol: nat, p: Pos, c: Cell): (r: Grid)
    requires IsRect(g, nbLine, nbCol) && InBounds(nbLine, nbCol, p)
    ensures IsRect(r, nbLine, nbCol)
    ensures r[p.y][p.x] == c
    ensures NoPlatform(g) && c != Platform ==> NoPlatform(r)
  {
    SetCell(g, p, c)
  }

  /** The grid after writing `c` at each position of `ps` in turn, later writes winning. */
  function PlaceAll(g: Grid, nbLine: nat, nbCol: nat, ps: seq<Pos>, c: Cell): (r: Grid)
    requires IsRect(g, nbLine, nbCol)
    requires forall k :: 0 <= k < |ps| ==> InBounds(nbLine, nbCol, ps[k])
    ensures IsRect(r, nbLine, nbCol)
    ensures NoPlatform(g) && c != Platform ==> NoPlatform(r)
    decreases |ps|
  {
    if ps == [] then g
    else
      var prev := PlaceAll(g, nbLine, nbCol, ps[..|ps| - 1], c);
      var p := ps[|ps| - 1];
      assert InBounds(nbLine, nbCol, p);
      Put(prev, nbLine, nbCol, p, c)
  }

  /**
    The grid `generate` builds from its draws: the cell pass, then swords,
    portals and keys in that order, then the treasure at [0][0] and the start
    at [nbLine-1][nbCol-1]. The grid has the requested shape, the start is in
    its corner, the treasure is at [0][0] unless the grid is a single cell
    (then the start overwrites it), and no moving platform is ever produced.
  */
  function Generated(nbLine: nat, nbCol: nat, pw: real, po: real, pc: real, d: Draws): (g: Grid)
    requires nbLine >= 1 && nbCol >= 1 && WellFormed(d, nbLine, nbCol)
    ensures IsRect(g, nbLine, nbCol)
    ensures g[nbLine - 1][nbCol - 1] == Start
    ensures (nbLine > 1 || nbCol > 1) ==> g[0][0] == Treasure
    ensures NoPlatform(g)
  {
    var g0 := BaseGrid(d, nbLine, nbCol, pw, po, pc);
    var g1 := PlaceAll(g0, nbLine, nbCol, d.swords, Sword);
    var g2 := PlaceAll(g1, nbLine, nbCol, d.portals, Portal);
    var g3 := PlaceAll(g2, nbLine, nbCol, d.keys, Key);
    Corners(g3, nbLine, nbCol)
  }

  /** The last step of generate: the treasure at [0][0], then the start at [nbLine-1][nbCol-1]. */
  function Corners(g: Grid, nbLine: nat, nbCol: nat): (r: Grid)
    requires nbLine >= 1 && nbCol >= 1 && IsRect(g, nbLine, nbCol)
    ensures IsRect(r, nbLine, nbCol)
    ensures r[nbLine - 1][nbCol - 1] == Start
    ensures (nbLine > 1 || nbCol > 1) ==> r[0][0] == Treasure
    ensures NoPlatform(g) ==> NoPlatform(r)
  {
    var t := Put(g, nbLine, nbCol, Pos(0, 0), Treasure);
    Put(t, nbLine, nbCol, Pos(nbCol - 1, nbLine - 1), Start)
  }

  // ---------------------------------------------------------------------------
  // Reachability (game.py:102-140)
  // ---------------------------------------------------------------------------

  /** way_possible starts from [nbLine-1][nbCol-1], the start cell of generated levels. */
  function SearchStart(nbLine: int, nbCol: int): Pos {
    Pos(nbCol - 1, nbLine - 1)
  }

  /** The k-th neighbour in the order way_possible lists them: up, down, left, right. */
  function Neighbour(p: Pos, k: nat): Pos
    requires k < 4
  {
    Moved(p, [Up, Down, Left, Right][k])
  }

  predicate Adjacent(a: Pos, b: Pos) {
    exists k :: 0 <= k < 4 && Neighbour(a, k) == b
  }

  /** The search expands a cell: inside the grid, not the objective, not a wall and not a crack. */
  predicate Passable(g: Grid, nbLine: int, nbCol: int, obj: Cell, p: Pos)
    requires Covers(g, nbLine, nbCol)
  {
    InBounds(nbLine, nbCol, p) && g[p.y][p.x] != obj && g[p.y][p.x] != Wall && g[p.y][p.x] != Crack
  }

  /** A walk of the search: from the start, each step to an adjacent passable cell. */
  ghost predicate IsWalk(g: Grid, nbLine: int, nbCol: int, obj: Cell, w: seq<Pos>)
    requires Covers(g, nbLine, nbCol)
  {
    && |w| >= 1
    && w[0] == SearchStart(nbLine, nbCol)
    && forall i :: 1 <= i < |w| ==> Adjacent(w[i - 1], w[i]) && Passable(g, nbLine, nbCol, obj, w[i])
  }

  function Last(w: seq<Pos>): Pos
    requires |w| >= 1
  {
    w[|w| - 1]
  }

  ghost predicate Reachable(g: Grid, nbLine: int, nbCol: int, obj: Cell, p: Pos)
    requires Covers(g, nbLine, nbCol)
  {
    exists w :: IsWalk(g, nbLine, nbCol, obj, w) && Last(w) == p
  }

  /** A walk extended to a passable neighbour of its end is a walk. */
  lemma ExtendWalk(g: Grid, nbLine: int, nbCol: int, obj: Cell, w: seq<Pos>, k: nat, n: Pos)
    requires Covers(g, nbLine, nbCol) && IsWalk(g, nbLine, nbCol, obj, w) && k < 4
    requires n == Neighbour(Last(w), k) && Passable(g, nbLine, nbCol, obj, n)
    ensures IsWalk(g, nbLine, nbCol, obj, w + [n]) && Last(w + [n]) == n
  {
    assert Adjacent(Last(w), n);
  }

  lemma ClosedGrows(g: Grid, nbLine: int, nbCol: int, obj: Cell, v: Pos, s1: set<Pos>, s2: set<Pos>)
    requires Covers(g, nbLine, nbCol) && s1 <= s2 && Closed(g, nbLine, nbCol, obj, v, s1)
    ensures Closed(g, nbLine, nbCol, obj, v, s2)
  {
    forall k | 0 <= k < 4 ensures ClosedAt(g, nbLine, nbCol, obj, v, k, s2) {
      assert ClosedAt(g, nbLine, nbCol, obj, v, k, s1);
    }
  }

  /** Some in-bounds neighbour of `p` holds the objective. */
  predicate SeesObjective(g: Grid, nbLine: int, nbCol: int, obj: Cell, p: Pos)
    requires Covers(g, nbLine, nbCol)
  {
    exists k :: 0 <= k < 4 && InBounds(nbLine, nbCol, Neighbour(p, k)) && At(g, nbLine, nbCol, Neighbour(p, k)) == obj
  }

  /** What way_possible decides: the objective neighbours a cell the search reaches. */
  ghost predicate WayPossibleSpec(g: Grid, nbLine: int, nbCol: int, obj: Cell)
    requires Covers(g, nbLine, nbCol)
  {
    exists p :: Reachable(g, nbLine, nbCol, obj, p) && SeesObjective(g, nbLine, nbCol, obj, p)
  }

  predicate HasKeyIn(g: Grid) {
    exists i, j :: 0 <= i < |g| && 0 <= j < |g[i]| && g[i][j] == Key
  }

  /** What solvable decides: a non-empty grid with a key, from whose start a key and the treasure are both in sight. */
  ghost predicate SolvableSpec(g: Grid, nbLine: int, nbCol: int) {
    && g != []
    && HasKeyIn(g)
    && Covers(g, nbLine, nbCol)
    && WayPossibleSpec(g, nbLine, nbCol, Key)
    && WayPossibleSpec(g, nbLine, nbCol, Treasure)
  }

  /** All in-bounds positions. */
  function Cells(nbLine: int, nbCol: int): set<Pos> {
    set y, x | 0 <= y < nbLine && 0 <= x < nbCol :: Pos(x, y)
  }

  lemma Shrinks(all: set<Pos>, seen: set<Pos>, n: Pos)
    requires n in all && n !in seen
    ensures |all - (seen + {n})| < |all - seen|
  {
    assert all - seen == (all - (seen + {n})) + {n};
  }

  /** Every in-bounds neighbour of `v` is not the objective, and is already seen when it is passable. */
  predicate ClosedAt(g: Grid, nbLine: int, nbCol: int, obj: Cell, v: Pos, k: nat, seen: set<Pos>)
    requires Covers(g, nbLine, nbCol) && k < 4
  {
    var n := Neighbour(v, k);
    InBounds(nbLine, nbCol, n) ==> At(g, nbLine, nbCol, n) != obj && (Passable(g, nbLine, nbCol, obj, n) ==> n in seen)
  }

  predicate Closed(g: Grid, nbLine: int, nbCol: int, obj: Cell, v: Pos, seen: set<Pos>)
    requires Covers(g, nbLine, nbCol)
  {
    forall k :: 0 <= k < 4 ==> ClosedAt(g, nbLine, nbCol, obj, v, k, seen)
  }

  /** `walks` records a walk of the search ending at `v`. */
  ghost predicate HasWalk(g: Grid, nbLine: int, nbCol: int, obj: Cell, walks: map<Pos, seq<Pos>>, v: Pos)
    requires Covers(g, nbLine, nbCol)
  {
    v in walks && IsWalk(g, nbLine, nbCol, obj, walks[v]) && Last(walks[v]) == v
  }

  /**
   * The depth-first search's invariant: every seen cell is the end of a recorded walk, and every
   * seen cell that is neither still queued nor in `extra` has all its neighbours explored.
   */
  ghost predicate Searching(g: Grid, nbLine: int, nbCol: int, obj: Cell, seen: set<Pos>, walks: map<Pos, seq<Pos>>, q: seq<Pos>, extra: set<Pos>)
    requires Covers(g, nbLine, nbCol)
  {
    && (forall v {:trigger HasWalk(g, nbLine, nbCol, obj, walks, v)} :: v in seen ==> HasWalk(g, nbLine, nbCol, obj, walks, v))
    && (forall v {:trigger Closed(g, nbLine, nbCol, obj, v, seen)} :: v in seen ==> v in q || v in extra || Closed(g, nbLine, nbCol, obj, v, seen))
  }

  /** The first `k` neighbours of `node` are explored. */
  predicate ClosedUpTo(g: Grid, nbLine: int, nbCol: int, obj: Cell, node: Pos, k: nat, seen: set<Pos>)
    requires Covers(g, nbLine, nbCol) && k <= 4
  {
    forall i :: 0 <= i < k ==> ClosedAt(g, nbLine, nbCol, obj, node, i, seen)
  }

  /** A neighbour the search does not push (outside, blocked, or already seen) is explored. */
  lemma Skipped(g: Grid, nbLine: int, nbCol: int, obj: Cell, node: Pos, k: nat, seen: set<Pos>)
    requires Covers(g, nbLine, nbCol) && k < 4 && ClosedUpTo(g, nbLine, nbCol, obj, node, k, seen)
    requires var n := Neighbour(node, k);
      !InBounds(nbLine, nbCol, n) || (g[n.y][n.x] != obj && (g[n.y][n.x] == Wall || g[n.y][n.x] == Crack || n in seen))
    ensures ClosedUpTo(g, nbLine, nbCol, obj, node, k + 1, seen)
  {
    assert ClosedAt(g, nbLine, nbCol, obj, node, k, seen);
  }

  /** Pushing a passable, unseen neighbour of `node` keeps the search invariant. */
  lemma Push(g: Grid, nbLine: int, nbCol: int, obj: Cell, seen: set<Pos>, walks: map<Pos, seq<Pos>>, q: seq<Pos>, node: Pos, k: nat, n: Pos)
    requires Covers(g, nbLine, nbCol) && k < 4 && node in seen && node in walks && n !in seen
    requires Searching(g, nbLine, nbCol, obj, seen, walks, q, {node})
    requires n == Neighbour(node, k) && Passable(g, nbLine, nbCol, obj, n)
    requires ClosedUpTo(g, nbLine, nbCol, obj, node, k, seen)
    ensures Searching(g, nbLine, nbCol, obj, seen + {n}, walks[n := walks[node] + [n]], q + [n], {node})
    ensures ClosedUpTo(g, nbLine, nbCol, obj, node, k + 1, seen + {n})
  {
    var seen', walks' := seen + {n}, walks[n := walks[node] + [n]];
    assert HasWalk(g, nbLine, nbCol, obj, walks, node);
    ExtendWalk(g, nbLine, nbCol, obj, walks[node], k, n);
    forall v | v in seen'
      ensures HasWalk(g, nbLine, nbCol, obj, walks', v)
    {
      if v != n {
        assert HasWalk(g, nbLine, nbCol, obj, walks, v);
        assert walks'[v] == walks[v];
      }
    }
    forall v | v in seen'
      ensures v in q + [n] || v in {node} || Closed(g, nbLine, nbCol, obj, v, seen')
    {
      if v != n && v !in q && v != node {
        ClosedGrows(g, nbLine, nbCol, obj, v, seen, seen');
      }
    }
    forall i | 0 <= i < k + 1
      ensures ClosedAt(g, nbLine, nbCol, obj, node, i, seen')
    {
      if i < k {
        assert ClosedAt(g, nbLine, nbCol, obj, node, i, seen);
      }
    }
  }

  /** Once all four neighbours of `node` are explored, `node` is closed. */
  lemma Done(g: Grid, nbLine: int, nbCol: int, obj: Cell, seen: set<Pos>, walks: map<Pos, seq<Pos>>, q: seq<Pos>, node: Pos)
    requires Covers(g, nbLine, nbCol)
    requires Searching(g, nbLine, nbCol, obj, seen, walks, q, {node})
    requires ClosedUpTo(g, nbLine, nbCol, obj, node, 4, seen)
    ensures Searching(g, nbLine, nbCol, obj, seen, walks, q, {})
  {
    assert Closed(g, nbLine, nbCol, obj, node, seen);
  }

  /** Popping the last queued cell moves it from the queue to `extra`. */
  lemma Pop(g: Grid, nbLine: int, nbCol: int, obj: Cell, seen: set<Pos>, walks: map<Pos, seq<Pos>>, q: seq<Pos>)
    requires Covers(g, nbLine, nbCol) && |q| > 0
    requires Searching(g, nbLine, nbCol, obj, seen, walks, q, {})
    requires forall v :: v in q ==> v in seen
    ensures Searching(g, nbLine, nbCol, obj, seen, walks, q[..|q| - 1], {q[|q| - 1]})
    ensures q[|q| - 1] in walks
  {
    var last := q[|q| - 1];
    assert last in seen;
    assert HasWalk(g, nbLine, nbCol, obj, walks, last);
    forall v | v in seen
      ensures v in q[..|q| - 1] || v in {q[|q| - 1]} || Closed(g, nbLine, nbCol, obj, v, seen)
    {
      if v in q {
        var i :| 0 <= i < |q| && q[i] == v;
        if i < |q| - 1 {
          assert q[..|q| - 1][i] == v;
        }
      }
    }
  }

  /** The objective next to the end of a walk makes the way possible. */
  lemma Found(g: Grid, nbLine: int, nbCol: int, obj: Cell, w: seq<Pos>, k: nat)
    requires Covers(g, nbLine, nbCol) && IsWalk(g, nbLine, nbCol, obj, w) && k < 4
    requires InBounds(nbLine, nbCol, Neighbour(Last(w), k)) && At(g, nbLine, nbCol, Neighbour(Last(w), k)) == obj
    ensures WayPossibleSpec(g, nbLine, nbCol, obj)
  {
    assert Reachable(g, nbLine, nbCol, obj, Last(w));
    assert SeesObjective(g, nbLine, nbCol, obj, Last(w));
  }

  /** When the queue is empty, no cell the search can reach sees the objective. */
  lemma Exhausted(g: Grid, nbLine: int, nbCol: int, obj: Cell, seen: set<Pos>, walks: map<Pos, seq<Pos>>)
    requires Covers(g, nbLine, nbCol) && SearchStart(nbLine, nbCol) in seen
    requires Searching(g, nbLine, nbCol, obj, seen, walks, [], {})
    ensures !WayPossibleSpec(g, nbLine, nbCol, obj)
  {
    forall p | Reachable(g, nbLine, nbCol, obj, p)
      ensures !SeesObjective(g, nbLine, nbCol, obj, p)
    {
      var w :| IsWalk(g, nbLine, nbCol, obj, w) && Last(w) == p;
      WalkStaysSeen(g, nbLine, nbCol, obj, w, seen);
      forall k | 0 <= k < 4
        ensures !(InBounds(nbLine, nbCol, Neighbour(p, k)) && At(g, nbLine, nbCol, Neighbour(p, k)) == obj)
      {
        assert ClosedAt(g, nbLine, nbCol, obj, p, k, seen);
      }
    }
  }

  /** Once every seen cell is closed, a walk never leaves the seen cells. */
  lemma {:induction false} WalkStaysSeen(g: Grid, nbLine: int, nbCol: int, obj: Cell, w: seq<Pos>, seen: set<Pos>)
    requires Covers(g, nbLine, nbCol)
    requires IsWalk(g, nbLine, nbCol, obj, w)
    requires SearchStart(nbLine, nbCol) in seen
    requires forall v :: v in seen ==> Closed(g, nbLine, nbCol, obj, v, seen)
    ensures Last(w) in seen
    decreases |w|
  {
    if |w| > 1 {
      var w' := w[..|w| - 1];
      assert IsWalk(g, nbLine, nbCol, obj, w');
      WalkStaysSeen(g, nbLine, nbCol, obj, w', seen);
      var k :| 0 <= k < 4 && Neighbour(w[|w| - 2], k) == w[|w| - 1];
      assert ClosedAt(g, nbLine, nbCol, obj, w[|w| - 2], k, seen);
    }
  }

  // ---------------------------------------------------------------------------
  // Level file format (game.py:66-84)
  // ---------------------------------------------------------------------------

  /** The fields of a level that save writes and load reads. */
  datatype LevelData = LevelData(nbLine: nat, nbCol: nat, grid: Grid)

  /** The two header lines save writes before the rows. */
  function HeaderLines(nbLine: nat, nbCol: nat): seq<string> {
    ["lines : " + Text.NatToString(nbLine) + "\n", "columns : " + Text.NatToString(nbCol) + "\n"]
  }

  /** A row as the list of its one-character strings. */
  function RowFields(row: seq<Cell>): (fs: seq<string>)
    ensures |fs| == |row|
  {
    seq(|row|, j requires 0 <= j < |row| => [Symbol(row[j])])
  }

  function DropLast(s: string): string {
    if s == [] then s else s[..|s| - 1]
  }

  /** The line save writes for a row: every symbol followed by a comma, last comma dropped, then a newline. */
  function RowLine(row: seq<Cell>): string {
    DropLast(Text.Terminated(RowFields(row), ',')) + "\n"
  }

  /** Everything save writes, one string per line. */
  function SavedLines(d: LevelData): seq<string> {
    HeaderLines(d.nbLine, d.nbCol) + RowLines(d.grid)
  }

  function RowLines(g: Grid): (ls: seq<string>)
    ensures |ls| == |g|
  {
    seq(|g|, i requires 0 <= i < |g| => RowLine(g[i]))
  }

  /** The cells of a row line's fields, each of which must be one known symbol. */
  function ParseFields(fs: seq<string>): (r: Option<seq<Cell>>)
    ensures r.Some? ==> |r.value| == |fs|
  {
    if fs == [] then Some([])
    else if |fs[0]| == 1 && FromSymbol(fs[0][0]).Some? then
      match ParseFields(fs[1..])
      case None => None
      case Some(rest) => Some([FromSymbol(fs[0][0]).value] + rest)
    else None
  }

  /**
    One line of load: a header sets a dimension from the text after its first
    8 (resp. 9) characters; any other line, stripped of newlines and split at
    commas, is appended as a row. `None` where load raises (a dimension that is
    not a number, a field that is not a cell symbol), and on a negative
    dimension, which Python stores but a level's `nat` dimensions cannot hold.
  */
  function LoadLine(d: LevelData, line: string): Option<LevelData> {
    if Text.Contains(line, "lines : ") then
      match Text.IntOf(line[8..])
      case None => None
      case Some(n) => if n < 0 then None else Some(d.(nbLine := n))
    else if Text.Contains(line, "columns : ") then
      match Text.IntOf(line[9..])
      case None => None
      case Some(n) => if n < 0 then None else Some(d.(nbCol := n))
    else
      match ParseFields(Text.Split(Text.Strip(line, {'\n'}), ','))
      case None => None
      case Some(row) => Some(d.(grid := d.grid + [row]))
  }

  /**
    The result of load over a sequence of lines, together with whether every
    line loaded; on a failing line the effects of the earlier lines remain.
  */
  function LoadAll(d: LevelData, lines: seq<string>): (LevelData, bool)
    decreases |lines|
  {
    if lines == [] then (d, true)
    else
      var (prev, ok) := LoadAll(d, lines[..|lines| - 1]);
      if !ok then (prev, false)
      else match LoadLine(prev, lines[|lines| - 1])
        case None => (prev, false)
        case Some(next) => (next, true)
  }

  /** Once a line fails, load stops: the later lines change nothing. */
  lemma {:induction false} LoadStops(d: LevelData, lines: seq<string>, k: nat, x: LevelData)
    requires k < |lines| && LoadAll(d, lines[..k]) == (x, true) && LoadLine(x, lines[k]) == None
    ensures LoadAll(d, lines) == (x, false)
    decreases |lines|
  {
    if k == |lines| - 1 {
      assert lines[..|lines| - 1] == lines[..k];
    } else {
      assert lines[..|lines| - 1][..k] == lines[..k];
      LoadStops(d, lines[..|lines| - 1], k, x);
    }
  }

  /** Load never clears: the rows already in the grid stay in front. */
  lemma {:induction false} LoadKeepsRows(d: LevelData, lines: seq<string>)
    ensures var r := LoadAll(d, lines).0; |r.grid| >= |d.grid| && r.grid[..|d.grid|] == d.grid
    decreases |lines|
  {
    if lines != [] {
      LoadKeepsRows(d, lines[..|lines| - 1]);
      var prev := LoadAll(d, lines[..|lines| - 1]).0;
      var next := LoadLine(prev, lines[|lines| - 1]);
      if next.Some? {
        assert |next.value.grid| >= |prev.grid| && next.value.grid[..|prev.grid|] == prev.grid;
      }
    }
  }

  lemma LineOfSymbols(row: seq<Cell>)
    requires |row| >= 1
    ensures Text.Strip(RowLine(row), {'\n'}) == Text.Join(RowFields(row), ',')
    ensures forall i :: 0 <= i < |RowLine(row)| ==> RowLine(row)[i] != ' '
  {
    var fs := RowFields(row);
    var j := Text.Join(fs, ',');
    assert RowLine(row) == j + "\n" by {
      Text.TerminatedIsJoin(fs, ',');
      assert DropLast(Text.Terminated(fs, ',')) == j;
    }
    JoinOfSymbols(fs);
    assert forall i :: 0 <= i < |j + "\n"| ==> (j + "\n")[i] != ' ' by {
      forall i | 0 <= i < |j + "\n"|
        ensures (j + "\n")[i] != ' '
      {
        if i < |j| {
          assert (j + "\n")[i] == j[i];
        }
      }
    }
    Text.StripTail(j, "\n", {'\n'});
  }

  lemma {:induction false} JoinOfSymbols(fs: seq<string>)
    requires |fs| >= 1
    requires forall i :: 0 <= i < |fs| ==> |fs[i]| == 1 && fs[i][0] != '\n' && fs[i][0] != ' ' && fs[i][0] != ','
    ensures var j := Text.Join(fs, ','); |j| >= 1 && j[0] == fs[0][0] && j[|j| - 1] == fs[|fs| - 1][0]
    ensures forall i :: 0 <= i < |Text.Join(fs, ',')| ==> Text.Join(fs, ',')[i] != ' ' && Text.Join(fs, ',')[i] != '\n'
    decreases |fs|
  {
    if |fs| > 1 {
      JoinOfSymbols(fs[1..]);
    }
  }

  lemma ParseRowFields(row: seq<Cell>)
    ensures ParseFields(RowFields(row)) == Some(row)
    decreases |row|
  {
    if row != [] {
      var fs := RowFields(row);
      assert fs[0] == [Symbol(row[0])];
      assert FromSymbol(Symbol(row[0])) == Some(row[0]);
      assert fs[1..] == RowFields(row[1..]);
      ParseRowFields(row[1..]);
      assert [row[0]] + row[1..] == row;
    }
  }

  /** Loading the line save writes for a non-empty row appends exactly that row. */
  lemma LoadRowLine(d: LevelData, row: seq<Cell>)
    requires |row| >= 1
    ensures LoadLine(d, RowLine(row)) == Some(d.(grid := d.grid + [row]))
  {
    var line := RowLine(row);
    LineOfSymbols(row);
    Text.NotContains(line, "lines : ", ' ');
    Text.NotContains(line, "columns : ", ' ');
    var fs := RowFields(row);
    forall i | 0 <= i < |fs| ensures Text.Free(fs[i], ',') {
    }
    Text.SplitJoin(fs, ',');
    ParseRowFields(row);
  }

  /** Loading the first header line save writes sets the number of lines. */
  lemma LoadLinesHeader(d: LevelData, n: nat)
    ensures LoadLine(d, HeaderLines(n, 0)[0]) == Some(d.(nbLine := n))
  {
    var l := HeaderLines(n, 0)[0];
    assert Text.Contains(l, "lines : ") by {
      assert Text.Piece(l, 0, 8) == "lines : ";
    }
    assert Text.IntOf(l[8..]) == Some(n) by {
      assert l[8..] == "" + Text.NatToString(n) + "\n";
      Text.ReadNumber("", n);
    }
    HeaderSets(d, l, n, true);
  }

  /** Loading the second header line save writes sets the number of columns. */
  lemma LoadColumnsHeader(d: LevelData, n: nat)
    ensures LoadLine(d, HeaderLines(0, n)[1]) == Some(d.(nbCol := n))
  {
    var l := HeaderLines(0, n)[1];
    var s := Text.NatToString(n);
    assert !Text.Contains(l, "lines : ") by {
      forall i | 0 <= i < |l| ensures l[i] != 'i' {
        if 10 <= i < 10 + |s| {
          assert l[i] == s[i - 10];
        }
      }
      Text.NotContains(l, "lines : ", 'i');
    }
    assert Text.Contains(l, "columns : ") by {
      assert Text.Piece(l, 0, 10) == "columns : ";
    }
    assert Text.IntOf(l[9..]) == Some(n) by {
      assert l[9..] == " " + s + "\n";
      Text.ReadNumber(" ", n);
    }
    HeaderSets(d, l, n, false);
  }

  /** A header line whose number reads as `n >= 0` sets its dimension to `n`. */
  lemma HeaderSets(d: LevelData, l: string, n: nat, lines: bool)
    requires lines ==> Text.Contains(l, "lines : ") && |l| >= 8 && Text.IntOf(l[8..]) == Some(n)
    requires !lines ==> !Text.Contains(l, "lines : ") && Text.Contains(l, "columns : ") && |l| >= 9 && Text.IntOf(l[9..]) == Some(n)
    ensures lines ==> LoadLine(d, l) == Some(d.(nbLine := n))
    ensures !lines ==> LoadLine(d, l) == Some(d.(nbCol := n))
  {
  }

  /** Loading the two header lines save writes sets both dimensions. */
  lemma LoadHeaders(d: LevelData, nbLine: nat, nbCol: nat)
    ensures LoadAll(d, HeaderLines(nbLine, nbCol)) == (d.(nbLine := nbLine, nbCol := nbCol), true)
  {
    var h := HeaderLines(nbLine, nbCol);
    assert h[0] == HeaderLines(nbLine, 0)[0];
    assert h[1] == HeaderLines(0, nbCol)[1];
    LoadLinesHeader(d, nbLine);
    LoadColumnsHeader(d.(nbLine := nbLine), nbCol);
    assert h[..1][..0] == [];
    assert h[..1] == [h[0]];
    assert LoadAll(d, h[..1]) == (d.(nbLine := nbLine), true);
    assert h[..|h| - 1] == h[..1];
  }

  /** Loading what save wrote, into any level, appends the saved rows and sets the saved dimensions. */
  lemma LoadSaved(e: LevelData, d: LevelData)
    requires forall i :: 0 <= i < |d.grid| ==> |d.grid[i]| >= 1
    ensures LoadAll(e, SavedLines(d)) == (LevelData(d.nbLine, d.nbCol, e.grid + d.grid), true)
  {
    LoadHeaders(e, d.nbLine, d.nbCol);
    LoadRows(e, HeaderLines(d.nbLine, d.nbCol), e.(nbLine := d.nbLine, nbCol := d.nbCol), d.grid);
  }

  lemma RowLinesSnoc(pre: seq<string>, g: Grid)
    requires g != []
    ensures pre + RowLines(g) == (pre + RowLines(g[..|g| - 1])) + [RowLine(g[|g| - 1])]
  {
    assert RowLines(g) == RowLines(g[..|g| - 1]) + [RowLine(g[|g| - 1])];
  }

  lemma TakeOneMore(ls: seq<string>, k: nat)
    requires k < |ls|
    ensures ls[..k + 1] == ls[..k] + [ls[k]]
  {
  }

  lemma LoadAllSnoc(e: LevelData, ls: seq<string>, l: string, x: LevelData, y: LevelData)
    requires LoadAll(e, ls) == (x, true) && LoadLine(x, l) == Some(y)
    ensures LoadAll(e, ls + [l]) == (y, true)
  {
    assert (ls + [l])[..|ls|] == ls;
  }

  lemma LoadRowStep(e: LevelData, ls: seq<string>, x: LevelData, row: seq<Cell>)
    requires |row| >= 1 && LoadAll(e, ls) == (x, true)
    ensures LoadAll(e, ls + [RowLine(row)]) == (x.(grid := x.grid + [row]), true)
  {
    LoadRowLine(x, row);
    LoadAllSnoc(e, ls, RowLine(row), x, x.(grid := x.grid + [row]));
  }

  /** After lines that loaded, the row lines of `g` append the rows of `g`. */
  lemma {:induction false} LoadRows(e: LevelData, pre: seq<string>, x: LevelData, g: Grid)
    requires forall i :: 0 <= i < |g| ==> |g[i]| >= 1
    requires LoadAll(e, pre) == (x, true)
    ensures LoadAll(e, pre + RowLines(g)) == (x.(grid := x.grid + g), true)
    decreases |g|
  {
    if g == [] {
      assert pre + RowLines(g) == pre;
      assert x.grid + g == x.grid;
    } else {
      var g', row := g[..|g| - 1], g[|g| - 1];
      assert g == g' + [row];
      assert x.grid + g' + [row] == x.grid + g;
      RowLinesSnoc(pre, g);
      LoadRows(e, pre, x, g');
      LoadRowStep(e, pre + RowLines(g'), x.(grid := x.grid + g'), row);
    }
  }

  /** A level: its dimensions and its grid, which generate and load fill in place. */
  class Level {
    var nbLine: nat
    var nbCol: nat
    var grid: Grid

    /** What save writes and load reads. */
    function Data(): LevelData
      reads this
    {
      LevelData(nbLine, nbCol, grid)
    }

    /** A new level has no lines, no columns and an empty grid (game.py:5-9). */
    constructor ()
      ensures nbLine == 0 && nbCol == 0 && grid == []
    {
      nbLine, nbCol, grid := 0, 0, [];
    }

    /** generate (game.py:39-64): fill the grid from the draws. */
    method Generate(nb_line: nat, nb_col: nat, pw: real, po: real, pc: real, d: Draws)
      requires nb_line >= 1 && nb_col >= 1 && WellFormed(d, nb_line, nb_col)
      modifies this
      ensures nbLine == nb_line && nbCol == nb_col
      ensures grid == Generated(nb_line, nb_col, pw, po, pc, d)
    {
      nbLine := nb_line;
      nbCol := nb_col;
      FillBlank();
      DrawCells(d, pw, po, pc);
      PlaceEach(d.swords, Sword);
      PlaceEach(d.portals, Portal);
      PlaceEach(d.keys, Key);
      grid := Put(grid, nbLine, nbCol, Pos(0, 0), Treasure);
      grid := Put(grid, nbLine, nbCol, Pos(nbCol - 1, nbLine - 1), Start);
    }

    /** The first pass of generate (game.py:42-45): every cell blank. */
    method FillBlank()
      modifies this`grid
      ensures grid == Blanks(nbLine, nbCol)
    {
      grid := [];
      var i := 0;
      while i < nbLine
        invariant 0 <= i <= nbLine
        invariant grid == Blanks(i, nbCol)
      {
        assert Blanks(i + 1, nbCol) == Blanks(i, nbCol) + [seq(nbCol, _ => Blank)];
        grid := grid + [seq(nbCol, _ => Blank)];
        i := i + 1;
      }
    }

    /** The cell-by-cell pass of generate (game.py:46-56). */
    method DrawCells(d: Draws, pw: real, po: real, pc: real)
      requires WellFormed(d, nbLine, nbCol)
      requires grid == Blanks(nbLine, nbCol)
      modifies this`grid
      ensures grid == BaseGrid(d, nbLine, nbCol, pw, po, pc)
    {
      PartialStart(d, nbLine, nbCol, pw, po, pc);
      var i := 0;
      while i < nbLine
        invariant 0 <= i <= nbLine
        invariant grid == PartialGrid(d, nbLine, nbCol, pw, po, pc, i, 0)
      {
        var j := 0;
        while j < nbCol
          invariant 0 <= j <= nbCol
          invariant grid == PartialGrid(d, nbLine, nbCol, pw, po, pc, i, j)
        {
          DrawCell(d, pw, po, pc, i, j);
          j := j + 1;
        }
        PartialRow(d, nbLine, nbCol, pw, po, pc, i);
        i := i + 1;
      }
      PartialEnd(d, nbLine, nbCol, pw, po, pc);
    }

    /** The draws for cell (i, j) in generate's double loop (game.py:48-56). */
    method DrawCell(d: Draws, pw: real, po: real, pc: real, i: nat, j: nat)
      requires WellFormed(d, nbLine, nbCol) && i < nbLine && j < nbCol
      requires grid == PartialGrid(d, nbLine, nbCol, pw, po, pc, i, j)
      modifies this`grid
      ensures grid == PartialGrid(d, nbLine, nbCol, pw, po, pc, i, j + 1)
    {
      var cd := d.cells[i][j];
      PartialStep(d, nbLine, nbCol, pw, po, pc, i, j);
      if cd.wall < pw {
        grid := SetCell(grid, Pos(j, i), Wall);
      } else if cd.obstacle < po {
        if cd.enemy {
          grid := SetCell(grid, Pos(j, i), Enemy);
        } else {
          grid := SetCell(grid, Pos(j, i), Trap);
        }
      } else if cd.crack < pc {
        grid := SetCell(grid, Pos(j, i), Crack);
      }
    }

    /** One placement loop of generate (game.py:57-62). */
    method PlaceEach(ps: seq<Pos>, c: Cell)
      requires IsRect(grid, nbLine, nbCol)
      requires forall k :: 0 <= k < |ps| ==> InBounds(nbLine, nbCol, ps[k])
      modifies this`grid
      ensures grid == PlaceAll(old(grid), nbLine, nbCol, ps, c)
    {
      var k := 0;
      while k < |ps|
        invariant 0 <= k <= |ps|
        invariant grid == PlaceAll(old(grid), nbLine, nbCol, ps[..k], c)
      {
        assert ps[..k + 1][..k] == ps[..k];
        grid := SetCell(grid, ps[k], c);
        k := k + 1;
      }
      assert ps[..k] == ps;
    }

    /** has_key (game.py:115-120): whether some cell is a key. */
    method HasKey() returns (r: bool)
      ensures r == HasKeyIn(grid)
    {
      var i := 0;
      while i < |grid|
        invariant 0 <= i <= |grid|
        invariant forall a, b :: 0 <= a < i && 0 <= b < |grid[a]| ==> grid[a][b] != Key
      {
        var j := 0;
        while j < |grid[i]|
          invariant 0 <= j <= |grid[i]|
          invariant forall b :: 0 <= b < j ==> grid[i][b] != Key
        {
          if grid[i][j] == Key {
            return true;
          }
          j := j + 1;
        }
        i := i + 1;
      }
      return false;
    }

    /**
      way_possible (game.py:122-140): a depth-first search from the bottom-right
      cell, with the stack `q` and the list `visited`. It never expands a wall
      or a crack, indexes only in-bounds cells, and answers whether the
      objective neighbours a cell it reaches.
    */
    method WayPossible(objective: Cell) returns (found: bool)
      requires Covers(grid, nbLine, nbCol)
      ensures found == WayPossibleSpec(grid, nbLine, nbCol, objective)
    {
      var start := SearchStart(nbLine, nbCol);
      var q := [start];
      var visited := [start];
      ghost var seen := {start};
      ghost var walks := map[start := [start]];
      while |q| > 0
        invariant forall v :: v in visited <==> v in seen
        invariant start in seen
        invariant forall v :: v in q ==> v in seen
        invariant Searching(grid, nbLine, nbCol, objective, seen, walks, q, {})
        decreases |Cells(nbLine, nbCol) - seen|, |q|
      {
        Pop(grid, nbLine, nbCol, objective, seen, walks, q);
        var node := q[|q| - 1];
        var hit;
        hit, q, visited, seen, walks := Explore(objective, node, q[..|q| - 1], visited, seen, walks);
        if hit {
          return true;
        }
      }
      Exhausted(grid, nbLine, nbCol, objective, seen, walks);
      return false;
    }

    /**
     * The for loop over the four neighbours of `node` in way_possible (game.py:129-139): true as
     * soon as one holds the objective; otherwise every passable unseen neighbour is pushed.
     */
    method Explore(objective: Cell, node: Pos, q0: seq<Pos>, visited0: seq<Pos>, ghost seen0: set<Pos>, ghost walks0: map<Pos, seq<Pos>>)
      returns (found: bool, q: seq<Pos>, visited: seq<Pos>, ghost seen: set<Pos>, ghost walks: map<Pos, seq<Pos>>)
      requires Covers(grid, nbLine, nbCol) && node in seen0 && node in walks0
      requires forall v :: v in visited0 <==> v in seen0
      requires forall v :: v in q0 ==> v in seen0
      requires Searching(grid, nbLine, nbCol, objective, seen0, walks0, q0, {node})
      ensures found ==> WayPossibleSpec(grid, nbLine, nbCol, objective)
      ensures !found ==> && seen0 <= seen
                         && (forall v :: v in visited <==> v in seen)
                         && (forall v :: v in q ==> v in seen)
                         && Searching(grid, nbLine, nbCol, objective, seen, walks, q, {})
                         && ((seen == seen0 && q == q0) || |Cells(nbLine, nbCol) - seen| < |Cells(nbLine, nbCol) - seen0|)
    {
      q, visited, seen, walks := q0, visited0, seen0, walks0;
      var k := 0;
      while k < 4
        invariant 0 <= k <= 4
        invariant seen0 <= seen && node in seen && node in walks
        invariant forall v :: v in visited <==> v in seen
        invariant forall v :: v in q ==> v in seen
        invariant Searching(grid, nbLine, nbCol, objective, seen, walks, q, {node})
        invariant ClosedUpTo(grid, nbLine, nbCol, objective, node, k, seen)
        invariant (seen == seen0 && q == q0) || |Cells(nbLine, nbCol) - seen| < |Cells(nbLine, nbCol) - seen0|
      {
        var n := Neighbour(node, k);
        if 0 <= n.y < nbLine && 0 <= n.x < nbCol {
          if grid[n.y][n.x] == objective {
            assert HasWalk(grid, nbLine, nbCol, objective, walks, node);
            Found(grid, nbLine, nbCol, objective, walks[node], k);
            return true, q, visited, seen, walks;
          } else if grid[n.y][n.x] != Wall && grid[n.y][n.x] != Crack {
            if n !in visited {
              assert n in Cells(nbLine, nbCol);
              Shrinks(Cells(nbLine, nbCol), seen, n);
              Push(grid, nbLine, nbCol, objective, seen, walks, q, node, k, n);
              walks := walks[n := walks[node] + [n]];
              q := q + [n];
              visited := visited + [n];
              seen := seen + {n};
            } else {
              Skipped(grid, nbLine, nbCol, objective, node, k, seen);
            }
          } else {
            Skipped(grid, nbLine, nbCol, objective, node, k, seen);
          }
        } else {
          Skipped(grid, nbLine, nbCol, objective, node, k, seen);
        }
        k := k + 1;
      }
      Done(grid, nbLine, nbCol, objective, seen, walks, q, node);
      found := false;
    }

    /** solvable (game.py:102-113): false on an empty grid; otherwise a key exists and both the key and the treasure are found. */
    method Solvable() returns (r: bool)
      requires grid != [] && HasKeyIn(grid) ==> Covers(grid, nbLine, nbCol)
      ensures r == SolvableSpec(grid, nbLine, nbCol)
    {
      if grid == [] {
        return false;
      }
      var k := HasKey();
      if !k {
        return false;
      }
      var wk := WayPossible(Key);
      if !wk {
        return false;
      }
      var wt := WayPossible(Treasure);
      if !wt {
        return false;
      }
      return true;
    }

    /**
      generate_solvable (game.py:24-37) on the attempts `attempts`: dimensions
      below 4 leave the level as it was; otherwise attempts are generated until
      one is solvable, at most 11 in all, and the grid is cleared when the retry
      counter reaches 10, whether or not the eleventh attempt was solvable.
    */
    method GenerateSolvable(nb_line: nat, nb_col: nat, pw: real, po: real, pc: real, attempts: seq<Draws>)
      requires nb_line >= 4 && nb_col >= 4 ==>
        |attempts| >= 11 && forall i :: 0 <= i < |attempts| ==> WellFormed(attempts[i], nb_line, nb_col)
      modifies this
      ensures nb_line < 4 || nb_col < 4 ==> nbLine == old(nbLine) && nbCol == old(nbCol) && grid == old(grid)
      ensures nb_line >= 4 && nb_col >= 4 ==>
        nbLine == nb_line && nbCol == nb_col && grid == Retry(Attempts(nb_line, nb_col, pw, po, pc, attempts), nb_line, nb_col, 0)
    {
      if nb_line < 4 || nb_col < 4 {
        return;
      }
      ghost var gs := Attempts(nb_line, nb_col, pw, po, pc, attempts);
      var s := Attempt(nb_line, nb_col, pw, po, pc, attempts[0]);
      var cpt := 0;
      while !s && cpt < 10
        invariant 0 <= cpt <= 10
        invariant nbLine == nb_line && nbCol == nb_col
        invariant grid == gs[cpt]
        invariant s == SolvableSpec(grid, nbLine, nbCol)
        invariant Retry(gs, nb_line, nb_col, 0) == Retry(gs, nb_line, nb_col, cpt)
        decreases 10 - cpt
      {
        s := Attempt(nb_line, nb_col, pw, po, pc, attempts[cpt + 1]);
        cpt := cpt + 1;
      }
      if cpt == 10 {
        grid := [];
      }
    }

    /** One round of generate_solvable: generate, then check solvability. */
    method Attempt(nb_line: nat, nb_col: nat, pw: real, po: real, pc: real, d: Draws) returns (s: bool)
      requires nb_line >= 1 && nb_col >= 1 && WellFormed(d, nb_line, nb_col)
      modifies this
      ensures nbLine == nb_line && nbCol == nb_col
      ensures grid == Generated(nb_line, nb_col, pw, po, pc, d)
      ensures s == SolvableSpec(grid, nbLine, nbCol)
    {
      Generate(nb_line, nb_col, pw, po, pc, d);
      s := Solvable();
    }

    /** save (game.py:76-84): the lines written to the level file. */
    method Save() returns (lines: seq<string>)
      ensures lines == SavedLines(Data())
    {
      lines := ["lines : " + Text.NatToString(nbLine) + "\n"];
      lines := lines + ["columns : " + Text.NatToString(nbCol) + "\n"];
      var i := 0;
      while i < |grid|
        invariant 0 <= i <= |grid|
        invariant lines == SavedLines(LevelData(nbLine, nbCol, grid[..i]))
      {
        var row := grid[i];
        var tmp := "";
        var j := 0;
        while j < |row|
          invariant 0 <= j <= |row|
          invariant tmp == Text.Terminated(RowFields(row)[..j], ',')
        {
          assert RowFields(row)[..j + 1][..j] == RowFields(row)[..j];
          tmp := tmp + [Symbol(row[j])] + ",";
          j := j + 1;
        }
        assert RowFields(row)[..j] == RowFields(row);
        lines := lines + [DropLast(tmp) + "\n"];
        assert grid[..i + 1][..i] == grid[..i];
        i := i + 1;
      }
      assert grid[..i] == grid;
    }

    /** load (game.py:66-74) over the lines of a level file; `ok` is false where load raises, after the earlier lines took effect. */
    method Load(lines: seq<string>) returns (ok: bool)
      modifies this
      ensures (Data(), ok) == LoadAll(old(Data()), lines)
    {
      var k := 0;
      while k < |lines|
        invariant 0 <= k <= |lines|
        invariant (Data(), true) == LoadAll(old(Data()), lines[..k])
      {
        var next := LoadLine(Data(), lines[k]);
        if next.None? {
          LoadStops(old(Data()), lines, k, Data());
          return false;
        }
        TakeOneMore(lines, k);
        LoadAllSnoc(old(Data()), lines[..k], lines[k], Data(), next.value);
        nbLine, nbCol, grid := next.value.nbLine, next.value.nbCol, next.value.grid;
        k := k + 1;
      }
      assert lines[..k] == lines;
      return true;
    }
  }

  /** The grids generate_solvable's eleven rounds generate from the attempts' draws. */
  function Attempts(nbLine: nat, nbCol: nat, pw: real, po: real, pc: real, attempts: seq<Draws>): (gs: seq<Grid>)
    requires nbLine >= 1 && nbCol >= 1
    requires forall i :: 0 <= i < |attempts| ==> WellFormed(attempts[i], nbLine, nbCol)
    ensures |gs| == |attempts|
    ensures forall i :: 0 <= i < |attempts| ==> gs[i] == Generated(nbLine, nbCol, pw, po, pc, attempts[i])
  {
    seq(|attempts|, i requires 0 <= i < |attempts| => Generated(nbLine, nbCol, pw, po, pc, attempts[i]))
  }

  /**
    The grid generate_solvable keeps from round `k` on: the first solvable one among
    rounds k..9, or the empty grid when none of them is (round 10 and beyond are cleared).
  */
  ghost function Retry(gs: seq<Grid>, nbLine: nat, nbCol: nat, k: nat): Grid
    requires k <= 10 && |gs| >= 10
    decreases 10 - k
  {
    if k == 10 then []
    else if SolvableSpec(gs[k], nbLine, nbCol) then gs[k] else Retry(gs, nbLine, nbCol, k + 1)
  }

  /** The grid generate_solvable keeps is empty or solvable. */
  lemma {:induction false} RetryResult(gs: seq<Grid>, nbLine: nat, nbCol: nat, k: nat)
    requires k <= 10 && |gs| >= 10
    ensures var g := Retry(gs, nbLine, nbCol, k); g == [] || SolvableSpec(g, nbLine, nbCol)
    decreases 10 - k
  {
    if k < 10 && !SolvableSpec(gs[k], nbLine, nbCol) {
      RetryResult(gs, nbLine, nbCol, k + 1);
    }
  }

  /** generate_solvable keeps a grid whenever one of the ten rounds it may keep is solvable. */
  lemma {:induction false} RetryFinds(gs: seq<Grid>, nbLine: nat, nbCol: nat, k: nat, i: nat)
    requires k <= i < 10 && |gs| >= 10
    requires SolvableSpec(gs[i], nbLine, nbCol)
    ensures Retry(gs, nbLine, nbCol, k) != []
    decreases i - k
  {
    if !SolvableSpec(gs[k], nbLine, nbCol) {
      RetryFinds(gs, nbLine, nbCol, k + 1, i);
    }
  }
}
