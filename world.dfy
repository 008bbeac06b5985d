/**
  The vocabulary every component of the game shares: the eleven cell symbols,
  grids of cells indexed `grid[line][column]`, positions and the four moves.
*/
module World {
  import opened Wrappers

  /** The cell symbols of a level, listed in game.py:10-20. */
  datatype Cell = Start | Blank | Wall | Enemy | Trap | Crack | Treasure | Sword | Key | Portal | Platform

  /** The one-character symbol a level file uses for a cell. */
  function Symbol(c: Cell): (ch: char)
    ensures ch != ',' && ch != ' ' && ch != '\n'
  {
    match c
    case Start => 'S'
    case Blank => 'B'
    case Wall => '_'
    case Enemy => 'E'
    case Trap => 'R'
    case Crack => 'C'
    case Treasure => 'T'
    case Sword => 'W'
    case Key => 'K'
    case Portal => 'P'
    case Platform => 'M'
  }

  /** The cell a symbol stands for, if any. */
  function FromSymbol(ch: char): (r: Option<Cell>)
    ensures forall c: Cell :: r == Some(c) <==> Symbol(c) == ch
  {
    match ch
    case 'S' => Some(Start)
    case 'B' => Some(Blank)
    case '_' => Some(Wall)
    case 'E' => Some(Enemy)
    case 'R' => Some(Trap)
    case 'C' => Some(Crack)
    case 'T' => Some(Treasure)
    case 'W' => Some(Sword)
    case 'K' => Some(Key)
    case 'P' => Some(Portal)
    case 'M' => Some(Platform)
    case _ => None
  }

  type Grid = seq<seq<Cell>>

  /** A position: `x` is the column, `y` the line. */
  datatype Pos = Pos(x: int, y: int)

  datatype Direction = Up | Down | Left | Right

  /** `g` has exactly `nbLine` rows of `nbCol` cells. */
  predicate IsRect(g: Grid, nbLine: int, nbCol: int) {
    |g| == nbLine && forall i :: 0 <= i < |g| ==> |g[i]| == nbCol
  }

  /** Every index of the `nbLine` x `nbCol` box exists in `g`. */
  predicate Covers(g: Grid, nbLine: int, nbCol: int) {
    nbLine <= |g| && forall i :: 0 <= i < nbLine ==> nbCol <= |g[i]|
  }

  predicate InBounds(nbLine: int, nbCol: int, p: Pos) {
    0 <= p.y < nbLine && 0 <= p.x < nbCol
  }

  /** The cell under `p`. */
  function At(g: Grid, nbLine: int, nbCol: int, p: Pos): Cell
    requires Covers(g, nbLine, nbCol) && InBounds(nbLine, nbCol, p)
  {
    g[p.y][p.x]
  }

  /** A player may stand on `p`: it is inside the grid and not a wall. */
  predicate CanEnter(g: Grid, nbLine: int, nbCol: int, p: Pos)
    requires Covers(g, nbLine, nbCol)
  {
    InBounds(nbLine, nbCol, p) && g[p.y][p.x] != Wall
  }

  /** The neighbour of `p` one step in direction `d` (lines grow downwards). */
  function Moved(p: Pos, d: Direction): (r: Pos)
    ensures (r.x == p.x && (r.y == p.y - 1 || r.y == p.y + 1)) || (r.y == p.y && (r.x == p.x - 1 || r.x == p.x + 1))
    ensures r != p
  {
    match d
    case Up => Pos(p.x, p.y - 1)
    case Down => Pos(p.x, p.y + 1)
    case Left => Pos(p.x - 1, p.y)
    case Right => Pos(p.x + 1, p.y)
  }

  /** `g` with the cell under `p` replaced by `c`. */
  function SetCell(g: Grid, p: Pos, c: Cell): (r: Grid)
    requires 0 <= p.y < |g| && 0 <= p.x < |g[p.y]|
    ensures |r| == |g| && (forall i :: 0 <= i < |g| ==> |r[i]| == |g[i]|)
    ensures r[p.y][p.x] == c
    ensures forall i, j :: 0 <= i < |g| && 0 <= j < |g[i]| && (i != p.y || j != p.x) ==> r[i][j] == g[i][j]
  {
    g[p.y := g[p.y][p.x := c]]
  }
}
