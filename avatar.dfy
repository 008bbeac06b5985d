/**
  What both player classes (player.py and player2.py) share: the player's
  fields, the starting state and the four wall-checking moves, which the two
  files define identically.
*/
module Avatar {
  import opened Wrappers
  import opened World

  /** A player's fields: the grid it walks on, its position, the position before its last move, its items and its life. */
  datatype Hero = Hero(
    grid: Grid,
    x: int,
    y: int,
    prev: Pos,
    hasKey: bool,
    hasTreasure: bool,
    win: bool,
    hasSword: bool,
    life: int)

  /** The player stands inside a rectangular grid. */
  predicate Valid(h: Hero, nbLine: int, nbCol: int) {
    IsRect(h.grid, nbLine, nbCol) && InBounds(nbLine, nbCol, Pos(h.x, h.y))
  }

  /** A new player: at the bottom-right corner, no items, not won, `hp` lives (player.py:5-17, player2.py:6-18). */
  function Fresh(g: Grid, nbLine: int, nbCol: int, hp: int): (h: Hero)
    ensures h.x == nbCol - 1 && h.y == nbLine - 1 && h.prev == Pos(h.x, h.y)
    ensures !h.hasKey && !h.hasSword && !h.hasTreasure && !h.win && h.life == hp
    ensures h.grid == g
    ensures IsRect(g, nbLine, nbCol) && nbLine >= 1 && nbCol >= 1 ==> Valid(h, nbLine, nbCol)
  {
    Hero(g, nbCol - 1, nbLine - 1, Pos(nbCol - 1, nbLine - 1), false, false, false, false, hp)
  }

  /** The other fields are those of `h`. */
  predicate SameItems(h: Hero, h': Hero) {
    h'.grid == h.grid && h'.hasKey == h.hasKey && h'.hasTreasure == h.hasTreasure
    && h'.win == h.win && h'.hasSword == h.hasSword && h'.life == h.life
  }

  /**
    move_up, move_down, move_left and move_right (player.py:19-49, player2.py:20-50):
    the old position is recorded first; the player moves one step iff the target
    is inside the grid and not a wall, and the result says whether it moved.
  */
  function Step(h: Hero, nbLine: int, nbCol: int, d: Direction): (r: (Hero, bool))
    requires Valid(h, nbLine, nbCol)
    ensures r.0.prev == Pos(h.x, h.y) && SameItems(h, r.0)
    ensures r.1 <==> CanEnter(h.grid, nbLine, nbCol, Moved(Pos(h.x, h.y), d))
    ensures r.1 ==> Pos(r.0.x, r.0.y) == Moved(Pos(h.x, h.y), d)
    ensures !r.1 ==> r.0.x == h.x && r.0.y == h.y
    ensures Valid(r.0, nbLine, nbCol)
  {
    var t := Moved(Pos(h.x, h.y), d);
    var h0 := h.(prev := Pos(h.x, h.y));
    if CanEnter(h.grid, nbLine, nbCol, t) then (h0.(x := t.x, y := t.y), true) else (h0, false)
  }

  /** is_dead (player.py:51-54, player2.py:52-53). */
  predicate IsDead(h: Hero) {
    h.life <= 0
  }

  /** The item flags are coherent: winning needs the treasure and the treasure needs the key. */
  predicate Consistent(h: Hero) {
    (h.win ==> h.hasTreasure) && (h.hasTreasure ==> h.hasKey)
  }

  /** `g'` has its walls exactly where `g` has them. */
  predicate SameWalls(g: Grid, g': Grid) {
    |g'| == |g| && forall i :: 0 <= i < |g| ==> |g'[i]| == |g[i]| && forall j :: 0 <= j < |g[i]| ==> (g'[i][j] == Wall <==> g[i][j] == Wall)
  }

  /**
    What a cell reaction does to the items of a player standing on `cell` in
    both player classes: the key and the sword are picked up, the treasure only
    with the key, the game is won at the start cell only with the treasure.
  */
  predicate ItemsAfter(h: Hero, cell: Cell, r: Hero) {
    (r.hasKey <==> h.hasKey || cell == Key)
    && (r.hasSword <==> h.hasSword || cell == Sword)
    && (r.hasTreasure <==> h.hasTreasure || (cell == Treasure && h.hasKey))
    && (r.win <==> h.win || (cell == Start && h.hasTreasure))
  }

  /** Picking items up as both grid_reaction methods do keeps the flags coherent. */
  lemma ItemsKeepConsistent(h: Hero, cell: Cell, r: Hero)
    requires ItemsAfter(h, cell, r) && Consistent(h)
    ensures Consistent(r)
  {
  }

  /** A teleport may land on `p`: not a wall and, when `avoidPrev`, not the position before the last move. */
  predicate Lands(h: Hero, nbLine: int, nbCol: int, p: Pos, avoidPrev: bool)
    requires IsRect(h.grid, nbLine, nbCol) && InBounds(nbLine, nbCol, p)
  {
    h.grid[p.y][p.x] != Wall && !(avoidPrev && p == h.prev)
  }

  /** The teleport draws are positions of the grid and one of them is a landing place. */
  predicate PortalDraws(h: Hero, nbLine: int, nbCol: int, draws: seq<Pos>, avoidPrev: bool) {
    IsRect(h.grid, nbLine, nbCol)
    && (forall k :: 0 <= k < |draws| ==> InBounds(nbLine, nbCol, draws[k]))
    && exists k :: 0 <= k < |draws| && Lands(h, nbLine, nbCol, draws[k], avoidPrev)
  }

  /** The index of the draw the teleport's rejection loop keeps: the first landing place. */
  function FirstLanding(h: Hero, nbLine: int, nbCol: int, draws: seq<Pos>, avoidPrev: bool): (i: nat)
    requires PortalDraws(h, nbLine, nbCol, draws, avoidPrev)
    ensures i < |draws| && Lands(h, nbLine, nbCol, draws[i], avoidPrev)
    ensures forall k :: 0 <= k < i ==> !Lands(h, nbLine, nbCol, draws[k], avoidPrev)
    decreases |draws|
  {
    if Lands(h, nbLine, nbCol, draws[0], avoidPrev) then 0
    else
      assert PortalDraws(h, nbLine, nbCol, draws[1..], avoidPrev) by {
        var k :| 0 <= k < |draws| && Lands(h, nbLine, nbCol, draws[k], avoidPrev);
        assert draws[1..][k - 1] == draws[k];
      }
      1 + FirstLanding(h, nbLine, nbCol, draws[1..], avoidPrev)
  }

  /** The direction of a moving-platform draw: 0 right, 1 left, 2 down, anything else up. */
  function GlideDirection(t: int): Direction {
    if t == 0 then Right else if t == 1 then Left else if t == 2 then Down else Up
  }

  /** The step in direction `d` does not return to the line or column of the position before the last move. */
  predicate AwayFromPrev(h: Hero, d: Direction) {
    var p := Moved(Pos(h.x, h.y), d);
    if d == Left || d == Right then p.x != h.prev.x else p.y != h.prev.y
  }

  /**
    Where moving-platform draw `t` takes the player, if the platform accepts the
    draw (player.py:94-114, player2.py:105-125): the neighbour in the drawn
    direction must be inside the grid and not a wall, and with `avoidPrev` also
    off the line or column the player came from.
  */
  function Glide(h: Hero, nbLine: int, nbCol: int, t: int, avoidPrev: bool): (r: Option<Pos>)
    requires Valid(h, nbLine, nbCol)
    ensures r.Some? <==> CanEnter(h.grid, nbLine, nbCol, Moved(Pos(h.x, h.y), GlideDirection(t))) && (avoidPrev ==> AwayFromPrev(h, GlideDirection(t)))
    ensures r.Some? ==> r.value == Moved(Pos(h.x, h.y), GlideDirection(t))
  {
    if t == 0 then
      if h.x + 1 != nbCol && !(avoidPrev && h.x + 1 == h.prev.x) && h.grid[h.y][h.x + 1] != Wall then Some(Pos(h.x + 1, h.y)) else None
    else if t == 1 then
      if h.x - 1 != -1 && !(avoidPrev && h.x - 1 == h.prev.x) && h.grid[h.y][h.x - 1] != Wall then Some(Pos(h.x - 1, h.y)) else None
    else if t == 2 then
      if h.y + 1 != nbLine && !(avoidPrev && h.y + 1 == h.prev.y) && h.grid[h.y + 1][h.x] != Wall then Some(Pos(h.x, h.y + 1)) else None
    else
      if h.y - 1 != -1 && !(avoidPrev && h.y - 1 == h.prev.y) && h.grid[h.y - 1][h.x] != Wall then Some(Pos(h.x, h.y - 1)) else None
  }

  /** One of the platform draws is accepted. */
  predicate GlideDraws(h: Hero, nbLine: int, nbCol: int, draws: seq<int>, avoidPrev: bool)
    requires Valid(h, nbLine, nbCol)
  {
    exists k :: 0 <= k < |draws| && Glide(h, nbLine, nbCol, draws[k], avoidPrev).Some?
  }

  /** The index of the draw the platform's loop stops at: the first accepted one. */
  function FirstGlide(h: Hero, nbLine: int, nbCol: int, draws: seq<int>, avoidPrev: bool): (i: nat)
    requires Valid(h, nbLine, nbCol) && GlideDraws(h, nbLine, nbCol, draws, avoidPrev)
    ensures i < |draws| && Glide(h, nbLine, nbCol, draws[i], avoidPrev).Some?
    ensures forall k :: 0 <= k < i ==> Glide(h, nbLine, nbCol, draws[k], avoidPrev).None?
    decreases |draws|
  {
    if Glide(h, nbLine, nbCol, draws[0], avoidPrev).Some? then 0
    else
      assert GlideDraws(h, nbLine, nbCol, draws[1..], avoidPrev) by {
        var k :| 0 <= k < |draws| && Glide(h, nbLine, nbCol, draws[k], avoidPrev).Some?;
        assert draws[1..][k - 1] == draws[k];
      }
      1 + FirstGlide(h, nbLine, nbCol, draws[1..], avoidPrev)
  }

  /** The random draws of one grid_reaction call are enough for the cell the player stands on. */
  predicate DrawsSuffice(h: Hero, nbLine: int, nbCol: int, portal: seq<Pos>, glide: seq<int>, avoidPrev: bool) {
    Valid(h, nbLine, nbCol)
    && (h.grid[h.y][h.x] == Portal ==> PortalDraws(h, nbLine, nbCol, portal, avoidPrev))
    && (h.grid[h.y][h.x] == Platform ==> GlideDraws(h, nbLine, nbCol, glide, avoidPrev))
  }
}
