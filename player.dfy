/**
  The player of the hand-played game and of the Q-learning agent (player.py):
  an object whose moves and cell reactions update its fields in place. The
  random numbers grid_reaction draws are parameters: `u` is the one uniform
  draw of an enemy fight or a trap, `portal` the successive positions a
  teleport draws and `glide` the successive directions a moving platform draws.
*/
module PlayerOne {
  import opened Wrappers
  import opened World
  import opened Avatar
  import Game

  /**
    The cells of grid_reaction that leave the player where it is, or send it
    back to the start by a trap (player.py:57-83): items, life and the grid.
  */
  function Touch(h: Hero, nbLine: int, nbCol: int, u: real): (r: Hero)
    requires Valid(h, nbLine, nbCol)
    ensures Valid(r, nbLine, nbCol) && r.prev == h.prev
    ensures ItemsAfter(h, h.grid[h.y][h.x], r)
  {
    var here := Pos(h.x, h.y);
    match h.grid[h.y][h.x]
    case Key => h.(hasKey := true, grid := SetCell(h.grid, here, Blank))
    case Treasure => if h.hasKey then h.(hasTreasure := true, grid := SetCell(h.grid, here, Blank)) else h
    case Start => if h.hasTreasure then h.(win := true) else h
    case Enemy =>
      var life := if !h.hasSword && u < 0.3 then h.life - 1 else h.life;
      h.(life := life, grid := SetCell(h.grid, here, Blank))
    case Crack => h.(life := h.life - 1)
    case Sword => h.(hasSword := true, grid := SetCell(h.grid, here, Blank))
    case Trap =>
      if u < 0.1 then h.(life := h.life - 1)
      else if u < 0.4 then h.(x := nbCol - 1, y := nbLine - 1)
      else h
    case _ => h
  }

  /**
    grid_reaction (player.py:56-116) on a player snapshot. The result is the
    new player and whether the cell moved the player on its own (a teleport or
    a moving platform).
  */
  function React(h: Hero, nbLine: int, nbCol: int, u: real, portal: seq<Pos>, glide: seq<int>): (r: (Hero, bool))
    requires DrawsSuffice(h, nbLine, nbCol, portal, glide, false)
    ensures Valid(r.0, nbLine, nbCol) && r.0.prev == h.prev
    ensures r.1 <==> h.grid[h.y][h.x] == Portal || h.grid[h.y][h.x] == Platform
    ensures ItemsAfter(h, h.grid[h.y][h.x], r.0)
  {
    var cell := h.grid[h.y][h.x];
    if cell == Portal then
      var p := portal[FirstLanding(h, nbLine, nbCol, portal, false)];
      (h.(x := p.x, y := p.y), true)
    else if cell == Platform then
      var p := Glide(h, nbLine, nbCol, glide[FirstGlide(h, nbLine, nbCol, glide, false)], false).value;
      (h.(x := p.x, y := p.y), true)
    else
      (Touch(h, nbLine, nbCol, u), false)
  }

  /** One life is lost in a crack, to an enemy when unarmed and unlucky, and in a trap with a draw below 0.1; otherwise none. */
  lemma ReactLife(h: Hero, nbLine: int, nbCol: int, u: real, portal: seq<Pos>, glide: seq<int>)
    requires DrawsSuffice(h, nbLine, nbCol, portal, glide, false)
    ensures var r := React(h, nbLine, nbCol, u, portal, glide);
      (r.0.life == h.life - 1 <==>
        match h.grid[h.y][h.x]
        case Crack => true
        case Enemy => !h.hasSword && u < 0.3
        case Trap => u < 0.1
        case _ => false)
      && (r.0.life == h.life || r.0.life == h.life - 1)
  {
  }

  /** The key, the sword, the enemy, and the treasure when it is taken, leave a blank cell; no other cell changes. */
  lemma ReactGrid(h: Hero, nbLine: int, nbCol: int, u: real, portal: seq<Pos>, glide: seq<int>)
    requires DrawsSuffice(h, nbLine, nbCol, portal, glide, false)
    ensures var r := React(h, nbLine, nbCol, u, portal, glide);
      r.0.grid == (if h.grid[h.y][h.x] in {Key, Sword, Enemy} || (h.grid[h.y][h.x] == Treasure && h.hasKey)
                   then SetCell(h.grid, Pos(h.x, h.y), Blank) else h.grid)
      && SameWalls(h.grid, r.0.grid)
  {
  }

  /**
    A trap with a draw in [0.1, 0.4) sends the player back to the bottom-right
    corner, a teleport keeps the first drawn position that is not a wall, a
    moving platform takes the player one step to a cell it can enter, and no
    other cell moves the player.
  */
  lemma ReactPosition(h: Hero, nbLine: int, nbCol: int, u: real, portal: seq<Pos>, glide: seq<int>)
    requires DrawsSuffice(h, nbLine, nbCol, portal, glide, false)
    ensures var r := React(h, nbLine, nbCol, u, portal, glide);
      var cell := h.grid[h.y][h.x];
      (cell == Trap ==> Pos(r.0.x, r.0.y) == (if 0.1 <= u < 0.4 then Pos(nbCol - 1, nbLine - 1) else Pos(h.x, h.y)))
      && (cell == Portal ==> Pos(r.0.x, r.0.y) == portal[FirstLanding(h, nbLine, nbCol, portal, false)])
      && (cell == Platform ==>
            Some(Pos(r.0.x, r.0.y)) == Glide(h, nbLine, nbCol, glide[FirstGlide(h, nbLine, nbCol, glide, false)], false)
            && CanEnter(h.grid, nbLine, nbCol, Pos(r.0.x, r.0.y)))
      && (cell !in {Trap, Portal, Platform} ==> r.0.x == h.x && r.0.y == h.y)
  {
  }

  /** A reaction never makes the item flags incoherent. */
  lemma ReactKeepsConsistent(h: Hero, nbLine: int, nbCol: int, u: real, portal: seq<Pos>, glide: seq<int>)
    requires DrawsSuffice(h, nbLine, nbCol, portal, glide, false) && Consistent(h)
    ensures Consistent(React(h, nbLine, nbCol, u, portal, glide).0)
  {
    ItemsKeepConsistent(h, h.grid[h.y][h.x], React(h, nbLine, nbCol, u, portal, glide).0);
  }

  class Player {
    var grid: Grid
    var name: string
    var xPos: int
    var yPos: int
    var hasKey: bool
    var hasTreasure: bool
    var win: bool
    var hasSword: bool
    var life: int
    var maxCol: int
    var maxLine: int
    var prevPos: Pos

    /** The fields the moves and the reactions are specified on. */
    function State(): Hero
      reads this
    {
      Hero(grid, xPos, yPos, prevPos, hasKey, hasTreasure, win, hasSword, life)
    }

    predicate Valid()
      reads this
    {
      Avatar.Valid(State(), maxLine, maxCol)
    }

    /** __init__ (player.py:5-17): a fresh player at the level's bottom-right corner. */
    constructor (level: Game.Level, hp: int := 3)
      ensures State() == Fresh(level.grid, level.nbLine, level.nbCol, hp)
      ensures maxCol == level.nbCol && maxLine == level.nbLine && name == "player"
    {
      grid := level.grid;
      name := "player";
      xPos := level.nbCol - 1;
      yPos := level.nbLine - 1;
      hasKey := false;
      hasTreasure := false;
      win := false;
      hasSword := false;
      life := hp;
      maxCol := level.nbCol;
      maxLine := level.nbLine;
      prevPos := Pos(level.nbCol - 1, level.nbLine - 1);
    }

    /** move_up (player.py:19-25). */
    method MoveUp() returns (moved: bool)
      requires Valid()
      modifies this`prevPos, this`yPos
      ensures (State(), moved) == Step(old(State()), maxLine, maxCol, Up)
    {
      prevPos := Pos(xPos, yPos);
      if yPos - 1 >= 0 {
        if grid[yPos - 1][xPos] != Wall {
          yPos := yPos - 1;
          return true;
        }
      }
      return false;
    }

    /** move_down (player.py:27-33). */
    method MoveDown() returns (moved: bool)
      requires Valid()
      modifies this`prevPos, this`yPos
      ensures (State(), moved) == Step(old(State()), maxLine, maxCol, Down)
    {
      prevPos := Pos(xPos, yPos);
      if yPos + 1 < maxLine {
        if grid[yPos + 1][xPos] != Wall {
          yPos := yPos + 1;
          return true;
        }
      }
      return false;
    }

    /** move_left (player.py:35-41). */
    method MoveLeft() returns (moved: bool)
      requires Valid()
      modifies this`prevPos, this`xPos
      ensures (State(), moved) == Step(old(State()), maxLine, maxCol, Left)
    {
      prevPos := Pos(xPos, yPos);
      if xPos - 1 >= 0 {
        if grid[yPos][xPos - 1] != Wall {
          xPos := xPos - 1;
          return true;
        }
      }
      return false;
    }

    /** move_right (player.py:43-49). */
    method MoveRight() returns (moved: bool)
      requires Valid()
      modifies this`prevPos, this`xPos
      ensures (State(), moved) == Step(old(State()), maxLine, maxCol, Right)
    {
      prevPos := Pos(xPos, yPos);
      if xPos + 1 < maxCol {
        if grid[yPos][xPos + 1] != Wall {
          xPos := xPos + 1;
          return true;
        }
      }
      return false;
    }

    /** grid_reaction (player.py:56-116): react to the cell the player stands on. */
    method GridReaction(u: real, portal: seq<Pos>, glide: seq<int>) returns (r: bool)
      requires DrawsSuffice(State(), maxLine, maxCol, portal, glide, false)
      modifies this`grid, this`xPos, this`yPos, this`hasKey, this`hasTreasure, this`win, this`hasSword, this`life
      ensures (State(), r) == React(old(State()), maxLine, maxCol, u, portal, glide)
    {
      var cell := grid[yPos][xPos];
      if cell == Portal {
        Teleport(portal);
        return true;
      } else if cell == Platform {
        Ride(glide);
        return true;
      }
      TouchCell(u);
      return false;
    }

    /** The branches of grid_reaction for the other cells (player.py:57-83). */
    method TouchCell(u: real)
      requires Valid()
      modifies this`grid, this`xPos, this`yPos, this`hasKey, this`hasTreasure, this`win, this`hasSword, this`life
      ensures State() == Touch(old(State()), maxLine, maxCol, u)
    {
      var here := Pos(xPos, yPos);
      var cell := grid[yPos][xPos];
      if cell == Key {
        hasKey := true;
        grid := SetCell(grid, here, Blank);
      } else if cell == Treasure {
        if hasKey {
          hasTreasure := true;
          grid := SetCell(grid, here, Blank);
        }
      } else if cell == Start {
        if hasTreasure {
          win := true;
        }
      } else if cell == Enemy {
        if !hasSword {
          if u < 0.3 {
            life := life - 1;
          }
        }
        grid := SetCell(grid, here, Blank);
      } else if cell == Crack {
        life := life - 1;
      } else if cell == Sword {
        hasSword := true;
        grid := SetCell(grid, here, Blank);
      } else if cell == Trap {
        if u < 0.1 {
          life := life - 1;
        } else if u < 0.4 {
          xPos := maxCol - 1;
          yPos := maxLine - 1;
        }
      }
    }

    /** The teleport's rejection loop (player.py:85-89): draw positions until one is not a wall. */
    method Teleport(portal: seq<Pos>)
      requires PortalDraws(State(), maxLine, maxCol, portal, false)
      modifies this`xPos, this`yPos
      ensures Pos(xPos, yPos) == portal[FirstLanding(old(State()), maxLine, maxCol, portal, false)]
    {
      ghost var h := State();
      ghost var k := FirstLanding(h, maxLine, maxCol, portal, false);
      var i := 0;
      xPos, yPos := portal[0].x, portal[0].y;
      while grid[yPos][xPos] == Wall
        invariant 0 <= i <= k && Pos(xPos, yPos) == portal[i]
        decreases k - i
      {
        i := i + 1;
        xPos, yPos := portal[i].x, portal[i].y;
      }
    }

    /** The moving platform's loop (player.py:92-114): draw directions until one leads to a cell the player can enter. */
    method Ride(glide: seq<int>)
      requires Avatar.Valid(State(), maxLine, maxCol) && GlideDraws(State(), maxLine, maxCol, glide, false)
      modifies this`xPos, this`yPos
      ensures Some(Pos(xPos, yPos)) == Glide(old(State()), maxLine, maxCol, glide[FirstGlide(old(State()), maxLine, maxCol, glide, false)], false)
    {
      ghost var h := State();
      ghost var k := FirstGlide(h, maxLine, maxCol, glide, false);
      var moved := false;
      var i := 0;
      while !moved
        invariant 0 <= i <= k + 1
        invariant !moved ==> i <= k && xPos == h.x && yPos == h.y
        invariant moved ==> i == k + 1 && Some(Pos(xPos, yPos)) == Glide(h, maxLine, maxCol, glide[k], false)
        decreases k + 1 - i
      {
        var t := glide[i];
        if t == 0 {
          if xPos + 1 != maxCol && grid[yPos][xPos + 1] != Wall {
            xPos := xPos + 1;
            moved := true;
          }
        } else if t == 1 {
          if xPos - 1 != -1 && grid[yPos][xPos - 1] != Wall {
            xPos := xPos - 1;
            moved := true;
          }
        } else if t == 2 {
          if yPos + 1 != maxLine && grid[yPos + 1][xPos] != Wall {
            yPos := yPos + 1;
            moved := true;
          }
        } else {
          if yPos - 1 != -1 && grid[yPos - 1][xPos] != Wall {
            yPos := yPos - 1;
            moved := true;
          }
        }
        i := i + 1;
      }
    }
  }
}
