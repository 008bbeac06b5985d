/**
  The player the Q-learning agent trains (player2.py). It moves like the
  player of player.py but reacts differently: enemies stay on the grid, traps
  and cracks report what happened, and teleports and moving platforms never
  take the player back where it came from. The random numbers are parameters,
  as for player.py.
*/
module PlayerTwo {
  import opened Wrappers
  import opened World
  import opened Avatar
  import Game

  /** What grid_reaction reports in player2.py: whether something happened and whether the player must react again. */
  datatype Outcome = Outcome(happened: bool, again: bool)

  /** get_state (player2.py:55-61): the items and whether one more hit is fatal. */
  function StateOf(h: Hero): (s: (bool, bool, bool, bool))
    ensures s.3 <==> IsDead(h.(life := h.life - 1))
  {
    (h.hasKey, h.hasSword, h.hasTreasure, h.life <= 1)
  }

  /**
    The cells of grid_reaction that do not teleport (player2.py:64-93): items,
    life and the grid, and the trap's return to the start.
  */
  function Touch(h: Hero, nbLine: int, nbCol: int, u: real): (r: (Hero, Outcome))
    requires Valid(h, nbLine, nbCol)
    ensures Valid(r.0, nbLine, nbCol) && r.0.prev == h.prev
    ensures ItemsAfter(h, h.grid[h.y][h.x], r.0)
  {
    var here := Pos(h.x, h.y);
    var none := Outcome(false, false);
    match h.grid[h.y][h.x]
    case Key => (h.(hasKey := true, grid := SetCell(h.grid, here, Blank)), none)
    case Treasure => if h.hasKey then (h.(hasTreasure := true, grid := SetCell(h.grid, here, Blank)), none) else (h, none)
    case Start => if h.hasTreasure then (h.(win := true), none) else (h, none)
    case Enemy => if !h.hasSword && u < 0.3 then (h.(life := h.life - 1), none) else (h, none)
    case Crack => (h.(life := h.life - 1), Outcome(true, false))
    case Sword => (h.(hasSword := true, grid := SetCell(h.grid, here, Blank)), none)
    case Trap =>
      if u <= 0.1 then (h.(life := h.life - 1), Outcome(true, false))
      else if u <= 0.3 then (h.(x := nbCol - 1, y := nbLine - 1), Outcome(true, true))
      else (h, none)
    case _ => (h, none)
  }

  /** grid_reaction (player2.py:63-128) on a player snapshot. */
  function React(h: Hero, nbLine: int, nbCol: int, u: real, portal: seq<Pos>, glide: seq<int>): (r: (Hero, Outcome))
    requires DrawsSuffice(h, nbLine, nbCol, portal, glide, true)
    ensures Valid(r.0, nbLine, nbCol) && r.0.prev == h.prev
    ensures ItemsAfter(h, h.grid[h.y][h.x], r.0)
  {
    var cell := h.grid[h.y][h.x];
    if cell == Portal then
      var p := portal[FirstLanding(h, nbLine, nbCol, portal, true)];
      (h.(x := p.x, y := p.y), Outcome(true, true))
    else if cell == Platform then
      var p := Glide(h, nbLine, nbCol, glide[FirstGlide(h, nbLine, nbCol, glide, true)], true).value;
      (h.(x := p.x, y := p.y), Outcome(true, true))
    else
      Touch(h, nbLine, nbCol, u)
  }

  /**
    The player must react again exactly when the cell moved it: a teleport, a
    platform, or a trap sending it back; something happened also when it lost
    a life in a crack or a trap.
  */
  lemma ReactOutcome(h: Hero, nbLine: int, nbCol: int, u: real, portal: seq<Pos>, glide: seq<int>)
    requires DrawsSuffice(h, nbLine, nbCol, portal, glide, true)
    ensures var r := React(h, nbLine, nbCol, u, portal, glide);
      var cell := h.grid[h.y][h.x];
      (r.1.again <==> cell in {Portal, Platform} || (cell == Trap && 0.1 < u <= 0.3))
      && (r.1.happened <==> r.1.again || cell == Crack || (cell == Trap && u <= 0.1))
      && (!r.1.again ==> r.0.x == h.x && r.0.y == h.y)
  {
  }

  /**
    Unlike player.py, an enemy costs one life when unarmed and unlucky but is
    not removed, and the trap's thresholds are inclusive.
  */
  lemma ReactLife(h: Hero, nbLine: int, nbCol: int, u: real, portal: seq<Pos>, glide: seq<int>)
    requires DrawsSuffice(h, nbLine, nbCol, portal, glide, true)
    ensures var r := React(h, nbLine, nbCol, u, portal, glide);
      (r.0.life == h.life - 1 <==>
        match h.grid[h.y][h.x]
        case Crack => true
        case Enemy => !h.hasSword && u < 0.3
        case Trap => u <= 0.1
        case _ => false)
      && (r.0.life == h.life || r.0.life == h.life - 1)
      && (r.0.life < h.life ==> r.1.happened || h.grid[h.y][h.x] == Enemy)
  {
  }

  /** Only the key, the sword and a taken treasure leave a blank cell; an enemy stays. */
  lemma ReactGrid(h: Hero, nbLine: int, nbCol: int, u: real, portal: seq<Pos>, glide: seq<int>)
    requires DrawsSuffice(h, nbLine, nbCol, portal, glide, true)
    ensures var r := React(h, nbLine, nbCol, u, portal, glide);
      r.0.grid == (if h.grid[h.y][h.x] in {Key, Sword} || (h.grid[h.y][h.x] == Treasure && h.hasKey)
                   then SetCell(h.grid, Pos(h.x, h.y), Blank) else h.grid)
      && SameWalls(h.grid, r.0.grid)
  {
  }

  /**
    A teleport keeps the first drawn position that is neither a wall nor the
    position before the last move; a moving platform takes the player one step
    off the line or column it came from.
  */
  lemma ReactPosition(h: Hero, nbLine: int, nbCol: int, u: real, portal: seq<Pos>, glide: seq<int>)
    requires DrawsSuffice(h, nbLine, nbCol, portal, glide, true)
    ensures var r := React(h, nbLine, nbCol, u, portal, glide);
      var cell := h.grid[h.y][h.x];
      (cell == Trap ==> Pos(r.0.x, r.0.y) == (if 0.1 < u <= 0.3 then Pos(nbCol - 1, nbLine - 1) else Pos(h.x, h.y)))
      && (cell == Portal ==>
            Pos(r.0.x, r.0.y) == portal[FirstLanding(h, nbLine, nbCol, portal, true)]
            && CanEnter(h.grid, nbLine, nbCol, Pos(r.0.x, r.0.y)) && Pos(r.0.x, r.0.y) != h.prev)
      && (cell == Platform ==>
            var d := GlideDirection(glide[FirstGlide(h, nbLine, nbCol, glide, true)]);
            Pos(r.0.x, r.0.y) == Moved(Pos(h.x, h.y), d)
            && CanEnter(h.grid, nbLine, nbCol, Pos(r.0.x, r.0.y)) && AwayFromPrev(h, d))
      && (cell !in {Trap, Portal, Platform} ==> r.0.x == h.x && r.0.y == h.y)
  {
  }

  /** A reaction never makes the item flags incoherent. */
  lemma ReactKeepsConsistent(h: Hero, nbLine: int, nbCol: int, u: real, portal: seq<Pos>, glide: seq<int>)
    requires DrawsSuffice(h, nbLine, nbCol, portal, glide, true) && Consistent(h)
    ensures Consistent(React(h, nbLine, nbCol, u, portal, glide).0)
  {
    ItemsKeepConsistent(h, h.grid[h.y][h.x], React(h, nbLine, nbCol, u, portal, glide).0);
  }

  class Player2 {
    var grid: Grid
    var name: string
    var xPos: int
    var yPos: int
    var hasKey: bool
    var hasTreasure: bool
    var win: bool
    var hasSword: bool
    var life: int
    var maxCol: int
    var maxLine: int
    var prevPos: Pos

    /** The fields the moves and the reactions are specified on. */
    function State(): Hero
      reads this
    {
      Hero(grid, xPos, yPos, prevPos, hasKey, hasTreasure, win, hasSword, life)
    }

    predicate Valid()
      reads this
    {
      Avatar.Valid(State(), maxLine, maxCol)
    }

    /** __init__ (player2.py:6-18): a fresh player at the level's bottom-right corner. */
    constructor (level: Game.Level, hp: int := 3)
      ensures State() == Fresh(level.grid, level.nbLine, level.nbCol, hp)
      ensures maxCol == level.nbCol && maxLine == level.nbLine && name == "player"
    {
      grid := level.grid;
      name := "player";
      xPos := level.nbCol - 1;
      yPos := level.nbLine - 1;
      hasKey := false;
      hasTreasure := false;
      win := false;
      hasSword := false;
      life := hp;
      maxCol := level.nbCol;
      maxLine := level.nbLine;
      prevPos := Pos(level.nbCol - 1, level.nbLine - 1);
    }

    /** move_up (player2.py:20-26). */
    method MoveUp() returns (moved: bool)
      requires Valid()
      modifies this`prevPos, this`yPos
      ensures (State(), moved) == Step(old(State()), maxLine, maxCol, Up)
    {
      prevPos := Pos(xPos, yPos);
      if yPos - 1 >= 0 {
        if grid[yPos - 1][xPos] != Wall {
          yPos := yPos - 1;
          return true;
        }
      }
      return false;
    }

    /** move_down (player2.py:28-34). */
    method MoveDown() returns (moved: bool)
      requires Valid()
      modifies this`prevPos, this`yPos
      ensures (State(), moved) == Step(old(State()), maxLine, maxCol, Down)
    {
      prevPos := Pos(xPos, yPos);
      if yPos + 1 < maxLine {
        if grid[yPos + 1][xPos] != Wall {
          yPos := yPos + 1;
          return true;
        }
      }
      return false;
    }

    /** move_left (player2.py:36-42). */
    method MoveLeft() returns (moved: bool)
      requires Valid()
      modifies this`prevPos, this`xPos
      ensures (State(), moved) == Step(old(State()), maxLine, maxCol, Left)
    {
      prevPos := Pos(xPos, yPos);
      if xPos - 1 >= 0 {
        if grid[yPos][xPos - 1] != Wall {
          xPos := xPos - 1;
          return true;
        }
      }
      return false;
    }

    /** move_right (player2.py:44-50). */
    method MoveRight() returns (moved: bool)
      requires Valid()
      modifies this`prevPos, this`xPos
      ensures (State(), moved) == Step(old(State()), maxLine, maxCol, Right)
    {
      prevPos := Pos(xPos, yPos);
      if xPos + 1 < maxCol {
        if grid[yPos][xPos + 1] != Wall {
          xPos := xPos + 1;
          return true;
        }
      }
      return false;
    }

    /** The move in direction `d`: the MOVES table of qlearning.py:53-58. */
    method Move(d: Direction) returns (moved: bool)
      requires Valid()
      modifies this`prevPos, this`xPos, this`yPos
      ensures (State(), moved) == Step(old(State()), maxLine, maxCol, d)
    {
      match d
      case Up => moved := MoveUp();
      case Down => moved := MoveDown();
      case Left => moved := MoveLeft();
      case Right => moved := MoveRight();
    }

    /** get_state (player2.py:55-61). */
    method GetState() returns (s: (bool, bool, bool, bool))
      ensures s == StateOf(State())
    {
      s := (hasKey, hasSword, hasTreasure, life <= 1);
    }

    /** grid_reaction (player2.py:63-128): react to the cell the player stands on. */
    method GridReaction(u: real, portal: seq<Pos>, glide: seq<int>) returns (r: Outcome)
      requires DrawsSuffice(State(), maxLine, maxCol, portal, glide, true)
      modifies this`grid, this`xPos, this`yPos, this`hasKey, this`hasTreasure, this`win, this`hasSword, this`life
      ensures (State(), r) == React(old(State()), maxLine, maxCol, u, portal, glide)
    {
      var cell := grid[yPos][xPos];
      if cell == Portal {
        Teleport(portal);
        return Outcome(true, true);
      } else if cell == Platform {
        Ride(glide);
        return Outcome(true, true);
      }
      r := TouchCell(u);
    }

    /** The branches of grid_reaction for the other cells (player2.py:64-93). */
    method TouchCell(u: real) returns (r: Outcome)
      requires Valid()
      modifies this`grid, this`xPos, this`yPos, this`hasKey, this`hasTreasure, this`win, this`hasSword, this`life
      ensures (State(), r) == Touch(old(State()), maxLine, maxCol, u)
    {
      var here := Pos(xPos, yPos);
      var cell := grid[yPos][xPos];
      if cell == Key {
        hasKey := true;
        grid := SetCell(grid, here, Blank);
      } else if cell == Treasure {
        if hasKey {
          hasTreasure := true;
          grid := SetCell(grid, here, Blank);
        }
      } else if cell == Start {
        if hasTreasure {
          win := true;
        }
      } else if cell == Enemy {
        if !hasSword {
          if u < 0.3 {
            life := life - 1;
          }
        }
      } else if cell == Crack {
        life := life - 1;
        return Outcome(true, false);
      } else if cell == Sword {
        hasSword := true;
        grid := SetCell(grid, here, Blank);
      } else if cell == Trap {
        if u <= 0.1 {
          life := life - 1;
          return Outcome(true, false);
        } else if u <= 0.3 {
          xPos := maxCol - 1;
          yPos := maxLine - 1;
          return Outcome(true, true);
        }
      }
      return Outcome(false, false);
    }

    /**
      The teleport's rejection loop (player2.py:95-100): draw positions until
      one is neither a wall nor the position before the last move.
    */
    method Teleport(portal: seq<Pos>)
      requires PortalDraws(State(), maxLine, maxCol, portal, true)
      modifies this`xPos, this`yPos
      ensures Pos(xPos, yPos) == portal[FirstLanding(old(State()), maxLine, maxCol, portal, true)]
    {
      ghost var h := State();
      ghost var k := FirstLanding(h, maxLine, maxCol, portal, true);
      var i := 0;
      xPos, yPos := portal[0].x, portal[0].y;
      while grid[yPos][xPos] == Wall || (xPos == prevPos.x && yPos == prevPos.y)
        invariant 0 <= i <= k && Pos(xPos, yPos) == portal[i]
        decreases k - i
      {
        i := i + 1;
        xPos, yPos := portal[i].x, portal[i].y;
      }
    }

    /**
      The moving platform's loop (player2.py:103-125): draw directions until one
      leads to a cell the player can enter off the line or column it came from.
    */
    method Ride(glide: seq<int>)
      requires Avatar.Valid(State(), maxLine, maxCol) && GlideDraws(State(), maxLine, maxCol, glide, true)
      modifies this`xPos, this`yPos
      ensures Some(Pos(xPos, yPos)) == Glide(old(State()), maxLine, maxCol, glide[FirstGlide(old(State()), maxLine, maxCol, glide, true)], true)
    {
      ghost var h := State();
      ghost var k := FirstGlide(h, maxLine, maxCol, glide, true);
      var moved := false;
      var i := 0;
      while !moved
        invariant 0 <= i <= k + 1
        invariant !moved ==> i <= k && xPos == h.x && yPos == h.y
        invariant moved ==> i == k + 1 && Some(Pos(xPos, yPos)) == Glide(h, maxLine, maxCol, glide[k], true)
        decreases k + 1 - i
      {
        var t := glide[i];
        if t == 0 {
          if xPos + 1 != maxCol && xPos + 1 != prevPos.x && grid[yPos][xPos + 1] != Wall {
            xPos := xPos + 1;
            moved := true;
          }
        } else if t == 1 {
          if xPos - 1 != -1 && xPos - 1 != prevPos.x && grid[yPos][xPos - 1] != Wall {
            xPos := xPos - 1;
            moved := true;
          }
        } else if t == 2 {
          if yPos + 1 != maxLine && yPos + 1 != prevPos.y && grid[yPos + 1][xPos] != Wall {
            yPos := yPos + 1;
            moved := true;
          }
        } else {
          if yPos - 1 != -1 && yPos - 1 != prevPos.y && grid[yPos - 1][xPos] != Wall {
            yPos := yPos - 1;
            moved := true;
          }
        }
        i := i + 1;
      }
    }
  }
}
