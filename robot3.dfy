/**
 * The world and the two robot classes of brython_robot3: an `AnimatedRobot`
 * that moves on the grid under the wall rule, and a `SmartRobot` wrapped
 * around it that remembers visited cells and carries carrots. Each method is
 * specified by the matching function of `Robot3Rules`.
 */
module Robot3 {
  import opened Compass
  import opened Grid
  import opened Carrots
  import opened Robot3Rules

  /** The value of a Python expression that may raise `TypeError` (comparing or adding to the string "infinite"). */
  datatype Outcome<T> = Value(v: T) | TypeError

  /** The grid, its walls and the objects lying on it; only the objects ever change. */
  class World {
    const width: int
    const height: int
    const walls: Walls
    var objects: Objects

    constructor(width: int, height: int, walls: Walls, objects: Objects)
      ensures this.width == width && this.height == height && this.walls == walls && this.objects == objects
    {
      this.width := width;
      this.height := height;
      this.walls := walls;
      this.objects := objects;
    }

    /** The fixed part of the world, as the wall rule sees it. */
    function Layout(): Board
    {
      Board(width, height, walls)
    }

    /** `object_at_coord(x, y, name)` on 1-indexed coordinates: the object is listed with a positive count. */
    function ObjectAtCoord(x: int, y: int, name: string): (r: Outcome<bool>)
      reads this
      ensures r == Value(true) ==> (x, y) in objects && name in objects[(x, y)]
      ensures name == Carrot ==> (r == Value(true) <==> Pickable(objects, (x - 1, y - 1)))
      ensures name == Carrot ==> (r == TypeError <==> Endless(objects, (x - 1, y - 1)))
    {
      var cell := if (x, y) in objects then objects[(x, y)] else map[];
      if name !in cell then Value(false)
      else
        match cell[name]
        case Infinite => TypeError
        case Finite(n) => Value(n > 0)
    }
  }

  /** The robot drawn on the grid: a 0-indexed cell and a heading. */
  class AnimatedRobot {
    const world: World
    var x: int
    var y: int
    var facing: Facing

    /** Built from a scene's 1-indexed position and its orientation number, taken modulo 4 along `facing_order`. */
    constructor(world: World, x: int, y: int, orientation: int)
      ensures this.world == world && this.x == x - 1 && this.y == y - 1
      ensures this.facing == Turned(E, orientation % 4)
    {
      this.world := world;
      this.x := x - 1;
      this.y := y - 1;
      this.facing := FacingOrder[orientation % 4];
      new;
      assert Turned(E, 1) == N && Turned(E, 2) == W && Turned(E, 3) == S;
    }

    /** `move(steps)`: one cell at a time in the current heading, stopping at the first step the wall rule refuses. */
    method Move(steps: int)
      modifies this
      ensures facing == old(facing)
      ensures (x, y) == EndOf(old((x, y)), Path(world.Layout(), old((x, y)), facing, steps))
    {
      ghost var board := world.Layout();
      ghost var start := (x, y);
      var i := 0;
      while i < steps
        invariant 0 <= i <= (if steps < 0 then 0 else steps) && facing == old(facing)
        invariant |Path(board, start, facing, i)| == i
        invariant (x, y) == EndOf(start, Path(board, start, facing, i))
      {
        var dx, dy, side;
        match facing {
          case E => dx, dy, side := 1, 0, East;
          case W => dx, dy, side := -1, 0, West;
          case N => dx, dy, side := 0, 1, North;
          case S => dx, dy, side := 0, -1, South;
        }
        var nextX, nextY := x + dx, y + dy;
        assert (nextX, nextY) == Ahead((x, y), facing) && side == SideOf(facing);
        if !(0 <= nextX < world.width && 0 <= nextY < world.height) {
          PathBlocked(board, start, facing, i, steps);
          return;
        }
        var wallsHere := WallsAt(world.walls, (x, y));
        if side in wallsHere {
          PathBlocked(board, start, facing, i, steps);
          return;
        }
        var wallsNext := WallsAt(world.walls, (nextX, nextY));
        if Opposite(side) in wallsNext {
          PathBlocked(board, start, facing, i, steps);
          return;
        }
        PathExtend(board, start, facing, i);
        x, y := nextX, nextY;
        i := i + 1;
      }
    }

    /** `turn_left`: one place along `facing_order`. */
    method TurnLeft()
      modifies this
      ensures facing == LeftOf(old(facing)) && x == old(x) && y == old(y)
    {
      var idx := Index(facing);
      facing := FacingOrder[(idx + 1) % 4];
    }
  }

  /** A robot that remembers where it has been and carries up to `maxCarrots` carrots. */
  class SmartRobot {
    const base: AnimatedRobot
    const world: World
    var carrotsCollected: int
    var visited: set<Cell>
    const maxCarrots: int

    /** The smart robot shares its base robot's world. */
    ghost predicate Valid()
    {
      base.world == world
    }

    /** The state its actions read and change, as a value. */
    function Snapshot(): Bot
      reads this, base, world
    {
      Bot(base.x, base.y, base.facing, carrotsCollected, visited, world.objects)
    }

    /** Starts empty-handed, with only the base robot's cell visited. */
    constructor(base: AnimatedRobot, maxCarrots: int)
      ensures Valid() && this.base == base && this.maxCarrots == maxCarrots
      ensures carrotsCollected == 0 && visited == {(base.x, base.y)}
    {
      this.base := base;
      this.world := base.world;
      this.carrotsCollected := 0;
      this.visited := {(base.x, base.y)};
      this.maxCarrots := maxCarrots;
    }

    /** `wall_in_front`. */
    method WallInFrontNow() returns (r: bool)
      requires Valid()
      ensures r == WallInFront(world.Layout(), Snapshot())
    {
      var dx, dy, side;
      match base.facing {
        case E => dx, dy, side := 1, 0, East;
        case W => dx, dy, side := -1, 0, West;
        case N => dx, dy, side := 0, 1, North;
        case S => dx, dy, side := 0, -1, South;
      }
      var nextX, nextY := base.x + dx, base.y + dy;
      if !(0 <= nextX < world.width && 0 <= nextY < world.height) {
        return true;
      }
      var wallsHere := WallsAt(world.walls, (base.x, base.y));
      var wallsNext := WallsAt(world.walls, (nextX, nextY));
      r := side in wallsHere || Opposite(side) in wallsNext;
    }

    /** `front_is_clear`. */
    method FrontIsClearNow() returns (r: bool)
      requires Valid()
      ensures r == FrontIsClear(world.Layout(), Snapshot())
    {
      var wall := WallInFrontNow();
      r := !wall;
    }

    /** `front_is_visited`. */
    method FrontIsVisitedNow() returns (r: bool)
      ensures r <==> (base.x + DX(base.facing), base.y + DY(base.facing)) in visited
      ensures r == FrontIsVisited(Snapshot())
    {
      var dx, dy := 0, 0;
      match base.facing {
        case E => dx := 1;
        case W => dx := -1;
        case N => dy := 1;
        case S => dy := -1;
      }
      r := (base.x + dx, base.y + dy) in visited;
    }

    /** `background_is(kind)`. */
    method BackgroundIsNow(kind: string) returns (r: bool)
      ensures r == BackgroundIs(Snapshot(), kind)
    {
      var key := Key((base.x, base.y));
      var cell := if key in world.objects then world.objects[key] else map[];
      var hasCarrot := Carrot in cell;
      if kind == "pale_grass" {
        r := hasCarrot;
      } else if kind == "grass" {
        r := !hasCarrot;
      } else {
        r := false;
      }
    }

    /** `turn_left` (with or without the animation delay). */
    method TurnLeft()
      modifies base
      ensures Snapshot() == TurnedLeft(old(Snapshot()))
    {
      base.facing := FacingOrder[(Index(base.facing) + 1) % 4];
    }

    /** `turn_right`: three left turns. */
    method TurnRight()
      modifies base
      ensures Snapshot() == old(Snapshot()).(facing := RightOf(old(base.facing)))
    {
      ThreeLeftsAreRight(base.facing);
      TurnLeft();
      TurnLeft();
      TurnLeft();
    }

    /** `move(steps)`: while the front is clear, one step of the base robot, recording the cell entered. */
    method Move(steps: int)
      requires Valid()
      modifies this, base
      ensures Snapshot() == Forward(world.Layout(), old(Snapshot()), steps)
    {
      ghost var board := world.Layout();
      ghost var start := (base.x, base.y);
      ghost var visited0 := visited;
      var i := 0;
      while i < steps
        invariant 0 <= i <= (if steps < 0 then 0 else steps)
        invariant base.facing == old(base.facing) && carrotsCollected == old(carrotsCollected)
        invariant |Path(board, start, base.facing, i)| == i
        invariant (base.x, base.y) == EndOf(start, Path(board, start, base.facing, i))
        invariant visited == visited0 + Trail(Path(board, start, base.facing, i))
      {
        var clear := FrontIsClearNow();
        if !clear {
          PathBlocked(board, start, base.facing, i, steps);
          break;
        }
        PathExtend(board, start, base.facing, i);
        TrailAppend(Path(board, start, base.facing, i), Ahead((base.x, base.y), base.facing));
        base.Move(1);
        visited := visited + {(base.x, base.y)};
        i := i + 1;
      }
      assert Path(board, start, base.facing, steps) == Path(board, start, base.facing, i);
    }

    /** `move_backward(speedup)`: the fast jump, or a half turn, a one-step move and a half turn back. */
    method MoveBackward(speedup: bool)
      requires Valid()
      modifies this, base
      ensures Snapshot() == if speedup then SpeedBackward(old(Snapshot())) else Backward(world.Layout(), old(Snapshot()))
    {
      if speedup {
        base.facing := FacingOrder[(Index(base.facing) + 2) % 4];
        var next := Ahead((base.x, base.y), base.facing);
        base.x, base.y := next.0, next.1;
      } else {
        TurnLeft();
        TurnLeft();
        Move(1);
        TurnLeft();
        TurnLeft();
      }
    }

    /** `pick_carrot`: at capacity, or without a positive integer count here, nothing changes. */
    method PickCarrot()
      modifies this, world
      ensures Snapshot() == Picked(maxCarrots, old(Snapshot()))
    {
      if carrotsCollected >= maxCarrots {
        return;
      }
      var key := Key((base.x, base.y));
      var cell := if key in world.objects then world.objects[key] else map[];
      var count := if Carrot in cell then cell[Carrot] else Finite(0);
      if count.Finite? && count.n > 0 {
        var left := count.n - 1;
        cell := if left <= 0 then cell - {Carrot} else cell[Carrot := Finite(left)];
        world.objects := world.objects[key := cell];
        carrotsCollected := carrotsCollected + 1;
      }
    }

    /** `put_carrot`: reports whether a carrot was placed, none was carried, or the count here is "infinite". */
    method PutCarrot() returns (status: PutStatus)
      modifies this, world
      ensures PutResult(Snapshot(), status) == Put(old(Snapshot()))
    {
      if carrotsCollected <= 0 {
        return NothingCarried;
      }
      var key := Key((base.x, base.y));
      var cell := if key in world.objects then world.objects[key] else map[];
      if Carrot !in cell {
        cell := cell[Carrot := Finite(0)];
      }
      if cell[Carrot].Infinite? {
        return NotANumber;
      }
      ghost var before := CellAt(world.objects, (base.x, base.y));
      ghost var n := if Carrot in before then before[Carrot].n else 0;
      cell := cell[Carrot := Finite(cell[Carrot].n + 1)];
      assert cell == before[Carrot := Finite(n + 1)];
      carrotsCollected := carrotsCollected - 1;
      world.objects := world.objects[key := cell];
      status := Placed;
    }
  }
}
