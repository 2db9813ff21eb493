/**
 * The robot of pyodide_robot_commented: a grid without walls, a robot that
 * starts facing east, a `walk` that stops at the edge and a `turn_left`.
 */
module PyodideRobot {
  import opened Compass
  import opened Grid

  class Robot {
    const width: int
    const height: int
    var x: int
    var y: int
    var facing: Facing

    /** The grid as the step check sees it: no wall anywhere. */
    function Layout(): Board
    {
      Board(width, height, map[])
    }

    /** Placed at a 1-indexed position, facing east. */
    constructor(width: int, height: int, x: int, y: int)
      ensures this.width == width && this.height == height
      ensures this.x == x - 1 && this.y == y - 1 && facing == E
    {
      this.width := width;
      this.height := height;
      this.x := x - 1;
      this.y := y - 1;
      this.facing := E;
    }

    /** `walk(steps)`: up to `steps` cells in the current heading, stopping at the first that would leave the grid. */
    method Walk(steps: int)
      modifies this
      ensures facing == old(facing)
      ensures (x, y) == EndOf(old((x, y)), Path(Layout(), old((x, y)), facing, steps))
    {
      ghost var start := (x, y);
      var i := 0;
      while i < steps
        invariant 0 <= i <= (if steps < 0 then 0 else steps) && facing == old(facing)
        invariant |Path(Layout(), start, facing, i)| == i
        invariant (x, y) == EndOf(start, Path(Layout(), start, facing, i))
      {
        var dx, dy := 0, 0;
        match facing {
          case E => dx := 1;
          case W => dx := -1;
          case N => dy := 1;
          case S => dy := -1;
        }
        var nextX, nextY := x + dx, y + dy;
        assert (nextX, nextY) == Ahead((x, y), facing);
        if 0 <= nextX < width && 0 <= nextY < height {
          PathExtend(Layout(), start, facing, i);
          x, y := nextX, nextY;
        } else {
          PathBlocked(Layout(), start, facing, i, steps);
          break;
        }
        i := i + 1;
      }
    }

    /** `turn_left`: one place along the facing order. */
    method TurnLeft()
      modifies this
      ensures facing == LeftOf(old(facing)) && x == old(x) && y == old(y)
    {
      var idx := Index(facing);
      facing := FacingOrder[(idx + 1) % 4];
    }
  }

  /** From a cell of the grid, `walk(n)` ends `min(n, room)` cells further on, where `room` is the distance to the edge. */
  lemma WalkDistance(w: int, h: int, c: Cell, f: Facing, n: int)
    requires InBounds(w, h, c)
    ensures var p := Path(Board(w, h, map[]), c, f, n);
            var room := Room(Board(w, h, map[]), c, f);
            EndOf(c, p) == (c.0 + |p| * DX(f), c.1 + |p| * DY(f)) &&
            |p| == if n <= 0 then 0 else if n < room then n else room
  {
    OpenWalkToEdge(w, h, c, f, n);
    PathEnd(Board(w, h, map[]), c, f, n);
  }
}
