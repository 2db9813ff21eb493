/**
 * Building a world and its first robot from a scene, as the `init` functions
 * of brython_robot2 and brython_robot3 do. The grid is as wide and as high as
 * the largest coordinate the scene mentions: a wall key, an object key or a
 * robot's position.
 */
module Scenes {
  import opened Compass
  import opened Grid
  import opened Carrots
  import Robot3
  import Robot2

  datatype Option<T> = None | Some(value: T)

  /** A robot entry of a scene; each key may be missing. */
  datatype RobotEntry = RobotEntry(x: Option<int>, y: Option<int>, orientation: Option<int>)

  /** A scene: its robots, its walls and its objects, the last two keyed by 1-indexed cell. */
  datatype Scene = Scene(robots: seq<RobotEntry>, walls: Walls, objects: Objects)

  /** `r.get("x", 1)`. */
  function XOr1(r: RobotEntry): int
  {
    if r.x.Some? then r.x.value else 1
  }

  /** `r.get("y", 1)`. */
  function YOr1(r: RobotEntry): int
  {
    if r.y.Some? then r.y.value else 1
  }

  /** The first coordinates of a set of cells. */
  function FirstsOf(cells: set<Cell>): set<int>
  {
    set c | c in cells :: c.0
  }

  /** The second coordinates of a set of cells. */
  function SecondsOf(cells: set<Cell>): set<int>
  {
    set c | c in cells :: c.1
  }

  /** The robots' x coordinates, 1 where one is missing. */
  function RobotXs(robots: seq<RobotEntry>): set<int>
  {
    set i | 0 <= i < |robots| :: XOr1(robots[i])
  }

  /** The robots' y coordinates, 1 where one is missing. */
  function RobotYs(robots: seq<RobotEntry>): set<int>
  {
    set i | 0 <= i < |robots| :: YOr1(robots[i])
  }

  /** Every x coordinate the extent loops look at. */
  function Xs(s: Scene): set<int>
  {
    FirstsOf(s.walls.Keys + s.objects.Keys) + RobotXs(s.robots)
  }

  /** Every y coordinate the extent loops look at. */
  function Ys(s: Scene): set<int>
  {
    SecondsOf(s.walls.Keys + s.objects.Keys) + RobotYs(s.robots)
  }

  /** `m` is what `max(0, ...)` over the values `vs` gives: no value exceeds it, and it is 0 or one of them. */
  predicate IsMaxFromZero(m: int, vs: set<int>)
  {
    0 <= m && (forall v :: v in vs ==> v <= m) && (m == 0 || m in vs)
  }

  /** Folding one more value into a running maximum. */
  lemma MaxStep(m: int, vs: set<int>, v: int)
    requires IsMaxFromZero(m, vs)
    ensures IsMaxFromZero(if v > m then v else m, vs + {v})
  {
  }

  lemma CoordsAdd(cells: set<Cell>, c: Cell)
    ensures FirstsOf(cells + {c}) == FirstsOf(cells) + {c.0}
    ensures SecondsOf(cells + {c}) == SecondsOf(cells) + {c.1}
  {
  }

  lemma RobotsAdd(robots: seq<RobotEntry>, i: int)
    requires 0 <= i < |robots|
    ensures RobotXs(robots[..i + 1]) == RobotXs(robots[..i]) + {XOr1(robots[i])}
    ensures RobotYs(robots[..i + 1]) == RobotYs(robots[..i]) + {YOr1(robots[i])}
  {
    var p, q := robots[..i], robots[..i + 1];
    assert forall j :: 0 <= j < i ==> q[j] == p[j];
    assert q[i] == robots[i];
  }

  /** The size loops of `init`: the largest x and y over the wall keys, the object keys and the robots, starting from 0. */
  method Extent(s: Scene) returns (maxX: int, maxY: int)
    ensures IsMaxFromZero(maxX, Xs(s)) && IsMaxFromZero(maxY, Ys(s))
  {
    maxX, maxY := 0, 0;
    var coords := s.walls.Keys + s.objects.Keys;
    ghost var seen: set<Cell> := {};
    while coords != {}
      invariant seen + coords == s.walls.Keys + s.objects.Keys
      invariant IsMaxFromZero(maxX, FirstsOf(seen)) && IsMaxFromZero(maxY, SecondsOf(seen))
      decreases coords
    {
      var k :| k in coords;
      CoordsAdd(seen, k);
      MaxStep(maxX, FirstsOf(seen), k.0);
      MaxStep(maxY, SecondsOf(seen), k.1);
      maxX := if k.0 > maxX then k.0 else maxX;
      maxY := if k.1 > maxY then k.1 else maxY;
      coords := coords - {k};
      seen := seen + {k};
    }
    var i := 0;
    while i < |s.robots|
      invariant 0 <= i <= |s.robots|
      invariant IsMaxFromZero(maxX, FirstsOf(seen) + RobotXs(s.robots[..i]))
      invariant IsMaxFromZero(maxY, SecondsOf(seen) + RobotYs(s.robots[..i]))
    {
      var r := s.robots[i];
      RobotsAdd(s.robots, i);
      MaxStep(maxX, FirstsOf(seen) + RobotXs(s.robots[..i]), XOr1(r));
      MaxStep(maxY, SecondsOf(seen) + RobotYs(s.robots[..i]), YOr1(r));
      maxX := if XOr1(r) > maxX then XOr1(r) else maxX;
      maxY := if YOr1(r) > maxY then YOr1(r) else maxY;
      i := i + 1;
    }
    assert s.robots[..i] == s.robots;
  }

  /** How `init` ends: with a robot, with no robot in the scene, or with the `KeyError` of a first robot lacking `x` or `y`. */
  datatype Status = Ready | NoRobot | MissingCoordinate

  function StatusOf(s: Scene): Status
  {
    if s.robots == [] then NoRobot
    else if s.robots[0].x.None? || s.robots[0].y.None? then MissingCoordinate
    else Ready
  }

  /** `rdata.get("orientation", 0)`. */
  function OrientationOf(r: RobotEntry): int
  {
    if r.orientation.Some? then r.orientation.value else 0
  }

  /** `robot_config.get("max_carrots", 25)`, an absent configuration counting as empty. */
  function Capacity(config: map<string, int>): int
  {
    if "max_carrots" in config then config["max_carrots"] else 25
  }

  /** A robot placed inside the extent of its own scene starts on the grid. */
  lemma FirstRobotOnGrid(s: Scene, width: int, height: int)
    requires StatusOf(s) == Ready && IsMaxFromZero(width, Xs(s)) && IsMaxFromZero(height, Ys(s))
    requires s.robots[0].x.value >= 1 && s.robots[0].y.value >= 1
    ensures InBounds(width, height, (s.robots[0].x.value - 1, s.robots[0].y.value - 1))
  {
    assert XOr1(s.robots[0]) in RobotXs(s.robots) && YOr1(s.robots[0]) in RobotYs(s.robots);
  }

  /** brython_robot3's `init(scene, robot_config)`: the world, then a smart robot around the first robot entry. */
  method SetUp3(s: Scene, config: map<string, int>) returns (world: Robot3.World, robot: Robot3.SmartRobot?, status: Status)
    ensures fresh(world) && world.walls == s.walls && world.objects == s.objects
    ensures IsMaxFromZero(world.width, Xs(s)) && IsMaxFromZero(world.height, Ys(s))
    ensures status == StatusOf(s) && (robot != null <==> status == Ready)
    ensures robot != null ==>
              fresh(robot) && fresh(robot.base) && robot.Valid() && robot.world == world &&
              robot.base.x == s.robots[0].x.value - 1 && robot.base.y == s.robots[0].y.value - 1 &&
              robot.base.facing == Turned(E, OrientationOf(s.robots[0]) % 4) &&
              robot.carrotsCollected == 0 && robot.visited == {(robot.base.x, robot.base.y)} &&
              robot.maxCarrots == Capacity(config)
  {
    var width, height := Extent(s);
    world := new Robot3.World(width, height, s.walls, s.objects);
    status := StatusOf(s);
    robot := null;
    if status == Ready {
      var entry := s.robots[0];
      var base := new Robot3.AnimatedRobot(world, entry.x.value, entry.y.value, OrientationOf(entry));
      robot := new Robot3.SmartRobot(base, Capacity(config));
    }
  }

  /** brython_robot2's `init(scene)`: the grid, then an animated robot for the first robot entry. */
  method SetUp2(s: Scene) returns (board: Board, robot: Robot2.AnimatedRobot?, status: Status)
    ensures board.walls == s.walls && IsMaxFromZero(board.width, Xs(s)) && IsMaxFromZero(board.height, Ys(s))
    ensures status == StatusOf(s) && (robot != null <==> status == Ready)
    ensures robot != null ==>
              fresh(robot) && robot.Valid() && robot.board == board && robot.log == [] && robot.TicksLeft() == 0 &&
              robot.Now().x == s.robots[0].x.value - 1 && robot.Now().y == s.robots[0].y.value - 1 &&
              robot.Now().facing == FacingOrder[OrientationOf(s.robots[0]) % 4]
  {
    var width, height := Extent(s);
    board := Board(width, height, s.walls);
    status := StatusOf(s);
    robot := null;
    if status == Ready {
      var entry := s.robots[0];
      robot := new Robot2.AnimatedRobot(board, entry.x.value, entry.y.value, OrientationOf(entry));
    }
  }
}
