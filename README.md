# Grid-world robot, modelled in Dafny

The repository teaches programming with a robot that lives on a rectangular
grid of cells. The robot knows its cell and which of four headings
(east, north, west, south) it faces. It can turn left, and it can move a
number of cells forward, stopping at the first step it is not allowed to take.
There are four versions of the robot, and this project models the core of each:

- `brython_robot.py` has no walls. A step is refused only at the edge of the
  grid. `move` and `turn_left` append an action to a queue, which runs one
  action at a time. An idle robot starts the action at once: a turn turns, and
  a move takes its first step. A busy robot leaves it waiting in the queue.
  Every further cell of a move, and the end of every action, comes from a
  timer callback.
- `brython_robot2.py` uses the same queue. It adds the wall rule: a step is
  refused when it would leave the grid, when the cell it leaves lists a wall on
  the side it crosses, or when the cell it enters lists a wall on the opposite
  side. A scene (robots, walls, objects) sizes the grid.
- `brython_robot3.py` adds a `World` that holds an object map (carrots) and a
  `SmartRobot`. The smart robot wraps the animated one, remembers the cells it
  has visited, senses walls and its background, picks and puts carrots up to a
  capacity, and can step backward. A sample script drives it through a
  depth-first walk that harvests every carrot it can reach.
- `pyodide_robot_commented.py` is a robot with no walls whose `walk` loop
  stops at the edge.

Layout of the Dafny project:

- `compass.dfy` (`Compass`): headings, wall sides, the `facing_order` turn
  table and the one-step displacement.
- `grid.dfy` (`Grid`): the grid, the three-check wall rule (`StepVerdict`) and
  `Path`. `Path` is the list of cells a `move(n)` enters. Lemmas relate it to
  the distance to the edge.
- `carrots.dfy` (`Carrots`): the object map and its counts. A count is an
  integer or the string `"infinite"`. Also the pick and put updates, and the
  total stock of carrots.
- `robot3_rules.dfy` (`Robot3Rules`): every SmartRobot action as a function
  on a value snapshot `Bot`.
- `robot3.dfy` (`Robot3`): the classes `World`, `AnimatedRobot` and
  `SmartRobot`. Each method's postcondition ties its new state to the
  matching function of `Robot3Rules`.
- `robot3_explorer.dfy` (`Robot3Explorer`): the harvesting walk, in two
  forms:
  - the walk as written, as functions, with lemmas showing that it stops at
    the first dead end;
  - the walk as intended, as methods on a `SmartRobot`, proved to visit and
    empty every cell reachable from the start.
- `motion.dfy` (`Motion`): what the queued actions amount to once every timer
  has fired.
- `robot2.dfy` (`Robot2`) and `robot1.dfy` (`Robot1`): the queued robots as
  classes, with an explicit `Tick` for the timer callback that is due.
- `pyodide.dfy` (`PyodideRobot`): the wall-free robot and its `walk`.
- `scene.dfy` (`Scenes`): the `init` functions of the second and third
  versions. They compute the grid size from a scene and build the first robot.

Coordinates follow the source. A scene keys walls and objects by 1-indexed
cell `"x,y"`, and the robot stores 0-indexed `x - 1, y - 1`. Here a key is
the pair `(x, y)`, and `Grid.Key` turns a robot cell into a key. North
increases `y`.

## Model

| member | source | states |
|---|---|---|
| Compass.Index | downloads/py/brython_robot3.py:352 | the position of a heading in `facing_order` is below 4 and indexes back to that heading |
| Compass.LeftCycle | downloads/py/brython_robot3.py:314-318 | a left turn takes east to north, north to west, west to south and south to east |
| Compass.FourLeftsIdentity | downloads/py/brython_robot3.py:351-355 | four left turns give back the starting heading |
| Compass.FourTurnsCoverAll | downloads/py/brython_robot3.py:22-37 | the four headings met by turning left four times include every heading |
| Compass.ThreeLeftsAreRight | downloads/py/brython_robot3.py:357-360 | three left turns equal one right turn |
| Compass.ReverseIsTwoLefts | downloads/py/brython_robot3.py:339-349 | the half turn of the fast backward move equals two left turns and undoes itself |
| Compass.AheadReverse | downloads/py/brython_robot3.py:362-372 | the cell ahead is a different cell, and stepping back from it in the reversed heading returns to the start |
| Compass.SideOfReverse | downloads/py/brython_robot3.py:489-508 | the side crossed when stepping back is the opposite of the side crossed going forward |
| Grid.WallRuleSymmetric | downloads/py/brython_robot3.py:489-508 | between two neighbouring cells on the grid, a step is allowed one way exactly when it is allowed the other way |
| Grid.StepVerdictCases | downloads/py/brython_robot3.py:291-306 | a step is refused as off the grid exactly when the cell ahead is off the grid; otherwise for a wall exactly when the cell left lists the side crossed; otherwise for the wall ahead exactly when the cell entered lists the opposite side; it is clear exactly when none of the three applies |
| Grid.Path | downloads/py/brython_robot3.py:274-312 | a move enters at most `n` cells; if it enters fewer than `n`, the next step is refused |
| Grid.PathShape | downloads/py/brython_robot3.py:274-312 | every cell a move enters lies on the grid and is next to the one before in the robot's heading |
| Grid.PathEnd | downloads/py/brython_robot3.py:274-312 | a move that enters `k` cells ends `k` unit steps away along its heading |
| Grid.PathBlocked | downloads/py/brython_robot3.py:293-306 | after a refused step, a longer move enters no more cells |
| Grid.PathExtend | downloads/py/brython_robot3.py:308-311 | one more allowed step appends exactly the cell ahead |
| Grid.OneStep | downloads/py/brython_robot3.py:510-511 | a one-step move succeeds exactly when the wall rule allows the step, and then enters the cell ahead |
| Grid.PathRoom | downloads/py/brython_robot3.py:293-295 | a move never enters more cells than lie between the robot and the edge, nor more than the grid is long |
| Grid.PathSaturates | downloads/py/brython_robot2.py:219-272 | once a move stops short of its count, any larger count enters the same cells |
| Grid.OpenWalkToEdge | downloads/py/brython_robot.py:124-150 | with no walls, a move from a cell of the grid enters exactly `min(n, room)` cells, or none when `n <= 0` |
| Carrots.PickAt | downloads/py/brython_robot3.py:453-456 | a pick lowers the cell's carrot count by one, deletes the entry when it reaches zero, and changes no other key or entry |
| Carrots.PutAt | downloads/py/brython_robot3.py:474-478 | a put raises the cell's count by one, an absent entry counting as zero, and changes no other key or entry |
| Carrots.PutUndoesPick | downloads/py/brython_robot3.py:445-481 | putting back a carrot just picked restores the object map exactly |
| Carrots.PickUndoesPut | downloads/py/brython_robot3.py:445-481 | picking right after a put restores a positive count; an absent entry comes back as an empty dictionary left under the key |
| Carrots.PickKeepsStocked | downloads/py/brython_robot3.py:453-456 | picking keeps every carrot entry a positive integer |
| Carrots.CountBelowStock | downloads/py/brython_robot3.py:445-464 | no cell offers more carrots than the whole world |
| Carrots.CountBelowStockIn | downloads/py/brython_robot3.py:445-464 | no cell of a region offers more carrots than the region as a whole |
| Carrots.StockAfterPick | downloads/py/brython_robot3.py:453-456 | a pick takes exactly one carrot out of the world's total |
| Robot3Rules.WallInFront | downloads/py/brython_robot3.py:489-508 | `wall_in_front` holds exactly when the wall rule refuses the step ahead |
| Robot3Rules.FrontIsClear | downloads/py/brython_robot3.py:510-511 | `front_is_clear` holds exactly when a one-step move would take its step |
| Robot3Rules.BackgroundIs | downloads/py/brython_robot3.py:418-427 | `background_is("pale_grass")` holds exactly when the cell has a carrot entry, and `background_is("grass")` exactly when it has none; any other name gives false |
| Robot3Rules.GrassIsNotPaleGrass | downloads/py/brython_robot3.py:418-427 | `background_is("grass")` is the negation of `background_is("pale_grass")` |
| Robot3Rules.TrailAppend | downloads/py/brython_robot3.py:330-335 | entering one more cell adds exactly that cell to the visited trail |
| Robot3Rules.Forward | downloads/py/brython_robot3.py:330-337 | `move` keeps heading, load and objects; visited only grows, by cells of the grid; a one-step move through a clear front enters the cell ahead and visits it; a blocked front changes nothing |
| Robot3Rules.Backward | downloads/py/brython_robot3.py:339-349 | the slow backward move keeps the heading; if the rear step is allowed it enters the cell behind and visits it, else nothing changes |
| Robot3Rules.SpeedBackward | downloads/py/brython_robot3.py:340-343 | the fast backward move makes a half turn (two left turns) and lands on the cell it faced away from, with no wall or boundary check; load, visited set and objects are unchanged |
| Robot3Rules.SpeedBackwardTwice | downloads/py/brython_robot3.py:340-343 | two fast backward moves in a row give back the robot exactly |
| Robot3Rules.FrontIsVisited | downloads/py/brython_robot3.py:432-443 | a robot that has visited nothing but its own cell never finds the cell ahead visited |
| Robot3Rules.ReturnFindsFrontVisited | downloads/py/brython_robot3.py:22-33 | after a step through a clear front and a step back, the cell ahead counts as visited, so the walk does not enter it again |
| Robot3Rules.ForwardBackwardRoundTrip | downloads/py/brython_robot3.py:330-349 | a one-step move through a clear front and a backward move return the robot to its cell and heading, with both cells visited |
| Robot3Rules.SpeedBackwardIgnoresBoundary | downloads/py/brython_robot3.py:340-343 | on a 1×1 grid the slow backward move stays put while the fast one jumps off the grid and ends facing backward |
| Robot3Rules.Picked | downloads/py/brython_robot3.py:445-464 | the load grows by one exactly when below capacity and the cell's count is a positive integer, and the count then drops by one; otherwise nothing changes; capacity is never exceeded |
| Robot3Rules.PickConservesCarrots | downloads/py/brython_robot3.py:445-464 | load plus the world's stock is the same before and after a pick |
| Robot3Rules.Put | downloads/py/brython_robot3.py:469-481 | nothing carried is reported exactly when the load is not positive; a carrot is placed exactly when one is carried and the count is not "infinite"; a placement lowers the load by one and sets the count to one more than before (an absent entry counting as zero), keeps cell, heading and visited set, every other key's dictionary and every other name in the cell; otherwise nothing changes |
| Robot3Rules.PickThenPutRestores | downloads/py/brython_robot3.py:445-481 | a successful pick followed by a put restores the robot and the world exactly |
| Robot3.World.ObjectAtCoord | downloads/py/brython_robot3.py:231-235 | true only for a listed object; for carrots, true exactly when the count is a positive integer, and a `TypeError` exactly when it is "infinite" |
| Robot3.AnimatedRobot.constructor | downloads/py/brython_robot3.py:238-243 | stores the 0-indexed cell and the heading reached by `orientation % 4` left turns from east |
| Robot3.AnimatedRobot.Move | downloads/py/brython_robot3.py:274-312 | keeps the heading and ends where `Path` of the move ends |
| Robot3.AnimatedRobot.TurnLeft | downloads/py/brython_robot3.py:314-318 | one left turn, cell unchanged |
| Robot3.SmartRobot.constructor | downloads/py/brython_robot3.py:321-327 | starts with no carrots, the given capacity, and only its own cell visited |
| Robot3.SmartRobot.WallInFrontNow | downloads/py/brython_robot3.py:489-508 | returns the wall test of the current state |
| Robot3.SmartRobot.FrontIsClearNow | downloads/py/brython_robot3.py:510-511 | returns the negated wall test of the current state |
| Robot3.SmartRobot.FrontIsVisitedNow | downloads/py/brython_robot3.py:432-443 | true exactly when the cell one step ahead in the current heading is in the visited set |
| Robot3.SmartRobot.BackgroundIsNow | downloads/py/brython_robot3.py:418-427 | returns the background test of the current state |
| Robot3.SmartRobot.TurnLeft | downloads/py/brython_robot3.py:351-355 | the new state is the old one turned left |
| Robot3.SmartRobot.TurnRight | downloads/py/brython_robot3.py:357-360 | three left turns leave the robot facing right of where it faced, all else unchanged |
| Robot3.SmartRobot.Move | downloads/py/brython_robot3.py:330-337 | the new state is `Forward` of the old one |
| Robot3.SmartRobot.MoveBackward | downloads/py/brython_robot3.py:339-349 | the new state is the fast jump or the slow backward move of the old one |
| Robot3.SmartRobot.PickCarrot | downloads/py/brython_robot3.py:445-464 | the new state is `Picked` of the old one |
| Robot3.SmartRobot.PutCarrot | downloads/py/brython_robot3.py:469-481 | the new state and the status are `Put` of the old state |
| Robot3Explorer.Cells | downloads/py/brython_robot3.py:600-609 | a cell is in the set exactly when it lies on the grid |
| Robot3Explorer.Harvest | downloads/py/brython_robot3.py:15-16 | when the pick loop ends (the cell's entry, if any, is a positive integer that fits in the robot), it removes the cell's carrot entry and nothing else, the load grows by exactly the cell's count, and cell, heading and visited set are unchanged |
| Robot3Explorer.HarvestNeverEnds | downloads/py/brython_robot3.py:15-16 | otherwise the background stays pale after every pick and the condition stays unmet, so the source's loop never ends |
| Robot3Explorer.SuppliedHarvest | downloads/py/brython_robot3.py:15-16 | inside a closed region whose carrots are positive integers that all fit in the robot, the pick loop ends, empties only the robot's cell, and keeps load plus the region's carrots and load plus the world's carrots |
| Robot3Explorer.HarvestTotals | downloads/py/brython_robot3.py:15-16 | a pick loop that ends changes the carrot entry of the robot's cell only, and moves exactly that cell's carrots to the robot |
| Robot3Explorer.HarvestEmpties | downloads/py/brython_robot3.py:15-16 | a pick loop that ends leaves nothing to pick in the cell and every other cell's count as it was |
| Robot3Explorer.HarvestKeepsStockedIn | downloads/py/brython_robot3.py:15-16 | a pick loop that ends keeps every carrot entry of a region a positive integer |
| Robot3Explorer.Explore | downloads/py/brython_robot3.py:11-41 | the walk as written, started inside a closed region whose carrots all fit in the robot, adds only cells of the region to the visited set and keeps load plus the carrots of the region and of the world |
| Robot3Explorer.Headings | downloads/py/brython_robot3.py:22-37 | the heading loop as written adds only cells of the region to the visited set, stays in a supplied region, and keeps load plus carrots |
| Robot3Explorer.ExploreAlwaysDone | downloads/py/brython_robot3.py:29-31 | every call of the walk as written returns with `exploration_done` set |
| Robot3Explorer.HeadingsAlwaysDone | downloads/py/brython_robot3.py:39-40 | every run of the heading loop as written ends with `exploration_done` set |
| Robot3Explorer.CorridorFirstStep | downloads/py/brython_robot3.py:24-25 | in a 3×1 corridor, the first step east from the middle enters the east end |
| Robot3Explorer.CorridorMiddle | downloads/py/brython_robot3.py:22-31 | from the corridor's middle the east heading is clear and unvisited, and the call it starts returns with the flag set from the east end |
| Robot3Explorer.CorridorStart | downloads/py/brython_robot3.py:11-41 | the whole walk as written from the corridor's middle ends at the east end with only the middle and east cells visited |
| Robot3Explorer.CorridorEastEnd | downloads/py/brython_robot3.py:22-41 | at the corridor's east end, every heading is blocked or visited, so the call ends with the flag set and the walk stops there |
| Robot3Explorer.AsWrittenStopsAtFirstDeadEnd | downloads/py/brython_robot3.py:29-31 | the walk as written ends at the corridor's east end, never visiting the west end, which can be reached from the start |
| Robot3Explorer.ExploredHoldsReachable | downloads/py/brython_robot3.py:11-41 | a visited set that holds every allowed neighbour of each of its cells holds every cell reachable from any of them |
| Robot3Explorer.ReachesAppend | downloads/py/brython_robot3.py:22-25 | one more clear step at the end of a route is a route to the cell ahead |
| Robot3Explorer.ReachableClosed | downloads/py/brython_robot3.py:22-25 | the cells reachable from a cell include it and every neighbour each of them can step to |
| Robot3Explorer.BareGridSupplied | downloads/py/brython_robot3.py:15-16 | on a grid whose world holds no object, the whole grid is a supplied region for a robot standing on it |
| Robot3Explorer.ExploredMerge | downloads/py/brython_robot3.py:24-27 | the cells explored by an inner walk, added to those explored before, stay explored |
| Robot3Explorer.HarvestedMerge | downloads/py/brython_robot3.py:24-27 | cells harvested before stay harvested when the inner walk picks only elsewhere |
| Robot3Explorer.OnlyPickedMerge | downloads/py/brython_robot3.py:24-27 | picking in one set of cells and then in another changes only the carrot entries of their union |
| Robot3Explorer.HarvestHere | downloads/py/brython_robot3.py:15-16 | the pick loop leaves the robot in the state `Harvest` gives |
| Robot3Explorer.EnterAndReturn | downloads/py/brython_robot3.py:24-33 | stepping into an unvisited neighbour, walking from there and stepping back returns to the cell and heading, with the neighbour and every cell the inner walk visited explored and harvested |
| Robot3Explorer.SkipHeading | downloads/py/brython_robot3.py:22-25 | a heading that is blocked or whose cell ahead is visited counts as tried without moving |
| Robot3Explorer.ProgressStart | downloads/py/brython_robot3.py:14-18 | harvesting the start and marking it visited begins the heading loop with no heading tried |
| Robot3Explorer.ProgressStep | downloads/py/brython_robot3.py:21-37 | one more tried heading and a left turn keep the loop state, with one more heading tried |
| Robot3Explorer.ProgressDone | downloads/py/brython_robot3.py:11-41 | after four headings the robot faces as it started and every allowed neighbour of the start is visited, so the walk is complete |
| Robot3Explorer.TryHeading | downloads/py/brython_robot3.py:22-37 | one heading: the robot ends where it started, facing as before; if the step ahead is allowed, the cell ahead is visited; every newly visited cell lies in the region and is explored and harvested; only carrot entries of visited cells change; carrots are conserved |
| Robot3Explorer.BeginAt | downloads/py/brython_robot3.py:14-18 | harvesting the current cell and marking it visited leaves the heading loop at its start |
| Robot3Explorer.NextHeading | downloads/py/brython_robot3.py:22-37 | one pass of the heading loop, a tried heading and a left turn, advances the loop by one heading |
| Robot3Explorer.ExploreFrom | downloads/py/brython_robot3.py:11-41 | the corrected walk returns to its cell and heading; the start and every newly visited cell lie in the region and are explored and harvested; only carrot entries of the visited cells change; carrots are conserved |
| Robot3Explorer.ExploreAll | downloads/py/brython_robot3.py:42-44 | from a fresh robot the visited set ends equal to the cells reachable from the start, each without a carrot entry; the robot ends where and as it started; only carrot entries of visited cells change; the load grows by exactly the carrots the reachable cells held, and load plus the world's carrots is kept |
| Motion.Travel | downloads/py/brython_robot2.py:219-272 | a queued move enters at most `n` cells when `n >= 0`; when it stops short, or for a negative count, the next step is refused |
| Motion.TravelShape | downloads/py/brython_robot2.py:219-272 | every cell a queued move enters lies on the grid and is next to the one before in the robot's heading |
| Motion.TravelStep | downloads/py/brython_robot2.py:221-272 | a step callback that moves leaves a move of one step fewer from the next cell, ending at the same place |
| Motion.StepStops | downloads/py/brython_robot2.py:221-265 | a step callback that meets a count of zero or a refused step leaves the robot where it stands and needs no further callback |
| Motion.StepMoves | downloads/py/brython_robot2.py:268-272 | a step callback that moves one cell leaves a move with the same end and exactly one callback fewer |
| Motion.PerformAllAppend | downloads/py/brython_robot2.py:287-296 | queuing one more action runs it after all those already queued |
| Motion.FourTurnsRestore | downloads/py/brython_robot2.py:278-285 | four queued left turns leave the robot as it was |
| Motion.CostAppend | downloads/py/brython_robot2.py:287-296 | queuing an action adds its own callbacks, counted from where the earlier actions leave the robot |
| Motion.NoTicksNoEffect | downloads/py/brython_robot2.py:221-223 | an action needing no callback is a move that enters no cell and changes nothing |
| Motion.StartNext | downloads/py/brython_robot2.py:287-292 | `_run_queue` on an idle robot leaves it idle exactly when the queue held no turn and every move in it stopped before a step, and then at its pose with the queue empty; otherwise it consumes a prefix of the queue and leaves the rest waiting |
| Motion.StartNextLeads | downloads/py/brython_robot2.py:217-296 | starting the next actions does not change where the queue leads once every callback has fired |
| Motion.StartNextCost | downloads/py/brython_robot2.py:217-296 | starting the next actions does not change how many timer callbacks the queue still needs |
| Robot2.AnimatedRobot.constructor | downloads/py/brython_robot2.py:179-189 | 0-indexed cell, heading `facing_order[orientation % 4]`, empty queue, no callback due |
| Robot2.AnimatedRobot.Move | downloads/py/brython_robot2.py:217-276 | a busy robot leaves pose and pending callback alone and appends the move to the queue; an idle robot takes the first step at once when the count is non-zero and the step is clear, with the next step callback due, and otherwise stays idle where it was; in every case the final pose is where all logged actions lead and the callbacks due grow by the cells the move will enter |
| Robot2.AnimatedRobot.TurnLeft | downloads/py/brython_robot2.py:278-285 | a busy robot leaves pose and pending callback alone and appends the turn; an idle robot turns left at once with its `done` due; one more callback is due in every case |
| Robot2.AnimatedRobot.Enqueue | downloads/py/brython_robot2.py:275-276 | appending an action and running the queue logs the action; a busy robot only queues it, an idle one starts it at once as `StartNext` says |
| Robot2.AnimatedRobot.RunQueue | downloads/py/brython_robot2.py:287-292 | on a busy robot nothing changes; on an idle one the first queued action is popped and started as `StartNext` says; the final pose and the callbacks due are unchanged |
| Robot2.AnimatedRobot.Step | downloads/py/brython_robot2.py:219-272 | one step callback leaves the state `StartNext` gives for the rest of the move ahead of the queue; the final pose and the callback count are those of the move followed by the queue |
| Robot2.AnimatedRobot.Advance | downloads/py/brython_robot2.py:268-272 | the allowed step: the robot moves exactly one cell along its heading and the callback for the remaining `n - 1` steps is due, queue unchanged; the final pose and the callback count are those of the move and the queue behind it |
| Robot2.AnimatedRobot.Refused | downloads/py/brython_robot2.py:225-265 | the step is refused exactly when the wall rule refuses it: off the grid, a wall on this cell's side, or the opposite wall on the next cell |
| Robot2.AnimatedRobot.Done | downloads/py/brython_robot2.py:294-296 | ending an action starts the queue from the current pose as `StartNext` says, with the final pose and callback count those of the queue |
| Robot2.AnimatedRobot.Tick | downloads/py/brython_robot2.py:217-296 | a due `done` starts the queue; a due step runs the rest of the move ahead of the queue; each lowers the callbacks due by exactly one; when none is due nothing changes; once idle, the robot stands where the logged actions in order lead |
| Robot1.AnimatedRobot.constructor | downloads/py/brython_robot.py:84-94 | 0-indexed cell, facing east, empty queue |
| Robot1.AnimatedRobot.Move | downloads/py/brython_robot.py:122-154 | as for the walled robot, on a grid without walls: a busy robot only queues the move, an idle one takes the first step at once when the count is non-zero and the step is on the grid; end pose and callback count as for the walled robot |
| Robot1.AnimatedRobot.TurnLeft | downloads/py/brython_robot.py:156-163 | a busy robot only queues the turn; an idle one turns at once with its `done` due; one more callback is due |
| Robot1.AnimatedRobot.Enqueue | downloads/py/brython_robot.py:152-154 | appending an action logs it; a busy robot only queues it, an idle one starts it at once as `StartNext` says |
| Robot1.AnimatedRobot.RunQueue | downloads/py/brython_robot.py:165-170 | on a busy robot nothing changes; on an idle one the first queued action is popped and started as `StartNext` says; final pose and callbacks due are unchanged |
| Robot1.AnimatedRobot.Step | downloads/py/brython_robot.py:124-150 | one step callback with the boundary check only leaves the state `StartNext` gives for the rest of the move ahead of the queue |
| Robot1.AnimatedRobot.Advance | downloads/py/brython_robot.py:143-147 | the allowed step: the robot moves exactly one cell along its heading and the callback for the remaining `n - 1` steps is due, queue unchanged; final pose and callback count are those of the move and the queue behind it |
| Robot1.AnimatedRobot.Refused | downloads/py/brython_robot.py:129-150 | the step is refused exactly when the next cell is off the grid, which is the wall rule on a grid without walls |
| Robot1.AnimatedRobot.Done | downloads/py/brython_robot.py:172-174 | ending an action starts the queue from the current pose as `StartNext` says |
| Robot1.AnimatedRobot.Tick | downloads/py/brython_robot.py:122-174 | a due `done` starts the queue, a due step runs the rest of the move; each lowers the callbacks due by one; once idle, the robot stands where the logged actions lead |
| PyodideRobot.Robot.constructor | downloads/pyodide_robot_commented.py:217-226 | 0-indexed cell, facing east |
| PyodideRobot.Robot.Walk | downloads/pyodide_robot_commented.py:253-276 | keeps the heading and ends where a wall-free move of `steps` cells ends |
| PyodideRobot.Robot.TurnLeft | downloads/pyodide_robot_commented.py:279-283 | one left turn, cell unchanged |
| PyodideRobot.WalkDistance | downloads/pyodide_robot_commented.py:253-276 | from a cell of the grid, `walk(n)` ends `min(max(n, 0), room)` cells further along the heading, where `room` is the distance to the edge |
| Scenes.Extent | downloads/py/brython_robot3.py:600-609 | width and height are the largest x and y over wall keys, object keys and robots (1 when a robot gives none), or 0 when there are none |
| Scenes.FirstRobotOnGrid | downloads/py/brython_robot3.py:600-613 | a first robot at positive coordinates starts on the grid the scene spans |
| Scenes.SetUp3 | downloads/py/brython_robot3.py:594-624 | a world of the scene's extent with its walls and objects; a smart robot for the first robot entry with capacity `max_carrots` (25 by default), or none when the scene has no robot, or a `KeyError` status when the entry lacks `x` or `y` |
| Scenes.SetUp2 | downloads/py/brython_robot2.py:299-329 | a grid of the scene's extent; an animated robot at the first entry's cell and heading with nothing queued, or none when the scene has no robot, or a `KeyError` status |

## Left out

- Drawing: canvases, images, traces, the DOM, buttons and key bindings
  (`create_buttons`, `on_key`, `_bind_controls`), and image preloading.
  None of them affects the robot's state.
- Timing: `aio.sleep`, `asyncio.sleep` and the `speedup` delays. For the
  queued robots, `timer.set_timeout` becomes the explicit `Tick` event. The
  200 ms and 300 ms delays are not modelled.
- Fetching a scene from a URL (`load_scene_from_url`, `get_url_parameter`)
  and the `DEFAULT_SCENE` data. `Scenes` takes a scene as a value, and an
  absent `robots`, `walls` or `objects` entry is an empty one.
- Printed messages and the carrot-box count in `pick_carrot`.
- Parsing `"x,y"` key strings. Keys are integer pairs here.
- Object counts other than integers and the string `"infinite"`. Object
  names other than `"carrot"` are kept in the map but never changed.
- `object_here`, `is_visited` and `put`. These are
  one-line wrappers of members that are modelled.
- Aliasing of a cell's dictionary. `pick_carrot` mutates the dictionary in
  place. Here the map entry is replaced, which leaves the same map.
- The `World` classes of the first two versions: only their width, height and
  walls are read, and they appear as `Board`.
- `shBrushWbt.js`, a syntax-highlighting brush, is not part of this model.
- Motion.Travel: a queued move with a negative count goes on until a step is
  refused. It is modelled as a move of one more step than the grid is long,
  which `Grid.PathSaturates` shows is the same.
- Robot3Explorer.Explore: the walk as written is modelled on values, not as
  a method on the classes. Its `move_backward` call is never reached (see
  Findings), so the methods `TryHeading` and `ExploreFrom` model the walk
  without the flag. `Explore` and `Headings` require the robot to stand in a
  closed region whose carrot entries are positive integers that all fit in
  the robot. That is enough for every pick loop on the walk to end, but more
  than needed, since the walk as written stops early.
- Robot3Explorer.Harvest: models only the pick loops that end: the cell's
  entry, if any, is a positive integer that fits in the robot.
  `HarvestNeverEnds` shows that in every other case the source's loop never
  ends, so no end state exists to describe.
- Robot3Explorer.ExploreAll: requires every carrot entry in a cell
  reachable from the start to be a positive integer, and the robot to have
  room for all of them. The walk harvests every reachable cell, so without
  this the robot meets a cell whose pick loop never ends. It also requires a
  robot that has visited nothing but its own cell, as `SmartRobot`'s
  constructor leaves it.

## Findings

| source | as written | input that shows it | evidently intended | confidence | as-written member | corrected member |
|---|---|---|---|---|---|---|
| downloads/py/brython_robot3.py:29-31 | one flag is shared by the whole walk, and the first call that exhausts its four headings sets it (line 40); every caller then returns before `move_backward`, so the walk ends at its first dead end | a 3×1 grid with no walls, the robot at (2,1) facing east: it enters (3,1), finds every heading blocked or visited, sets the flag, and never returns to reach (1,1) | the flag is set only once the outermost call is finished, so every cell reachable from the start is visited and harvested | not executed | Robot3Explorer.AsWrittenStopsAtFirstDeadEnd | Robot3Explorer.ExploreAll |
