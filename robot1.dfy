/**
 * The robot of brython_robot, the first queued robot: the same queue as
 * brython_robot2, but its world has no walls, so a step is refused only
 * when it would leave the grid, and the robot always starts facing east.
 * Its moves are described with a board whose wall map is empty.
 */
module Robot1 {
  import opened Compass
  import opened Grid
  import opened Motion

  class AnimatedRobot {
    const width: int
    const height: int

    /** The grid as the wall rule sees it: no wall anywhere. */
    function Layout(): Board
    {
      Board(width, height, map[])
    }
    var x: int
    var y: int
    var facing: Facing
    var queue: seq<Action>
    var running: bool
    /** The timer callback that is due, if any. */
    var pending: Pending
    /** Where the robot was built, and every action queued since. */
    ghost const start: Pose
    ghost var log: seq<Action>

    function Now(): Pose
      reads this
    {
      Pose(x, y, facing)
    }

    /** The pose, the callback due and the waiting actions. */
    function State(): Phase
      reads this
    {
      Phase(Now(), pending, queue)
    }

    /** Where the action under way, if any, leaves the robot. */
    function AfterPending(): Pose
      reads this
    {
      match pending
      case StepDue(n) => Perform(Layout(), Now(), MoveCmd(n))
      case _ => Now()
    }

    /** Callbacks still due for the action under way. */
    function PendingTicks(): nat
      reads this
    {
      match pending
      case Idle => 0
      case DoneDue => 1
      case StepDue(n) => ActionTicks(Layout(), Now(), MoveCmd(n)) + 1
    }

    /** Where the robot stands once every callback has fired. */
    ghost function Settled(): Pose
      reads this
    {
      PerformAll(Layout(), AfterPending(), queue)
    }

    /** The number of timer callbacks before the robot is idle again. */
    ghost function TicksLeft(): nat
      reads this
    {
      PendingTicks() + Cost(Layout(), AfterPending(), queue)
    }

    /** A callback is due exactly while an action runs; the queue holds only actions behind a running one. */
    ghost predicate Flowing()
      reads this
    {
      (running <==> pending != Idle) && (!running ==> queue == [])
    }

    /** Running the queue to its end does what the queued actions, done one after the other, do. */
    ghost predicate Valid()
      reads this
    {
      Flowing() && Settled() == PerformAll(Layout(), start, log)
    }

    /** Built from a 1-indexed position, facing east, with an empty queue. */
    constructor(width: int, height: int, x: int, y: int)
      ensures Valid() && log == [] && TicksLeft() == 0
      ensures this.width == width && this.height == height && Now() == Pose(x - 1, y - 1, E)
    {
      this.width := width;
      this.height := height;
      this.x := x - 1;
      this.y := y - 1;
      this.facing := E;
      this.queue := [];
      this.running := false;
      this.pending := Idle;
      this.start := Pose(x - 1, y - 1, E);
      this.log := [];
    }

    /** `move(steps)`: queue a move. */
    method Move(steps: int)
      requires Valid()
      modifies this
      ensures Valid() && log == old(log) + [MoveCmd(steps)]
      ensures TicksLeft() == old(TicksLeft()) + ActionTicks(Layout(), old(Settled()), MoveCmd(steps))
      ensures old(running) ==> Now() == old(Now()) && pending == old(pending) && queue == old(queue) + [MoveCmd(steps)]
      ensures !old(running) && (steps == 0 || StepVerdict(Layout(), (old(x), old(y)), old(facing)) != Clear) ==>
                State() == Phase(old(Now()), Idle, [])
      ensures !old(running) && steps != 0 && StepVerdict(Layout(), (old(x), old(y)), old(facing)) == Clear ==>
                State() == Phase(Pose(old(x) + DX(old(facing)), old(y) + DY(old(facing)), old(facing)), StepDue(steps - 1), [])
    {
      Enqueue(MoveCmd(steps));
    }

    /** `turn_left()`: queue a left turn. */
    method TurnLeft()
      requires Valid()
      modifies this
      ensures Valid() && log == old(log) + [TurnCmd]
      ensures TicksLeft() == old(TicksLeft()) + 1
      ensures old(running) ==> Now() == old(Now()) && pending == old(pending) && queue == old(queue) + [TurnCmd]
      ensures !old(running) ==> State() == Phase(Pose(old(x), old(y), LeftOf(old(facing))), DoneDue, [])
    {
      Enqueue(TurnCmd);
    }

    /** `self.queue.append(action); self._run_queue()`. */
    method Enqueue(a: Action)
      requires Valid()
      modifies this
      ensures Valid() && log == old(log) + [a]
      ensures TicksLeft() == old(TicksLeft()) + ActionTicks(Layout(), old(Settled()), a)
      ensures old(running) ==> Now() == old(Now()) && pending == old(pending) && queue == old(queue) + [a]
      ensures !old(running) ==> State() == StartNext(Layout(), old(Now()), [a])
    {
      PerformAllAppend(Layout(), AfterPending(), queue, a);
      PerformAllAppend(Layout(), start, log, a);
      CostAppend(Layout(), AfterPending(), queue, a);
      log := log + [a];
      queue := queue + [a];
      RunQueue();
    }

    /** `_run_queue`: unless an action runs or the queue is empty, take the first action and start it. */
    method RunQueue()
      requires running <==> pending != Idle
      modifies this
      decreases |queue|, 0
      ensures Flowing() && log == old(log)
      ensures Settled() == old(Settled()) && TicksLeft() == old(TicksLeft())
      ensures old(running) ==> State() == old(State()) && running
      ensures !old(running) ==> State() == StartNext(Layout(), old(Now()), old(queue))
    {
      if running || queue == [] {
        return;
      }
      running := true;
      var action := queue[0];
      queue := queue[1..];
      assert old(queue) == [action] + queue;
      match action {
        case MoveCmd(n) =>
          Step(n);
        case TurnCmd =>
          facing := FacingOrder[(Index(facing) + 1) % 4];
          pending := DoneDue;
      }
    }

    /** The `step()` callback of a move with `n` steps left: stop at zero or at the edge, else one cell and a timer. */
    method Step(n: int)
      requires running && pending == Idle
      modifies this
      decreases |queue|, 2
      ensures Flowing() && log == old(log)
      ensures Settled() == PerformAll(Layout(), Perform(Layout(), old(Now()), MoveCmd(n)), old(queue))
      ensures TicksLeft() == ActionTicks(Layout(), old(Now()), MoveCmd(n)) + Cost(Layout(), Perform(Layout(), old(Now()), MoveCmd(n)), old(queue))
      ensures State() == StartNext(Layout(), old(Now()), [MoveCmd(n)] + old(queue))
    {
      assert ([MoveCmd(n)] + queue)[1..] == queue;
      if n == 0 {
        StepStops(Layout(), Now(), n);
        Done();
        return;
      }
      var blocked := Refused();
      if blocked {
        StepStops(Layout(), Now(), n);
        Done();
        return;
      }
      Advance(n);
    }

    /** The boundary check of `step()`: the next cell must lie on the grid. */
    method Refused() returns (blocked: bool)
      ensures blocked <==> StepVerdict(Layout(), (x, y), facing) != Clear
    {
      var dx, dy;
      match facing {
        case E => dx, dy := 1, 0;
        case W => dx, dy := -1, 0;
        case N => dx, dy := 0, 1;
        case S => dx, dy := 0, -1;
      }
      var nextX, nextY := x + dx, y + dy;
      assert (nextX, nextY) == Ahead((x, y), facing);
      blocked := !(0 <= nextX < width && 0 <= nextY < height);
    }

    /** The end of a `step()` that is let through: one cell ahead, and the next `step()` due with one step fewer. */
    method Advance(n: int)
      requires n != 0 && StepVerdict(Layout(), (x, y), facing) == Clear
      requires running && pending == Idle
      modifies this
      ensures Flowing() && log == old(log)
      ensures Settled() == PerformAll(Layout(), Perform(Layout(), old(Now()), MoveCmd(n)), old(queue))
      ensures TicksLeft() == ActionTicks(Layout(), old(Now()), MoveCmd(n)) + Cost(Layout(), Perform(Layout(), old(Now()), MoveCmd(n)), old(queue))
      ensures Now() == Pose(old(x) + DX(old(facing)), old(y) + DY(old(facing)), old(facing))
      ensures pending == StepDue(n - 1) && queue == old(queue) && running
    {
      ghost var after := Perform(Layout(), Now(), MoveCmd(n));
      ghost var ticks := ActionTicks(Layout(), Now(), MoveCmd(n));
      StepMoves(Layout(), Now(), n);
      x, y := x + DX(facing), y + DY(facing);
      pending := StepDue(n - 1);
      assert AfterPending() == after && PendingTicks() == ticks;
    }

    /** `_done`: the action under way has ended; start the next one. */
    method Done()
      modifies this
      decreases |queue|, 1
      ensures Flowing() && log == old(log)
      ensures Settled() == PerformAll(Layout(), old(Now()), old(queue))
      ensures TicksLeft() == Cost(Layout(), old(Now()), old(queue))
      ensures State() == StartNext(Layout(), old(Now()), old(queue))
    {
      running := false;
      pending := Idle;
      RunQueue();
    }

    /** The timer callback that is due fires; nothing happens when none is due. */
    method Tick()
      requires Valid()
      modifies this
      ensures Valid() && log == old(log)
      ensures old(pending) != Idle ==> TicksLeft() + 1 == old(TicksLeft())
      ensures old(pending) == Idle ==> Now() == old(Now()) && queue == old(queue) && pending == Idle
      ensures TicksLeft() == 0 <==> pending == Idle
      ensures pending == Idle ==> Now() == PerformAll(Layout(), start, log)
      ensures old(pending) == DoneDue ==> State() == StartNext(Layout(), old(Now()), old(queue))
      ensures old(pending).StepDue? ==> State() == StartNext(Layout(), old(Now()), [MoveCmd(old(pending).steps)] + old(queue))
    {
      match pending {
        case Idle =>
        case StepDue(n) =>
          pending := Idle;
          Step(n);
        case DoneDue =>
          Done();
      }
    }
  }
}
