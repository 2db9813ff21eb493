/**
 * The robot of brython_robot2: `move` and `turn_left` queue an action and
 * start the queue when it is idle, so the action starts at once; on a busy
 * robot it waits. A move takes its first step when it starts and every
 * further step from a timer callback, each under the wall rule; a turn turns
 * when it starts and reports done from a timer. `Tick` stands for the one
 * timer callback that is due.
 */
module Robot2 {
  import opened Compass
  import opened Grid
  import opened Motion

  class AnimatedRobot {
    const board: Board
    var x: int
    var y: int
    var facing: Facing
    var queue: seq<Action>
    var running: bool
    /** The timer callback that is due, if any. */
    var pending: Pending
    /** Where the robot was built, and every action queued since. */
    ghost const start: Pose
    ghost var log: seq<Action>

    function Now(): Pose
      reads this
    {
      Pose(x, y, facing)
    }

    /** The pose, the callback due and the waiting actions. */
    function State(): Phase
      reads this
    {
      Phase(Now(), pending, queue)
    }

    /** Where the action under way, if any, leaves the robot. */
    function AfterPending(): Pose
      reads this
    {
      match pending
      case StepDue(n) => Perform(board, Now(), MoveCmd(n))
      case _ => Now()
    }

    /** Callbacks still due for the action under way. */
    function PendingTicks(): nat
      reads this
    {
      match pending
      case Idle => 0
      case DoneDue => 1
      case StepDue(n) => ActionTicks(board, Now(), MoveCmd(n)) + 1
    }

    /** Where the robot stands once every callback has fired. */
    ghost function Settled(): Pose
      reads this
    {
      PerformAll(board, AfterPending(), queue)
    }

    /** The number of timer callbacks before the robot is idle again. */
    ghost function TicksLeft(): nat
      reads this
    {
      PendingTicks() + Cost(board, AfterPending(), queue)
    }

    /** A callback is due exactly while an action runs; the queue holds only actions behind a running one. */
    ghost predicate Flowing()
      reads this
    {
      (running <==> pending != Idle) && (!running ==> queue == [])
    }

    /** Running the queue to its end does what the queued actions, done one after the other, do. */
    ghost predicate Valid()
      reads this
    {
      Flowing() && Settled() == PerformAll(board, start, log)
    }

    /** Built from a scene's 1-indexed position and orientation number, with an empty queue. */
    constructor(board: Board, x: int, y: int, orientation: int)
      ensures Valid() && log == [] && TicksLeft() == 0
      ensures this.board == board && Now() == Pose(x - 1, y - 1, FacingOrder[orientation % 4])
    {
      this.board := board;
      this.x := x - 1;
      this.y := y - 1;
      this.facing := FacingOrder[orientation % 4];
      this.queue := [];
      this.running := false;
      this.pending := Idle;
      this.start := Pose(x - 1, y - 1, FacingOrder[orientation % 4]);
      this.log := [];
    }

    /** `move(steps)`: queue a move. */
    method Move(steps: int)
      requires Valid()
      modifies this
      ensures Valid() && log == old(log) + [MoveCmd(steps)]
      ensures TicksLeft() == old(TicksLeft()) + ActionTicks(board, old(Settled()), MoveCmd(steps))
      ensures old(running) ==> Now() == old(Now()) && pending == old(pending) && queue == old(queue) + [MoveCmd(steps)]
      ensures !old(running) && (steps == 0 || StepVerdict(board, (old(x), old(y)), old(facing)) != Clear) ==>
                State() == Phase(old(Now()), Idle, [])
      ensures !old(running) && steps != 0 && StepVerdict(board, (old(x), old(y)), old(facing)) == Clear ==>
                State() == Phase(Pose(old(x) + DX(old(facing)), old(y) + DY(old(facing)), old(facing)), StepDue(steps - 1), [])
    {
      Enqueue(MoveCmd(steps));
    }

    /** `turn_left()`: queue a left turn. */
    method TurnLeft()
      requires Valid()
      modifies this
      ensures Valid() && log == old(log) + [TurnCmd]
      ensures TicksLeft() == old(TicksLeft()) + 1
      ensures old(running) ==> Now() == old(Now()) && pending == old(pending) && queue == old(queue) + [TurnCmd]
      ensures !old(running) ==> State() == Phase(Pose(old(x), old(y), LeftOf(old(facing))), DoneDue, [])
    {
      Enqueue(TurnCmd);
    }

    /** `self.queue.append(action); self._run_queue()`. */
    method Enqueue(a: Action)
      requires Valid()
      modifies this
      ensures Valid() && log == old(log) + [a]
      ensures TicksLeft() == old(TicksLeft()) + ActionTicks(board, old(Settled()), a)
      ensures old(running) ==> Now() == old(Now()) && pending == old(pending) && queue == old(queue) + [a]
      ensures !old(running) ==> State() == StartNext(board, old(Now()), [a])
    {
      PerformAllAppend(board, AfterPending(), queue, a);
      PerformAllAppend(board, start, log, a);
      CostAppend(board, AfterPending(), queue, a);
      log := log + [a];
      queue := queue + [a];
      RunQueue();
    }

    /** `_run_queue`: unless an action runs or the queue is empty, take the first action and start it. */
    method RunQueue()
      requires running <==> pending != Idle
      modifies this
      decreases |queue|, 0
      ensures Flowing() && log == old(log)
      ensures Settled() == old(Settled()) && TicksLeft() == old(TicksLeft())
      ensures old(running) ==> State() == old(State()) && running
      ensures !old(running) ==> State() == StartNext(board, old(Now()), old(queue))
    {
      if running || queue == [] {
        return;
      }
      running := true;
      var action := queue[0];
      queue := queue[1..];
      assert old(queue) == [action] + queue;
      match action {
        case MoveCmd(n) =>
          Step(n);
        case TurnCmd =>
          facing := FacingOrder[(Index(facing) + 1) % 4];
          pending := DoneDue;
      }
    }

    /** The `step()` callback of a move with `n` steps left: stop at zero or at a refused step, else one cell and a timer. */
    method Step(n: int)
      requires running && pending == Idle
      modifies this
      decreases |queue|, 2
      ensures Flowing() && log == old(log)
      ensures Settled() == PerformAll(board, Perform(board, old(Now()), MoveCmd(n)), old(queue))
      ensures TicksLeft() == ActionTicks(board, old(Now()), MoveCmd(n)) + Cost(board, Perform(board, old(Now()), MoveCmd(n)), old(queue))
      ensures State() == StartNext(board, old(Now()), [MoveCmd(n)] + old(queue))
    {
      assert ([MoveCmd(n)] + queue)[1..] == queue;
      if n == 0 {
        StepStops(board, Now(), n);
        Done();
        return;
      }
      var blocked := Refused();
      if blocked {
        StepStops(board, Now(), n);
        Done();
        return;
      }
      Advance(n);
    }

    /** The end of a `step()` that is let through: one cell ahead, and the next `step()` due with one step fewer. */
    method Advance(n: int)
      requires n != 0 && StepVerdict(board, (x, y), facing) == Clear
      requires running && pending == Idle
      modifies this
      ensures Flowing() && log == old(log)
      ensures Settled() == PerformAll(board, Perform(board, old(Now()), MoveCmd(n)), old(queue))
      ensures TicksLeft() == ActionTicks(board, old(Now()), MoveCmd(n)) + Cost(board, Perform(board, old(Now()), MoveCmd(n)), old(queue))
      ensures Now() == Pose(old(x) + DX(old(facing)), old(y) + DY(old(facing)), old(facing))
      ensures pending == StepDue(n - 1) && queue == old(queue) && running
    {
      ghost var after := Perform(board, Now(), MoveCmd(n));
      ghost var ticks := ActionTicks(board, Now(), MoveCmd(n));
      StepMoves(board, Now(), n);
      x, y := x + DX(facing), y + DY(facing);
      pending := StepDue(n - 1);
      assert AfterPending() == after && PendingTicks() == ticks;
    }

    /** The three checks of `step()`: the grid's edge, a wall on this cell's side, a wall on the next cell's opposite side. */
    method Refused() returns (blocked: bool)
      ensures blocked <==> StepVerdict(board, (x, y), facing) != Clear
    {
      var dx, dy, side;
      match facing {
        case E => dx, dy, side := 1, 0, East;
        case W => dx, dy, side := -1, 0, West;
        case N => dx, dy, side := 0, 1, North;
        case S => dx, dy, side := 0, -1, South;
      }
      var nextX, nextY := x + dx, y + dy;
      assert (nextX, nextY) == Ahead((x, y), facing) && side == SideOf(facing);
      if !(0 <= nextX < board.width && 0 <= nextY < board.height) {
        return true;
      }
      var wallsHere := WallsAt(board.walls, (x, y));
      if side in wallsHere {
        return true;
      }
      var wallsNext := WallsAt(board.walls, (nextX, nextY));
      blocked := Opposite(side) in wallsNext;
    }

    /** `_done`: the action under way has ended; start the next one. */
    method Done()
      modifies this
      decreases |queue|, 1
      ensures Flowing() && log == old(log)
      ensures Settled() == PerformAll(board, old(Now()), old(queue))
      ensures TicksLeft() == Cost(board, old(Now()), old(queue))
      ensures State() == StartNext(board, old(Now()), old(queue))
    {
      running := false;
      pending := Idle;
      RunQueue();
    }

    /** The timer callback that is due fires; nothing happens when none is due. */
    method Tick()
      requires Valid()
      modifies this
      ensures Valid() && log == old(log)
      ensures old(pending) != Idle ==> TicksLeft() + 1 == old(TicksLeft())
      ensures old(pending) == Idle ==> Now() == old(Now()) && queue == old(queue) && pending == Idle
      ensures TicksLeft() == 0 <==> pending == Idle
      ensures pending == Idle ==> Now() == PerformAll(board, start, log)
      ensures old(pending) == DoneDue ==> State() == StartNext(board, old(Now()), old(queue))
      ensures old(pending).StepDue? ==> State() == StartNext(board, old(Now()), [MoveCmd(old(pending).steps)] + old(queue))
    {
      match pending {
        case Idle =>
        case StepDue(n) =>
          pending := Idle;
          Step(n);
        case DoneDue =>
          Done();
      }
    }
  }
}
