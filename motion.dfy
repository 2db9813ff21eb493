/**
 * What the queued robots of brython_robot and brython_robot2 are asked to do,
 * and what the requests amount to once every timer has fired. `move` and
 * `turn_left` append an action to a queue. An idle robot starts it at once:
 * a turn turns, a move takes its first step. A busy robot leaves it waiting
 * in the queue. Every further cell of a move, and the end of every action,
 * comes from a timer callback.
 */
module Motion {
  import opened Compass
  import opened Grid

  /** A robot's cell and heading. */
  datatype Pose = Pose(x: int, y: int, facing: Facing)

  function Spot(p: Pose): Cell
  {
    (p.x, p.y)
  }

  /** A queued action: `move(steps)` or `turn_left()`. */
  datatype Action = MoveCmd(steps: int) | TurnCmd

  /** The timer callback, if any, that is due: the next `step()` of a move with `steps` left, or a turn's `done`. */
  datatype Pending = Idle | StepDue(steps: int) | DoneDue

  /**
   * The cells a queued `move(n)` enters. Each step first checks `steps == 0`,
   * so a negative count never reaches zero and the move goes on until a step
   * is refused. No move can enter more cells than the grid is long, so a count
   * one above that length stands for "until refused".
   */
  function Travel(b: Board, c: Cell, f: Facing, n: int): (p: seq<Cell>)
    ensures n >= 0 ==> |p| <= n
    ensures n < 0 || |p| < n ==> StepVerdict(b, EndOf(c, p), f) != Clear
  {
    PathRoom(b, c, f, if n < 0 then (if Span(b, f) < 0 then 0 else Span(b, f)) + 1 else n);
    Path(b, c, f, if n < 0 then (if Span(b, f) < 0 then 0 else Span(b, f)) + 1 else n)
  }

  /** A queued move enters cells of the grid only, each next to the one before in the robot's heading. */
  lemma TravelShape(b: Board, c: Cell, f: Facing, n: int)
    ensures StraightLine(c, Travel(b, c, f, n), f)
    ensures forall i :: 0 <= i < |Travel(b, c, f, n)| ==> OnBoard(b, Travel(b, c, f, n)[i])
  {
    PathShape(b, c, f, if n < 0 then (if Span(b, f) < 0 then 0 else Span(b, f)) + 1 else n);
  }

  /** One `step()` callback that moves: the rest of the move is a move from the next cell with one step fewer. */
  lemma TravelStep(b: Board, c: Cell, f: Facing, n: int)
    requires n != 0 && StepVerdict(b, c, f) == Clear
    ensures Travel(b, c, f, n) == [Ahead(c, f)] + Travel(b, Ahead(c, f), f, n - 1)
    ensures EndOf(c, Travel(b, c, f, n)) == EndOf(Ahead(c, f), Travel(b, Ahead(c, f), f, n - 1))
  {
    var a := Ahead(c, f);
    if n < 0 {
      var k := (if Span(b, f) < 0 then 0 else Span(b, f)) + 1;
      PathRoom(b, a, f, k - 1);
      PathSaturates(b, a, f, k - 1, k);
    }
  }

  /** The pose after an action has run to its end. */
  function Perform(b: Board, p: Pose, a: Action): Pose
  {
    match a
    case MoveCmd(n) =>
      var end := EndOf(Spot(p), Travel(b, Spot(p), p.facing, n));
      Pose(end.0, end.1, p.facing)
    case TurnCmd => p.(facing := LeftOf(p.facing))
  }

  /** A `step()` callback that stops, on a count of zero or a refused step, leaves the robot where it stands with no callback to come. */
  lemma StepStops(b: Board, p: Pose, n: int)
    requires n == 0 || StepVerdict(b, Spot(p), p.facing) != Clear
    ensures Perform(b, p, MoveCmd(n)) == p && ActionTicks(b, p, MoveCmd(n)) == 0
  {
  }

  /** A `step()` callback that moves one cell leaves a move of one step fewer, with the same end and one callback fewer. */
  lemma StepMoves(b: Board, p: Pose, n: int)
    requires n != 0 && StepVerdict(b, Spot(p), p.facing) == Clear
    ensures var q := Pose(p.x + DX(p.facing), p.y + DY(p.facing), p.facing);
            Perform(b, q, MoveCmd(n - 1)) == Perform(b, p, MoveCmd(n)) &&
            ActionTicks(b, q, MoveCmd(n - 1)) + 1 == ActionTicks(b, p, MoveCmd(n))
  {
    TravelStep(b, Spot(p), p.facing, n);
  }

  /** The robot as the queue sees it: its pose, the callback that is due, and the actions still waiting. */
  datatype Phase = Phase(pose: Pose, pending: Pending, queue: seq<Action>)

  /** Where a phase leaves the robot once the action under way has run to its end. */
  function AfterPhase(b: Board, ph: Phase): Pose
  {
    match ph.pending
    case StepDue(n) => Perform(b, ph.pose, MoveCmd(n))
    case _ => ph.pose
  }

  /**
   * `_run_queue` on an idle robot: the first waiting action leaves the queue
   * and starts at once. A turn turns and leaves its `done` due; a move takes
   * its first step and leaves the next `step()` due; a move that stops before
   * any step calls `next_done`, which starts the action behind it.
   */
  function StartNext(b: Board, p: Pose, q: seq<Action>): (r: Phase)
    decreases |q|
    ensures r.pending == Idle <==> r.queue == [] && TurnCmd !in q && r.pose == p
    ensures |r.queue| <= |q| && r.queue == q[|q| - |r.queue|..]
    ensures q != [] ==> |r.queue| < |q|
  {
    if q == [] then Phase(p, Idle, [])
    else match q[0]
      case TurnCmd => Phase(p.(facing := LeftOf(p.facing)), DoneDue, q[1..])
      case MoveCmd(n) =>
        if n == 0 || StepVerdict(b, Spot(p), p.facing) != Clear then StartNext(b, p, q[1..])
        else Phase(Pose(p.x + DX(p.facing), p.y + DY(p.facing), p.facing), StepDue(n - 1), q[1..])
  }

  /** The callbacks a phase still owes to the action under way, its pending `done` included. */
  function PhaseTicks(b: Board, ph: Phase): nat
  {
    match ph.pending
    case Idle => 0
    case DoneDue => 1
    case StepDue(n) => ActionTicks(b, ph.pose, MoveCmd(n)) + 1
  }

  /** Starting the next actions does not change where the queue leads. */
  lemma {:induction false} StartNextLeads(b: Board, p: Pose, q: seq<Action>)
    ensures var r := StartNext(b, p, q);
            PerformAll(b, AfterPhase(b, r), r.queue) == PerformAll(b, p, q)
    decreases |q|
  {
    if q != [] {
      var r := StartNext(b, p, q);
      assert PerformAll(b, p, q) == PerformAll(b, Perform(b, p, q[0]), q[1..]);
      match q[0]
      case TurnCmd =>
        assert r == Phase(p.(facing := LeftOf(p.facing)), DoneDue, q[1..]);
      case MoveCmd(n) =>
        if n == 0 || StepVerdict(b, Spot(p), p.facing) != Clear {
          StepStops(b, p, n);
          assert r == StartNext(b, p, q[1..]);
          StartNextLeads(b, p, q[1..]);
        } else {
          var p' := Pose(p.x + DX(p.facing), p.y + DY(p.facing), p.facing);
          assert r == Phase(p', StepDue(n - 1), q[1..]);
          StepMoves(b, p, n);
          assert AfterPhase(b, r) == Perform(b, p, MoveCmd(n));
        }
    }
  }

  /** Starting the next actions does not change how many timer callbacks the queue needs. */
  lemma {:induction false} StartNextCost(b: Board, p: Pose, q: seq<Action>)
    ensures var r := StartNext(b, p, q);
            PhaseTicks(b, r) + Cost(b, AfterPhase(b, r), r.queue) == Cost(b, p, q)
    decreases |q|
  {
    if q != [] {
      var r := StartNext(b, p, q);
      assert Cost(b, p, q) == ActionTicks(b, p, q[0]) + Cost(b, Perform(b, p, q[0]), q[1..]);
      match q[0]
      case TurnCmd =>
        assert r == Phase(p.(facing := LeftOf(p.facing)), DoneDue, q[1..]);
      case MoveCmd(n) =>
        if n == 0 || StepVerdict(b, Spot(p), p.facing) != Clear {
          StepStops(b, p, n);
          assert r == StartNext(b, p, q[1..]);
          StartNextCost(b, p, q[1..]);
        } else {
          var p' := Pose(p.x + DX(p.facing), p.y + DY(p.facing), p.facing);
          assert r == Phase(p', StepDue(n - 1), q[1..]);
          StepMoves(b, p, n);
          assert PhaseTicks(b, r) == ActionTicks(b, p, MoveCmd(n));
          assert AfterPhase(b, r) == Perform(b, p, MoveCmd(n));
        }
    }
  }

  /** The pose after the actions have run one after the other. */
  function PerformAll(b: Board, p: Pose, actions: seq<Action>): Pose
    decreases |actions|
  {
    if actions == [] then p else PerformAll(b, Perform(b, p, actions[0]), actions[1..])
  }

  /** Queuing one more action runs it after all the others. */
  lemma {:induction false} PerformAllAppend(b: Board, p: Pose, actions: seq<Action>, a: Action)
    ensures PerformAll(b, p, actions + [a]) == Perform(b, PerformAll(b, p, actions), a)
    decreases |actions|
  {
    if actions != [] {
      assert (actions + [a])[1..] == actions[1..] + [a];
      PerformAllAppend(b, Perform(b, p, actions[0]), actions[1..], a);
    }
  }

  /** Four queued left turns leave the robot where it was, facing as it was. */
  lemma FourTurnsRestore(b: Board, p: Pose)
    ensures PerformAll(b, p, [TurnCmd, TurnCmd, TurnCmd, TurnCmd]) == p
  {
    var turns := [TurnCmd, TurnCmd, TurnCmd, TurnCmd];
    assert turns[1..] == [TurnCmd, TurnCmd, TurnCmd];
    assert turns[1..][1..] == [TurnCmd, TurnCmd];
    assert turns[1..][1..][1..] == [TurnCmd];
    FourLeftsIdentity(p.facing);
  }

  /** The timer callbacks an action still needs after it starts: one per cell entered by a move, one for a turn. */
  function ActionTicks(b: Board, p: Pose, a: Action): nat
  {
    match a
    case MoveCmd(n) => |Travel(b, Spot(p), p.facing, n)|
    case TurnCmd => 1
  }

  /** The timer callbacks needed by the actions run one after the other. */
  function Cost(b: Board, p: Pose, actions: seq<Action>): nat
    decreases |actions|
  {
    if actions == [] then 0 else ActionTicks(b, p, actions[0]) + Cost(b, Perform(b, p, actions[0]), actions[1..])
  }

  /** Queuing one more action adds its own callbacks, counted from where the others leave the robot. */
  lemma {:induction false} CostAppend(b: Board, p: Pose, actions: seq<Action>, a: Action)
    ensures Cost(b, p, actions + [a]) == Cost(b, p, actions) + ActionTicks(b, PerformAll(b, p, actions), a)
    decreases |actions|
  {
    if actions != [] {
      assert (actions + [a])[1..] == actions[1..] + [a];
      CostAppend(b, Perform(b, p, actions[0]), actions[1..], a);
    }
  }

  /** An action that needs no callback has already had its whole effect: a move that enters no cell. */
  lemma NoTicksNoEffect(b: Board, p: Pose, a: Action)
    requires ActionTicks(b, p, a) == 0
    ensures a.MoveCmd? && Perform(b, p, a) == p
  {
  }
}
