/**
 * The actions of brython_robot3's SmartRobot as functions on a snapshot of
 * the state they touch: the robot's cell and heading, the carrots it holds,
 * the cells it has visited and the world's object map. The classes in
 * robot3.dfy are specified by these functions.
 */
module Robot3Rules {
  import opened Compass
  import opened Grid
  import opened Carrots

  /** A snapshot of a SmartRobot, its base robot and its world's objects. */
  datatype Bot = Bot(x: int, y: int, facing: Facing, collected: int, visited: set<Cell>, objects: Objects)

  function Pos(b: Bot): Cell
  {
    (b.x, b.y)
  }

  /** `wall_in_front`: the cell ahead is off the grid, or this cell lists the facing side, or the cell ahead lists the opposite side. */
  function WallInFront(board: Board, b: Bot): (r: bool)
    ensures r <==> StepVerdict(board, Pos(b), b.facing) != Clear
  {
    var next := Ahead(Pos(b), b.facing);
    var side := SideOf(b.facing);
    !OnBoard(board, next) || side in WallsAt(board.walls, Pos(b)) || Opposite(side) in WallsAt(board.walls, next)
  }

  /** `front_is_clear`: true exactly when a one-step `move` would take its step. */
  function FrontIsClear(board: Board, b: Bot): (r: bool)
    ensures r <==> |Path(board, Pos(b), b.facing, 1)| == 1
  {
    !WallInFront(board, b)
  }

  /** `front_is_visited`: the cell ahead is in the visited set. */
  function FrontIsVisited(b: Bot): (r: bool)
    ensures b.visited <= {Pos(b)} ==> !r
  {
    AheadReverse(Pos(b), b.facing);
    Ahead(Pos(b), b.facing) in b.visited
  }

  /** `background_is`: "pale_grass" when the cell has a carrot entry, "grass" when it has none, false for any other name. */
  function BackgroundIs(b: Bot, background: string): (r: bool)
    ensures background == "pale_grass" ==> (r <==> HasCarrot(b.objects, Pos(b)))
    ensures background == "grass" ==> (r <==> !HasCarrot(b.objects, Pos(b)))
    ensures background == "pale_grass" && !r ==> !Pickable(b.objects, Pos(b))
    ensures background == "pale_grass" && r && Stocked(b.objects) ==> Pickable(b.objects, Pos(b))
    ensures background == "grass" && r ==> !Pickable(b.objects, Pos(b)) && !Endless(b.objects, Pos(b))
    ensures background != "pale_grass" && background != "grass" ==> !r
  {
    var hasCarrot := HasCarrot(b.objects, Pos(b));
    if background == "pale_grass" then hasCarrot
    else if background == "grass" then !hasCarrot
    else false
  }

  /** `turn_left`. */
  function TurnedLeft(b: Bot): Bot
  {
    b.(facing := LeftOf(b.facing))
  }

  /** The set of cells of a path. */
  function Trail(p: seq<Cell>): set<Cell>
  {
    set i | 0 <= i < |p| :: p[i]
  }

  /** Entering one more cell adds exactly that cell to the trail. */
  lemma TrailAppend(p: seq<Cell>, c: Cell)
    ensures Trail(p + [c]) == Trail(p) + {c}
  {
    var q := p + [c];
    assert forall i :: 0 <= i < |p| ==> q[i] == p[i];
    assert q[|p|] == c;
  }

  /** `SmartRobot.move(n)`: steps while the front is clear, adding every cell it enters to `visited`. */
  function Forward(board: Board, b: Bot, n: int): (r: Bot)
    ensures r.facing == b.facing && r.collected == b.collected && r.objects == b.objects
    ensures b.visited <= r.visited
    ensures forall c :: c in r.visited - b.visited ==> OnBoard(board, c)
    ensures Pos(r) != Pos(b) ==> Pos(r) in r.visited && OnBoard(board, Pos(r))
    ensures n == 1 && FrontIsClear(board, b) ==>
              Pos(r) == Ahead(Pos(b), b.facing) && r.visited == b.visited + {Ahead(Pos(b), b.facing)}
    ensures !FrontIsClear(board, b) ==> r == b
  {
    var p := Path(board, Pos(b), b.facing, n);
    PathShape(board, Pos(b), b.facing, n);
    var e := EndOf(Pos(b), p);
    assert p != [] ==> e in Trail(p);
    b.(x := e.0, y := e.1, visited := b.visited + Trail(p))
  }

  /** `move_backward()`: two left turns, a one-step move, two left turns. */
  function Backward(board: Board, b: Bot): (r: Bot)
    ensures r.facing == b.facing && r.collected == b.collected && r.objects == b.objects
    ensures StepVerdict(board, Pos(b), Reverse(b.facing)) == Clear ==>
              Pos(r) == Ahead(Pos(b), Reverse(b.facing)) && r.visited == b.visited + {Pos(r)}
    ensures StepVerdict(board, Pos(b), Reverse(b.facing)) != Clear ==> r == b
  {
    ReverseIsTwoLefts(b.facing);
    FourLeftsIdentity(b.facing);
    TurnedLeft(TurnedLeft(Forward(board, TurnedLeft(TurnedLeft(b)), 1)))
  }

  /** `move_backward(speedup=True)`: a half turn, then a jump to the cell ahead, with no wall or boundary check. */
  function SpeedBackward(b: Bot): (r: Bot)
    ensures r.facing == LeftOf(LeftOf(b.facing)) && Ahead(Pos(r), Reverse(r.facing)) == Pos(b)
    ensures r.collected == b.collected && r.visited == b.visited && r.objects == b.objects
  {
    ReverseIsTwoLefts(b.facing);
    AheadReverse(Pos(b), Reverse(b.facing));
    var f := Reverse(b.facing);
    var next := Ahead(Pos(b), f);
    b.(facing := f, x := next.0, y := next.1)
  }

  /** Two fast backward moves in a row bring the robot back to its cell and heading. */
  lemma SpeedBackwardTwice(b: Bot)
    ensures SpeedBackward(SpeedBackward(b)) == b
  {
    var r := SpeedBackward(b);
    ReverseIsTwoLefts(r.facing);
    FourLeftsIdentity(b.facing);
    assert Pos(SpeedBackward(r)) == Ahead(Pos(r), Reverse(r.facing));
  }

  /** A step forward and a step backward bring the robot back to its cell and heading. */
  lemma ForwardBackwardRoundTrip(board: Board, b: Bot)
    requires OnBoard(board, Pos(b)) && FrontIsClear(board, b)
    ensures Pos(Backward(board, Forward(board, b, 1))) == Pos(b)
    ensures Backward(board, Forward(board, b, 1)).facing == b.facing
    ensures Backward(board, Forward(board, b, 1)).visited == b.visited + {Ahead(Pos(b), b.facing), Pos(b)}
  {
    var moved := Forward(board, b, 1);
    WallRuleSymmetric(board, Pos(b), b.facing);
    AheadReverse(Pos(b), b.facing);
    assert StepVerdict(board, Pos(moved), Reverse(b.facing)) == Clear;
  }

  /** Back from a step through a clear front, the robot finds the cell ahead visited, so a walk does not enter it twice. */
  lemma ReturnFindsFrontVisited(board: Board, b: Bot)
    requires OnBoard(board, Pos(b)) && FrontIsClear(board, b)
    ensures FrontIsVisited(Backward(board, Forward(board, b, 1)))
  {
    ForwardBackwardRoundTrip(board, b);
  }

  /** Unlike the animated backward move, the fast one walks through a boundary and leaves the robot facing backward. */
  lemma SpeedBackwardIgnoresBoundary()
    ensures var board := Board(1, 1, map[]);
            var b := Bot(0, 0, E, 0, {(0, 0)}, map[]);
            Backward(board, b) == b && Pos(SpeedBackward(b)) == (-1, 0) && SpeedBackward(b).facing == W
  {
    var board := Board(1, 1, map[]);
    var b := Bot(0, 0, E, 0, {(0, 0)}, map[]);
    assert Reverse(E) == W;
    assert !OnBoard(board, Ahead((0, 0), W));
    assert StepVerdict(board, Pos(b), Reverse(b.facing)) == OffGrid;
  }

  /** `pick_carrot`: nothing at capacity or when the count is not a positive integer; else one carrot moves to the robot. */
  function Picked(cap: int, b: Bot): (r: Bot)
    ensures b.collected <= cap ==> r.collected <= cap
    ensures r.collected == b.collected + 1 <==> b.collected < cap && Pickable(b.objects, Pos(b))
    ensures r.collected != b.collected + 1 ==> r == b
    ensures r.collected == b.collected + 1 ==>
              Pos(r) == Pos(b) && r.facing == b.facing && r.visited == b.visited &&
              CountAt(r.objects, Key(Pos(b))) + 1 == CountAt(b.objects, Key(Pos(b)))
  {
    if b.collected >= cap then b
    else if Pickable(b.objects, Pos(b)) then b.(objects := PickAt(b.objects, Pos(b)), collected := b.collected + 1)
    else b
  }

  /** A pick moves carrots from the world to the robot: their total does not change. */
  lemma PickConservesCarrots(cap: int, b: Bot)
    ensures Picked(cap, b).collected + Stock(Picked(cap, b).objects) == b.collected + Stock(b.objects)
  {
    if b.collected < cap && Pickable(b.objects, Pos(b)) {
      StockAfterPick(b.objects, Pos(b));
    }
  }

  /** How `put_carrot` ends: a carrot placed, nothing carried, or the TypeError of adding 1 to "infinite". */
  datatype PutStatus = Placed | NothingCarried | NotANumber

  datatype PutResult = PutResult(bot: Bot, status: PutStatus)

  /**
   * `put_carrot`: nothing when no carrot is carried, nor on an "infinite"
   * count; else the cell's count rises by one (an absent entry counting as
   * zero), the robot's load falls by one, and nothing else changes.
   */
  function Put(b: Bot): (r: PutResult)
    ensures r.status == NothingCarried <==> b.collected <= 0
    ensures r.status == Placed <==> b.collected > 0 && !Endless(b.objects, Pos(b))
    ensures r.status != Placed ==> r.bot == b
    ensures r.status == Placed ==> r.bot.collected == b.collected - 1 && HasCarrot(r.bot.objects, Pos(b))
    ensures r.status == Placed ==>
              Pos(r.bot) == Pos(b) && r.bot.facing == b.facing && r.bot.visited == b.visited &&
              r.bot.objects.Keys == b.objects.Keys + {Key(Pos(b))} &&
              r.bot.objects[Key(Pos(b))][Carrot] ==
                Finite(if HasCarrot(b.objects, Pos(b)) then b.objects[Key(Pos(b))][Carrot].n + 1 else 1)
    ensures r.status == Placed ==> forall k :: k in b.objects && k != Key(Pos(b)) ==> r.bot.objects[k] == b.objects[k]
    ensures r.status == Placed ==>
              forall n :: n in CellAt(b.objects, Pos(b)) && n != Carrot ==>
                n in r.bot.objects[Key(Pos(b))] && r.bot.objects[Key(Pos(b))][n] == CellAt(b.objects, Pos(b))[n]
    ensures r.status == Placed && Stocked(b.objects) ==>
              Stocked(r.bot.objects) && CountAt(r.bot.objects, Key(Pos(b))) == CountAt(b.objects, Key(Pos(b))) + 1
  {
    if b.collected <= 0 then PutResult(b, NothingCarried)
    else if Endless(b.objects, Pos(b)) then PutResult(b, NotANumber)
    else PutResult(b.(objects := PutAt(b.objects, Pos(b)), collected := b.collected - 1), Placed)
  }

  /** A successful pick followed by a put at the same cell restores both counts. */
  lemma PickThenPutRestores(cap: int, b: Bot)
    requires 0 <= b.collected < cap && Pickable(b.objects, Pos(b))
    ensures Put(Picked(cap, b)) == PutResult(b, Placed)
  {
    PutUndoesPick(b.objects, Pos(b));
  }

  /** `background_is("grass")` is the negation of `background_is("pale_grass")`. */
  lemma GrassIsNotPaleGrass(b: Bot)
    ensures BackgroundIs(b, "grass") == !BackgroundIs(b, "pale_grass")
  {
  }
}
