/**
 * The explorer of brython_robot3's `robot_actions`: a depth-first walk that
 * empties every cell of carrots, tries the four headings in turn, enters
 * each clear and unvisited neighbour and comes back with `move_backward`.
 *
 * As written, the walk keeps one flag for the whole walk. The first call
 * that runs out of headings sets it, and every caller returns as soon as it
 * sees it, before `move_backward`. So the walk ends at the first dead end.
 * `Explore` and `Headings` model that recursion on values, and the lemmas
 * after them show what it does. `ExploreAll` is the walk without the flag,
 * and it is proved to visit and harvest every cell reachable from the start.
 */
module Robot3Explorer {
  import opened Compass
  import opened Grid
  import opened Carrots
  import opened Robot3Rules
  import opened Robot3

  /** The cells of the grid. */
  function Cells(board: Board): (r: set<Cell>)
    ensures forall c :: c in r <==> OnBoard(board, c)
  {
    set x, y | 0 <= x < board.width && 0 <= y < board.height :: (x, y)
  }

  /**
   * `after` is `before` with, at most, the "carrot" entries of the cells of
   * `changed` taken out: no key added or removed, nothing else touched.
   */
  ghost predicate OnlyPicked(before: Objects, after: Objects, changed: set<Cell>)
  {
    after.Keys == before.Keys &&
    forall c :: Key(c) in before ==>
      after[Key(c)] - {Carrot} == before[Key(c)] - {Carrot} && (c !in changed ==> after[Key(c)] == before[Key(c)])
  }

  /**
   * The pick loop on the robot's cell comes to an end: the cell has no
   * carrot entry, or its count is a positive integer that fits in the room
   * the robot has left.
   */
  predicate HarvestEnds(cap: int, b: Bot)
  {
    HasCarrot(b.objects, Pos(b)) ==> Pickable(b.objects, Pos(b)) && b.collected + CountAt(b.objects, Key(Pos(b))) <= cap
  }

  /** `while robot.background_is("pale_grass"): robot.pick_carrot()`: every carrot of the cell moves to the robot. */
  function Harvest(cap: int, b: Bot): (r: Bot)
    requires HarvestEnds(cap, b)
    decreases CountAt(b.objects, Key(Pos(b)))
    ensures !HasCarrot(r.objects, Pos(r))
    ensures Pos(r) == Pos(b) && r.facing == b.facing && r.visited == b.visited
    ensures r.collected == b.collected + CountAt(b.objects, Key(Pos(b)))
    ensures r.objects.Keys == b.objects.Keys
    ensures forall k :: k in b.objects && k != Key(Pos(b)) ==> r.objects[k] == b.objects[k]
    ensures Key(Pos(b)) in b.objects ==> r.objects[Key(Pos(b))] == b.objects[Key(Pos(b))] - {Carrot}
  {
    if BackgroundIs(b, "pale_grass") then Harvest(cap, Picked(cap, b)) else b
  }

  /**
   * When the pick loop does not end, each pick leaves the cell pale and the
   * loop's condition unmet: a count that is not a positive integer is never
   * picked, and a count beyond the robot's room leaves carrots once it is full.
   */
  lemma HarvestNeverEnds(cap: int, b: Bot)
    requires !HarvestEnds(cap, b)
    ensures BackgroundIs(b, "pale_grass")
    ensures BackgroundIs(Picked(cap, b), "pale_grass") && !HarvestEnds(cap, Picked(cap, b))
  {
  }

  /** `region` holds every neighbour each of its cells can step to. */
  ghost predicate Closed(board: Board, region: set<Cell>)
  {
    Explored(board, region, region)
  }

  /**
   * The robot stands in a closed region whose every carrot entry is a
   * positive integer and whose carrots all fit in the robot.
   */
  ghost predicate Supplied(board: Board, cap: int, region: set<Cell>, b: Bot)
  {
    Pos(b) in region && Closed(board, region) && StockedIn(b.objects, region) &&
    b.collected + StockIn(b.objects, region) <= cap
  }

  /** Harvesting inside a supplied region ends, empties only the robot's cell, and moves its carrots to the robot. */
  lemma SuppliedHarvest(board: Board, cap: int, region: set<Cell>, b: Bot)
    requires Supplied(board, cap, region, b)
    ensures HarvestEnds(cap, b)
    ensures var h := Harvest(cap, b);
            Supplied(board, cap, region, h) && OnlyPicked(b.objects, h.objects, {Pos(b)}) &&
            h.collected + StockIn(h.objects, region) == b.collected + StockIn(b.objects, region) &&
            h.collected + Stock(h.objects) == b.collected + Stock(b.objects)
  {
    CountBelowStockIn(b.objects, Pos(b), region);
    HarvestTotals(cap, region, b);
    HarvestKeepsStockedIn(cap, region, b);
  }

  /** A harvest that ends empties only the robot's cell and moves exactly its carrots to the robot. */
  lemma HarvestTotals(cap: int, region: set<Cell>, b: Bot)
    requires HarvestEnds(cap, b) && Pos(b) in region
    ensures var h := Harvest(cap, b);
            OnlyPicked(b.objects, h.objects, {Pos(b)}) &&
            h.collected + StockIn(h.objects, region) == b.collected + StockIn(b.objects, region) &&
            h.collected + Stock(h.objects) == b.collected + Stock(b.objects)
  {
    var k := Key(Pos(b));
    var h := Harvest(cap, b);
    HarvestEmpties(cap, b);
    assert k in KeysOf(region);
    SumCountsEmptied(b.objects, h.objects, k, KeysOf(region));
    SumCountsEmptied(b.objects, h.objects, k, b.objects.Keys);
  }

  /** A harvest that ends leaves no carrot to pick in the robot's cell and every other count as it was. */
  lemma HarvestEmpties(cap: int, b: Bot)
    requires HarvestEnds(cap, b)
    ensures var h := Harvest(cap, b);
            CountAt(h.objects, Key(Pos(b))) == 0 && OnlyPicked(b.objects, h.objects, {Pos(b)}) &&
            forall j :: j != Key(Pos(b)) ==> CountAt(b.objects, j) == CountAt(h.objects, j)
  {
  }

  /** A harvest that ends leaves every carrot entry of a region a positive integer when they all were. */
  lemma HarvestKeepsStockedIn(cap: int, region: set<Cell>, b: Bot)
    requires HarvestEnds(cap, b) && StockedIn(b.objects, region)
    ensures StockedIn(Harvest(cap, b).objects, region)
  {
  }

  /** The end of a call of the as-written explorer: the robot, and the shared `exploration_done` flag. */
  datatype Run = Run(bot: Bot, done: bool)

  /** The as-written `explore_and_collect()`: harvest, mark the cell visited, then try the four headings. */
  function Explore(board: Board, cap: int, ghost region: set<Cell>, b: Bot): (r: Run)
    requires Supplied(board, cap, region, b)
    decreases Cells(board) - b.visited, 1
    ensures b.visited <= r.bot.visited && r.bot.visited - b.visited <= Cells(board) + {Pos(b)}
    ensures r.bot.visited - b.visited <= region && Supplied(board, cap, region, r.bot)
    ensures r.bot.collected + StockIn(r.bot.objects, region) == b.collected + StockIn(b.objects, region)
    ensures r.bot.collected + Stock(r.bot.objects) == b.collected + Stock(b.objects)
  {
    SuppliedHarvest(board, cap, region, b);
    var h := Harvest(cap, b);
    Headings(board, cap, region, h.(visited := h.visited + {Pos(h)}), 4)
  }

  /** The as-written loop over the `k` headings left, returning at once when a recursive call reports the flag set. */
  function Headings(board: Board, cap: int, ghost region: set<Cell>, b: Bot, k: nat): (r: Run)
    requires Supplied(board, cap, region, b)
    decreases Cells(board) - b.visited, 0, k
    ensures b.visited <= r.bot.visited && r.bot.visited - b.visited <= Cells(board)
    ensures r.bot.visited - b.visited <= region && Supplied(board, cap, region, r.bot)
    ensures r.bot.collected + StockIn(r.bot.objects, region) == b.collected + StockIn(b.objects, region)
    ensures r.bot.collected + Stock(r.bot.objects) == b.collected + Stock(b.objects)
  {
    if k == 0 then Run(b, true)
    else if FrontIsClear(board, b) && !FrontIsVisited(b) then
      var moved := Forward(board, b, 1);
      var sub := Explore(board, cap, region, moved);
      if sub.done then sub
      else Headings(board, cap, region, TurnedLeft(Backward(board, sub.bot)), k - 1)
    else Headings(board, cap, region, TurnedLeft(b), k - 1)
  }

  /** Every call of the as-written explorer returns with the flag set, so its `move_backward` is never reached. */
  lemma {:induction false} ExploreAlwaysDone(board: Board, cap: int, region: set<Cell>, b: Bot)
    requires Supplied(board, cap, region, b)
    ensures Explore(board, cap, region, b).done
    decreases Cells(board) - b.visited, 1
  {
    SuppliedHarvest(board, cap, region, b);
    var h := Harvest(cap, b);
    HeadingsAlwaysDone(board, cap, region, h.(visited := h.visited + {Pos(h)}), 4);
  }

  lemma {:induction false} HeadingsAlwaysDone(board: Board, cap: int, region: set<Cell>, b: Bot, k: nat)
    requires Supplied(board, cap, region, b)
    ensures Headings(board, cap, region, b, k).done
    decreases Cells(board) - b.visited, 0, k
  {
    if k > 0 {
      if FrontIsClear(board, b) && !FrontIsVisited(b) {
        ExploreAlwaysDone(board, cap, region, Forward(board, b, 1));
      } else {
        HeadingsAlwaysDone(board, cap, region, TurnedLeft(b), k - 1);
      }
    }
  }

  /** `Reaches(board, c, moves, d)`: the steps `moves`, each one the wall rule lets through, lead from `c` to `d`. */
  ghost predicate Reaches(board: Board, c: Cell, moves: seq<Facing>, d: Cell)
    decreases |moves|
  {
    if moves == [] then d == c
    else StepVerdict(board, c, moves[0]) == Clear && Reaches(board, Ahead(c, moves[0]), moves[1..], d)
  }

  /** Every cell of `region` has each neighbour it can step to in `visited`. */
  ghost predicate Explored(board: Board, visited: set<Cell>, region: set<Cell>)
  {
    forall c, f :: c in region && StepVerdict(board, c, f) == Clear ==> Ahead(c, f) in visited
  }

  /** No cell of `region` has a carrot entry. */
  ghost predicate Harvested(objs: Objects, region: set<Cell>)
  {
    forall c :: c in region ==> !HasCarrot(objs, c)
  }

  /** A set of cells that holds every neighbour each of its cells can step to holds every cell reachable from it. */
  lemma {:induction false} ExploredHoldsReachable(board: Board, visited: set<Cell>, c: Cell, moves: seq<Facing>, d: Cell)
    requires Explored(board, visited, visited) && c in visited
    requires Reaches(board, c, moves, d)
    ensures d in visited
    decreases |moves|
  {
    if moves != [] {
      ExploredHoldsReachable(board, visited, Ahead(c, moves[0]), moves[1..], d);
    }
  }

  /** The cells the wall rule lets the robot reach from `c`, `c` among them. */
  ghost function Reachable(board: Board, c: Cell): set<Cell>
  {
    set d | d in Cells(board) + {c} && exists moves :: Reaches(board, c, moves, d)
  }

  /** One more clear step extends a route. */
  lemma {:induction false} ReachesAppend(board: Board, c: Cell, moves: seq<Facing>, d: Cell, f: Facing)
    requires Reaches(board, c, moves, d) && StepVerdict(board, d, f) == Clear
    ensures Reaches(board, c, moves + [f], Ahead(d, f))
    decreases |moves|
  {
    if moves == [] {
      assert [f][1..] == [];
      assert Reaches(board, Ahead(d, f), [], Ahead(d, f));
    } else {
      ReachesAppend(board, Ahead(c, moves[0]), moves[1..], d, f);
      assert (moves + [f])[1..] == moves[1..] + [f];
    }
  }

  /** The cells reachable from `c` hold `c` and every neighbour each of them can step to. */
  lemma ReachableClosed(board: Board, c: Cell)
    ensures c in Reachable(board, c) && Closed(board, Reachable(board, c))
  {
    assert Reaches(board, c, [], c);
    forall d, f | d in Reachable(board, c) && StepVerdict(board, d, f) == Clear
      ensures Ahead(d, f) in Reachable(board, c)
    {
      var moves :| Reaches(board, c, moves, d);
      ReachesAppend(board, c, moves, d, f);
    }
  }

  /** A grid whose world holds no object is a supplied region for a robot standing on it. */
  lemma BareGridSupplied(board: Board, cap: int, b: Bot)
    requires b.objects == map[] && OnBoard(board, Pos(b)) && b.collected <= cap
    ensures Supplied(board, cap, Cells(board), b)
  {
    NoStock(b.objects, KeysOf(Cells(board)));
  }

  /** The east end of a three-cell corridor, entered from the middle: every heading is blocked or visited. */
  lemma CorridorEastEnd()
    ensures var board := Board(3, 1, map[]);
            var b := Bot(2, 0, E, 0, {(1, 0), (2, 0)}, map[]);
            Supplied(board, 50, Cells(board), b) && Explore(board, 50, Cells(board), b) == Run(b, true)
  {
    var board := Board(3, 1, map[]);
    var region := Cells(board);
    var moved := Bot(2, 0, E, 0, {(1, 0), (2, 0)}, map[]);
    BareGridSupplied(board, 50, moved);
    assert Harvest(50, moved) == moved;
    assert moved.(visited := moved.visited + {Pos(moved)}) == moved;
    var b1 := TurnedLeft(moved);
    var b2 := TurnedLeft(b1);
    var b3 := TurnedLeft(b2);
    assert b1.facing == N && b2.facing == W && b3.facing == S && TurnedLeft(b3) == moved;
    assert Headings(board, 50, region, b3, 1) == Run(moved, true) by {
      assert StepVerdict(board, (2, 0), S) == OffGrid;
    }
    assert Headings(board, 50, region, b2, 2) == Run(moved, true) by {
      assert FrontIsVisited(b2);
    }
    assert Headings(board, 50, region, b1, 3) == Run(moved, true) by {
      assert StepVerdict(board, (2, 0), N) == OffGrid;
    }
    assert Headings(board, 50, region, moved, 4) == Run(moved, true) by {
      assert StepVerdict(board, (2, 0), E) == OffGrid;
    }
  }

  /** The first move of the walk in a three-cell corridor: from the middle into the east cell. */
  lemma CorridorFirstStep()
    ensures Forward(Board(3, 1, map[]), Bot(1, 0, E, 0, {(1, 0)}, map[]), 1) == Bot(2, 0, E, 0, {(1, 0), (2, 0)}, map[])
  {
    var board := Board(3, 1, map[]);
    assert StepVerdict(board, (1, 0), E) == Clear;
    assert Path(board, (1, 0), E, 1) == [(2, 0)];
    TrailAppend([], (2, 0));
  }

  /** The headings tried from the middle of a three-cell corridor: east is clear and leads to the dead end. */
  lemma CorridorMiddle()
    ensures var board := Board(3, 1, map[]);
            var b := Bot(1, 0, E, 0, {(1, 0)}, map[]);
            Supplied(board, 50, Cells(board), b) &&
            Headings(board, 50, Cells(board), b, 4) == Run(Bot(2, 0, E, 0, {(1, 0), (2, 0)}, map[]), true)
  {
    var board := Board(3, 1, map[]);
    var b := Bot(1, 0, E, 0, {(1, 0)}, map[]);
    BareGridSupplied(board, 50, b);
    CorridorFirstStep();
    CorridorEastEnd();
    assert StepVerdict(board, (1, 0), E) == Clear;
  }

  /**
   * In a corridor of three cells, starting in the middle facing east, the
   * as-written explorer enters the east cell, finds it a dead end and stops
   * there: the west cell, one clear step from the start, is never visited.
   */
  lemma AsWrittenStopsAtFirstDeadEnd()
    ensures var board := Board(3, 1, map[]);
            var b := Bot(1, 0, E, 0, {(1, 0)}, map[]);
            Supplied(board, 50, Cells(board), b) &&
            var r := Explore(board, 50, Cells(board), b);
            r.done && Pos(r.bot) == (2, 0) && r.bot.visited == {(1, 0), (2, 0)} &&
            Reaches(board, (1, 0), [W], (0, 0))
  {
    CorridorStart();
    assert StepVerdict(Board(3, 1, map[]), (1, 0), W) == Clear;
  }

  /** The whole as-written walk from the middle of a three-cell corridor facing east. */
  lemma CorridorStart()
    ensures var board := Board(3, 1, map[]);
            var b := Bot(1, 0, E, 0, {(1, 0)}, map[]);
            Supplied(board, 50, Cells(board), b) &&
            Explore(board, 50, Cells(board), b) == Run(Bot(2, 0, E, 0, {(1, 0), (2, 0)}, map[]), true)
  {
    var b := Bot(1, 0, E, 0, {(1, 0)}, map[]);
    CorridorMiddle();
    assert Harvest(50, b) == b;
    assert b.(visited := b.visited + {Pos(b)}) == b;
  }

  /** Adding the cells of `more`, each explored against a larger visited set, keeps a region explored. */
  lemma ExploredMerge(board: Board, visited: set<Cell>, visited': set<Cell>, region: set<Cell>, more: set<Cell>)
    requires Explored(board, visited, region) && visited <= visited' && Explored(board, visited', more)
    ensures Explored(board, visited', region + more)
  {
  }

  /** Adding harvested cells keeps a region harvested when only the cells added have been picked meanwhile. */
  lemma HarvestedMerge(objs: Objects, objs': Objects, region: set<Cell>, more: set<Cell>)
    requires Harvested(objs, region) && OnlyPicked(objs, objs', more) && Harvested(objs', more)
    ensures Harvested(objs', region + more)
  {
    forall c | c in region && c !in more
      ensures !HasCarrot(objs', c)
    {
      if Key(c) in objs {
        assert objs'[Key(c)] == objs[Key(c)];
      }
    }
  }

  /** Picking in `changed`, then in `more`, is picking in both. */
  lemma OnlyPickedMerge(o1: Objects, o2: Objects, o3: Objects, changed: set<Cell>, more: set<Cell>)
    requires OnlyPicked(o1, o2, changed) && OnlyPicked(o2, o3, more)
    ensures OnlyPicked(o1, o3, changed + more)
  {
  }

  /** Each of the first `k` left turns from `f0` at `start` that has a clear step leads to a visited cell. */
  ghost predicate Tried(board: Board, start: Cell, f0: Facing, k: nat, visited: set<Cell>)
  {
    forall j :: 0 <= j < k && StepVerdict(board, start, Turned(f0, j)) == Clear ==> Ahead(start, Turned(f0, j)) in visited
  }

  /** Trying one more heading extends `Tried` by one. */
  lemma TriedStep(board: Board, start: Cell, f0: Facing, k: nat, visited: set<Cell>, visited': set<Cell>)
    requires Tried(board, start, f0, k, visited) && visited <= visited'
    requires StepVerdict(board, start, Turned(f0, k)) == Clear ==> Ahead(start, Turned(f0, k)) in visited'
    ensures Tried(board, start, f0, k + 1, visited')
  {
  }

  /** Having tried all four headings, every clear step from `start` leads to a visited cell. */
  lemma TriedAll(board: Board, start: Cell, f0: Facing, visited: set<Cell>)
    requires Tried(board, start, f0, 4, visited)
    ensures forall g :: StepVerdict(board, start, g) == Clear ==> Ahead(start, g) in visited
  {
    forall g | StepVerdict(board, start, g) == Clear
      ensures Ahead(start, g) in visited
    {
      FourTurnsCoverAll(f0, g);
      assert exists j :: 0 <= j < 4 && g == Turned(f0, j);
    }
  }

  /** `while robot.background_is("pale_grass"): robot.pick_carrot()`. */
  method HarvestHere(robot: SmartRobot)
    requires HarvestEnds(robot.maxCarrots, robot.Snapshot())
    modifies robot, robot.world
    ensures robot.Snapshot() == Harvest(robot.maxCarrots, old(robot.Snapshot()))
  {
    ghost var s0 := robot.Snapshot();
    var pale := robot.BackgroundIsNow("pale_grass");
    while pale
      invariant HarvestEnds(robot.maxCarrots, robot.Snapshot())
      invariant Harvest(robot.maxCarrots, robot.Snapshot()) == Harvest(robot.maxCarrots, s0)
      invariant pale == HasCarrot(robot.world.objects, (robot.base.x, robot.base.y))
      decreases CountAt(robot.world.objects, Key((robot.base.x, robot.base.y)))
    {
      robot.PickCarrot();
      pale := robot.BackgroundIsNow("pale_grass");
    }
  }

  /** What one turn of the heading loop leaves behind, from snapshot `b` to snapshot `r`, inside `region`. */
  ghost predicate HeadingTried(board: Board, region: set<Cell>, b: Bot, r: Bot)
  {
    Pos(r) == Pos(b) && r.facing == b.facing &&
    b.visited <= r.visited && r.visited - b.visited <= Cells(board) && r.visited - b.visited <= region &&
    StockedIn(r.objects, region) &&
    r.collected + StockIn(r.objects, region) == b.collected + StockIn(b.objects, region) &&
    r.collected + Stock(r.objects) == b.collected + Stock(b.objects) &&
    OnlyPicked(b.objects, r.objects, r.visited - b.visited) &&
    Explored(board, r.visited, r.visited - b.visited) && Harvested(r.objects, r.visited - b.visited) &&
    (StepVerdict(board, Pos(r), r.facing) == Clear ==> Ahead(Pos(r), r.facing) in r.visited)
  }

  /**
   * What a walk from `b` inside `region` leaves behind in `r`: the robot back
   * on its cell and heading; its cell and every cell newly visited lie in the
   * region, are harvested and have every neighbour they can step to visited;
   * only those cells lost carrots, and every carrot lost went to the robot.
   */
  ghost predicate Explores(board: Board, region: set<Cell>, b: Bot, r: Bot)
  {
    Pos(r) == Pos(b) && r.facing == b.facing &&
    b.visited + {Pos(b)} <= r.visited && r.visited - b.visited <= Cells(board) && r.visited - b.visited <= region &&
    StockedIn(r.objects, region) &&
    r.collected + StockIn(r.objects, region) == b.collected + StockIn(b.objects, region) &&
    r.collected + Stock(r.objects) == b.collected + Stock(b.objects) &&
    OnlyPicked(b.objects, r.objects, r.visited - b.visited + {Pos(b)}) &&
    Explored(board, r.visited, r.visited - b.visited + {Pos(b)}) &&
    Harvested(r.objects, r.visited - b.visited + {Pos(b)})
  }

  /** Stepping into an unvisited neighbour, walking from there and stepping back is one tried heading. */
  lemma EnterAndReturn(board: Board, region: set<Cell>, b: Bot, b1: Bot, b2: Bot, b3: Bot)
    requires OnBoard(board, Pos(b)) && Pos(b) in b.visited && Pos(b) in region && Closed(board, region)
    requires StepVerdict(board, Pos(b), b.facing) == Clear && Ahead(Pos(b), b.facing) !in b.visited
    requires b1 == Forward(board, b, 1) && Explores(board, region, b1, b2) && b3 == Backward(board, b2)
    ensures HeadingTried(board, region, b, b3)
  {
    var next := Ahead(Pos(b), b.facing);
    OneStep(board, Pos(b), b.facing);
    assert Pos(b1) == next && b1.visited == b.visited + {next};
    WallRuleSymmetric(board, Pos(b), b.facing);
    AheadReverse(Pos(b), b.facing);
    assert Pos(b3) == Pos(b) && b3.visited == b2.visited + {Pos(b)};
    assert b3.visited - b.visited == b2.visited - b1.visited + {next};
  }

  /** A heading whose front is blocked or already visited is tried without moving. */
  lemma SkipHeading(board: Board, region: set<Cell>, b: Bot)
    requires StockedIn(b.objects, region)
    requires StepVerdict(board, Pos(b), b.facing) == Clear ==> Ahead(Pos(b), b.facing) in b.visited
    ensures HeadingTried(board, region, b, b)
  {
  }

  /** The state of the heading loop of a walk inside `region` that started from `b0`, after `k` headings. */
  ghost predicate Progress(board: Board, region: set<Cell>, b0: Bot, k: nat, b: Bot)
  {
    var start := Pos(b0);
    k <= 4 && Pos(b) == start && b.facing == Turned(b0.facing, k) &&
    b0.visited + {start} <= b.visited && b.visited - b0.visited <= Cells(board) + {start} &&
    b.visited - b0.visited <= region &&
    StockedIn(b.objects, region) &&
    b.collected + StockIn(b.objects, region) == b0.collected + StockIn(b0.objects, region) &&
    b.collected + Stock(b.objects) == b0.collected + Stock(b0.objects) &&
    OnlyPicked(b0.objects, b.objects, b.visited - b0.visited + {start}) &&
    Explored(board, b.visited, b.visited - b0.visited - {start}) &&
    Harvested(b.objects, b.visited - b0.visited + {start}) &&
    Tried(board, start, b0.facing, k, b.visited)
  }

  /** Harvesting the start and marking it visited begins the heading loop. */
  lemma ProgressStart(board: Board, cap: int, region: set<Cell>, b0: Bot)
    requires Supplied(board, cap, region, b0)
    ensures HarvestEnds(cap, b0)
    ensures var h := Harvest(cap, b0);
            Progress(board, region, b0, 0, h.(visited := h.visited + {Pos(h)}))
  {
    SuppliedHarvest(board, cap, region, b0);
  }

  /** One more tried heading and a left turn advance the heading loop. */
  lemma ProgressStep(board: Board, region: set<Cell>, b0: Bot, k: nat, b: Bot, r: Bot)
    requires k < 4 && Progress(board, region, b0, k, b) && HeadingTried(board, region, b, r)
    ensures Progress(board, region, b0, k + 1, TurnedLeft(r))
  {
    var start := Pos(b0);
    ExploredMerge(board, b.visited, r.visited, b.visited - b0.visited - {start}, r.visited - b.visited);
    assert r.visited - b0.visited - {start} <= (b.visited - b0.visited - {start}) + (r.visited - b.visited);
    HarvestedMerge(b.objects, r.objects, b.visited - b0.visited + {start}, r.visited - b.visited);
    OnlyPickedMerge(b0.objects, b.objects, r.objects, b.visited - b0.visited + {start}, r.visited - b.visited);
    assert (b.visited - b0.visited + {start}) + (r.visited - b.visited) == r.visited - b0.visited + {start};
    TriedStep(board, start, b0.facing, k, b.visited, r.visited);
  }

  /** After the fourth heading the walk from `b0` is complete. */
  lemma ProgressDone(board: Board, region: set<Cell>, b0: Bot, b: Bot)
    requires OnBoard(board, Pos(b0)) && Progress(board, region, b0, 4, b)
    ensures Explores(board, region, b0, b)
  {
    FourLeftsIdentity(b0.facing);
    TriedAll(board, Pos(b0), b0.facing, b.visited);
  }

  /**
   * One turn of the loop over headings, without the flag: when the front is
   * clear and unvisited, step in, explore from there and step back.
   */
  method TryHeading(robot: SmartRobot, ghost region: set<Cell>)
    requires robot.Valid()
    requires OnBoard(robot.world.Layout(), (robot.base.x, robot.base.y))
    requires (robot.base.x, robot.base.y) in robot.visited
    requires Supplied(robot.world.Layout(), robot.maxCarrots, region, robot.Snapshot())
    modifies robot, robot.base, robot.world
    decreases Cells(robot.world.Layout()) - robot.visited, 0
    ensures HeadingTried(robot.world.Layout(), region, old(robot.Snapshot()), robot.Snapshot())
  {
    ghost var board := robot.world.Layout();
    ghost var b := robot.Snapshot();
    var clear := robot.FrontIsClearNow();
    var seen := false;
    if clear {
      seen := robot.FrontIsVisitedNow();
    }
    if clear && !seen {
      ghost var next := Ahead(Pos(b), b.facing);
      robot.Move(1);
      ghost var b1 := robot.Snapshot();
      assert next in Cells(board) - b.visited && next !in Cells(board) - b1.visited;
      ExploreFrom(robot, region);
      ghost var b2 := robot.Snapshot();
      robot.MoveBackward(false);
      EnterAndReturn(board, region, b, b1, b2, robot.Snapshot());
    } else {
      SkipHeading(board, region, b);
    }
  }

  /** The start of `explore_and_collect()`: empty the cell of carrots and mark it visited. */
  method BeginAt(robot: SmartRobot, ghost region: set<Cell>)
    requires Supplied(robot.world.Layout(), robot.maxCarrots, region, robot.Snapshot())
    modifies robot, robot.world
    ensures Progress(robot.world.Layout(), region, old(robot.Snapshot()), 0, robot.Snapshot())
  {
    ProgressStart(robot.world.Layout(), robot.maxCarrots, region, robot.Snapshot());
    HarvestHere(robot);
    robot.visited := robot.visited + {(robot.base.x, robot.base.y)};
  }

  /** One pass of the loop over headings: try the heading, then `turn_left()`. */
  method NextHeading(robot: SmartRobot, ghost region: set<Cell>, ghost b0: Bot, k: nat)
    requires robot.Valid() && k < 4
    requires OnBoard(robot.world.Layout(), Pos(b0)) && Supplied(robot.world.Layout(), robot.maxCarrots, region, b0)
    requires Progress(robot.world.Layout(), region, b0, k, robot.Snapshot())
    modifies robot, robot.base, robot.world
    decreases Cells(robot.world.Layout()) - robot.visited, 1
    ensures Progress(robot.world.Layout(), region, b0, k + 1, robot.Snapshot())
  {
    ghost var b := robot.Snapshot();
    TryHeading(robot, region);
    ProgressStep(robot.world.Layout(), region, b0, k, b, robot.Snapshot());
    robot.TurnLeft();
  }

  /**
   * `explore_and_collect()` without the flag: harvest, mark the cell visited,
   * and for each of the four headings enter a clear unvisited neighbour,
   * explore it and step back.
   */
  method ExploreFrom(robot: SmartRobot, ghost region: set<Cell>)
    requires robot.Valid()
    requires OnBoard(robot.world.Layout(), (robot.base.x, robot.base.y))
    requires Supplied(robot.world.Layout(), robot.maxCarrots, region, robot.Snapshot())
    modifies robot, robot.base, robot.world
    decreases Cells(robot.world.Layout()) - robot.visited, 2
    ensures Explores(robot.world.Layout(), region, old(robot.Snapshot()), robot.Snapshot())
  {
    ghost var board := robot.world.Layout();
    ghost var b0 := robot.Snapshot();
    BeginAt(robot, region);
    var k := 0;
    while k < 4
      invariant 0 <= k <= 4 && Progress(board, region, b0, k, robot.Snapshot())
    {
      NextHeading(robot, region, b0, k);
      k := k + 1;
    }
    ProgressDone(board, region, b0, robot.Snapshot());
  }

  /**
   * The walk from a freshly built robot, whose only visited cell is its
   * start, when every carrot entry among the cells it can reach is a positive
   * integer and all those carrots fit in the robot. Afterwards the visited
   * cells are exactly the cells reachable from the start, none of them holds
   * a carrot entry, the robot holds every carrot they held, every other cell
   * is as it was, and the robot is back where it began.
   */
  method ExploreAll(robot: SmartRobot)
    requires robot.Valid()
    requires OnBoard(robot.world.Layout(), (robot.base.x, robot.base.y))
    requires robot.visited <= {(robot.base.x, robot.base.y)}
    requires StockedIn(robot.world.objects, Reachable(robot.world.Layout(), (robot.base.x, robot.base.y)))
    requires robot.carrotsCollected + StockIn(robot.world.objects, Reachable(robot.world.Layout(), (robot.base.x, robot.base.y)))
             <= robot.maxCarrots
    modifies robot, robot.base, robot.world
    ensures (robot.base.x, robot.base.y) == old((robot.base.x, robot.base.y)) && robot.base.facing == old(robot.base.facing)
    ensures forall moves, d :: Reaches(robot.world.Layout(), old((robot.base.x, robot.base.y)), moves, d) ==>
              d in robot.visited && !HasCarrot(robot.world.objects, d)
    ensures robot.visited == Reachable(robot.world.Layout(), old((robot.base.x, robot.base.y)))
    ensures OnlyPicked(old(robot.world.objects), robot.world.objects, robot.visited)
    ensures robot.carrotsCollected ==
              old(robot.carrotsCollected + StockIn(robot.world.objects, Reachable(robot.world.Layout(), (robot.base.x, robot.base.y))))
    ensures robot.carrotsCollected + Stock(robot.world.objects) == old(robot.carrotsCollected + Stock(robot.world.objects))
  {
    ghost var board := robot.world.Layout();
    ghost var start := (robot.base.x, robot.base.y);
    ghost var region := Reachable(board, start);
    ReachableClosed(board, start);
    ExploreFrom(robot, region);
    assert robot.visited - old(robot.visited) + {start} == robot.visited;
    assert Explored(board, robot.visited, robot.visited);
    forall moves, d | Reaches(board, start, moves, d)
      ensures d in robot.visited && !HasCarrot(robot.world.objects, d)
    {
      ExploredHoldsReachable(board, robot.visited, start, moves, d);
    }
    forall d | d in region
      ensures d in robot.visited
    {
      var moves :| Reaches(board, start, moves, d);
      ExploredHoldsReachable(board, robot.visited, start, moves, d);
    }
    forall k | k in KeysOf(region)
      ensures CountAt(robot.world.objects, k) == 0
    {
      var d :| d in region && k == Key(d);
    }
    NoStock(robot.world.objects, KeysOf(region));
  }
}
