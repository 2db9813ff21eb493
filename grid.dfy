/**
 * The grid and the wall rule of the wall-aware robots (brython_robot2 and
 * brython_robot3): a step is refused when it leaves the grid, when the cell it
 * leaves declares a wall on the side it crosses, or when the cell it enters
 * declares a wall on the opposite side.
 */
module Grid {
  import opened Compass

  /** Walls, keyed by 1-indexed cell as in a scene (`"x,y"`), each a list of sides. */
  type Walls = map<Cell, seq<Side>>

  /** The part of a world that never changes after it is built. */
  datatype Board = Board(width: int, height: int, walls: Walls)

  /** The 1-indexed scene key of a 0-indexed robot cell (`f"{x + 1},{y + 1}"`). */
  function Key(c: Cell): Cell
  {
    (c.0 + 1, c.1 + 1)
  }

  /** `0 <= x < width and 0 <= y < height`. */
  predicate InBounds(width: int, height: int, c: Cell)
  {
    0 <= c.0 < width && 0 <= c.1 < height
  }

  predicate OnBoard(b: Board, c: Cell)
  {
    InBounds(b.width, b.height, c)
  }

  /** The wall list of a 0-indexed cell, empty when the scene lists none (`walls.get(coord, [])`). */
  function WallsAt(walls: Walls, c: Cell): seq<Side>
  {
    if Key(c) in walls then walls[Key(c)] else []
  }

  /** How a single forward step ends. */
  datatype Verdict = Clear | OffGrid | WallHere | WallAhead

  /** One step of `move`: boundary first, then the side of the current cell, then the opposite side of the target. */
  function StepVerdict(b: Board, c: Cell, f: Facing): Verdict
  {
    var next := Ahead(c, f);
    if !OnBoard(b, next) then OffGrid
    else if SideOf(f) in WallsAt(b.walls, c) then WallHere
    else if Opposite(SideOf(f)) in WallsAt(b.walls, next) then WallAhead
    else Clear
  }

  /**
   * Each verdict and the one condition that gives it: a step off the grid is
   * refused whatever the walls say, a wall of the cell left is checked before
   * the opposite wall of the cell entered, and a step is clear only when none
   * of the three applies.
   */
  lemma StepVerdictCases(b: Board, c: Cell, f: Facing)
    ensures var r := StepVerdict(b, c, f);
            (r == OffGrid <==> !OnBoard(b, Ahead(c, f))) &&
            (r == WallHere <==> OnBoard(b, Ahead(c, f)) && SideOf(f) in WallsAt(b.walls, c)) &&
            (r == WallAhead <==> OnBoard(b, Ahead(c, f)) && SideOf(f) !in WallsAt(b.walls, c) &&
                                 Opposite(SideOf(f)) in WallsAt(b.walls, Ahead(c, f))) &&
            (r == Clear <==> OnBoard(b, Ahead(c, f)) && SideOf(f) !in WallsAt(b.walls, c) &&
                             Opposite(SideOf(f)) !in WallsAt(b.walls, Ahead(c, f)))
  {
  }

  /** A wall declared on either of two neighbouring cells blocks the step between them in both directions. */
  lemma WallRuleSymmetric(b: Board, c: Cell, f: Facing)
    requires OnBoard(b, c)
    ensures OnBoard(b, Ahead(c, f)) ==>
              (StepVerdict(b, c, f) == Clear <==> StepVerdict(b, Ahead(c, f), Reverse(f)) == Clear)
  {
    AheadReverse(c, f);
    SideOfReverse(f);
  }

  /** Where a robot ends after entering the cells `p` one by one from `c`. */
  function EndOf(c: Cell, p: seq<Cell>): Cell
  {
    if p == [] then c else p[|p| - 1]
  }

  /** Each cell of `p` is the neighbour in heading `f` of the one before it, the first one of `c`. */
  predicate StraightLine(c: Cell, p: seq<Cell>, f: Facing)
  {
    forall i :: 0 <= i < |p| ==> p[i] == Ahead(if i == 0 then c else p[i - 1], f)
  }

  /**
   * The cells entered by `move(n)` from `c` facing `f`: the loop takes at most
   * `n` steps, each to the next cell in heading `f`, and ends at the first step
   * the wall rule refuses.
   */
  function Path(b: Board, c: Cell, f: Facing, n: int): (p: seq<Cell>)
    decreases n
    ensures |p| <= if n < 0 then 0 else n
    ensures |p| < n ==> StepVerdict(b, EndOf(c, p), f) != Clear
  {
    if n <= 0 || StepVerdict(b, c, f) != Clear then []
    else [Ahead(c, f)] + Path(b, Ahead(c, f), f, n - 1)
  }

  /** Every cell a move enters lies on the grid, next to the one before it in the move's heading. */
  lemma {:induction false} PathShape(b: Board, c: Cell, f: Facing, n: int)
    ensures StraightLine(c, Path(b, c, f, n), f)
    ensures forall i :: 0 <= i < |Path(b, c, f, n)| ==> OnBoard(b, Path(b, c, f, n)[i])
    decreases n
  {
    if n > 0 && StepVerdict(b, c, f) == Clear {
      var a := Ahead(c, f);
      var rest := Path(b, a, f, n - 1);
      var p := Path(b, c, f, n);
      PathShape(b, a, f, n - 1);
      assert p == [a] + rest;
      forall i | 0 <= i < |p|
        ensures p[i] == Ahead(if i == 0 then c else p[i - 1], f) && OnBoard(b, p[i])
      {
        if i > 0 {
          assert p[i] == rest[i - 1];
          assert p[i - 1] == if i == 1 then a else rest[i - 2];
        }
      }
    }
  }

  /** A move that enters `k` cells ends `k` steps away from where it started. */
  lemma {:induction false} PathEnd(b: Board, c: Cell, f: Facing, n: int)
    ensures EndOf(c, Path(b, c, f, n)) == (c.0 + |Path(b, c, f, n)| * DX(f), c.1 + |Path(b, c, f, n)| * DY(f))
    decreases n
  {
    if n > 0 && StepVerdict(b, c, f) == Clear {
      var a := Ahead(c, f);
      var rest := Path(b, a, f, n - 1);
      var k := |rest|;
      PathEnd(b, a, f, n - 1);
      assert Path(b, c, f, n) == [a] + rest;
      assert EndOf(c, [a] + rest) == EndOf(a, rest);
      Shift(k, DX(f));
      Shift(k, DY(f));
    }
  }

  lemma Shift(k: int, d: int)
    ensures (k + 1) * d == k * d + d
  {
  }

  /** Once a step is refused, a longer move enters no further cell. */
  lemma {:induction false} PathBlocked(b: Board, c: Cell, f: Facing, i: nat, n: int)
    requires |Path(b, c, f, i)| == i && i <= n
    requires StepVerdict(b, EndOf(c, Path(b, c, f, i)), f) != Clear
    ensures Path(b, c, f, n) == Path(b, c, f, i)
    decreases i
  {
    if i > 0 {
      var a := Ahead(c, f);
      var rest := Path(b, a, f, i - 1);
      assert StepVerdict(b, c, f) == Clear;
      assert Path(b, c, f, i) == [a] + rest;
      assert EndOf(c, [a] + rest) == EndOf(a, rest);
      PathBlocked(b, a, f, i - 1, n - 1);
    }
  }

  /** A move that enters `i` cells and then one more is a move of `i + 1` steps. */
  lemma {:induction false} PathExtend(b: Board, c: Cell, f: Facing, i: nat)
    requires |Path(b, c, f, i)| == i
    requires StepVerdict(b, EndOf(c, Path(b, c, f, i)), f) == Clear
    ensures Path(b, c, f, i + 1) == Path(b, c, f, i) + [Ahead(EndOf(c, Path(b, c, f, i)), f)]
    decreases i
  {
    if i > 0 {
      var a := Ahead(c, f);
      var rest := Path(b, a, f, i - 1);
      assert StepVerdict(b, c, f) == Clear;
      assert Path(b, c, f, i) == [a] + rest;
      assert EndOf(c, [a] + rest) == EndOf(a, rest);
      var last := [Ahead(EndOf(a, rest), f)];
      PathExtend(b, a, f, i - 1);
      assert Path(b, c, f, i + 1) == [a] + (rest + last);
      assert [a] + (rest + last) == ([a] + rest) + last;
    } else {
      assert Path(b, c, f, 1) == [Ahead(c, f)] + Path(b, Ahead(c, f), f, 0);
    }
  }

  /** A one-step move succeeds exactly when the wall rule lets the step through. */
  lemma OneStep(b: Board, c: Cell, f: Facing)
    ensures |Path(b, c, f, 1)| == 1 <==> StepVerdict(b, c, f) == Clear
    ensures StepVerdict(b, c, f) == Clear ==> Path(b, c, f, 1) == [Ahead(c, f)]
  {
  }

  /** How many cells lie between `c` and the edge of the grid in heading `f`. */
  function Room(b: Board, c: Cell, f: Facing): int
  {
    match f
    case E => b.width - 1 - c.0
    case W => c.0
    case N => b.height - 1 - c.1
    case S => c.1
  }

  /** The length of the grid along heading `f`. */
  function Span(b: Board, f: Facing): int
  {
    match f
    case E => b.width
    case W => b.width
    case N => b.height
    case S => b.height
  }

  /** A move never enters more cells than lie between the robot and the edge, nor more than the grid is long. */
  lemma {:induction false} PathRoom(b: Board, c: Cell, f: Facing, n: int)
    ensures Path(b, c, f, n) != [] ==> |Path(b, c, f, n)| <= Room(b, c, f) <= Span(b, f)
    ensures OnBoard(b, c) ==> 0 <= Room(b, c, f) < Span(b, f)
    decreases n
  {
    if n > 0 && StepVerdict(b, c, f) == Clear {
      PathRoom(b, Ahead(c, f), f, n - 1);
    }
  }

  /** Once a move stops short of its count, any larger count enters the same cells. */
  lemma {:induction false} PathSaturates(b: Board, c: Cell, f: Facing, m: int, n: int)
    requires |Path(b, c, f, m)| < m <= n
    ensures Path(b, c, f, n) == Path(b, c, f, m)
    decreases m
  {
    if StepVerdict(b, c, f) == Clear {
      PathSaturates(b, Ahead(c, f), f, m - 1, n - 1);
    }
  }

  /** With no walls, a move from a cell of the grid goes exactly as far as it is told or as the edge allows. */
  lemma {:induction false} OpenWalkToEdge(w: int, h: int, c: Cell, f: Facing, n: int)
    requires InBounds(w, h, c)
    ensures var room := Room(Board(w, h, map[]), c, f);
            |Path(Board(w, h, map[]), c, f, n)| == if n <= 0 then 0 else if n < room then n else room
    decreases n
  {
    var b := Board(w, h, map[]);
    if n > 0 && StepVerdict(b, c, f) == Clear {
      OpenWalkToEdge(w, h, Ahead(c, f), f, n - 1);
    }
  }
}
