/**
 * Headings, wall sides and cells shared by every version of the robot.
 * Every robot class keeps `facing_order = ["E", "N", "W", "S"]` and turns
 * left by stepping one place along that list.
 */
module Compass {

  /** The four headings a robot can face. */
  datatype Facing = E | N | W | S

  /** The four sides of a cell a wall can be declared on. */
  datatype Side = North | South | East | West

  /** A cell as a pair of integer coordinates; north increases y. */
  type Cell = (int, int)

  /** The robot's `facing_order` list. */
  const FacingOrder: seq<Facing> := [E, N, W, S]

  /**
   * Position of a heading in `FacingOrder` (`facing_order.index(facing)`).
   * One place further along the list is the heading after a left turn, two
   * places further the heading after a half turn.
   */
  function Index(f: Facing): (i: nat)
    ensures i < 4 && FacingOrder[i] == f
    ensures FacingOrder[(i + 1) % 4] == LeftOf(f) && FacingOrder[(i + 2) % 4] == Reverse(f)
  {
    match f
    case E => 0
    case N => 1
    case W => 2
    case S => 3
  }

  /** The heading after one left turn: the next entry of `facing_order`, wrapping round. */
  function LeftOf(f: Facing): Facing
  {
    match f
    case E => N
    case N => W
    case W => S
    case S => E
  }

  /** The heading after the half turn of the fast backward move: two entries on in `facing_order`. */
  function Reverse(f: Facing): Facing
  {
    match f
    case E => W
    case N => S
    case W => E
    case S => N
  }

  /** A right turn, written as its own table (clockwise: east to south to west to north). */
  function RightOf(f: Facing): Facing
  {
    match f
    case E => S
    case S => W
    case W => N
    case N => E
  }

  /** The heading after `k` left turns. */
  function Turned(f: Facing, k: nat): Facing
  {
    if k == 0 then f else LeftOf(Turned(f, k - 1))
  }

  /** Horizontal displacement of one step: east +1, west -1. */
  function DX(f: Facing): int
  {
    match f
    case E => 1
    case W => -1
    case N => 0
    case S => 0
  }

  /** Vertical displacement of one step: north +1, south -1. */
  function DY(f: Facing): int
  {
    match f
    case N => 1
    case S => -1
    case E => 0
    case W => 0
  }

  /** The wall side a step in heading `f` crosses on the cell it leaves (`facing_dir`). */
  function SideOf(f: Facing): Side
  {
    match f
    case E => East
    case W => West
    case N => North
    case S => South
  }

  /** The `opposite` table of wall sides. */
  function Opposite(s: Side): Side
  {
    match s
    case North => South
    case South => North
    case East => West
    case West => East
  }

  /** The neighbouring cell in heading `f` (`_get_next_coord`). */
  function Ahead(c: Cell, f: Facing): Cell
  {
    (c.0 + DX(f), c.1 + DY(f))
  }

  /** Four left turns give back the original heading. */
  lemma FourLeftsIdentity(f: Facing)
    ensures LeftOf(LeftOf(LeftOf(LeftOf(f)))) == f
    ensures Turned(f, 4) == f
  {
  }

  /** Left turns visit the four headings in the cycle E, N, W, S. */
  lemma LeftCycle()
    ensures LeftOf(E) == N && LeftOf(N) == W && LeftOf(W) == S && LeftOf(S) == E
  {
  }

  /** The four headings met while turning left four times are all different, so every heading is met. */
  lemma FourTurnsCoverAll(f: Facing, g: Facing)
    ensures g == Turned(f, 0) || g == Turned(f, 1) || g == Turned(f, 2) || g == Turned(f, 3)
  {
  }

  /** Three left turns are one right turn. */
  lemma ThreeLeftsAreRight(f: Facing)
    ensures LeftOf(LeftOf(LeftOf(f))) == RightOf(f)
  {
  }

  /** The half turn is two left turns, and undoes itself. */
  lemma ReverseIsTwoLefts(f: Facing)
    ensures Reverse(f) == LeftOf(LeftOf(f))
    ensures Reverse(Reverse(f)) == f
  {
  }

  /** Stepping ahead and then ahead in the reversed heading returns to the same cell. */
  lemma AheadReverse(c: Cell, f: Facing)
    ensures Ahead(Ahead(c, f), Reverse(f)) == c
    ensures Ahead(c, f) != c
  {
  }

  /** The side crossed when stepping back is the opposite of the side crossed going forward. */
  lemma SideOfReverse(f: Facing)
    ensures SideOf(Reverse(f)) == Opposite(SideOf(f))
    ensures Opposite(Opposite(SideOf(f))) == SideOf(f)
  {
  }
}
