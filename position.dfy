/** Directions and validated coordinates of the 8x8 grid: src/core/board/board.rs, lines 7-64. */
module Positions {
  import opened Wrappers

  /** The eight directions a ray can take (`enum Direction`). */
  datatype Direction = Up | UpRight | Right | DownRight | Down | DownLeft | Left | UpLeft

  /** The order in which `Direction::iter()` yields the directions. */
  const AllDirections: seq<Direction> := [Up, UpRight, Right, DownRight, Down, DownLeft, Left, UpLeft]

  /** `Direction::tuple`: the unit step (dx, dy) of a direction; "up" increases y. */
  function Tuple(dir: Direction): (delta: (int, int))
    ensures -1 <= delta.0 <= 1 && -1 <= delta.1 <= 1
    ensures delta != (0, 0)
  {
    match dir
    case Up => (0, 1)
    case UpRight => (1, 1)
    case Right => (1, 0)
    case DownRight => (1, -1)
    case Down => (0, -1)
    case DownLeft => (-1, -1)
    case Left => (-1, 0)
    case UpLeft => (-1, 1)
  }

  /** The table lists every direction once, and no two directions share a step,
      so the eight steps are exactly the eight non-zero unit vectors. */
  lemma DirectionTable()
    ensures |AllDirections| == 8
    ensures forall i, j | 0 <= i < j < 8 :: Tuple(AllDirections[i]) != Tuple(AllDirections[j])
    ensures forall dir: Direction :: dir in AllDirections
    ensures forall dx, dy | -1 <= dx <= 1 && -1 <= dy <= 1 && (dx, dy) != (0, 0) ::
              exists dir: Direction :: Tuple(dir) == (dx, dy)
  {
    AllDirectionsComplete();
    forall dx, dy | -1 <= dx <= 1 && -1 <= dy <= 1 && (dx, dy) != (0, 0)
      ensures exists dir: Direction :: Tuple(dir) == (dx, dy)
    {
      var dir :=
        if dx == 0 then (if dy == 1 then Up else Down)
        else if dx == 1 then (if dy == 1 then UpRight else if dy == 0 then Right else DownRight)
        else (if dy == 1 then UpLeft else if dy == 0 then Left else DownLeft);
      assert Tuple(dir) == (dx, dy);
    }
  }

  /** `Direction::iter()` yields every direction, each at one place only. */
  lemma AllDirectionsComplete()
    ensures |AllDirections| == 8
    ensures forall i, j | 0 <= i < j < 8 :: AllDirections[i] != AllDirections[j]
    ensures forall dir: Direction :: dir in AllDirections
  {
    forall dir: Direction ensures dir in AllDirections {
      match dir
      case Up => assert AllDirections[0] == dir;
      case UpRight => assert AllDirections[1] == dir;
      case Right => assert AllDirections[2] == dir;
      case DownRight => assert AllDirections[3] == dir;
      case Down => assert AllDirections[4] == dir;
      case DownLeft => assert AllDirections[5] == dir;
      case Left => assert AllDirections[6] == dir;
      case UpLeft => assert AllDirections[7] == dir;
    }
  }

  /** A pair of coordinates; `Position` below is a pair that lies on the board. */
  datatype Point = Point(x: int, y: int)

  predicate OnBoard(x: int, y: int)
  {
    0 <= x < 8 && 0 <= y < 8
  }

  /** `struct Position`: zero-based (x, y) with both coordinates in 0..8. */
  type Position = p: Point | OnBoard(p.x, p.y) witness Point(0, 0)

  /** The two messages of `Position::new`. */
  datatype PositionError = XOutOfRange | YOutOfRange

  /** `Position::new`: validates x first, then y. */
  function NewPosition(x: int, y: int): (r: Result<Position, PositionError>)
    ensures r.Ok? <==> OnBoard(x, y)
    ensures r.Ok? ==> r.value.x == x && r.value.y == y
    ensures r == Err(XOutOfRange) <==> !(0 <= x < 8)
    ensures r == Err(YOutOfRange) <==> 0 <= x < 8 && !(0 <= y < 8)
  {
    if !(0 <= x < 8) then Err(XOutOfRange)
    else if !(0 <= y < 8) then Err(YOutOfRange)
    else Ok(Point(x, y))
  }

  /** `Position::next`: one step in `dir`, re-validated. */
  function Next(p: Position, dir: Direction): (r: Result<Position, PositionError>)
  {
    NewPosition(p.x + Tuple(dir).0, p.y + Tuple(dir).1)
  }

  /** k times a unit component d, written without multiplication. */
  function Scale(k: int, d: int): int
  {
    if d == 1 then k else if d == -1 then -k else 0
  }

  /** The point k steps from p in direction dir. */
  function Shift(p: Point, dir: Direction, k: int): Point
  {
    Point(p.x + Scale(k, Tuple(dir).0), p.y + Scale(k, Tuple(dir).1))
  }

  /** The positions a `BoardLineIter` starting at p visits when no cell stops it:
      every step until the first that leaves the board. */
  function Ray(p: Position, dir: Direction): seq<Position>
    decreases (if Tuple(dir).0 == 1 then 7 - p.x else if Tuple(dir).0 == -1 then p.x else 7)
            + (if Tuple(dir).1 == 1 then 7 - p.y else if Tuple(dir).1 == -1 then p.y else 7)
  {
    match Next(p, dir)
    case Err(_) => []
    case Ok(q) => [q] + Ray(q, dir)
  }

  /** A ray is its first position followed by the ray from there. */
  lemma RayCons(p: Position, dir: Direction, q: Position)
    requires Next(p, dir) == Ok(q)
    ensures Ray(p, dir) == [q] + Ray(q, dir)
  {
  }

  /** A ray continues from its first position, so it is one shorter there. */
  lemma RayShrinks(p: Position, dir: Direction, q: Position)
    requires Next(p, dir) == Ok(q)
    ensures |Ray(q, dir)| < |Ray(p, dir)|
  {
  }

  /** A step succeeds exactly when its target is on the board, and then it is the
      neighbour in that direction: a step off an edge never wraps around. */
  lemma NextStep(p: Position, dir: Direction)
    ensures Next(p, dir).Ok? <==> OnBoard(Shift(p, dir, 1).x, Shift(p, dir, 1).y)
    ensures Next(p, dir).Ok? ==> Next(p, dir).value == Shift(p, dir, 1)
  {
  }

  /** One step and then k more is k + 1 steps. */
  lemma ShiftOnce(p: Point, dir: Direction, k: int)
    ensures Shift(Shift(p, dir, 1), dir, k) == Shift(p, dir, k + 1)
  {
  }

  /** The k-th position of a ray is k + 1 steps from its origin. */
  lemma {:induction false} RayAt(p: Position, dir: Direction, k: nat)
    ensures k < |Ray(p, dir)| ==> Ray(p, dir)[k] == Shift(p, dir, k + 1)
    decreases |Ray(p, dir)|
  {
    match Next(p, dir)
    case Err(_) =>
    case Ok(q) =>
      NextStep(p, dir);
      if k > 0 {
        RayAt(q, dir, k - 1);
        ShiftOnce(p, dir, k);
      }
  }

  /** A ray stops exactly where the next step would leave the board. */
  lemma {:induction false} RayEnd(p: Position, dir: Direction)
    ensures !OnBoard(Shift(p, dir, |Ray(p, dir)| + 1).x, Shift(p, dir, |Ray(p, dir)| + 1).y)
    decreases |Ray(p, dir)|
  {
    NextStep(p, dir);
    match Next(p, dir)
    case Err(_) =>
    case Ok(q) =>
      RayEnd(q, dir);
      ShiftOnce(p, dir, |Ray(q, dir)| + 1);
  }

  /** Rays from one origin never contain the origin, never visit a position twice,
      and rays in different directions share no position. */
  lemma RaysDisjoint(p: Position, d1: Direction, d2: Direction, i: nat, j: nat)
    requires i < |Ray(p, d1)| && j < |Ray(p, d2)|
    ensures Ray(p, d1)[i] != p
    ensures Ray(p, d1)[i] == Ray(p, d2)[j] ==> d1 == d2 && i == j
  {
    RayAt(p, d1, i);
    RayAt(p, d2, j);
  }
}
