/** The read-only part of the board engine of src/core/board/board.rs: cell
    indexing, the two line helpers of `count_turn_disks`, `count_turn_disks`,
    `can_place` and `count_disks`. A board's state is its 64 cells (a `Grid`);
    the class `Boards.Board` keeps them in an array and these functions read
    them. The cells that `turn_disks` flips are described here as well
    (`LineRun`, `Captured`), so that the flipping pass can be specified by them. */
module BoardRules {
  import opened Wrappers
  import opened Disks
  import opened Positions

  /** `Board::disks`: cell `8 * y + x` holds the disk at (x, y), or nothing. */
  type Grid = s: seq<Option<Disk>> | |s| == 64 witness seq(64, _ => None)

  /** A cell number. */
  type Index = i: nat | i < 64

  /** The cells of `Board::new()`: all empty. */
  const EmptyGrid: Grid := seq(64, _ => None)

  // ---------------------------------------------------------------------------
  // Cell access

  /** `Board::get_index`. */
  function GetIndex(p: Position): (i: Index)
  {
    8 * p.y + p.x
  }

  /** The position of cell i. */
  function PositionOf(i: Index): (p: Position)
    ensures GetIndex(p) == i
  {
    Point(i % 8, i / 8)
  }

  /** `GetIndex` is a bijection between the 64 positions and the cells 0..64. */
  lemma GetIndexBijective(p: Position, q: Position)
    ensures PositionOf(GetIndex(p)) == p
    ensures GetIndex(p) == GetIndex(q) ==> p == q
  {
    GetIndexInjective(p, q);
    GetIndexInjective(p, PositionOf(GetIndex(p)));
  }

  /** Helper: two positions in the same cell have the same row, hence the same column. */
  lemma GetIndexInjective(p: Position, q: Position)
    ensures GetIndex(p) == GetIndex(q) ==> p == q
  {
    if GetIndex(p) == GetIndex(q) {
      assert 8 * (p.y - q.y) == q.x - p.x;
    }
  }

  /** `Board::get`: the disk at p, if any. */
  function Get(g: Grid, p: Position): Option<Disk>
  {
    g[GetIndex(p)]
  }

  /** `Board::is_empty`. */
  predicate IsEmpty(g: Grid, p: Position)
  {
    Get(g, p).None?
  }

  /** g with every cell whose index is in s set to d and the others unchanged. */
  function Paint(g: Grid, s: set<Index>, d: Disk): (h: Grid)
    ensures forall i | 0 <= i < 64 :: h[i] == if i in s then Some(d) else g[i]
  {
    seq(64, i requires 0 <= i < 64 => if i in s then Some(d) else g[i])
  }

  // ---------------------------------------------------------------------------
  // The line scan

  /** The messages of the two line helpers (which `count_turn_disks` turns into 0). */
  datatype LineError =
    | ExistsDisk    // "Exists disk already."
    | NoDiskToTurn  // "There is no disk to turn"
    | NoEndDisk     // "The end of this line has not another color."

  /** The messages of `count_turn_disks` and `turn_disks`. */
  datatype MoveError =
    | OccupiedCell  // "Exists disks already in the position."
    | NoDiskToFlip  // "There is no disk to turn."

  /** `count_line_disks_end_another_color`: the line iterator stands at p and
      moves on in dir. Ok(m) when the next m cells hold the other colour and the
      one after them holds `end`; an error when the walk meets an empty cell or
      the edge first. */
  function CountLineEnd(g: Grid, p: Position, dir: Direction, end: Disk): (r: Result<nat, LineError>)
    ensures r.Err? ==> r.error == NoEndDisk
    decreases |Ray(p, dir)|
  {
    match Next(p, dir)
    case Err(_) => Err(NoEndDisk)
    case Ok(q) =>
      match Get(g, q)
      case None => Err(NoEndDisk)
      case Some(d) =>
        if d == end then Ok(0)
        else
          match CountLineEnd(g, q, dir, end)
          case Ok(c) => Ok(c + 1)
          case Err(e) => Err(e)
  }

  /** `count_line_disks_sandwitched_by_another_colors`: from the empty cell p,
      the number of other-colour disks in direction dir that a disk `end` at p
      would enclose. */
  function CountLineSandwiched(g: Grid, p: Position, dir: Direction, end: Disk): (r: Result<nat, LineError>)
    ensures r.Ok? ==> 1 <= r.value
    ensures r == Err(ExistsDisk) <==> !IsEmpty(g, p)
  {
    if !IsEmpty(g, p) then Err(ExistsDisk)
    else
      match Next(p, dir)
      case Err(_) => Err(NoDiskToTurn)
      case Ok(q) =>
        match Get(g, q)
        case Some(d) =>
          if d != end then
            match CountLineEnd(g, q, dir, end)
            case Ok(c) => Ok(c + 1)
            case Err(e) => Err(e)
          else Err(NoDiskToTurn)
        case None => Err(NoDiskToTurn)
  }

  /** The end helper counts fewer cells than the ray beyond p holds. */
  lemma {:induction false} CountLineEndBound(g: Grid, p: Position, dir: Direction, end: Disk)
    ensures CountLineEnd(g, p, dir, end).Ok? ==> CountLineEnd(g, p, dir, end).value < |Ray(p, dir)|
    decreases |Ray(p, dir)|
  {
    match Next(p, dir)
    case Err(_) =>
    case Ok(q) =>
      RayCons(p, dir, q);
      CountLineEndBound(g, q, dir, end);
  }

  /** So does the line helper. */
  lemma CountLineSandwichedBound(g: Grid, p: Position, dir: Direction, end: Disk)
    ensures CountLineSandwiched(g, p, dir, end).Ok? ==> CountLineSandwiched(g, p, dir, end).value < |Ray(p, dir)|
  {
    match Next(p, dir)
    case Err(_) =>
    case Ok(q) =>
      RayCons(p, dir, q);
      CountLineEndBound(g, q, dir, end);
  }

  /** The first m cells of the ray hold the colour opposite to `end` and the
      cell after them holds `end`. */
  ghost predicate ClosedRun(g: Grid, ray: seq<Position>, end: Disk, m: nat)
  {
    && m < |ray|
    && (forall k | 0 <= k < m :: Get(g, ray[k]) == Some(Reverse(end)))
    && Get(g, ray[m]) == Some(end)
  }

  /** A closed run read from the front: of length 0 when the first cell holds
      `end`, otherwise one other-colour disk followed by a shorter closed run. */
  lemma ClosedRunCons(g: Grid, q: Position, rest: seq<Position>, end: Disk, m: nat)
    ensures ClosedRun(g, [q] + rest, end, 0) <==> Get(g, q) == Some(end)
    ensures ClosedRun(g, [q] + rest, end, m + 1) <==>
              Get(g, q) == Some(Reverse(end)) && ClosedRun(g, rest, end, m)
  {
    var ray := [q] + rest;
    assert ray[0] == q;
    assert forall k | 0 <= k < |rest| :: ray[k + 1] == rest[k];
    if Get(g, q) == Some(Reverse(end)) && ClosedRun(g, rest, end, m) {
      forall k | 0 <= k < m + 1 ensures Get(g, ray[k]) == Some(Reverse(end)) {
        if k > 0 { assert ray[k] == rest[k - 1]; }
      }
    }
  }

  /** What the end helper computes: Ok(m) exactly when the ray beyond p is a
      run of m other-colour disks closed by `end`. Every other walk (an empty
      cell or the edge before a disk of colour `end`) is an error. */
  lemma {:induction false} CountLineEndSpec(g: Grid, p: Position, dir: Direction, end: Disk, m: nat)
    ensures CountLineEnd(g, p, dir, end) == Ok(m) <==> ClosedRun(g, Ray(p, dir), end, m)
    decreases |Ray(p, dir)|
  {
    match Next(p, dir)
    case Err(_) =>
    case Ok(q) =>
      RayCons(p, dir, q);
      if m > 0 {
        EndCountSucc(g, p, dir, q, end, m - 1);
        CountLineEndSpec(g, q, dir, end, m - 1);
        ClosedRunCons(g, q, Ray(q, dir), end, m - 1);
      } else {
        EndCountZero(g, p, dir, q, end);
        ClosedRunCons(g, q, Ray(q, dir), end, 0);
      }
  }

  /** The end helper read one step ahead: Ok(0) exactly when the next cell
      holds `end`. */
  lemma EndCountZero(g: Grid, p: Position, dir: Direction, q: Position, end: Disk)
    requires Next(p, dir) == Ok(q)
    ensures CountLineEnd(g, p, dir, end) == Ok(0) <==> Get(g, q) == Some(end)
  {
  }

  /** Ok(k + 1) exactly when the next cell holds the other colour and the
      rest gives Ok(k). */
  lemma EndCountSucc(g: Grid, p: Position, dir: Direction, q: Position, end: Disk, k: nat)
    requires Next(p, dir) == Ok(q)
    ensures CountLineEnd(g, p, dir, end) == Ok(k + 1) <==>
              Get(g, q) == Some(Reverse(end)) && CountLineEnd(g, q, dir, end) == Ok(k)
  {
    match Get(g, q)
    case None =>
    case Some(d) => DiskIsOneOfTwo(end, d);
  }

  /** The line helper read one step ahead: Ok(k + 1) when p is empty, the next
      cell holds the other colour and the end helper gives Ok(k) beyond it. */
  lemma LineCountCons(g: Grid, p: Position, dir: Direction, q: Position, end: Disk, k: nat)
    requires Next(p, dir) == Ok(q)
    ensures CountLineSandwiched(g, p, dir, end) == Ok(k + 1) <==>
              IsEmpty(g, p) && Get(g, q) == Some(Reverse(end)) && CountLineEnd(g, q, dir, end) == Ok(k)
  {
    match Get(g, q)
    case None =>
    case Some(d) => DiskIsOneOfTwo(end, d);
  }

  /** The three cases of one direction: Ok(n) exactly when p is empty and its
      first n neighbours in dir, n >= 1, hold the other colour and are closed by
      a disk of colour `end`. A first neighbour of colour `end`, an empty first
      neighbour, the edge, or a run cut off by an empty cell or the edge all
      give an error (which `count_turn_disks` counts as 0). */
  lemma CountLineSandwichedSpec(g: Grid, p: Position, dir: Direction, end: Disk, n: nat)
    ensures CountLineSandwiched(g, p, dir, end) == Ok(n) <==>
              IsEmpty(g, p) && 1 <= n && ClosedRun(g, Ray(p, dir), end, n)
  {
    match Next(p, dir)
    case Err(_) =>
    case Ok(q) =>
      RayCons(p, dir, q);
      if n > 0 {
        LineCountCons(g, p, dir, q, end, n - 1);
        CountLineEndSpec(g, q, dir, end, n - 1);
        ClosedRunCons(g, q, Ray(q, dir), end, n - 1);
      }
  }

  /** The line helper's result with its error replaced by 0 (`unwrap_or(0)`). */
  function LineFlips(g: Grid, p: Position, dir: Direction, end: Disk): nat
  {
    match CountLineSandwiched(g, p, dir, end)
    case Ok(n) => n
    case Err(_) => 0
  }

  /** The sum of `LineFlips` over the first k directions of `Direction::iter()`. */
  function FlipsUpTo(g: Grid, p: Position, end: Disk, k: nat): nat
    requires k <= 8
  {
    if k == 0 then 0 else FlipsUpTo(g, p, end, k - 1) + LineFlips(g, p, AllDirections[k - 1], end)
  }

  /** `Board::count_turn_disks`. */
  function CountTurnDisks(g: Grid, p: Position, end: Disk): (r: Result<nat, MoveError>)
    ensures r == Err(OccupiedCell) <==> !IsEmpty(g, p)
    ensures r == Err(NoDiskToFlip) <==> IsEmpty(g, p) && FlipsUpTo(g, p, end, 8) == 0
    ensures r.Ok? ==> r.value > 0
  {
    if !IsEmpty(g, p) then Err(OccupiedCell)
    else
      var c := FlipsUpTo(g, p, end, 8);
      if c == 0 then Err(NoDiskToFlip) else Ok(c)
  }

  /** `Board::can_place`. */
  predicate CanPlace(g: Grid, p: Position, end: Disk)
  {
    CountTurnDisks(g, p, end).Ok?
  }

  /** Some direction contributes exactly when the sum of the first k is positive. */
  lemma {:induction false} FlipsUpToPositive(g: Grid, p: Position, end: Disk, k: nat)
    requires k <= 8
    ensures FlipsUpTo(g, p, end, k) > 0 <==>
              exists j | 0 <= j < k :: CountLineSandwiched(g, p, AllDirections[j], end).Ok?
  {
    if k > 0 {
      FlipsUpToPositive(g, p, end, k - 1);
    }
  }

  /** The sum of `count_turn_disks` written out over the eight directions, in
      the order `Direction::iter()` yields them. */
  lemma FlipsOfEight(g: Grid, p: Position, end: Disk)
    ensures FlipsUpTo(g, p, end, 8) ==
              LineFlips(g, p, Up, end) + LineFlips(g, p, UpRight, end) + LineFlips(g, p, Right, end)
              + LineFlips(g, p, DownRight, end) + LineFlips(g, p, Down, end) + LineFlips(g, p, DownLeft, end)
              + LineFlips(g, p, Left, end) + LineFlips(g, p, UpLeft, end)
  {
    var d := AllDirections;
    assert d[0] == Up && d[1] == UpRight && d[2] == Right && d[3] == DownRight;
    assert d[4] == Down && d[5] == DownLeft && d[6] == Left && d[7] == UpLeft;
    FlipsStep(g, p, end, 1);
    FlipsStep(g, p, end, 2);
    FlipsStep(g, p, end, 3);
    FlipsStep(g, p, end, 4);
    FlipsStep(g, p, end, 5);
    FlipsStep(g, p, end, 6);
    FlipsStep(g, p, end, 7);
    FlipsStep(g, p, end, 8);
  }

  /** Helper: one more direction added to the sum. */
  lemma FlipsStep(g: Grid, p: Position, end: Disk, k: nat)
    requires 0 < k <= 8
    ensures FlipsUpTo(g, p, end, k) == FlipsUpTo(g, p, end, k - 1) + LineFlips(g, p, AllDirections[k - 1], end)
  {
  }

  /** Legality: a disk `end` can be placed at p exactly when p is empty and in
      some direction a non-empty run of the other colour starts next to p and is
      closed by a disk of colour `end` before an empty cell or the edge. */
  lemma CanPlaceIff(g: Grid, p: Position, end: Disk)
    ensures CanPlace(g, p, end) <==>
              IsEmpty(g, p) && exists dir: Direction, n: nat :: 1 <= n && ClosedRun(g, Ray(p, dir), end, n)
  {
    if CanPlace(g, p, end) {
      CanPlaceHasSandwich(g, p, end);
    }
    if IsEmpty(g, p) && exists dir: Direction, n: nat :: 1 <= n && ClosedRun(g, Ray(p, dir), end, n) {
      var dir: Direction, n: nat :| 1 <= n && ClosedRun(g, Ray(p, dir), end, n);
      SandwichMakesPlaceable(g, p, dir, end, n);
    }
  }

  /** One half of `CanPlaceIff`. */
  lemma CanPlaceHasSandwich(g: Grid, p: Position, end: Disk)
    requires CanPlace(g, p, end)
    ensures exists dir: Direction, n: nat :: 1 <= n && ClosedRun(g, Ray(p, dir), end, n)
  {
    FlipsUpToPositive(g, p, end, 8);
    var j :| 0 <= j < 8 && CountLineSandwiched(g, p, AllDirections[j], end).Ok?;
    var n := CountLineSandwiched(g, p, AllDirections[j], end).value;
    CountLineSandwichedSpec(g, p, AllDirections[j], end, n);
  }

  /** The other half of `CanPlaceIff`. */
  lemma SandwichMakesPlaceable(g: Grid, p: Position, dir: Direction, end: Disk, n: nat)
    requires IsEmpty(g, p) && 1 <= n && ClosedRun(g, Ray(p, dir), end, n)
    ensures CanPlace(g, p, end)
  {
    CountLineSandwichedSpec(g, p, dir, end, n);
    AllDirectionsComplete();
    assert dir in AllDirections;
    var j :| 0 <= j < |AllDirections| && AllDirections[j] == dir;
    FlipsUpToPositive(g, p, end, 8);
  }

  // ---------------------------------------------------------------------------
  // The cells the flipping pass changes

  /** The cells of the first n positions of a ray. */
  function RunIndices(ray: seq<Position>, n: nat): set<Index>
  {
    set k | 0 <= k < n && k < |ray| :: GetIndex(ray[k])
  }

  /** The cells the end helper's flipping twin turns: the counted run. */
  function EndRun(g: Grid, p: Position, dir: Direction, end: Disk): set<Index>
  {
    match CountLineEnd(g, p, dir, end)
    case Ok(m) => RunIndices(Ray(p, dir), m)
    case Err(_) => {}
  }

  /** The cells `turn_line_disks_sandwitched_by_another_colors` turns. */
  function LineRun(g: Grid, p: Position, dir: Direction, end: Disk): set<Index>
  {
    match CountLineSandwiched(g, p, dir, end)
    case Ok(n) => RunIndices(Ray(p, dir), n)
    case Err(_) => {}
  }

  /** The cells turned in the first k directions. */
  function CapturedUpTo(g: Grid, p: Position, end: Disk, k: nat): set<Index>
    requires k <= 8
  {
    if k == 0 then {} else CapturedUpTo(g, p, end, k - 1) + LineRun(g, p, AllDirections[k - 1], end)
  }

  /** The cells `turn_disks` turns. */
  function Captured(g: Grid, p: Position, end: Disk): set<Index>
  {
    CapturedUpTo(g, p, end, 8)
  }

  /** All cells of a ray. */
  function RayIndices(p: Position, dir: Direction): set<Index>
  {
    RunIndices(Ray(p, dir), |Ray(p, dir)|)
  }

  /** The cells of the rays of the first k directions. */
  function RaysUpTo(p: Position, k: nat): set<Index>
    requires k <= 8
  {
    if k == 0 then {} else RaysUpTo(p, k - 1) + RayIndices(p, AllDirections[k - 1])
  }

  /** The cells of rays from p in two different directions are disjoint, and no
      ray contains the cell of p. */
  lemma RayIndicesDisjoint(p: Position, d1: Direction, d2: Direction)
    ensures GetIndex(p) !in RayIndices(p, d1)
    ensures d1 != d2 ==> RayIndices(p, d1) * RayIndices(p, d2) == {}
  {
    var r1, r2 := Ray(p, d1), Ray(p, d2);
    forall i | 0 <= i < |r1| ensures GetIndex(r1[i]) != GetIndex(p) {
      RaysDisjoint(p, d1, d1, i, i);
      GetIndexBijective(r1[i], p);
    }
    if d1 != d2 {
      forall c | c in RayIndices(p, d1) ensures c !in RayIndices(p, d2) {
        var i :| 0 <= i < |r1| && c == GetIndex(r1[i]);
        forall j | 0 <= j < |r2| ensures GetIndex(r2[j]) != c {
          RaysDisjoint(p, d1, d2, i, j);
          GetIndexBijective(r1[i], r2[j]);
        }
      }
    }
  }

  /** The ray of the k-th direction shares no cell with the rays of the
      directions before it, nor with p. */
  lemma {:induction false} RaysUpToDisjoint(p: Position, k: nat)
    requires k < 8
    ensures RaysUpTo(p, k) * RayIndices(p, AllDirections[k]) == {}
    ensures GetIndex(p) !in RaysUpTo(p, k)
  {
    AllDirectionsComplete();
    if k > 0 {
      RaysUpToDisjoint(p, k - 1);
      RayIndicesDisjoint(p, AllDirections[k - 1], AllDirections[k]);
      RaysUpToDisjointFrom(p, k - 1, k);
    }
  }

  /** Helper: the rays of the directions before j miss the ray of direction k > j. */
  lemma {:induction false} RaysUpToDisjointFrom(p: Position, j: nat, k: nat)
    requires j < k < 8
    ensures RaysUpTo(p, j) * RayIndices(p, AllDirections[k]) == {}
  {
    AllDirectionsComplete();
    if j > 0 {
      RaysUpToDisjointFrom(p, j - 1, k);
      RayIndicesDisjoint(p, AllDirections[j - 1], AllDirections[k]);
    }
  }

  /** Painting no cell changes nothing. */
  lemma PaintNothing(g: Grid, d: Disk)
    ensures Paint(g, {}, d) == g
  {
    assert forall i | 0 <= i < 64 :: Paint(g, {}, d)[i] == g[i];
  }

  /** Writing one more cell extends the painted set. */
  lemma PaintOneMore(g: Grid, s: set<Index>, i: Index, d: Disk)
    ensures Paint(g, s, d)[i := Some(d)] == Paint(g, s + {i}, d)
    ensures Paint(g, s, d)[i := Some(d)] == Paint(g, {i} + s, d)
  {
    assert forall j | 0 <= j < 64 :: Paint(g, s, d)[i := Some(d)][j] == Paint(g, s + {i}, d)[j];
    assert s + {i} == {i} + s;
  }

  /** The run of a ray read from the front. */
  lemma RunIndicesCons(q: Position, rest: seq<Position>, m: nat)
    requires m <= |rest|
    ensures RunIndices([q] + rest, m + 1) == {GetIndex(q)} + RunIndices(rest, m)
  {
    var ray := [q] + rest;
    forall c | c in RunIndices(ray, m + 1) ensures c in {GetIndex(q)} + RunIndices(rest, m) {
      var k :| 0 <= k < m + 1 && c == GetIndex(ray[k]);
      if k > 0 { assert ray[k] == rest[k - 1]; }
    }
    forall c | c in RunIndices(rest, m) ensures c in RunIndices(ray, m + 1) {
      var k :| 0 <= k < m && c == GetIndex(rest[k]);
      assert ray[k + 1] == rest[k];
    }
    assert ray[0] == q;
  }

  /** The end helper's run, read from the front: empty when the next cell
      closes the line, otherwise the next cell followed by the run beyond it. */
  lemma EndRunStep(g: Grid, p: Position, dir: Direction, q: Position, end: Disk)
    requires Next(p, dir) == Ok(q)
    requires Get(g, q).Some? && Get(g, q).value != end
    requires CountLineEnd(g, q, dir, end).Ok?
    ensures EndRun(g, p, dir, end) == {GetIndex(q)} + EndRun(g, q, dir, end)
  {
    RayCons(p, dir, q);
    CountLineEndBound(g, q, dir, end);
    RunIndicesCons(q, Ray(q, dir), CountLineEnd(g, q, dir, end).value);
  }

  /** The same for the first step of a direction. */
  lemma LineRunStep(g: Grid, p: Position, dir: Direction, q: Position, end: Disk)
    requires IsEmpty(g, p) && Next(p, dir) == Ok(q)
    requires Get(g, q).Some? && Get(g, q).value != end
    requires CountLineEnd(g, q, dir, end).Ok?
    ensures LineRun(g, p, dir, end) == {GetIndex(q)} + EndRun(g, q, dir, end)
  {
    RayCons(p, dir, q);
    CountLineEndBound(g, q, dir, end);
    RunIndicesCons(q, Ray(q, dir), CountLineEnd(g, q, dir, end).value);
  }

  /** The end helper stops at once when the next cell is off the board or
      empty: an error, and nothing to turn. */
  lemma EndOpen(g: Grid, p: Position, dir: Direction, end: Disk)
    requires Next(p, dir).Err? || Get(g, Next(p, dir).value).None?
    ensures CountLineEnd(g, p, dir, end) == Err(NoEndDisk)
    ensures Paint(g, EndRun(g, p, dir, end), end) == g
  {
    PaintNothing(g, end);
  }

  /** It stops at once with no disk to turn when the next cell holds `end`. */
  lemma EndClosed(g: Grid, p: Position, dir: Direction, q: Position, end: Disk)
    requires Next(p, dir) == Ok(q) && Get(g, q) == Some(end)
    ensures CountLineEnd(g, p, dir, end) == Ok(0)
    ensures EndRun(g, p, dir, end) == {}
    ensures Paint(g, EndRun(g, p, dir, end), end) == g
  {
    assert RunIndices(Ray(p, dir), 0) == {};
    PaintNothing(g, end);
  }

  /** A run that breaks beyond q breaks from p too, and neither turns anything. */
  lemma EndBroken(g: Grid, p: Position, dir: Direction, q: Position, end: Disk)
    requires Next(p, dir) == Ok(q)
    requires Get(g, q).Some? && Get(g, q).value != end
    requires CountLineEnd(g, q, dir, end).Err?
    ensures CountLineEnd(g, p, dir, end) == Err(NoEndDisk)
    ensures Paint(g, EndRun(g, q, dir, end), end) == g
    ensures Paint(g, EndRun(g, p, dir, end), end) == g
  {
    PaintNothing(g, end);
  }

  /** A run closed beyond q is one longer from p. */
  lemma EndExtends(g: Grid, p: Position, dir: Direction, q: Position, end: Disk, m: nat)
    requires Next(p, dir) == Ok(q)
    requires Get(g, q).Some? && Get(g, q).value != end
    requires CountLineEnd(g, q, dir, end) == Ok(m)
    ensures CountLineEnd(g, p, dir, end) == Ok(m + 1)
  {
  }

  /** The line count fails at once on an occupied cell, at the edge, or when
      the next cell is empty or holds `end`; nothing is turned. */
  lemma LineOpen(g: Grid, p: Position, dir: Direction, end: Disk)
    requires || !IsEmpty(g, p)
             || Next(p, dir).Err?
             || Get(g, Next(p, dir).value).None?
             || Get(g, Next(p, dir).value) == Some(end)
    ensures CountLineSandwiched(g, p, dir, end) ==
              if !IsEmpty(g, p) then Err(ExistsDisk) else Err(NoDiskToTurn)
    ensures Paint(g, LineRun(g, p, dir, end), end) == g
  {
    PaintNothing(g, end);
  }

  /** A run that breaks beyond q makes the whole line fail; nothing is turned. */
  lemma LineBroken(g: Grid, p: Position, dir: Direction, q: Position, end: Disk)
    requires IsEmpty(g, p) && Next(p, dir) == Ok(q)
    requires Get(g, q).Some? && Get(g, q).value != end
    requires CountLineEnd(g, q, dir, end).Err?
    ensures CountLineSandwiched(g, p, dir, end) == Err(NoEndDisk)
    ensures Paint(g, EndRun(g, q, dir, end), end) == g
    ensures Paint(g, LineRun(g, p, dir, end), end) == g
  {
    PaintNothing(g, end);
  }

  /** A run closed beyond q makes the line count one more. */
  lemma LineExtends(g: Grid, p: Position, dir: Direction, q: Position, end: Disk, m: nat)
    requires IsEmpty(g, p) && Next(p, dir) == Ok(q)
    requires Get(g, q).Some? && Get(g, q).value != end
    requires CountLineEnd(g, q, dir, end) == Ok(m)
    ensures CountLineSandwiched(g, p, dir, end) == Ok(m + 1)
  {
  }

  /** One step of the end helper's flipping twin over a disk of the other
      colour at q: writing q after the rest has been turned gives the whole
      run turned. */
  lemma EndTurnStep(g: Grid, h: Grid, p: Position, dir: Direction, q: Position, end: Disk)
    requires Next(p, dir) == Ok(q)
    requires Get(g, q).Some? && Get(g, q).value != end
    requires CountLineEnd(g, q, dir, end).Ok?
    requires h == Paint(g, EndRun(g, q, dir, end), end)
    ensures h[GetIndex(q) := Some(end)] == Paint(g, EndRun(g, p, dir, end), end)
  {
    EndRunStep(g, p, dir, q, end);
    PaintOneMore(g, EndRun(g, q, dir, end), GetIndex(q), end);
  }

  /** The same for the first step of a direction. */
  lemma LineTurnStep(g: Grid, h: Grid, p: Position, dir: Direction, q: Position, end: Disk)
    requires IsEmpty(g, p) && Next(p, dir) == Ok(q)
    requires Get(g, q).Some? && Get(g, q).value != end
    requires CountLineEnd(g, q, dir, end).Ok?
    requires h == Paint(g, EndRun(g, q, dir, end), end)
    ensures h[GetIndex(q) := Some(end)] == Paint(g, LineRun(g, p, dir, end), end)
  {
    LineRunStep(g, p, dir, q, end);
    PaintOneMore(g, EndRun(g, q, dir, end), GetIndex(q), end);
  }

  /** `count_legal_movs`' set: the positions where `can_place` holds. */
  function LegalMoves(g: Grid, d: Disk): (moves: set<Position>)
    ensures forall q: Position :: q in moves <==> CanPlace(g, q, d)
  {
    set x: int, y: int | 0 <= x < 8 && 0 <= y < 8 && CanPlace(g, Point(x, y), d) :: Point(x, y)
  }

  /** The empty board has no legal move for either colour. */
  lemma EmptyGridHasNoLegalMove(d: Disk)
    ensures LegalMoves(EmptyGrid, d) == {}
  {
    forall q: Position ensures !CanPlace(EmptyGrid, q, d) {
      EmptyGridHasNoMove(q, d);
    }
  }

  /** The cells turned in a direction lie on its ray. */
  lemma LineRunOnRay(g: Grid, p: Position, dir: Direction, end: Disk)
    ensures LineRun(g, p, dir, end) <= RayIndices(p, dir)
  {
  }

  /** The cells turned in the first k directions lie on their rays. */
  lemma {:induction false} CapturedUpToOnRays(g: Grid, p: Position, end: Disk, k: nat)
    requires k <= 8
    ensures CapturedUpTo(g, p, end, k) <= RaysUpTo(p, k)
  {
    if k > 0 {
      CapturedUpToOnRays(g, p, end, k - 1);
      LineRunOnRay(g, p, AllDirections[k - 1], end);
    }
  }

  /** Frame of the end helper: it reads only the cells of the ray beyond p. */
  lemma {:induction false} CountLineEndFrame(g1: Grid, g2: Grid, p: Position, dir: Direction, end: Disk)
    requires forall k | 0 <= k < |Ray(p, dir)| :: Get(g1, Ray(p, dir)[k]) == Get(g2, Ray(p, dir)[k])
    ensures CountLineEnd(g1, p, dir, end) == CountLineEnd(g2, p, dir, end)
    decreases |Ray(p, dir)|
  {
    match Next(p, dir)
    case Err(_) =>
    case Ok(q) =>
      RayCons(p, dir, q);
      AgreeCons(g1, g2, q, Ray(q, dir));
      CountLineEndFrame(g1, g2, q, dir, end);
  }

  /** Helper: the line count reads p, the next cell and the end helper beyond it. */
  lemma LineFrameStep(g1: Grid, g2: Grid, p: Position, dir: Direction, q: Position, end: Disk)
    requires Next(p, dir) == Ok(q)
    requires g1[GetIndex(p)] == g2[GetIndex(p)] && Get(g1, q) == Get(g2, q)
    requires CountLineEnd(g1, q, dir, end) == CountLineEnd(g2, q, dir, end)
    ensures CountLineSandwiched(g1, p, dir, end) == CountLineSandwiched(g2, p, dir, end)
  {
  }

  /** Helper: two grids that agree along a ray agree on its first position
      and along the rest. */
  lemma AgreeCons(g1: Grid, g2: Grid, q: Position, rest: seq<Position>)
    requires forall k | 0 <= k < |[q] + rest| :: Get(g1, ([q] + rest)[k]) == Get(g2, ([q] + rest)[k])
    ensures Get(g1, q) == Get(g2, q)
    ensures forall k | 0 <= k < |rest| :: Get(g1, rest[k]) == Get(g2, rest[k])
  {
    var ray := [q] + rest;
    assert ray[0] == q;
    forall k | 0 <= k < |rest| ensures Get(g1, rest[k]) == Get(g2, rest[k]) {
      assert rest[k] == ray[k + 1];
    }
  }

  /** Helper: agreeing on the cells of a ray is agreeing along it. */
  lemma AgreeAlongRay(g1: Grid, g2: Grid, p: Position, dir: Direction)
    requires forall c | c in RayIndices(p, dir) :: g1[c] == g2[c]
    ensures forall k | 0 <= k < |Ray(p, dir)| :: Get(g1, Ray(p, dir)[k]) == Get(g2, Ray(p, dir)[k])
  {
    var ray := Ray(p, dir);
    forall k | 0 <= k < |ray| ensures Get(g1, ray[k]) == Get(g2, ray[k]) {
      assert GetIndex(ray[k]) in RayIndices(p, dir);
    }
  }

  /** Frame of one direction: its count reads only p and the ray from p. */
  lemma CountLineSandwichedFrame(g1: Grid, g2: Grid, p: Position, dir: Direction, end: Disk)
    requires g1[GetIndex(p)] == g2[GetIndex(p)]
    requires forall c | c in RayIndices(p, dir) :: g1[c] == g2[c]
    ensures CountLineSandwiched(g1, p, dir, end) == CountLineSandwiched(g2, p, dir, end)
  {
    AgreeAlongRay(g1, g2, p, dir);
    match Next(p, dir)
    case Err(_) =>
    case Ok(q) =>
      RayCons(p, dir, q);
      AgreeCons(g1, g2, q, Ray(q, dir));
      CountLineEndFrame(g1, g2, q, dir, end);
      LineFrameStep(g1, g2, p, dir, q, end);
  }

  /** The heart of `turn_disks`: after the first k directions have been turned,
      direction k sees exactly what it saw on the original board, and turning it
      extends the turned cells by its run. So flipping one direction never
      changes what a later direction counts. */
  lemma TurnStep(g: Grid, p: Position, end: Disk, k: nat)
    requires k < 8
    ensures CountLineSandwiched(Paint(g, CapturedUpTo(g, p, end, k), end), p, AllDirections[k], end)
         == CountLineSandwiched(g, p, AllDirections[k], end)
    ensures Paint(Paint(g, CapturedUpTo(g, p, end, k), end),
                  LineRun(Paint(g, CapturedUpTo(g, p, end, k), end), p, AllDirections[k], end), end)
         == Paint(g, CapturedUpTo(g, p, end, k + 1), end)
  {
    var dir := AllDirections[k];
    var done := CapturedUpTo(g, p, end, k);
    var h := Paint(g, done, end);
    CapturedUpToOnRays(g, p, end, k);
    RaysUpToDisjoint(p, k);
    forall c | c in RayIndices(p, dir) ensures h[c] == g[c] {
      assert c !in RaysUpTo(p, k) * RayIndices(p, dir);
      assert c !in done;
    }
    CountLineSandwichedFrame(h, g, p, dir, end);
    assert LineRun(h, p, dir, end) == LineRun(g, p, dir, end);
    var h2 := Paint(h, LineRun(h, p, dir, end), end);
    var h3 := Paint(g, CapturedUpTo(g, p, end, k + 1), end);
    forall i | 0 <= i < 64 ensures h2[i] == h3[i] {
    }
  }

  /** A sum of 0 means no direction turned anything. */
  lemma {:induction false} NothingCapturedWhenNoFlips(g: Grid, p: Position, end: Disk, k: nat)
    requires k <= 8
    requires FlipsUpTo(g, p, end, k) == 0
    ensures CapturedUpTo(g, p, end, k) == {}
  {
    if k > 0 {
      NothingCapturedWhenNoFlips(g, p, end, k - 1);
    }
  }

  /** The cells of the first n positions of a ray are n different cells. */
  lemma {:induction false} RunIndicesSize(p: Position, dir: Direction, n: nat)
    requires n <= |Ray(p, dir)|
    ensures |RunIndices(Ray(p, dir), n)| == n
  {
    if n > 0 {
      RunIndicesSize(p, dir, n - 1);
      RunIndicesSnoc(Ray(p, dir), n);
      RunIndicesFresh(p, dir, n);
    }
  }

  /** Helper: the first n cells of a ray are the first n - 1 and the n-th. */
  lemma RunIndicesSnoc(ray: seq<Position>, n: nat)
    requires 0 < n <= |ray|
    ensures RunIndices(ray, n) == RunIndices(ray, n - 1) + {GetIndex(ray[n - 1])}
  {
    var before, last := RunIndices(ray, n - 1), GetIndex(ray[n - 1]);
    forall c | c in RunIndices(ray, n) ensures c in before + {last} {
      var k :| 0 <= k < n && k < |ray| && c == GetIndex(ray[k]);
      if k < n - 1 {
        assert c in before;
      }
    }
    forall c | c in before ensures c in RunIndices(ray, n) {
      var k :| 0 <= k < n - 1 && k < |ray| && c == GetIndex(ray[k]);
    }
    assert last in RunIndices(ray, n);
  }

  /** Helper: the n-th cell of a ray is not among the ones before it. */
  lemma RunIndicesFresh(p: Position, dir: Direction, n: nat)
    requires 0 < n <= |Ray(p, dir)|
    ensures GetIndex(Ray(p, dir)[n - 1]) !in RunIndices(Ray(p, dir), n - 1)
  {
    var ray := Ray(p, dir);
    forall k | 0 <= k < n - 1 ensures GetIndex(ray[k]) != GetIndex(ray[n - 1]) {
      RaysDisjoint(p, dir, dir, k, n - 1);
      GetIndexBijective(ray[k], ray[n - 1]);
    }
  }

  /** Flip conservation, part one: the number of cells turned is the number
      counted, and every turned cell holds the other colour beforehand. */
  lemma {:induction false} CapturedUpToCount(g: Grid, p: Position, end: Disk, k: nat)
    requires k <= 8
    ensures |CapturedUpTo(g, p, end, k)| == FlipsUpTo(g, p, end, k)
    ensures forall c | c in CapturedUpTo(g, p, end, k) :: g[c] == Some(Reverse(end))
    ensures GetIndex(p) !in CapturedUpTo(g, p, end, k)
  {
    if k > 0 {
      var dir := AllDirections[k - 1];
      CapturedUpToCount(g, p, end, k - 1);
      CapturedUpToOnRays(g, p, end, k - 1);
      RaysUpToDisjoint(p, k - 1);
      LineRunOnRay(g, p, dir, end);
      RayIndicesDisjoint(p, dir, dir);
      var before := CapturedUpTo(g, p, end, k - 1);
      var run := LineRun(g, p, dir, end);
      assert before * run == {};
      LineRunCount(g, p, dir, end);
    }
  }

  /** The cells turned in one direction are as many as it counts, and all
      hold the other colour beforehand. */
  lemma LineRunCount(g: Grid, p: Position, dir: Direction, end: Disk)
    ensures |LineRun(g, p, dir, end)| == LineFlips(g, p, dir, end)
    ensures forall c | c in LineRun(g, p, dir, end) :: g[c] == Some(Reverse(end))
  {
    match CountLineSandwiched(g, p, dir, end)
    case Err(_) =>
    case Ok(n) =>
      CountLineSandwichedSpec(g, p, dir, end, n);
      RunIndicesSize(p, dir, n);
      forall c | c in LineRun(g, p, dir, end) ensures g[c] == Some(Reverse(end)) {
        var i :| 0 <= i < n && c == GetIndex(Ray(p, dir)[i]);
      }
  }

  /** `turn_disks` turns exactly as many cells as `count_turn_disks` reports,
      all of the other colour, never p itself; a failed call turns none. */
  lemma CapturedMatchesCount(g: Grid, p: Position, end: Disk)
    ensures CountTurnDisks(g, p, end).Ok? ==> |Captured(g, p, end)| == CountTurnDisks(g, p, end).value
    ensures CountTurnDisks(g, p, end) == Err(NoDiskToFlip) ==> Captured(g, p, end) == {}
    ensures forall c | c in Captured(g, p, end) :: g[c] == Some(Reverse(end))
    ensures GetIndex(p) !in Captured(g, p, end)
  {
    CapturedUpToCount(g, p, end, 8);
    if FlipsUpTo(g, p, end, 8) == 0 {
      NothingCapturedWhenNoFlips(g, p, end, 8);
    }
  }

  /** The end of `turn_disks`: with all eight directions turned and their
      counts summed, the sum is what `count_turn_disks` returns and the cells
      turned are the captured ones; a zero sum turned nothing. */
  lemma TurnDisksOutcome(g: Grid, h: Grid, p: Position, end: Disk, total: nat)
    requires IsEmpty(g, p)
    requires h == Paint(g, CapturedUpTo(g, p, end, 8), end)
    requires total == FlipsUpTo(g, p, end, 8)
    ensures CountTurnDisks(g, p, end) == if total == 0 then Err(NoDiskToFlip) else Ok(total)
    ensures h == if total == 0 then g else Paint(g, Captured(g, p, end), end)
  {
    if total == 0 {
      CapturedMatchesCount(g, p, end);
      PaintNothing(g, end);
    }
  }

  // ---------------------------------------------------------------------------
  // Counting disks

  /** `Board::count_disks`: the number of cells holding d. */
  function CountDisks(cells: seq<Option<Disk>>, d: Disk): (n: nat)
    ensures n <= |cells|
  {
    if cells == [] then 0
    else CountDisks(cells[..|cells| - 1], d) + (if cells[|cells| - 1] == Some(d) then 1 else 0)
  }

  /** The indices of the cells holding d. */
  function Holding(cells: seq<Option<Disk>>, d: Disk): set<nat>
  {
    set i | 0 <= i < |cells| && cells[i] == Some(d)
  }

  /** `count_disks` counts exactly the cells equal to `Some(d)`. */
  lemma {:induction false} CountDisksIsCardinality(cells: seq<Option<Disk>>, d: Disk)
    ensures CountDisks(cells, d) == |Holding(cells, d)|
  {
    if cells != [] {
      var n := |cells| - 1;
      var front := cells[..n];
      CountDisksIsCardinality(front, d);
      if cells[n] == Some(d) {
        assert Holding(cells, d) == Holding(front, d) + {n};
      } else {
        assert Holding(cells, d) == Holding(front, d);
      }
    }
  }

  /** The cells after a successful `place(p, end)`: the turned cells and p hold `end`. */
  function Placed(g: Grid, p: Position, end: Disk): Grid
  {
    Paint(g, Captured(g, p, end) + {GetIndex(p)}, end)
  }

  /** Flip conservation: when `count_turn_disks` reports n, placing adds n + 1
      disks of the mover's colour and removes n of the other colour; every other
      cell keeps its content. */
  lemma PlaceConservesDisks(g: Grid, p: Position, end: Disk, n: nat)
    requires CountTurnDisks(g, p, end) == Ok(n)
    ensures CountDisks(Placed(g, p, end), end) == CountDisks(g, end) + n + 1
    ensures CountDisks(Placed(g, p, end), Reverse(end)) == CountDisks(g, Reverse(end)) - n
    ensures forall i | 0 <= i < 64 && i !in Captured(g, p, end) && i != GetIndex(p) ::
              Placed(g, p, end)[i] == g[i]
  {
    var h := Placed(g, p, end);
    var s := Captured(g, p, end);
    var ip := GetIndex(p);
    CapturedMatchesCount(g, p, end);
    CountDisksIsCardinality(g, end);
    CountDisksIsCardinality(h, end);
    CountDisksIsCardinality(g, Reverse(end));
    CountDisksIsCardinality(h, Reverse(end));
    HoldingAfterPaint(g, s + {ip}, end, s);
    var mine, theirs := Holding(g, end), Holding(g, Reverse(end));
    assert ip !in mine && ip !in theirs;
    DisjointUnionSize(mine, s + {ip});
    DisjointUnionSize(theirs - s, s);
    assert theirs == (theirs - s) + s;
  }

  /** Painting cells with `end`, where the cells of `turned` held the other
      colour and the remaining painted cells were empty. */
  lemma HoldingAfterPaint(g: Grid, s: set<Index>, end: Disk, turned: set<Index>)
    requires turned <= s
    requires forall c | c in turned :: g[c] == Some(Reverse(end))
    requires forall c | c in s - turned :: g[c] == None
    ensures Holding(Paint(g, s, end), end) == Holding(g, end) + s
    ensures Holding(Paint(g, s, end), Reverse(end)) == Holding(g, Reverse(end)) - turned
    ensures Holding(g, end) * s == {}
    ensures turned <= Holding(g, Reverse(end))
  {
  }

  /** The size of a union of disjoint sets. */
  lemma DisjointUnionSize(a: set<nat>, b: set<nat>)
    requires a * b == {}
    ensures |a + b| == |a| + |b|
  {
  }

  /** The empty board has no legal move for either colour. */
  lemma EmptyGridHasNoMove(p: Position, d: Disk)
    ensures CountTurnDisks(EmptyGrid, p, d) == Err(NoDiskToFlip)
  {
    forall j | 0 <= j < 8 ensures CountLineSandwiched(EmptyGrid, p, AllDirections[j], d).Err? {
    }
    FlipsUpToPositive(EmptyGrid, p, d, 8);
  }
}
