/** A board described by where its disks are, rather than cell by cell: the
    cells holding the mover's colour and the cells holding the other colour.
    On such a description the rules of src/core/board/board.rs read as walks
    over two finite sets of cell numbers, and these walks are proved to agree
    with `count_line_disks_end_another_color`,
    `count_line_disks_sandwitched_by_another_colors`, `can_place`,
    `count_legal_movs` and `count_disks` on every grid the description fits. */
module Layouts {
  import opened Wrappers
  import opened Disks
  import opened Positions
  import opened BoardRules

  /** g holds `end` exactly on the cells `own` and the other colour exactly on
      the cells `others`; every other cell is empty. */
  ghost predicate Depicts(g: Grid, end: Disk, own: set<nat>, others: set<nat>)
  {
    && OnCells(own)
    && OnCells(others)
    && DepictsBetween(g, end, own, others, 0, 64)
  }

  /** Every number in s is a cell index. */
  predicate OnCells(s: set<nat>)
  {
    forall i | i in s :: i < 64
  }

  /** The cells lo..hi of g are as `own` and `others` say. */
  predicate DepictsBetween(g: Grid, end: Disk, own: set<nat>, others: set<nat>, lo: nat, hi: nat)
    requires hi <= 64
  {
    forall i | lo <= i < hi :: (g[i] == Some(end) <==> i in own) && (g[i] == Some(Reverse(end)) <==> i in others)
  }

  /** Two adjacent ranges that agree with the description make one. */
  lemma DepictsJoin(g: Grid, end: Disk, own: set<nat>, others: set<nat>, lo: nat, mid: nat, hi: nat)
    requires lo <= mid <= hi <= 64
    requires DepictsBetween(g, end, own, others, lo, mid) && DepictsBetween(g, end, own, others, mid, hi)
    ensures DepictsBetween(g, end, own, others, lo, hi)
  {
  }

  /** A description checked in four ranges of sixteen cells. */
  lemma DepictsByQuarters(g: Grid, end: Disk, own: set<nat>, others: set<nat>)
    requires OnCells(own) && OnCells(others)
    requires DepictsBetween(g, end, own, others, 0, 16) && DepictsBetween(g, end, own, others, 16, 32)
    requires DepictsBetween(g, end, own, others, 32, 48) && DepictsBetween(g, end, own, others, 48, 64)
    ensures Depicts(g, end, own, others)
  {
    DepictsJoin(g, end, own, others, 0, 16, 32);
    DepictsJoin(g, end, own, others, 0, 32, 48);
    DepictsJoin(g, end, own, others, 0, 48, 64);
  }

  /** The cells of a sequence without repetitions. */
  function Elements(s: seq<nat>): (e: set<nat>)
    ensures forall x :: x in e <==> x in s
  {
    set x | x in s
  }

  /** A sequence without repetitions has as many cells as elements. */
  lemma {:induction false} ElementsOfDistinct(s: seq<nat>)
    requires forall i, j | 0 <= i < j < |s| :: s[i] != s[j]
    ensures |Elements(s)| == |s|
  {
    if s != [] {
      ElementsOfDistinct(s[1..]);
      assert Elements(s) == {s[0]} + Elements(s[1..]);
      assert s[0] !in Elements(s[1..]);
    }
  }

  /** A unit step (dx, dy) other than (0, 0). */
  predicate Step(dx: int, dy: int)
  {
    -1 <= dx <= 1 && -1 <= dy <= 1 && (dx != 0 || dy != 0)
  }

  /** Walking on from (x, y) by (dx, dy) over cells of `others`, a cell of
      `own` comes before an empty cell or the edge. */
  predicate ClosedWalk(x: int, y: int, dx: int, dy: int, own: set<nat>, others: set<nat>)
    requires OnBoard(x, y) && Step(dx, dy)
    decreases (if dx == 1 then 8 - x else if dx == -1 then x + 1 else 8)
            + (if dy == 1 then 8 - y else if dy == -1 then y + 1 else 8)
  {
    && OnBoard(x + dx, y + dy)
    && (|| 8 * (y + dy) + x + dx in own
        || (8 * (y + dy) + x + dx in others && ClosedWalk(x + dx, y + dy, dx, dy, own, others)))
  }

  /** A disk of the mover's colour at (x, y) would close a line in (dx, dy):
      the neighbour there is of the other colour and the walk beyond it is
      closed. */
  predicate Flanks(x: int, y: int, dx: int, dy: int, own: set<nat>, others: set<nat>)
    requires OnBoard(x, y) && Step(dx, dy)
  {
    && OnBoard(x + dx, y + dy)
    && 8 * (y + dy) + x + dx in others
    && ClosedWalk(x + dx, y + dy, dx, dy, own, others)
  }

  /** (x, y) is free and closes a line in one of the eight directions, listed
      in the order of `Direction`. */
  predicate Playable(x: int, y: int, own: set<nat>, others: set<nat>)
    requires OnBoard(x, y)
  {
    && 8 * y + x !in own
    && 8 * y + x !in others
    && (|| Flanks(x, y, 0, 1, own, others) || Flanks(x, y, 1, 1, own, others)
        || Flanks(x, y, 1, 0, own, others) || Flanks(x, y, 1, -1, own, others)
        || Flanks(x, y, 0, -1, own, others) || Flanks(x, y, -1, -1, own, others)
        || Flanks(x, y, -1, 0, own, others) || Flanks(x, y, -1, 1, own, others))
  }

  /** The line from (x, y) in (dx, dy) is cut off within two steps: the
      neighbour is off the board or not of the other colour, or the cell
      behind it is off the board or empty. */
  predicate Shallow(x: int, y: int, dx: int, dy: int, own: set<nat>, others: set<nat>)
  {
    || !OnBoard(x + dx, y + dy)
    || 8 * (y + dy) + x + dx !in others
    || !OnBoard(x + 2 * dx, y + 2 * dy)
    || (8 * (y + 2 * dy) + x + 2 * dx !in own && 8 * (y + 2 * dy) + x + 2 * dx !in others)
  }

  /** A line cut off within two steps closes nothing. */
  lemma ShallowDoesNotFlank(x: int, y: int, dx: int, dy: int, own: set<nat>, others: set<nat>)
    requires OnBoard(x, y) && Step(dx, dy) && Shallow(x, y, dx, dy, own, others)
    ensures !Flanks(x, y, dx, dy, own, others)
  {
  }

  /** A cell whose eight lines are all cut off within two steps is not playable. */
  lemma ShallowCell(x: int, y: int, own: set<nat>, others: set<nat>)
    requires OnBoard(x, y)
    requires Shallow(x, y, 0, 1, own, others) && Shallow(x, y, 1, 1, own, others)
    requires Shallow(x, y, 1, 0, own, others) && Shallow(x, y, 1, -1, own, others)
    requires Shallow(x, y, 0, -1, own, others) && Shallow(x, y, -1, -1, own, others)
    requires Shallow(x, y, -1, 0, own, others) && Shallow(x, y, -1, 1, own, others)
    ensures !Playable(x, y, own, others)
  {
    ShallowDoesNotFlank(x, y, 0, 1, own, others);
    ShallowDoesNotFlank(x, y, 1, 1, own, others);
    ShallowDoesNotFlank(x, y, 1, 0, own, others);
    ShallowDoesNotFlank(x, y, 1, -1, own, others);
    ShallowDoesNotFlank(x, y, 0, -1, own, others);
    ShallowDoesNotFlank(x, y, -1, -1, own, others);
    ShallowDoesNotFlank(x, y, -1, 0, own, others);
    ShallowDoesNotFlank(x, y, -1, 1, own, others);
  }

  /** One step of the end helper: the next cell holds `end`, or holds the
      other colour and the helper succeeds from there. */
  lemma EndStep(g: Grid, p: Position, dir: Direction, end: Disk)
    ensures CountLineEnd(g, p, dir, end).Ok? <==>
              && Next(p, dir).Ok?
              && (|| Get(g, Next(p, dir).value) == Some(end)
                  || (Get(g, Next(p, dir).value) == Some(Reverse(end)) && CountLineEnd(g, Next(p, dir).value, dir, end).Ok?))
  {
    match Next(p, dir)
    case Err(_) =>
    case Ok(q) =>
      match Get(g, q)
      case None =>
      case Some(d) => DiskIsOneOfTwo(end, d);
  }

  /** One step of the sandwich helper: p is empty, the next cell holds the
      other colour, and the end helper succeeds from there. */
  lemma SandwichedStep(g: Grid, p: Position, dir: Direction, end: Disk)
    ensures CountLineSandwiched(g, p, dir, end).Ok? <==>
              && IsEmpty(g, p)
              && Next(p, dir).Ok?
              && Get(g, Next(p, dir).value) == Some(Reverse(end))
              && CountLineEnd(g, Next(p, dir).value, dir, end).Ok?
  {
    match Next(p, dir)
    case Err(_) =>
    case Ok(q) =>
      match Get(g, q)
      case None =>
      case Some(d) => DiskIsOneOfTwo(end, d);
  }

  /** The end helper succeeds exactly on a closed walk. */
  lemma {:induction false} ClosedWalkIff(g: Grid, p: Position, dir: Direction, end: Disk, own: set<nat>, others: set<nat>)
    requires Depicts(g, end, own, others)
    ensures CountLineEnd(g, p, dir, end).Ok? <==> ClosedWalk(p.x, p.y, Tuple(dir).0, Tuple(dir).1, own, others)
    decreases |Ray(p, dir)|
  {
    EndStep(g, p, dir, end);
    match Next(p, dir)
    case Err(_) =>
    case Ok(q) =>
      RayShrinks(p, dir, q);
      ClosedWalkIff(g, q, dir, end, own, others);
      CellOfLayout(g, q, end, own, others);
  }

  /** A direction counts exactly when the cell is empty and flanks a line there. */
  lemma FlanksIff(g: Grid, q: Position, dir: Direction, end: Disk, own: set<nat>, others: set<nat>)
    requires Depicts(g, end, own, others)
    ensures CountLineSandwiched(g, q, dir, end).Ok? <==>
              IsEmpty(g, q) && Flanks(q.x, q.y, Tuple(dir).0, Tuple(dir).1, own, others)
  {
    SandwichedStep(g, q, dir, end);
    match Next(q, dir)
    case Err(_) =>
    case Ok(n) => FlanksThrough(g, q, dir, n, end, own, others);
  }

  /** Past the neighbour n: a disk of the other colour there and a closed walk
      beyond it. */
  lemma FlanksThrough(g: Grid, q: Position, dir: Direction, n: Position, end: Disk, own: set<nat>, others: set<nat>)
    requires Depicts(g, end, own, others) && Next(q, dir) == Ok(n)
    ensures (Get(g, n) == Some(Reverse(end)) && CountLineEnd(g, n, dir, end).Ok?) <==>
              Flanks(q.x, q.y, Tuple(dir).0, Tuple(dir).1, own, others)
  {
    ClosedWalkIff(g, n, dir, end, own, others);
    CellOfLayout(g, n, end, own, others);
  }

  /** The content of one cell of a described grid. */
  lemma CellOfLayout(g: Grid, q: Position, end: Disk, own: set<nat>, others: set<nat>)
    requires Depicts(g, end, own, others)
    ensures Get(g, q) == Some(end) <==> GetIndex(q) in own
    ensures Get(g, q) == Some(Reverse(end)) <==> GetIndex(q) in others
    ensures IsEmpty(g, q) <==> GetIndex(q) !in own && GetIndex(q) !in others
  {
    var i := GetIndex(q);
    assert (g[i] == Some(end) <==> i in own) && (g[i] == Some(Reverse(end)) <==> i in others);
    match g[i]
    case None =>
    case Some(d) => DiskIsOneOfTwo(end, d);
  }

  /** `can_place` is the walk test on the description. */
  lemma PlayableIff(g: Grid, q: Position, end: Disk, own: set<nat>, others: set<nat>)
    requires Depicts(g, end, own, others)
    ensures CanPlace(g, q, end) <==> Playable(q.x, q.y, own, others)
  {
    CellOfLayout(g, q, end, own, others);
    SomeDirectionCounts(g, q, end);
    FirstFourFlank(g, q, end, own, others);
    LastFourFlank(g, q, end, own, others);
  }

  /** `Up` to `DownRight`: some direction counts exactly when the cell is empty
      and flanks a line in it. */
  lemma FirstFourFlank(g: Grid, q: Position, end: Disk, own: set<nat>, others: set<nat>)
    requires Depicts(g, end, own, others)
    ensures (|| CountLineSandwiched(g, q, Up, end).Ok? || CountLineSandwiched(g, q, UpRight, end).Ok?
             || CountLineSandwiched(g, q, Right, end).Ok? || CountLineSandwiched(g, q, DownRight, end).Ok?) <==>
            IsEmpty(g, q)
            && (|| Flanks(q.x, q.y, 0, 1, own, others) || Flanks(q.x, q.y, 1, 1, own, others)
                || Flanks(q.x, q.y, 1, 0, own, others) || Flanks(q.x, q.y, 1, -1, own, others))
  {
    assert Tuple(Up) == (0, 1);
    FlanksIff(g, q, Up, end, own, others);
    assert Tuple(UpRight) == (1, 1);
    FlanksIff(g, q, UpRight, end, own, others);
    assert Tuple(Right) == (1, 0);
    FlanksIff(g, q, Right, end, own, others);
    assert Tuple(DownRight) == (1, -1);
    FlanksIff(g, q, DownRight, end, own, others);
  }

  /** `Down` to `UpLeft`, likewise. */
  lemma LastFourFlank(g: Grid, q: Position, end: Disk, own: set<nat>, others: set<nat>)
    requires Depicts(g, end, own, others)
    ensures (|| CountLineSandwiched(g, q, Down, end).Ok? || CountLineSandwiched(g, q, DownLeft, end).Ok?
             || CountLineSandwiched(g, q, Left, end).Ok? || CountLineSandwiched(g, q, UpLeft, end).Ok?) <==>
            IsEmpty(g, q)
            && (|| Flanks(q.x, q.y, 0, -1, own, others) || Flanks(q.x, q.y, -1, -1, own, others)
                || Flanks(q.x, q.y, -1, 0, own, others) || Flanks(q.x, q.y, -1, 1, own, others))
  {
    assert Tuple(Down) == (0, -1);
    FlanksIff(g, q, Down, end, own, others);
    assert Tuple(DownLeft) == (-1, -1);
    FlanksIff(g, q, DownLeft, end, own, others);
    assert Tuple(Left) == (-1, 0);
    FlanksIff(g, q, Left, end, own, others);
    assert Tuple(UpLeft) == (-1, 1);
    FlanksIff(g, q, UpLeft, end, own, others);
  }

  /** `can_place` with the eight directions written out. */
  lemma SomeDirectionCounts(g: Grid, q: Position, end: Disk)
    ensures CanPlace(g, q, end) <==>
              IsEmpty(g, q)
              && (|| CountLineSandwiched(g, q, Up, end).Ok? || CountLineSandwiched(g, q, UpRight, end).Ok?
                  || CountLineSandwiched(g, q, Right, end).Ok? || CountLineSandwiched(g, q, DownRight, end).Ok?
                  || CountLineSandwiched(g, q, Down, end).Ok? || CountLineSandwiched(g, q, DownLeft, end).Ok?
                  || CountLineSandwiched(g, q, Left, end).Ok? || CountLineSandwiched(g, q, UpLeft, end).Ok?)
  {
    FlipsOfEight(g, q, end);
  }

  /** The legal moves of a described grid are its playable cells. */
  lemma LegalMovesOfLayout(g: Grid, end: Disk, own: set<nat>, others: set<nat>)
    requires Depicts(g, end, own, others)
    ensures forall q: Position :: q in LegalMoves(g, end) <==> Playable(q.x, q.y, own, others)
  {
    forall q: Position ensures q in LegalMoves(g, end) <==> Playable(q.x, q.y, own, others) {
      PlayableIff(g, q, end, own, others);
    }
  }

  /** A set of positions is the legal moves of a described grid when it holds
      exactly its playable cells. */
  lemma LegalMovesAre(g: Grid, end: Disk, own: set<nat>, others: set<nat>, moves: set<Position>)
    requires Depicts(g, end, own, others)
    requires forall q: Position :: q in moves <==> Playable(q.x, q.y, own, others)
    ensures LegalMoves(g, end) == moves
  {
    LegalMovesOfLayout(g, end, own, others);
  }

  /** The disks of each colour on a described grid are as many as its cells
      in the description. */
  lemma CountDisksOfLayout(g: Grid, end: Disk, own: set<nat>, others: set<nat>)
    requires Depicts(g, end, own, others)
    ensures CountDisks(g, end) == |own|
    ensures CountDisks(g, Reverse(end)) == |others|
  {
    CountDisksIsCardinality(g, end);
    CountDisksIsCardinality(g, Reverse(end));
    assert Holding(g, end) == own;
    assert Holding(g, Reverse(end)) == others;
  }
}
