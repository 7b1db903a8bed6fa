/** Worked positions from the unit tests of src/core/board/board.rs. A grid is
    written as the empty grid with the test's disks put on it, cell
    `8 * y + x` for (x, y). */
module Scenarios {
  import opened Wrappers
  import opened Disks
  import opened Positions
  import opened BoardRules

  /** A move that captures along one direction only: the count is that
      line's count and the turned cells are that line's run. */
  lemma SingleLineMove(g: Grid, p: Position, end: Disk, dir0: Direction, n: nat)
    requires IsEmpty(g, p) && CountLineSandwiched(g, p, dir0, end) == Ok(n)
    requires forall dir: Direction | dir != dir0 :: CountLineSandwiched(g, p, dir, end).Err?
    ensures CountTurnDisks(g, p, end) == Ok(n)
    ensures Captured(g, p, end) == LineRun(g, p, dir0, end)
  {
    AllDirectionsComplete();
    assert dir0 in AllDirections;
    var j :| 0 <= j < 8 && AllDirections[j] == dir0;
    SingleLineFlips(g, p, end, j, 8);
    SingleLineCaptured(g, p, end, j, 8);
  }

  /** The sum over the first k directions when only direction j contributes. */
  lemma {:induction false} SingleLineFlips(g: Grid, p: Position, end: Disk, j: nat, k: nat)
    requires j < 8 && k <= 8
    requires forall dir: Direction | dir != AllDirections[j] :: CountLineSandwiched(g, p, dir, end).Err?
    ensures FlipsUpTo(g, p, end, k) == if j < k then LineFlips(g, p, AllDirections[j], end) else 0
  {
    if k > 0 {
      SingleLineFlips(g, p, end, j, k - 1);
      if k - 1 != j {
        OtherDirectionFails(g, p, end, j, k - 1);
      }
    }
  }

  /** The cells turned by the first k directions when only direction j contributes. */
  lemma {:induction false} SingleLineCaptured(g: Grid, p: Position, end: Disk, j: nat, k: nat)
    requires j < 8 && k <= 8
    requires forall dir: Direction | dir != AllDirections[j] :: CountLineSandwiched(g, p, dir, end).Err?
    ensures CapturedUpTo(g, p, end, k) == if j < k then LineRun(g, p, AllDirections[j], end) else {}
  {
    if k > 0 {
      SingleLineCaptured(g, p, end, j, k - 1);
      var before := CapturedUpTo(g, p, end, k - 1);
      var run := LineRun(g, p, AllDirections[k - 1], end);
      assert CapturedUpTo(g, p, end, k) == before + run;
      if k - 1 != j {
        OtherDirectionFails(g, p, end, j, k - 1);
        UnionOfNothing(before, run);
      } else {
        UnionOfNothing(run, before);
      }
    }
  }

  /** Helper: adding an empty set to a set, on either side, gives that set. */
  lemma UnionOfNothing(a: set<Index>, b: set<Index>)
    requires b == {}
    ensures a + b == a && b + a == a
  {
  }

  /** Helper: direction i, other than j, fails. */
  lemma OtherDirectionFails(g: Grid, p: Position, end: Disk, j: nat, i: nat)
    requires j < 8 && i < 8 && i != j
    requires forall dir: Direction | dir != AllDirections[j] :: CountLineSandwiched(g, p, dir, end).Err?
    ensures CountLineSandwiched(g, p, AllDirections[i], end).Err?
    ensures LineFlips(g, p, AllDirections[i], end) == 0
    ensures LineRun(g, p, AllDirections[i], end) == {}
  {
    AllDirectionsComplete();
    assert AllDirections[i] != AllDirections[j];
  }

  /** A line whose first cell is off the board, empty or of the mover's
      colour turns nothing. */
  lemma BlockedLine(g: Grid, p: Position, dir: Direction, end: Disk)
    requires Next(p, dir).Err? || Get(g, Next(p, dir).value) != Some(Reverse(end))
    ensures CountLineSandwiched(g, p, dir, end).Err?
  {
  }

  /** Painting a union is painting one part and then the other. */
  lemma PaintUnion(g: Grid, a: set<Index>, b: set<Index>, d: Disk)
    ensures Paint(g, a + b, d) == Paint(Paint(g, a, d), b, d)
  {
    assert forall i | 0 <= i < 64 :: Paint(g, a + b, d)[i] == Paint(Paint(g, a, d), b, d)[i];
  }

  /** Painting one cell writes it. */
  lemma PaintOne(g: Grid, a: Index, d: Disk)
    ensures Paint(g, {a}, d) == g[a := Some(d)]
  {
    assert forall i | 0 <= i < 64 :: Paint(g, {a}, d)[i] == g[a := Some(d)][i];
  }

  /** Painting a pair of cells writes each of them. */
  lemma PaintPair(g: Grid, a: Index, b: Index, d: Disk)
    ensures Paint(g, {a, b}, d) == g[a := Some(d)][b := Some(d)]
  {
    var h := g[a := Some(d)][b := Some(d)];
    assert forall i | 0 <= i < 64 :: Paint(g, {a, b}, d)[i] == h[i];
  }

  /** Painting three cells writes each of them. */
  lemma PaintThree(g: Grid, a: Index, b: Index, c: Index, d: Disk)
    ensures Paint(g, {a, b, c}, d) == g[a := Some(d)][b := Some(d)][c := Some(d)]
  {
    var h := g[a := Some(d)][b := Some(d)][c := Some(d)];
    assert forall i | 0 <= i < 64 :: Paint(g, {a, b, c}, d)[i] == h[i];
  }

  /** Painting four cells writes each of them. */
  lemma PaintFour(g: Grid, a: Index, b: Index, c: Index, e: Index, d: Disk)
    ensures Paint(g, {a, b, c} + {e}, d) == g[a := Some(d)][b := Some(d)][c := Some(d)][e := Some(d)]
  {
    var h := g[a := Some(d)][b := Some(d)][c := Some(d)][e := Some(d)];
    assert forall i | 0 <= i < 64 :: Paint(g, {a, b, c} + {e}, d)[i] == h[i];
  }

  /** Around (3, 2), every neighbour but (3, 3) is empty: no line but the
      column can count. */
  lemma QuietAroundColumnTop(g: Grid, d: Disk)
    requires g[28] == None && g[20] == None && g[12] == None && g[11] == None
    requires g[10] == None && g[18] == None && g[26] == None
    ensures forall dir: Direction | dir != Up :: CountLineSandwiched(g, Point(3, 2), dir, d).Err?
  {
    QuietAroundColumnTopEast(g, d);
    QuietAroundColumnTopWest(g, d);
  }

  /** Helper: the eastern and straight directions of `QuietAroundColumnTop`. */
  lemma QuietAroundColumnTopEast(g: Grid, d: Disk)
    requires g[28] == None && g[20] == None && g[12] == None && g[11] == None
    requires g[10] == None && g[18] == None && g[26] == None
    ensures CountLineSandwiched(g, Point(3, 2), UpRight, d).Err?
    ensures CountLineSandwiched(g, Point(3, 2), Right, d).Err?
    ensures CountLineSandwiched(g, Point(3, 2), DownRight, d).Err?
    ensures CountLineSandwiched(g, Point(3, 2), Down, d).Err?
  {
    var p: Position := Point(3, 2);
    BlockedLine(g, p, UpRight, d);
    BlockedLine(g, p, Right, d);
    BlockedLine(g, p, DownRight, d);
    BlockedLine(g, p, Down, d);
  }

  /** Helper: the western directions of `QuietAroundColumnTop`. */
  lemma QuietAroundColumnTopWest(g: Grid, d: Disk)
    requires g[28] == None && g[20] == None && g[12] == None && g[11] == None
    requires g[10] == None && g[18] == None && g[26] == None
    ensures CountLineSandwiched(g, Point(3, 2), DownLeft, d).Err?
    ensures CountLineSandwiched(g, Point(3, 2), Left, d).Err?
    ensures CountLineSandwiched(g, Point(3, 2), UpLeft, d).Err?
  {
    var p: Position := Point(3, 2);
    BlockedLine(g, p, DownLeft, d);
    BlockedLine(g, p, Left, d);
    BlockedLine(g, p, UpLeft, d);
  }

  /** Around (3, 1), every neighbour but (3, 2) is empty. */
  lemma QuietAroundColumnHead(g: Grid, d: Disk)
    requires g[20] == None && g[12] == None && g[4] == None && g[3] == None
    requires g[2] == None && g[10] == None && g[18] == None
    ensures forall dir: Direction | dir != Up :: CountLineSandwiched(g, Point(3, 1), dir, d).Err?
  {
    QuietAroundColumnHeadEast(g, d);
    QuietAroundColumnHeadWest(g, d);
  }

  /** Helper: the eastern and straight directions of `QuietAroundColumnHead`. */
  lemma QuietAroundColumnHeadEast(g: Grid, d: Disk)
    requires g[20] == None && g[12] == None && g[4] == None && g[3] == None
    requires g[2] == None && g[10] == None && g[18] == None
    ensures CountLineSandwiched(g, Point(3, 1), UpRight, d).Err?
    ensures CountLineSandwiched(g, Point(3, 1), Right, d).Err?
    ensures CountLineSandwiched(g, Point(3, 1), DownRight, d).Err?
    ensures CountLineSandwiched(g, Point(3, 1), Down, d).Err?
  {
    var p: Position := Point(3, 1);
    BlockedLine(g, p, UpRight, d);
    BlockedLine(g, p, Right, d);
    BlockedLine(g, p, DownRight, d);
    BlockedLine(g, p, Down, d);
  }

  /** Helper: the western directions of `QuietAroundColumnHead`. */
  lemma QuietAroundColumnHeadWest(g: Grid, d: Disk)
    requires g[20] == None && g[12] == None && g[4] == None && g[3] == None
    requires g[2] == None && g[10] == None && g[18] == None
    ensures CountLineSandwiched(g, Point(3, 1), DownLeft, d).Err?
    ensures CountLineSandwiched(g, Point(3, 1), Left, d).Err?
    ensures CountLineSandwiched(g, Point(3, 1), UpLeft, d).Err?
  {
    var p: Position := Point(3, 1);
    BlockedLine(g, p, DownLeft, d);
    BlockedLine(g, p, Left, d);
    BlockedLine(g, p, UpLeft, d);
  }

  /** Around (3, 6), every neighbour but (3, 5) is empty. */
  lemma QuietAroundColumnBottom(g: Grid, d: Disk)
    requires g[59] == None && g[60] == None && g[52] == None && g[44] == None
    requires g[42] == None && g[50] == None && g[58] == None
    ensures forall dir: Direction | dir != Down :: CountLineSandwiched(g, Point(3, 6), dir, d).Err?
  {
    QuietAroundColumnBottomEast(g, d);
    QuietAroundColumnBottomWest(g, d);
  }

  /** Helper: the eastern and straight directions of `QuietAroundColumnBottom`. */
  lemma QuietAroundColumnBottomEast(g: Grid, d: Disk)
    requires g[59] == None && g[60] == None && g[52] == None && g[44] == None
    requires g[42] == None && g[50] == None && g[58] == None
    ensures CountLineSandwiched(g, Point(3, 6), Up, d).Err?
    ensures CountLineSandwiched(g, Point(3, 6), UpRight, d).Err?
    ensures CountLineSandwiched(g, Point(3, 6), Right, d).Err?
    ensures CountLineSandwiched(g, Point(3, 6), DownRight, d).Err?
  {
    var p: Position := Point(3, 6);
    BlockedLine(g, p, Up, d);
    BlockedLine(g, p, UpRight, d);
    BlockedLine(g, p, Right, d);
    BlockedLine(g, p, DownRight, d);
  }

  /** Helper: the western directions of `QuietAroundColumnBottom`. */
  lemma QuietAroundColumnBottomWest(g: Grid, d: Disk)
    requires g[59] == None && g[60] == None && g[52] == None && g[44] == None
    requires g[42] == None && g[50] == None && g[58] == None
    ensures CountLineSandwiched(g, Point(3, 6), DownLeft, d).Err?
    ensures CountLineSandwiched(g, Point(3, 6), Left, d).Err?
    ensures CountLineSandwiched(g, Point(3, 6), UpLeft, d).Err?
  {
    var p: Position := Point(3, 6);
    BlockedLine(g, p, DownLeft, d);
    BlockedLine(g, p, Left, d);
    BlockedLine(g, p, UpLeft, d);
  }

  /** Around (5, 6), every neighbour but (5, 7) is empty. */
  lemma QuietAroundEdge(g: Grid, d: Disk)
    requires g[62] == None && g[54] == None && g[46] == None && g[45] == None
    requires g[44] == None && g[52] == None && g[60] == None
    ensures forall dir: Direction | dir != Up :: CountLineSandwiched(g, Point(5, 6), dir, d).Err?
  {
    QuietAroundEdgeEast(g, d);
    QuietAroundEdgeWest(g, d);
  }

  /** Helper: the eastern and straight directions of `QuietAroundEdge`. */
  lemma QuietAroundEdgeEast(g: Grid, d: Disk)
    requires g[62] == None && g[54] == None && g[46] == None && g[45] == None
    requires g[44] == None && g[52] == None && g[60] == None
    ensures CountLineSandwiched(g, Point(5, 6), UpRight, d).Err?
    ensures CountLineSandwiched(g, Point(5, 6), Right, d).Err?
    ensures CountLineSandwiched(g, Point(5, 6), DownRight, d).Err?
    ensures CountLineSandwiched(g, Point(5, 6), Down, d).Err?
  {
    var p: Position := Point(5, 6);
    BlockedLine(g, p, UpRight, d);
    BlockedLine(g, p, Right, d);
    BlockedLine(g, p, DownRight, d);
    BlockedLine(g, p, Down, d);
  }

  /** Helper: the western directions of `QuietAroundEdge`. */
  lemma QuietAroundEdgeWest(g: Grid, d: Disk)
    requires g[62] == None && g[54] == None && g[46] == None && g[45] == None
    requires g[44] == None && g[52] == None && g[60] == None
    ensures CountLineSandwiched(g, Point(5, 6), DownLeft, d).Err?
    ensures CountLineSandwiched(g, Point(5, 6), Left, d).Err?
    ensures CountLineSandwiched(g, Point(5, 6), UpLeft, d).Err?
  {
    var p: Position := Point(5, 6);
    BlockedLine(g, p, DownLeft, d);
    BlockedLine(g, p, Left, d);
    BlockedLine(g, p, UpLeft, d);
  }

  /** A light disk at (3, 3) next to a dark one at (3, 4). */
  const OneLine: Grid := EmptyGrid[27 := Some(Light)][35 := Some(Dark)]

  /** The column from (3, 2) with a light disk at (3, 3) and a dark one at
      (3, 4): dark closes one light disk. */
  lemma OneLineColumn(g: Grid)
    requires g[19] == None && g[27] == Some(Light) && g[35] == Some(Dark)
    ensures CountLineSandwiched(g, Point(3, 2), Up, Dark) == Ok(1)
    ensures LineRun(g, Point(3, 2), Up, Dark) == {27}
  {
    EndCountZero(g, Point(3, 3), Up, Point(3, 4), Dark);
    RunOfOne(g, Point(3, 2), Up, Point(3, 3), Dark);
  }

  /** A line of one disk of the other colour, closed right after it. */
  lemma RunOfOne(g: Grid, p: Position, dir: Direction, q1: Position, end: Disk)
    requires IsEmpty(g, p) && Next(p, dir) == Ok(q1) && Get(g, q1) == Some(Reverse(end))
    requires CountLineEnd(g, q1, dir, end) == Ok(0)
    ensures CountLineSandwiched(g, p, dir, end) == Ok(1)
    ensures LineRun(g, p, dir, end) == {GetIndex(q1)}
  {
    LineExtends(g, p, dir, q1, end, 0);
    EndClosed(g, q1, dir, Next(q1, dir).value, end);
    LineRunStep(g, p, dir, q1, end);
    OneCell(LineRun(g, p, dir, end), EndRun(g, q1, dir, end), GetIndex(q1));
  }

  /** `test_count_turn_disks1` and `test_place1`: dark at (3, 2) turns the
      light disk at (3, 3), and the column then holds three dark disks. */
  lemma PlaceOneScenario()
    ensures CountTurnDisks(OneLine, Point(3, 2), Dark) == Ok(1)
    ensures Placed(OneLine, Point(3, 2), Dark) == OneLine[27 := Some(Dark)][19 := Some(Dark)]
  {
    OneLineMove(OneLine);
  }

  /** Helper: the move of `PlaceOneScenario` on any grid with the same cells
      around (3, 2). */
  lemma OneLineMove(g: Grid)
    requires g[19] == None && g[27] == Some(Light) && g[35] == Some(Dark)
    requires g[28] == None && g[20] == None && g[12] == None && g[11] == None
    requires g[10] == None && g[18] == None && g[26] == None
    ensures CountTurnDisks(g, Point(3, 2), Dark) == Ok(1)
    ensures Placed(g, Point(3, 2), Dark) == g[27 := Some(Dark)][19 := Some(Dark)]
  {
    OneLineColumn(g);
    QuietAroundColumnTop(g, Dark);
    SingleLineMove(g, Point(3, 2), Dark, Up, 1);
    PaintPair(g, 27, 19, Dark);
  }

  /** Three light disks at (3, 3), (3, 4), (3, 5) closed by a dark one at (3, 6). */
  const ThreeLine: Grid := EmptyGrid[27 := Some(Light)][35 := Some(Light)][43 := Some(Light)][51 := Some(Dark)]

  /** A line of three disks of the other colour, closed after the third. */
  lemma RunOfThree(g: Grid, p: Position, dir: Direction, q1: Position, q2: Position, q3: Position, end: Disk)
    requires IsEmpty(g, p) && Next(p, dir) == Ok(q1) && Next(q1, dir) == Ok(q2) && Next(q2, dir) == Ok(q3)
    requires Get(g, q1) == Some(Reverse(end)) && Get(g, q2) == Some(Reverse(end)) && Get(g, q3) == Some(Reverse(end))
    requires CountLineEnd(g, q3, dir, end) == Ok(0)
    ensures CountLineSandwiched(g, p, dir, end) == Ok(3)
    ensures LineRun(g, p, dir, end) == {GetIndex(q1), GetIndex(q2), GetIndex(q3)}
  {
    RunOfThreeCounts(g, p, dir, q1, q2, q3, end);
    RunOfThreeCells(g, p, dir, q1, q2, q3, end);
  }

  /** Helper: the counts along a line of three. */
  lemma RunOfThreeCounts(g: Grid, p: Position, dir: Direction, q1: Position, q2: Position, q3: Position, end: Disk)
    requires IsEmpty(g, p) && Next(p, dir) == Ok(q1) && Next(q1, dir) == Ok(q2) && Next(q2, dir) == Ok(q3)
    requires Get(g, q1) == Some(Reverse(end)) && Get(g, q2) == Some(Reverse(end)) && Get(g, q3) == Some(Reverse(end))
    requires CountLineEnd(g, q3, dir, end) == Ok(0)
    ensures CountLineEnd(g, q2, dir, end) == Ok(1)
    ensures CountLineEnd(g, q1, dir, end) == Ok(2)
    ensures CountLineSandwiched(g, p, dir, end) == Ok(3)
  {
    EndExtends(g, q2, dir, q3, end, 0);
    EndExtends(g, q1, dir, q2, end, 1);
    LineExtends(g, p, dir, q1, end, 2);
  }

  /** Helper: the cells turned along a line of three. */
  lemma RunOfThreeCells(g: Grid, p: Position, dir: Direction, q1: Position, q2: Position, q3: Position, end: Disk)
    requires IsEmpty(g, p) && Next(p, dir) == Ok(q1) && Next(q1, dir) == Ok(q2) && Next(q2, dir) == Ok(q3)
    requires Get(g, q1) == Some(Reverse(end)) && Get(g, q2) == Some(Reverse(end)) && Get(g, q3) == Some(Reverse(end))
    requires CountLineEnd(g, q3, dir, end) == Ok(0)
    requires CountLineEnd(g, q2, dir, end) == Ok(1) && CountLineEnd(g, q1, dir, end) == Ok(2)
    ensures LineRun(g, p, dir, end) == {GetIndex(q1), GetIndex(q2), GetIndex(q3)}
  {
    EndClosed(g, q3, dir, Next(q3, dir).value, end);
    EndRunStep(g, q2, dir, q3, end);
    EndRunStep(g, q1, dir, q2, end);
    LineRunStep(g, p, dir, q1, end);
    ThreeCells(LineRun(g, p, dir, end), EndRun(g, q1, dir, end), EndRun(g, q2, dir, end), EndRun(g, q3, dir, end),
               GetIndex(q1), GetIndex(q2), GetIndex(q3));
  }

  /** Helper: one cell added to nothing. */
  lemma OneCell(s1: set<Index>, s2: set<Index>, i1: Index)
    requires s2 == {} && s1 == {i1} + s2
    ensures s1 == {i1}
  {
  }

  /** Helper: three cells added one by one to nothing. */
  lemma ThreeCells(s1: set<Index>, s2: set<Index>, s3: set<Index>, s4: set<Index>, i1: Index, i2: Index, i3: Index)
    requires s4 == {} && s3 == {i3} + s4 && s2 == {i2} + s3 && s1 == {i1} + s2
    ensures s1 == {i1, i2, i3}
  {
  }

  /** The column from (3, 2) over three light disks closed by a dark one at
      (3, 6): dark closes three light disks. */
  lemma ThreeLineColumn(g: Grid)
    requires g[19] == None && g[27] == Some(Light) && g[35] == Some(Light) && g[43] == Some(Light)
    requires g[51] == Some(Dark)
    ensures CountLineSandwiched(g, Point(3, 2), Up, Dark) == Ok(3)
    ensures LineRun(g, Point(3, 2), Up, Dark) == {27, 35, 43}
  {
    EndCountZero(g, Point(3, 5), Up, Point(3, 6), Dark);
    RunOfThree(g, Point(3, 2), Up, Point(3, 3), Point(3, 4), Point(3, 5), Dark);
  }

  /** `test_count_turn_disks2` and `test_place2`: dark at (3, 2) turns all three
      light disks, leaving five dark disks in the column. */
  lemma PlaceThreeScenario()
    ensures CountTurnDisks(ThreeLine, Point(3, 2), Dark) == Ok(3)
    ensures Placed(ThreeLine, Point(3, 2), Dark) ==
              ThreeLine[27 := Some(Dark)][35 := Some(Dark)][43 := Some(Dark)][19 := Some(Dark)]
  {
    ThreeLineColumn(ThreeLine);
    QuietAroundColumnTop(ThreeLine, Dark);
    SingleLineMove(ThreeLine, Point(3, 2), Dark, Up, 3);
    PaintFour(ThreeLine, 27, 35, 43, 19, Dark);
  }

  /** Three light disks at (3, 2), (3, 3), (3, 4), a dark one at (3, 5) and two
      more light disks below it, at (3, 6) and (3, 7). */
  const SplitLine: Grid :=
    EmptyGrid[19 := Some(Light)][27 := Some(Light)][35 := Some(Light)][43 := Some(Dark)]
             [51 := Some(Light)][59 := Some(Light)]

  /** The column from (3, 1): dark closes the first three light disks at (3, 5). */
  lemma SplitLineColumn(g: Grid)
    requires g[11] == None && g[19] == Some(Light) && g[27] == Some(Light) && g[35] == Some(Light)
    requires g[43] == Some(Dark)
    ensures CountLineSandwiched(g, Point(3, 1), Up, Dark) == Ok(3)
    ensures LineRun(g, Point(3, 1), Up, Dark) == {19, 27, 35}
  {
    EndCountZero(g, Point(3, 4), Up, Point(3, 5), Dark);
    RunOfThree(g, Point(3, 1), Up, Point(3, 2), Point(3, 3), Point(3, 4), Dark);
  }

  /** `test_count_turn_disks3` and `test_place3`: dark at (3, 1) turns the three
      light disks up to its own disk at (3, 5); (3, 1) becomes dark and every
      other cell, the two light disks beyond (3, 5) among them, stays. */
  lemma PlaceSplitScenario()
    ensures CountTurnDisks(SplitLine, Point(3, 1), Dark) == Ok(3)
    ensures Placed(SplitLine, Point(3, 1), Dark) ==
              SplitLine[19 := Some(Dark)][27 := Some(Dark)][35 := Some(Dark)][11 := Some(Dark)]
  {
    SplitLineColumn(SplitLine);
    QuietAroundColumnHead(SplitLine, Dark);
    SingleLineMove(SplitLine, Point(3, 1), Dark, Up, 3);
    PaintFour(SplitLine, 19, 27, 35, 11, Dark);
  }

  /** The same three light disks with nothing closing the column. */
  const OpenLine: Grid := EmptyGrid[27 := Some(Light)][35 := Some(Light)][43 := Some(Light)]

  /** The column of `OpenLine` read from (3, 2) towards larger y is not closed. */
  lemma OpenColumnUp(g: Grid, d: Disk)
    requires g[19] == None && g[27] == Some(Light) && g[35] == Some(Light) && g[43] == Some(Light)
    requires g[51] == None
    ensures CountLineSandwiched(g, Point(3, 2), Up, d).Err?
  {
    var p: Position := Point(3, 2);
    var q1: Position := Point(3, 3);
    var q2: Position := Point(3, 4);
    var q3: Position := Point(3, 5);
    if d == Dark {
      assert Next(q3, Up) == Ok(Point(3, 6));
      EndOpen(g, q3, Up, d);
      EndBroken(g, q2, Up, q3, d);
      EndBroken(g, q1, Up, q2, d);
      LineBroken(g, p, Up, q1, d);
    } else {
      BlockedLine(g, p, Up, d);
    }
  }

  /** Nor is it closed when read from (3, 6) towards smaller y. */
  lemma OpenColumnDown(g: Grid, d: Disk)
    requires g[19] == None && g[27] == Some(Light) && g[35] == Some(Light) && g[43] == Some(Light)
    requires g[51] == None
    ensures CountLineSandwiched(g, Point(3, 6), Down, d).Err?
  {
    var p: Position := Point(3, 6);
    var q1: Position := Point(3, 5);
    var q2: Position := Point(3, 4);
    var q3: Position := Point(3, 3);
    if d == Dark {
      assert Next(q3, Down) == Ok(Point(3, 2));
      EndOpen(g, q3, Down, d);
      EndBroken(g, q2, Down, q3, d);
      EndBroken(g, q1, Down, q2, d);
      LineBroken(g, p, Down, q1, d);
    } else {
      BlockedLine(g, p, Down, d);
    }
  }

  /** `test_count_turn_disks_err1` and `test_place_err1` at (3, 2): an unclosed
      line turns nothing for dark, and light's own disks are no line for light.
      The three cells of the column are occupied for both colours. */
  lemma OpenLineTopScenario(d: Disk)
    ensures CountTurnDisks(OpenLine, Point(3, 2), d) == Err(NoDiskToFlip)
    ensures CountTurnDisks(OpenLine, Point(3, 3), d) == Err(OccupiedCell)
    ensures CountTurnDisks(OpenLine, Point(3, 4), d) == Err(OccupiedCell)
    ensures CountTurnDisks(OpenLine, Point(3, 5), d) == Err(OccupiedCell)
  {
    OpenColumnUp(OpenLine, d);
    QuietAroundColumnTop(OpenLine, d);
    NoLineOfEight(OpenLine, Point(3, 2), d);
  }

  /** The same at the other end of the column, (3, 6). */
  lemma OpenLineBottomScenario(d: Disk)
    ensures CountTurnDisks(OpenLine, Point(3, 6), d) == Err(NoDiskToFlip)
  {
    OpenColumnDown(OpenLine, d);
    QuietAroundColumnBottom(OpenLine, d);
    NoLineOfEight(OpenLine, Point(3, 6), d);
  }

  /** A single dark disk on the bottom row, at (5, 7). */
  const EdgeDisk: Grid := EmptyGrid[61 := Some(Dark)]

  /** The line from (5, 6) runs into the edge after one dark disk. */
  lemma EdgeColumn(g: Grid)
    requires g[53] == None && g[61] == Some(Dark)
    ensures CountLineSandwiched(g, Point(5, 6), Up, Light).Err?
  {
    var p: Position := Point(5, 6);
    var q: Position := Point(5, 7);
    EndOpen(g, q, Up, Light);
    LineBroken(g, p, Up, q, Light);
  }

  /** `test_count_turn_disks_err3` and `test_place_err3`: the line from (5, 6)
      towards the edge is never closed, so light cannot play there. */
  lemma EdgeScenario()
    ensures CountTurnDisks(EdgeDisk, Point(5, 6), Light) == Err(NoDiskToFlip)
  {
    EdgeColumn(EdgeDisk);
    QuietAroundEdge(EdgeDisk, Light);
    NoLineOfEight(EdgeDisk, Point(5, 6), Light);
  }

  /** `test_count_disks1` and `test_count_legal_movs1`: a new board holds no
      disk and offers no move, for either colour. */
  lemma EmptyBoardScenario(d: Disk)
    ensures CountDisks(EmptyGrid, d) == 0
    ensures |LegalMoves(EmptyGrid, d)| == 0
  {
    CountDisksIsCardinality(EmptyGrid, d);
    assert Holding(EmptyGrid, d) == {};
    EmptyGridHasNoLegalMove(d);
  }

  /** The count of a move on an empty cell from the eight directions' counts. */
  lemma TurnCountOfEight(g: Grid, p: Position, end: Disk, n: nat)
    requires IsEmpty(g, p) && 0 < n
    requires n == LineFlips(g, p, Up, end) + LineFlips(g, p, UpRight, end) + LineFlips(g, p, Right, end)
                 + LineFlips(g, p, DownRight, end) + LineFlips(g, p, Down, end) + LineFlips(g, p, DownLeft, end)
                 + LineFlips(g, p, Left, end) + LineFlips(g, p, UpLeft, end)
    ensures CountTurnDisks(g, p, end) == Ok(n)
  {
    FlipsOfEight(g, p, end);
  }

  /** The cells a move turns, written out over the eight directions in the
      order `Direction::iter()` yields them. */
  lemma CapturedOfEight(g: Grid, p: Position, end: Disk)
    ensures Captured(g, p, end) ==
              LineRun(g, p, Up, end) + LineRun(g, p, UpRight, end) + LineRun(g, p, Right, end)
              + LineRun(g, p, DownRight, end) + LineRun(g, p, Down, end) + LineRun(g, p, DownLeft, end)
              + LineRun(g, p, Left, end) + LineRun(g, p, UpLeft, end)
  {
    var d := AllDirections;
    assert d[0] == Up && d[1] == UpRight && d[2] == Right && d[3] == DownRight;
    assert d[4] == Down && d[5] == DownLeft && d[6] == Left && d[7] == UpLeft;
    CapturedStep(g, p, end, 1);
    CapturedStep(g, p, end, 2);
    CapturedStep(g, p, end, 3);
    CapturedStep(g, p, end, 4);
    CapturedStep(g, p, end, 5);
    CapturedStep(g, p, end, 6);
    CapturedStep(g, p, end, 7);
    CapturedStep(g, p, end, 8);
    UnionOfEight(CapturedUpTo(g, p, end, 0), CapturedUpTo(g, p, end, 1), CapturedUpTo(g, p, end, 2),
                 CapturedUpTo(g, p, end, 3), CapturedUpTo(g, p, end, 4), CapturedUpTo(g, p, end, 5),
                 CapturedUpTo(g, p, end, 6), CapturedUpTo(g, p, end, 7), CapturedUpTo(g, p, end, 8),
                 LineRun(g, p, Up, end), LineRun(g, p, UpRight, end), LineRun(g, p, Right, end),
                 LineRun(g, p, DownRight, end), LineRun(g, p, Down, end), LineRun(g, p, DownLeft, end),
                 LineRun(g, p, Left, end), LineRun(g, p, UpLeft, end));
  }

  /** Helper: eight sets added one by one to nothing. */
  lemma UnionOfEight(c0: set<Index>, c1: set<Index>, c2: set<Index>, c3: set<Index>, c4: set<Index>,
                     c5: set<Index>, c6: set<Index>, c7: set<Index>, c8: set<Index>,
                     s0: set<Index>, s1: set<Index>, s2: set<Index>, s3: set<Index>,
                     s4: set<Index>, s5: set<Index>, s6: set<Index>, s7: set<Index>)
    requires c0 == {} && c1 == c0 + s0 && c2 == c1 + s1 && c3 == c2 + s2 && c4 == c3 + s3
    requires c5 == c4 + s4 && c6 == c5 + s5 && c7 == c6 + s6 && c8 == c7 + s7
    ensures c8 == s0 + s1 + s2 + s3 + s4 + s5 + s6 + s7
  {
  }

  /** Helper: one more direction's cells added to the turned cells. */
  lemma CapturedStep(g: Grid, p: Position, end: Disk, k: nat)
    requires 0 < k <= 8
    ensures CapturedUpTo(g, p, end, k) == CapturedUpTo(g, p, end, k - 1) + LineRun(g, p, AllDirections[k - 1], end)
  {
  }

  /** With none of the eight directions counting, a move on an empty cell
      is refused. */
  lemma NoLineOfEight(g: Grid, p: Position, end: Disk)
    requires IsEmpty(g, p)
    requires CountLineSandwiched(g, p, Up, end).Err? && CountLineSandwiched(g, p, UpRight, end).Err?
    requires CountLineSandwiched(g, p, Right, end).Err? && CountLineSandwiched(g, p, DownRight, end).Err?
    requires CountLineSandwiched(g, p, Down, end).Err? && CountLineSandwiched(g, p, DownLeft, end).Err?
    requires CountLineSandwiched(g, p, Left, end).Err? && CountLineSandwiched(g, p, UpLeft, end).Err?
    ensures CountTurnDisks(g, p, end) == Err(NoDiskToFlip)
  {
    FlipsOfEight(g, p, end);
  }

  /** A line of two disks of the other colour, closed after the second. */
  lemma RunOfTwoCounts(g: Grid, p: Position, dir: Direction, q1: Position, q2: Position, end: Disk)
    requires IsEmpty(g, p) && Next(p, dir) == Ok(q1) && Next(q1, dir) == Ok(q2)
    requires Get(g, q1) == Some(Reverse(end)) && Get(g, q2) == Some(Reverse(end))
    requires CountLineEnd(g, q2, dir, end) == Ok(0)
    ensures CountLineEnd(g, q1, dir, end) == Ok(1)
    ensures CountLineSandwiched(g, p, dir, end) == Ok(2)
  {
    EndExtends(g, q1, dir, q2, end, 0);
    LineExtends(g, p, dir, q1, end, 1);
  }

  /** A line of two disks of the other colour closed by a third cell: the
      direction counts two. */
  lemma RunOfTwoClosed(g: Grid, p: Position, dir: Direction, q1: Position, q2: Position, q3: Position, end: Disk)
    requires IsEmpty(g, p) && Next(p, dir) == Ok(q1) && Next(q1, dir) == Ok(q2) && Next(q2, dir) == Ok(q3)
    requires Get(g, q1) == Some(Reverse(end)) && Get(g, q2) == Some(Reverse(end)) && Get(g, q3) == Some(end)
    ensures LineFlips(g, p, dir, end) == 2
    ensures LineRun(g, p, dir, end) == {GetIndex(q1), GetIndex(q2)}
  {
    EndCountZero(g, q2, dir, q3, end);
    RunOfTwoCounts(g, p, dir, q1, q2, end);
    RunOfTwoCells(g, p, dir, q1, q2, end);
  }

  /** Helper: the cells turned along a line of two. */
  lemma RunOfTwoCells(g: Grid, p: Position, dir: Direction, q1: Position, q2: Position, end: Disk)
    requires IsEmpty(g, p) && Next(p, dir) == Ok(q1) && Next(q1, dir) == Ok(q2)
    requires Get(g, q1) == Some(Reverse(end)) && Get(g, q2) == Some(Reverse(end))
    requires CountLineEnd(g, q2, dir, end) == Ok(0) && CountLineEnd(g, q1, dir, end) == Ok(1)
    requires CountLineSandwiched(g, p, dir, end) == Ok(2)
    ensures LineRun(g, p, dir, end) == {GetIndex(q1), GetIndex(q2)}
  {
    EndClosed(g, q2, dir, Next(q2, dir).value, end);
    EndRunStep(g, q1, dir, q2, end);
    LineRunStep(g, p, dir, q1, end);
    TwoCells(LineRun(g, p, dir, end), EndRun(g, q1, dir, end), EndRun(g, q2, dir, end), GetIndex(q1), GetIndex(q2));
  }

  /** Helper: two cells added one by one to nothing. */
  lemma TwoCells(s1: set<Index>, s2: set<Index>, s3: set<Index>, i1: Index, i2: Index)
    requires s3 == {} && s2 == {i2} + s3 && s1 == {i1} + s2
    ensures s1 == {i1, i2}
  {
  }

  /** A line of three disks of the other colour closed by a fourth cell: the
      direction counts three. */
  lemma RunOfThreeClosed(g: Grid, p: Position, dir: Direction, q1: Position, q2: Position, q3: Position,
                         q4: Position, end: Disk)
    requires IsEmpty(g, p) && Next(p, dir) == Ok(q1) && Next(q1, dir) == Ok(q2) && Next(q2, dir) == Ok(q3)
    requires Next(q3, dir) == Ok(q4)
    requires Get(g, q1) == Some(Reverse(end)) && Get(g, q2) == Some(Reverse(end)) && Get(g, q3) == Some(Reverse(end))
    requires Get(g, q4) == Some(end)
    ensures LineFlips(g, p, dir, end) == 3
    ensures LineRun(g, p, dir, end) == {GetIndex(q1), GetIndex(q2), GetIndex(q3)}
  {
    EndCountZero(g, q3, dir, q4, end);
    RunOfThreeCounts(g, p, dir, q1, q2, q3, end);
    RunOfThreeCells(g, p, dir, q1, q2, q3, end);
  }

  /** Three rays of dark disks ending at (7, 7), each closed by a light disk:
      the column x = 7 up to (7, 3), the diagonal up to (3, 3) and the row
      y = 7 up to (3, 7). */
  const ThreeRays: Grid :=
    EmptyGrid[27 := Some(Light)][31 := Some(Light)][36 := Some(Dark)][39 := Some(Dark)]
             [45 := Some(Dark)][47 := Some(Dark)][54 := Some(Dark)][55 := Some(Dark)]
             [59 := Some(Light)][60 := Some(Dark)][61 := Some(Dark)][62 := Some(Dark)]

  /** Towards smaller y from (7, 7): three dark disks closed at (7, 3). */
  lemma ThreeRaysColumn(g: Grid)
    requires g[63] == None && g[55] == Some(Dark) && g[47] == Some(Dark) && g[39] == Some(Dark)
    requires g[31] == Some(Light)
    ensures LineFlips(g, Point(7, 7), Down, Light) == 3
    ensures LineRun(g, Point(7, 7), Down, Light) == {55, 47, 39}
  {
    RunOfThreeClosed(g, Point(7, 7), Down, Point(7, 6), Point(7, 5), Point(7, 4), Point(7, 3), Light);
  }

  /** Along the diagonal from (7, 7): three dark disks closed at (3, 3). */
  lemma ThreeRaysDiagonal(g: Grid)
    requires g[63] == None && g[54] == Some(Dark) && g[45] == Some(Dark) && g[36] == Some(Dark)
    requires g[27] == Some(Light)
    ensures LineFlips(g, Point(7, 7), DownLeft, Light) == 3
    ensures LineRun(g, Point(7, 7), DownLeft, Light) == {54, 45, 36}
  {
    RunOfThreeClosed(g, Point(7, 7), DownLeft, Point(6, 6), Point(5, 5), Point(4, 4), Point(3, 3), Light);
  }

  /** Towards smaller x from (7, 7): three dark disks closed at (3, 7). */
  lemma ThreeRaysRow(g: Grid)
    requires g[63] == None && g[62] == Some(Dark) && g[61] == Some(Dark) && g[60] == Some(Dark)
    requires g[59] == Some(Light)
    ensures LineFlips(g, Point(7, 7), Left, Light) == 3
    ensures LineRun(g, Point(7, 7), Left, Light) == {62, 61, 60}
  {
    RunOfThreeClosed(g, Point(7, 7), Left, Point(6, 7), Point(5, 7), Point(4, 7), Point(3, 7), Light);
  }

  /** The move of `ThreeRaysScenario` on any grid with the same cells on the
      three rays; the other five directions leave the board at once. */
  lemma ThreeRaysMove(g: Grid)
    requires g[63] == None && g[55] == Some(Dark) && g[47] == Some(Dark) && g[39] == Some(Dark)
    requires g[31] == Some(Light)
    requires g[54] == Some(Dark) && g[45] == Some(Dark) && g[36] == Some(Dark) && g[27] == Some(Light)
    requires g[62] == Some(Dark) && g[61] == Some(Dark) && g[60] == Some(Dark) && g[59] == Some(Light)
    ensures CountTurnDisks(g, Point(7, 7), Light) == Ok(9)
  {
    ThreeRaysColumn(g);
    ThreeRaysDiagonal(g);
    ThreeRaysRow(g);
    CornerBlocked(g, Light);
    TurnCountOfEight(g, Point(7, 7), Light, 9);
  }

  /** Helper: from the corner (7, 7), five directions leave the board at once. */
  lemma CornerBlocked(g: Grid, end: Disk)
    ensures LineFlips(g, Point(7, 7), Up, end) == 0 && LineFlips(g, Point(7, 7), UpRight, end) == 0
    ensures LineFlips(g, Point(7, 7), Right, end) == 0 && LineFlips(g, Point(7, 7), DownRight, end) == 0
    ensures LineFlips(g, Point(7, 7), UpLeft, end) == 0
    ensures LineRun(g, Point(7, 7), Up, end) == {} && LineRun(g, Point(7, 7), UpRight, end) == {}
    ensures LineRun(g, Point(7, 7), Right, end) == {} && LineRun(g, Point(7, 7), DownRight, end) == {}
    ensures LineRun(g, Point(7, 7), UpLeft, end) == {}
  {
    var p: Position := Point(7, 7);
    BlockedLine(g, p, Up, end);
    BlockedLine(g, p, UpRight, end);
    BlockedLine(g, p, Right, end);
    BlockedLine(g, p, DownRight, end);
    BlockedLine(g, p, UpLeft, end);
  }

  /** The board after the move of `ThreeRaysMove`: the nine dark disks and
      (7, 7) hold light. */
  lemma ThreeRaysPlaced(g: Grid)
    requires g[63] == None && g[55] == Some(Dark) && g[47] == Some(Dark) && g[39] == Some(Dark)
    requires g[31] == Some(Light)
    requires g[54] == Some(Dark) && g[45] == Some(Dark) && g[36] == Some(Dark) && g[27] == Some(Light)
    requires g[62] == Some(Dark) && g[61] == Some(Dark) && g[60] == Some(Dark) && g[59] == Some(Light)
    ensures Placed(g, Point(7, 7), Light) ==
              g[36 := Some(Light)][39 := Some(Light)][45 := Some(Light)][47 := Some(Light)][54 := Some(Light)]
               [55 := Some(Light)][60 := Some(Light)][61 := Some(Light)][62 := Some(Light)][63 := Some(Light)]
  {
    var p: Position := Point(7, 7);
    ThreeRaysColumn(g);
    ThreeRaysDiagonal(g);
    ThreeRaysRow(g);
    CornerBlocked(g, Light);
    CapturedOfEight(g, p, Light);
    ThreeOfEight(Captured(g, p, Light), LineRun(g, p, Up, Light), LineRun(g, p, UpRight, Light),
                 LineRun(g, p, Right, Light), LineRun(g, p, DownRight, Light), LineRun(g, p, Down, Light),
                 LineRun(g, p, DownLeft, Light), LineRun(g, p, Left, Light), LineRun(g, p, UpLeft, Light));
    ThreeRaysPaint(g, Captured(g, p, Light));
  }

  /** Helper: a union of eight sets of which only s4, s5 and s6 are not empty. */
  lemma ThreeOfEight(c: set<Index>, s0: set<Index>, s1: set<Index>, s2: set<Index>, s3: set<Index>,
                     s4: set<Index>, s5: set<Index>, s6: set<Index>, s7: set<Index>)
    requires c == s0 + s1 + s2 + s3 + s4 + s5 + s6 + s7
    requires s0 == {} && s1 == {} && s2 == {} && s3 == {} && s7 == {}
    ensures c == s4 + s5 + s6
  {
  }

  /** Helper: painting the three rays and the corner. */
  lemma ThreeRaysPaint(g: Grid, c: set<Index>)
    requires c == {55, 47, 39} + {54, 45, 36} + {62, 61, 60}
    ensures Paint(g, c + {63}, Light) ==
              g[36 := Some(Light)][39 := Some(Light)][45 := Some(Light)][47 := Some(Light)][54 := Some(Light)]
               [55 := Some(Light)][60 := Some(Light)][61 := Some(Light)][62 := Some(Light)][63 := Some(Light)]
  {
    var h := g[36 := Some(Light)][39 := Some(Light)][45 := Some(Light)][47 := Some(Light)][54 := Some(Light)]
              [55 := Some(Light)][60 := Some(Light)][61 := Some(Light)][62 := Some(Light)][63 := Some(Light)];
    assert forall i | 0 <= i < 64 :: Paint(g, c + {63}, Light)[i] == h[i];
  }

  /** `test_count_turn_disks4` and `test_place4`: light at the corner (7, 7)
      closes three dark disks in each of three directions, nine in all, and
      turns all nine. */
  lemma ThreeRaysScenario()
    ensures CountTurnDisks(ThreeRays, Point(7, 7), Light) == Ok(9)
    ensures Placed(ThreeRays, Point(7, 7), Light) ==
              ThreeRays[36 := Some(Light)][39 := Some(Light)][45 := Some(Light)][47 := Some(Light)]
                       [54 := Some(Light)][55 := Some(Light)][60 := Some(Light)][61 := Some(Light)]
                       [62 := Some(Light)][63 := Some(Light)]
  {
    ThreeRaysMove(ThreeRays);
    ThreeRaysPlaced(ThreeRays);
  }

  /** Eight rays of dark disks around (3, 3), each closed by a light disk:
      three dark disks towards larger y, towards larger x and y, and
      towards larger x, two in each of the other five directions. */
  const Star: Grid :=
    EmptyGrid[0 := Some(Light)][3 := Some(Light)][6 := Some(Light)][9 := Some(Dark)]
             [11 := Some(Dark)][13 := Some(Dark)][18 := Some(Dark)][19 := Some(Dark)]
             [20 := Some(Dark)][24 := Some(Light)][25 := Some(Dark)][26 := Some(Dark)]
             [28 := Some(Dark)][29 := Some(Dark)][30 := Some(Dark)][31 := Some(Light)]
             [34 := Some(Dark)][35 := Some(Dark)][36 := Some(Dark)][41 := Some(Dark)]
             [43 := Some(Dark)][45 := Some(Dark)][48 := Some(Light)][51 := Some(Dark)]
             [54 := Some(Dark)][59 := Some(Light)][63 := Some(Light)]

  /** Towards larger y from (3, 3): three dark disks closed at (3, 7). */
  lemma StarUp(g: Grid)
    requires g[27] == None && g[35] == Some(Dark) && g[43] == Some(Dark) && g[51] == Some(Dark)
    requires g[59] == Some(Light)
    ensures LineFlips(g, Point(3, 3), Up, Light) == 3
    ensures LineRun(g, Point(3, 3), Up, Light) == {35, 43, 51}
  {
    RunOfThreeClosed(g, Point(3, 3), Up, Point(3, 4), Point(3, 5), Point(3, 6), Point(3, 7), Light);
  }

  /** Towards larger x and y from (3, 3): three dark disks closed at (7, 7). */
  lemma StarUpRight(g: Grid)
    requires g[27] == None && g[36] == Some(Dark) && g[45] == Some(Dark) && g[54] == Some(Dark)
    requires g[63] == Some(Light)
    ensures LineFlips(g, Point(3, 3), UpRight, Light) == 3
    ensures LineRun(g, Point(3, 3), UpRight, Light) == {36, 45, 54}
  {
    RunOfThreeClosed(g, Point(3, 3), UpRight, Point(4, 4), Point(5, 5), Point(6, 6), Point(7, 7), Light);
  }

  /** Towards larger x from (3, 3): three dark disks closed at (7, 3). */
  lemma StarRight(g: Grid)
    requires g[27] == None && g[28] == Some(Dark) && g[29] == Some(Dark) && g[30] == Some(Dark)
    requires g[31] == Some(Light)
    ensures LineFlips(g, Point(3, 3), Right, Light) == 3
    ensures LineRun(g, Point(3, 3), Right, Light) == {28, 29, 30}
  {
    RunOfThreeClosed(g, Point(3, 3), Right, Point(4, 3), Point(5, 3), Point(6, 3), Point(7, 3), Light);
  }

  /** Towards larger x and smaller y from (3, 3): two dark disks closed at (6, 0). */
  lemma StarDownRight(g: Grid)
    requires g[27] == None && g[20] == Some(Dark) && g[13] == Some(Dark)
    requires g[6] == Some(Light)
    ensures LineFlips(g, Point(3, 3), DownRight, Light) == 2
    ensures LineRun(g, Point(3, 3), DownRight, Light) == {20, 13}
  {
    RunOfTwoClosed(g, Point(3, 3), DownRight, Point(4, 2), Point(5, 1), Point(6, 0), Light);
  }

  /** Towards smaller y from (3, 3): two dark disks closed at (3, 0). */
  lemma StarDown(g: Grid)
    requires g[27] == None && g[19] == Some(Dark) && g[11] == Some(Dark)
    requires g[3] == Some(Light)
    ensures LineFlips(g, Point(3, 3), Down, Light) == 2
    ensures LineRun(g, Point(3, 3), Down, Light) == {19, 11}
  {
    assert Next(Point(3, 1), Down) == Ok(Point(3, 0));
    RunOfTwoClosed(g, Point(3, 3), Down, Point(3, 2), Point(3, 1), Point(3, 0), Light);
  }

  /** Towards smaller x and y from (3, 3): two dark disks closed at (0, 0). */
  lemma StarDownLeft(g: Grid)
    requires g[27] == None && g[18] == Some(Dark) && g[9] == Some(Dark)
    requires g[0] == Some(Light)
    ensures LineFlips(g, Point(3, 3), DownLeft, Light) == 2
    ensures LineRun(g, Point(3, 3), DownLeft, Light) == {18, 9}
  {
    RunOfTwoClosed(g, Point(3, 3), DownLeft, Point(2, 2), Point(1, 1), Point(0, 0), Light);
  }

  /** Towards smaller x from (3, 3): two dark disks closed at (0, 3). */
  lemma StarLeft(g: Grid)
    requires g[27] == None && g[26] == Some(Dark) && g[25] == Some(Dark)
    requires g[24] == Some(Light)
    ensures LineFlips(g, Point(3, 3), Left, Light) == 2
    ensures LineRun(g, Point(3, 3), Left, Light) == {26, 25}
  {
    RunOfTwoClosed(g, Point(3, 3), Left, Point(2, 3), Point(1, 3), Point(0, 3), Light);
  }

  /** Towards smaller x and larger y from (3, 3): two dark disks closed at (0, 6). */
  lemma StarUpLeft(g: Grid)
    requires g[27] == None && g[34] == Some(Dark) && g[41] == Some(Dark)
    requires g[48] == Some(Light)
    ensures LineFlips(g, Point(3, 3), UpLeft, Light) == 2
    ensures LineRun(g, Point(3, 3), UpLeft, Light) == {34, 41}
  {
    RunOfTwoClosed(g, Point(3, 3), UpLeft, Point(2, 4), Point(1, 5), Point(0, 6), Light);
  }

  /** The move of `StarScenario` on any grid with the same cells on the
      eight rays. */
  lemma StarMove(g: Grid)
    requires g[27] == None
    requires g[0] == Some(Light) && g[3] == Some(Light) && g[6] == Some(Light) && g[24] == Some(Light)
    requires g[31] == Some(Light) && g[48] == Some(Light) && g[59] == Some(Light) && g[63] == Some(Light)
    requires g[9] == Some(Dark) && g[11] == Some(Dark) && g[13] == Some(Dark) && g[18] == Some(Dark) && g[19] == Some(Dark)
    requires g[20] == Some(Dark) && g[25] == Some(Dark) && g[26] == Some(Dark) && g[28] == Some(Dark) && g[29] == Some(Dark)
    requires g[30] == Some(Dark) && g[34] == Some(Dark) && g[35] == Some(Dark) && g[36] == Some(Dark) && g[41] == Some(Dark)
    requires g[43] == Some(Dark) && g[45] == Some(Dark) && g[51] == Some(Dark) && g[54] == Some(Dark)
    ensures CountTurnDisks(g, Point(3, 3), Light) == Ok(19)
  {
    StarUp(g);
    StarUpRight(g);
    StarRight(g);
    StarDownRight(g);
    StarDown(g);
    StarDownLeft(g);
    StarLeft(g);
    StarUpLeft(g);
    TurnCountOfEight(g, Point(3, 3), Light, 19);
  }


  /** The board after the move of `StarMove`: all nineteen dark disks and
      (3, 3) hold light. */
  lemma StarPlaced(g: Grid)
    requires g[27] == None
    requires g[0] == Some(Light) && g[3] == Some(Light) && g[6] == Some(Light) && g[24] == Some(Light)
    requires g[31] == Some(Light) && g[48] == Some(Light) && g[59] == Some(Light) && g[63] == Some(Light)
    requires g[9] == Some(Dark) && g[11] == Some(Dark) && g[13] == Some(Dark) && g[18] == Some(Dark) && g[19] == Some(Dark)
    requires g[20] == Some(Dark) && g[25] == Some(Dark) && g[26] == Some(Dark) && g[28] == Some(Dark) && g[29] == Some(Dark)
    requires g[30] == Some(Dark) && g[34] == Some(Dark) && g[35] == Some(Dark) && g[36] == Some(Dark) && g[41] == Some(Dark)
    requires g[43] == Some(Dark) && g[45] == Some(Dark) && g[51] == Some(Dark) && g[54] == Some(Dark)
    ensures Placed(g, Point(3, 3), Light) ==
              g[35 := Some(Light)][43 := Some(Light)][51 := Some(Light)][36 := Some(Light)][45 := Some(Light)]
               [54 := Some(Light)][28 := Some(Light)][29 := Some(Light)][30 := Some(Light)][20 := Some(Light)]
               [13 := Some(Light)][19 := Some(Light)][11 := Some(Light)][18 := Some(Light)][9 := Some(Light)]
               [26 := Some(Light)][25 := Some(Light)][34 := Some(Light)][41 := Some(Light)][27 := Some(Light)]
  {
    var p: Position := Point(3, 3);
    StarUp(g);
    StarUpRight(g);
    StarRight(g);
    StarDownRight(g);
    StarDown(g);
    StarDownLeft(g);
    StarLeft(g);
    StarUpLeft(g);
    CapturedOfEight(g, p, Light);
    StarPaint(g, Captured(g, p, Light));
  }

  /** Helper: painting the eight rays and the centre, one ray at a time. */
  lemma StarPaint(g: Grid, c: set<Index>)
    requires c == {35, 43, 51} + {36, 45, 54} + {28, 29, 30} + {20, 13} + {19, 11} + {18, 9} + {26, 25} + {34, 41}
    ensures Paint(g, c + {27}, Light) ==
              g[35 := Some(Light)][43 := Some(Light)][51 := Some(Light)][36 := Some(Light)][45 := Some(Light)]
               [54 := Some(Light)][28 := Some(Light)][29 := Some(Light)][30 := Some(Light)][20 := Some(Light)]
               [13 := Some(Light)][19 := Some(Light)][11 := Some(Light)][18 := Some(Light)][9 := Some(Light)]
               [26 := Some(Light)][25 := Some(Light)][34 := Some(Light)][41 := Some(Light)][27 := Some(Light)]
  {
    var g1 := g[35 := Some(Light)][43 := Some(Light)][51 := Some(Light)];
    PaintThree(g, 35, 43, 51, Light);
    var g2 := g1[36 := Some(Light)][45 := Some(Light)][54 := Some(Light)];
    PaintThree(g1, 36, 45, 54, Light);
    var g3 := g2[28 := Some(Light)][29 := Some(Light)][30 := Some(Light)];
    PaintThree(g2, 28, 29, 30, Light);
    var g4 := g3[20 := Some(Light)][13 := Some(Light)];
    PaintPair(g3, 20, 13, Light);
    var g5 := g4[19 := Some(Light)][11 := Some(Light)];
    PaintPair(g4, 19, 11, Light);
    var g6 := g5[18 := Some(Light)][9 := Some(Light)];
    PaintPair(g5, 18, 9, Light);
    var g7 := g6[26 := Some(Light)][25 := Some(Light)];
    PaintPair(g6, 26, 25, Light);
    var g8 := g7[34 := Some(Light)][41 := Some(Light)];
    PaintPair(g7, 34, 41, Light);
    PaintOne(g8, 27, Light);
    PaintUnion(g, {35, 43, 51} + {36, 45, 54} + {28, 29, 30} + {20, 13} + {19, 11} + {18, 9} + {26, 25} + {34, 41}, {27}, Light);
    PaintUnion(g, {35, 43, 51} + {36, 45, 54} + {28, 29, 30} + {20, 13} + {19, 11} + {18, 9} + {26, 25}, {34, 41}, Light);
    PaintUnion(g, {35, 43, 51} + {36, 45, 54} + {28, 29, 30} + {20, 13} + {19, 11} + {18, 9}, {26, 25}, Light);
    PaintUnion(g, {35, 43, 51} + {36, 45, 54} + {28, 29, 30} + {20, 13} + {19, 11}, {18, 9}, Light);
    PaintUnion(g, {35, 43, 51} + {36, 45, 54} + {28, 29, 30} + {20, 13}, {19, 11}, Light);
    PaintUnion(g, {35, 43, 51} + {36, 45, 54} + {28, 29, 30}, {20, 13}, Light);
    PaintUnion(g, {35, 43, 51} + {36, 45, 54}, {28, 29, 30}, Light);
    PaintUnion(g, {35, 43, 51}, {36, 45, 54}, Light);
  }


  /** `test_count_turn_disks5` and `test_place5`: light at (3, 3) closes dark
      disks in all eight directions, nineteen in all, and turns all of them. */
  lemma StarScenario()
    ensures CountTurnDisks(Star, Point(3, 3), Light) == Ok(19)
    ensures Placed(Star, Point(3, 3), Light) ==
              Star[35 := Some(Light)][43 := Some(Light)][51 := Some(Light)][36 := Some(Light)][45 := Some(Light)]
                  [54 := Some(Light)][28 := Some(Light)][29 := Some(Light)][30 := Some(Light)][20 := Some(Light)]
                  [13 := Some(Light)][19 := Some(Light)][11 := Some(Light)][18 := Some(Light)][9 := Some(Light)]
                  [26 := Some(Light)][25 := Some(Light)][34 := Some(Light)][41 := Some(Light)][27 := Some(Light)]
  {
    StarMove(Star);
    StarPlaced(Star);
  }

  /** A line of three disks of the other colour that runs into the edge of
      the board: no count. */
  lemma EdgeRunOfThree(g: Grid, p: Position, dir: Direction, q1: Position, q2: Position, q3: Position, end: Disk)
    requires IsEmpty(g, p) && Next(p, dir) == Ok(q1) && Next(q1, dir) == Ok(q2) && Next(q2, dir) == Ok(q3)
    requires Next(q3, dir).Err?
    requires Get(g, q1) == Some(Reverse(end)) && Get(g, q2) == Some(Reverse(end)) && Get(g, q3) == Some(Reverse(end))
    ensures CountLineSandwiched(g, p, dir, end).Err?
  {
    EndOpen(g, q3, dir, end);
    EndBroken(g, q2, dir, q3, end);
    EndBroken(g, q1, dir, q2, end);
    LineBroken(g, p, dir, q1, end);
  }

  /** The same for four disks. */
  lemma EdgeRunOfFour(g: Grid, p: Position, dir: Direction, q1: Position, q2: Position, q3: Position,
                      q4: Position, end: Disk)
    requires IsEmpty(g, p) && Next(p, dir) == Ok(q1) && Next(q1, dir) == Ok(q2) && Next(q2, dir) == Ok(q3)
    requires Next(q3, dir) == Ok(q4) && Next(q4, dir).Err?
    requires Get(g, q1) == Some(Reverse(end)) && Get(g, q2) == Some(Reverse(end)) && Get(g, q3) == Some(Reverse(end))
    requires Get(g, q4) == Some(Reverse(end))
    ensures CountLineSandwiched(g, p, dir, end).Err?
  {
    EndOpen(g, q4, dir, end);
    EndBroken(g, q3, dir, q4, end);
    EndBroken(g, q2, dir, q3, end);
    EndBroken(g, q1, dir, q2, end);
    LineBroken(g, p, dir, q1, end);
  }

  /** The board of `StarScenario` with every light disk made dark: from (3, 3)
      each direction holds dark disks up to the edge. */
  const Cut: Grid :=
    EmptyGrid[0 := Some(Dark)][3 := Some(Dark)][6 := Some(Dark)][9 := Some(Dark)][11 := Some(Dark)]
             [13 := Some(Dark)][18 := Some(Dark)][19 := Some(Dark)][20 := Some(Dark)][24 := Some(Dark)]
             [25 := Some(Dark)][26 := Some(Dark)][28 := Some(Dark)][29 := Some(Dark)][30 := Some(Dark)]
             [31 := Some(Dark)][34 := Some(Dark)][35 := Some(Dark)][36 := Some(Dark)][41 := Some(Dark)]
             [43 := Some(Dark)][45 := Some(Dark)][48 := Some(Dark)][51 := Some(Dark)][54 := Some(Dark)]
             [59 := Some(Dark)][63 := Some(Dark)]

  /** Helper: from (3, 3) towards larger y, dark disks up to the edge. */
  lemma CutUp(g: Grid)
    requires g[27] == None && g[35] == Some(Dark) && g[43] == Some(Dark) && g[51] == Some(Dark) && g[59] == Some(Dark)
    ensures CountLineSandwiched(g, Point(3, 3), Up, Light).Err?
  {
    EdgeRunOfFour(g, Point(3, 3), Up, Point(3, 4), Point(3, 5), Point(3, 6), Point(3, 7), Light);
  }

  /** Helper: from (3, 3) towards larger x and y, dark disks up to the edge. */
  lemma CutUpRight(g: Grid)
    requires g[27] == None && g[36] == Some(Dark) && g[45] == Some(Dark) && g[54] == Some(Dark) && g[63] == Some(Dark)
    ensures CountLineSandwiched(g, Point(3, 3), UpRight, Light).Err?
  {
    EdgeRunOfFour(g, Point(3, 3), UpRight, Point(4, 4), Point(5, 5), Point(6, 6), Point(7, 7), Light);
  }

  /** Helper: from (3, 3) towards larger x, dark disks up to the edge. */
  lemma CutRight(g: Grid)
    requires g[27] == None && g[28] == Some(Dark) && g[29] == Some(Dark) && g[30] == Some(Dark) && g[31] == Some(Dark)
    ensures CountLineSandwiched(g, Point(3, 3), Right, Light).Err?
  {
    EdgeRunOfFour(g, Point(3, 3), Right, Point(4, 3), Point(5, 3), Point(6, 3), Point(7, 3), Light);
  }

  /** Helper: from (3, 3) towards larger x and smaller y, dark disks up to the edge. */
  lemma CutDownRight(g: Grid)
    requires g[27] == None && g[20] == Some(Dark) && g[13] == Some(Dark) && g[6] == Some(Dark)
    ensures CountLineSandwiched(g, Point(3, 3), DownRight, Light).Err?
  {
    EdgeRunOfThree(g, Point(3, 3), DownRight, Point(4, 2), Point(5, 1), Point(6, 0), Light);
  }

  /** Helper: from (3, 3) towards smaller y, dark disks up to the edge. */
  lemma CutDown(g: Grid)
    requires g[27] == None && g[19] == Some(Dark) && g[11] == Some(Dark) && g[3] == Some(Dark)
    ensures CountLineSandwiched(g, Point(3, 3), Down, Light).Err?
  {
    assert Next(Point(3, 0), Down).Err?;
    EdgeRunOfThree(g, Point(3, 3), Down, Point(3, 2), Point(3, 1), Point(3, 0), Light);
  }

  /** Helper: from (3, 3) towards smaller x and y, dark disks up to the edge. */
  lemma CutDownLeft(g: Grid)
    requires g[27] == None && g[18] == Some(Dark) && g[9] == Some(Dark) && g[0] == Some(Dark)
    ensures CountLineSandwiched(g, Point(3, 3), DownLeft, Light).Err?
  {
    EdgeRunOfThree(g, Point(3, 3), DownLeft, Point(2, 2), Point(1, 1), Point(0, 0), Light);
  }

  /** Helper: from (3, 3) towards smaller x, dark disks up to the edge. */
  lemma CutLeft(g: Grid)
    requires g[27] == None && g[26] == Some(Dark) && g[25] == Some(Dark) && g[24] == Some(Dark)
    ensures CountLineSandwiched(g, Point(3, 3), Left, Light).Err?
  {
    EdgeRunOfThree(g, Point(3, 3), Left, Point(2, 3), Point(1, 3), Point(0, 3), Light);
  }

  /** Helper: from (3, 3) towards smaller x and larger y, dark disks up to the edge. */
  lemma CutUpLeft(g: Grid)
    requires g[27] == None && g[34] == Some(Dark) && g[41] == Some(Dark) && g[48] == Some(Dark)
    ensures CountLineSandwiched(g, Point(3, 3), UpLeft, Light).Err?
  {
    EdgeRunOfThree(g, Point(3, 3), UpLeft, Point(2, 4), Point(1, 5), Point(0, 6), Light);
  }

  /** The move of `CutScenario` on any grid with the same cells on the eight
      rays. */
  lemma CutMove(g: Grid)
    requires g[27] == None
    requires g[0] == Some(Dark) && g[3] == Some(Dark) && g[6] == Some(Dark) && g[9] == Some(Dark) && g[11] == Some(Dark)
    requires g[13] == Some(Dark) && g[18] == Some(Dark) && g[19] == Some(Dark) && g[20] == Some(Dark) && g[24] == Some(Dark)
    requires g[25] == Some(Dark) && g[26] == Some(Dark) && g[28] == Some(Dark) && g[29] == Some(Dark) && g[30] == Some(Dark)
    requires g[31] == Some(Dark) && g[34] == Some(Dark) && g[35] == Some(Dark) && g[36] == Some(Dark) && g[41] == Some(Dark)
    requires g[43] == Some(Dark) && g[45] == Some(Dark) && g[48] == Some(Dark) && g[51] == Some(Dark) && g[54] == Some(Dark)
    requires g[59] == Some(Dark) && g[63] == Some(Dark)
    ensures CountTurnDisks(g, Point(3, 3), Light) == Err(NoDiskToFlip)
  {
    CutUp(g);
    CutUpRight(g);
    CutRight(g);
    CutDownRight(g);
    CutDown(g);
    CutDownLeft(g);
    CutLeft(g);
    CutUpLeft(g);
    NoLineOfEight(g, Point(3, 3), Light);
  }

  /** `test_count_turn_disks_err2` and `test_place_err2`: no line from (3, 3)
      is closed by a light disk, so light cannot play there. */
  lemma CutScenario()
    ensures CountTurnDisks(Cut, Point(3, 3), Light) == Err(NoDiskToFlip)
  {
    CutMove(Cut);
  }
}
