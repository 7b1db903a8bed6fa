/** Counting scenarios from the unit tests of src/core/board/board.rs and the
    opening position of src/main.rs. Each board is described by the cells of
    its two colours, so that `CountDisksOfLayout` and `LegalMovesOfLayout`
    turn the counts into facts about those cells: which free cells close a
    line, cell by cell, and how many cells each colour holds. */
module CountingScenarios {
  import opened Wrappers
  import opened Disks
  import opened Positions
  import opened BoardRules
  import opened Layouts
  import opened Scenarios

  /** The board of `test_count_legal_movs3`: dark disks at (2, 3), (3, 3),
      (4, 3) and (3, 4), and a light disk at (4, 4). */
  const Tee: Grid := EmptyGrid[26 := Some(Dark)][27 := Some(Dark)][28 := Some(Dark)][35 := Some(Dark)][36 := Some(Light)]

  /** `init_board` of src/main.rs: light at (3, 3) and (4, 4), dark at (4, 3)
      and (3, 4). */
  const Opening: Grid := EmptyGrid[27 := Some(Light)][28 := Some(Dark)][35 := Some(Dark)][36 := Some(Light)]

  /** The cells of the dark disks of `Star`. */
  const StarDark: set<nat> := {9, 11, 13, 18, 19, 20, 25, 26, 28, 29, 30, 34, 35, 36, 41, 43, 45, 51, 54}

  /** The cells of its light disks. */
  const StarLight: set<nat> := {0, 3, 6, 24, 31, 48, 59, 63}

  /** `Star` cell by cell, in ranges of sixteen cells. */
  lemma StarBetween0()
    ensures DepictsBetween(Star, Dark, StarDark, StarLight, 0, 16)
  {
  }

  lemma StarBetween16()
    ensures DepictsBetween(Star, Dark, StarDark, StarLight, 16, 32)
  {
  }

  lemma StarBetween32()
    ensures DepictsBetween(Star, Dark, StarDark, StarLight, 32, 48)
  {
  }

  lemma StarBetween48()
    ensures DepictsBetween(Star, Dark, StarDark, StarLight, 48, 64)
  {
  }

  /** Both lists hold cell indices. */
  lemma StarBounds()
    ensures OnCells(StarDark) && OnCells(StarLight)
  {
  }

  /** `Star` as seen by Dark. */
  lemma StarDepicts()
    ensures Depicts(Star, Dark, StarDark, StarLight)
  {
    StarBounds();
    StarBetween0();
    StarBetween16();
    StarBetween32();
    StarBetween48();
    DepictsByQuarters(Star, Dark, StarDark, StarLight);
  }

  /** The two lists have no repetitions. */
  lemma StarDarkCells()
    ensures |StarDark| == 19
  {
    ElementsOfDistinct([9, 11, 13, 18, 19, 20, 25, 26, 28, 29, 30, 34, 35, 36, 41, 43, 45, 51, 54]);
    assert Elements([9, 11, 13, 18, 19, 20, 25, 26, 28, 29, 30, 34, 35, 36, 41, 43, 45, 51, 54]) == StarDark;
  }

  lemma StarLightCells()
    ensures |StarLight| == 8
  {
    ElementsOfDistinct([0, 3, 6, 24, 31, 48, 59, 63]);
    assert Elements([0, 3, 6, 24, 31, 48, 59, 63]) == StarLight;
  }

  /** `test_count_disks2`: the board of `StarScenario` holds 19 dark and 8
      light disks. */
  lemma StarDisks()
    ensures CountDisks(Star, Dark) == 19
    ensures CountDisks(Star, Light) == 8
  {
    StarDepicts();
    CountDisksOfLayout(Star, Dark, StarDark, StarLight);
    StarDarkCells();
    StarLightCells();
  }

  // ThreeLine, Dark to move

  /** `ThreeLine` as seen by Dark: the cells of its own disks and of the other colour's. */
  lemma ThreeLineDarkDepicts()
    ensures Depicts(ThreeLine, Dark, {51}, {27, 35, 43})
  {
  }

  /** The legal cells, one by one. */
  lemma ThreeLineDarkAt32()
    ensures Playable(3, 2, {51}, {27, 35, 43})
  {
  }

  /** Every other free cell with y in 0..4 has all eight lines cut off
      within two steps. */
  lemma ThreeLineDarkClearLow(x: int, y: int)
    requires OnBoard(x, y) && 0 <= y < 4
    requires (x != 3 || y != 2)
    requires 8 * y + x !in {51} && 8 * y + x !in {27, 35, 43}
    ensures !Playable(x, y, {51}, {27, 35, 43})
  {
    ShallowCell(x, y, {51}, {27, 35, 43});
  }

  /** Every other free cell with y in 4..8 has all eight lines cut off
      within two steps. */
  lemma ThreeLineDarkClearHigh(x: int, y: int)
    requires OnBoard(x, y) && 4 <= y < 8
    requires (x != 3 || y != 2)
    requires 8 * y + x !in {51} && 8 * y + x !in {27, 35, 43}
    ensures !Playable(x, y, {51}, {27, 35, 43})
  {
    ShallowCell(x, y, {51}, {27, 35, 43});
  }

  /** The playable cells, cell by cell. */
  lemma ThreeLineDarkCell(x: int, y: int)
    requires OnBoard(x, y)
    ensures Playable(x, y, {51}, {27, 35, 43}) <==> (x == 3 && y == 2)
  {
    if x == 3 && y == 2 {
      ThreeLineDarkAt32();
    } else if 8 * y + x in {51} || 8 * y + x in {27, 35, 43} {
    } else if y < 4 {
      ThreeLineDarkClearLow(x, y);
    } else {
      ThreeLineDarkClearHigh(x, y);
    }
  }

  /** The legal moves, as a set of positions. */
  lemma ThreeLineDarkLayout()
    ensures LegalMoves(ThreeLine, Dark) == {Point(3, 2)}
  {
    ThreeLineDarkDepicts();
    forall q: Position ensures q in {Point(3, 2)} <==> Playable(q.x, q.y, {51}, {27, 35, 43}) {
      ThreeLineDarkCell(q.x, q.y);
    }
    LegalMovesAre(ThreeLine, Dark, {51}, {27, 35, 43}, {Point(3, 2)});
  }

  /** The legal positions are distinct. */
  lemma ThreeLineDarkCard()
    ensures |{Point(3, 2)}| == 1
  {
  }

  /** `test_count_legal_movs2`, dark: the one move is (3, 2), which
      closes the light column (3, 3)..(3, 5) against the dark disk at (3, 6). */
  lemma ThreeLineDarkMoves()
    ensures LegalMoves(ThreeLine, Dark) == {Point(3, 2)}
    ensures |LegalMoves(ThreeLine, Dark)| == 1
  {
    ThreeLineDarkLayout();
    ThreeLineDarkCard();
  }

  // ThreeLine, Light to move

  /** `ThreeLine` as seen by Light: the cells of its own disks and of the other colour's. */
  lemma ThreeLineLightDepicts()
    ensures Depicts(ThreeLine, Light, {27, 35, 43}, {51})
  {
  }

  /** The legal cells, one by one. */
  lemma ThreeLineLightAt37()
    ensures Playable(3, 7, {27, 35, 43}, {51})
  {
  }

  /** Every other free cell with y in 0..4 has all eight lines cut off
      within two steps. */
  lemma ThreeLineLightClearLow(x: int, y: int)
    requires OnBoard(x, y) && 0 <= y < 4
    requires (x != 3 || y != 7)
    requires 8 * y + x !in {27, 35, 43} && 8 * y + x !in {51}
    ensures !Playable(x, y, {27, 35, 43}, {51})
  {
    ShallowCell(x, y, {27, 35, 43}, {51});
  }

  /** Every other free cell with y in 4..8 has all eight lines cut off
      within two steps. */
  lemma ThreeLineLightClearHigh(x: int, y: int)
    requires OnBoard(x, y) && 4 <= y < 8
    requires (x != 3 || y != 7)
    requires 8 * y + x !in {27, 35, 43} && 8 * y + x !in {51}
    ensures !Playable(x, y, {27, 35, 43}, {51})
  {
    ShallowCell(x, y, {27, 35, 43}, {51});
  }

  /** The playable cells, cell by cell. */
  lemma ThreeLineLightCell(x: int, y: int)
    requires OnBoard(x, y)
    ensures Playable(x, y, {27, 35, 43}, {51}) <==> (x == 3 && y == 7)
  {
    if x == 3 && y == 7 {
      ThreeLineLightAt37();
    } else if 8 * y + x in {27, 35, 43} || 8 * y + x in {51} {
    } else if y < 4 {
      ThreeLineLightClearLow(x, y);
    } else {
      ThreeLineLightClearHigh(x, y);
    }
  }

  /** The legal moves, as a set of positions. */
  lemma ThreeLineLightLayout()
    ensures LegalMoves(ThreeLine, Light) == {Point(3, 7)}
  {
    ThreeLineLightDepicts();
    forall q: Position ensures q in {Point(3, 7)} <==> Playable(q.x, q.y, {27, 35, 43}, {51}) {
      ThreeLineLightCell(q.x, q.y);
    }
    LegalMovesAre(ThreeLine, Light, {27, 35, 43}, {51}, {Point(3, 7)});
  }

  /** The legal positions are distinct. */
  lemma ThreeLineLightCard()
    ensures |{Point(3, 7)}| == 1
  {
  }

  /** The same board, light: the one move is (3, 7), which closes the dark
      disk at (3, 6) against the light one at (3, 5). */
  lemma ThreeLineLightMoves()
    ensures LegalMoves(ThreeLine, Light) == {Point(3, 7)}
    ensures |LegalMoves(ThreeLine, Light)| == 1
  {
    ThreeLineLightLayout();
    ThreeLineLightCard();
  }

  // Tee, Dark to move

  /** `Tee` as seen by Dark: the cells of its own disks and of the other colour's. */
  lemma TeeDarkDepicts()
    ensures Depicts(Tee, Dark, {26, 27, 28, 35}, {36})
  {
  }

  /** The legal cells, one by one. */
  lemma TeeDarkAt54()
    ensures Playable(5, 4, {26, 27, 28, 35}, {36})
  {
  }

  lemma TeeDarkAt45()
    ensures Playable(4, 5, {26, 27, 28, 35}, {36})
  {
  }

  lemma TeeDarkAt55()
    ensures Playable(5, 5, {26, 27, 28, 35}, {36})
  {
  }

  /** Every other free cell with y in 0..4 has all eight lines cut off
      within two steps. */
  lemma TeeDarkClearLow(x: int, y: int)
    requires OnBoard(x, y) && 0 <= y < 4
    requires (x != 5 || y != 4) && (x != 4 || y != 5) && (x != 5 || y != 5)
    requires 8 * y + x !in {26, 27, 28, 35} && 8 * y + x !in {36}
    ensures !Playable(x, y, {26, 27, 28, 35}, {36})
  {
    ShallowCell(x, y, {26, 27, 28, 35}, {36});
  }

  /** Every other free cell with y in 4..8 has all eight lines cut off
      within two steps. */
  lemma TeeDarkClearHigh(x: int, y: int)
    requires OnBoard(x, y) && 4 <= y < 8
    requires (x != 5 || y != 4) && (x != 4 || y != 5) && (x != 5 || y != 5)
    requires 8 * y + x !in {26, 27, 28, 35} && 8 * y + x !in {36}
    ensures !Playable(x, y, {26, 27, 28, 35}, {36})
  {
    ShallowCell(x, y, {26, 27, 28, 35}, {36});
  }

  /** The playable cells, cell by cell. */
  lemma TeeDarkCell(x: int, y: int)
    requires OnBoard(x, y)
    ensures Playable(x, y, {26, 27, 28, 35}, {36}) <==> (x == 5 && y == 4) || (x == 4 && y == 5) || (x == 5 && y == 5)
  {
    if x == 5 && y == 4 {
      TeeDarkAt54();
    } else if x == 4 && y == 5 {
      TeeDarkAt45();
    } else if x == 5 && y == 5 {
      TeeDarkAt55();
    } else if 8 * y + x in {26, 27, 28, 35} || 8 * y + x in {36} {
    } else if y < 4 {
      TeeDarkClearLow(x, y);
    } else {
      TeeDarkClearHigh(x, y);
    }
  }

  /** The legal moves, as a set of positions. */
  lemma TeeDarkLayout()
    ensures LegalMoves(Tee, Dark) == {Point(5, 4), Point(4, 5), Point(5, 5)}
  {
    TeeDarkDepicts();
    forall q: Position ensures q in {Point(5, 4), Point(4, 5), Point(5, 5)} <==> Playable(q.x, q.y, {26, 27, 28, 35}, {36}) {
      TeeDarkCell(q.x, q.y);
    }
    LegalMovesAre(Tee, Dark, {26, 27, 28, 35}, {36}, {Point(5, 4), Point(4, 5), Point(5, 5)});
  }

  /** The legal positions are distinct. */
  lemma TeeDarkCard()
    ensures |{Point(5, 4), Point(4, 5), Point(5, 5)}| == 3
  {
  }

  /** `test_count_legal_movs3`, dark: the three moves (5, 4), (4, 5) and
      (5, 5), which close the light disk at (4, 4) against a dark one. */
  lemma TeeDarkMoves()
    ensures LegalMoves(Tee, Dark) == {Point(5, 4), Point(4, 5), Point(5, 5)}
    ensures |LegalMoves(Tee, Dark)| == 3
  {
    TeeDarkLayout();
    TeeDarkCard();
  }

  // Tee, Light to move

  /** `Tee` as seen by Light: the cells of its own disks and of the other colour's. */
  lemma TeeLightDepicts()
    ensures Depicts(Tee, Light, {36}, {26, 27, 28, 35})
  {
  }

  /** The legal cells, one by one. */
  lemma TeeLightAt22()
    ensures Playable(2, 2, {36}, {26, 27, 28, 35})
  {
  }

  lemma TeeLightAt42()
    ensures Playable(4, 2, {36}, {26, 27, 28, 35})
  {
  }

  lemma TeeLightAt24()
    ensures Playable(2, 4, {36}, {26, 27, 28, 35})
  {
  }

  /** A free cell one of whose lines runs on past the second step without
      closing; the free cells like it follow. */
  lemma TeeLightAt12()
    ensures !Playable(1, 2, {36}, {26, 27, 28, 35})
  {
  }

  lemma TeeLightAt32()
    ensures !Playable(3, 2, {36}, {26, 27, 28, 35})
  {
  }

  lemma TeeLightAt52()
    ensures !Playable(5, 2, {36}, {26, 27, 28, 35})
  {
  }

  lemma TeeLightAt13()
    ensures !Playable(1, 3, {36}, {26, 27, 28, 35})
  {
  }

  lemma TeeLightAt53()
    ensures !Playable(5, 3, {36}, {26, 27, 28, 35})
  {
  }

  lemma TeeLightAt25()
    ensures !Playable(2, 5, {36}, {26, 27, 28, 35})
  {
  }

  lemma TeeLightAt35()
    ensures !Playable(3, 5, {36}, {26, 27, 28, 35})
  {
  }

  lemma TeeLightAt45()
    ensures !Playable(4, 5, {36}, {26, 27, 28, 35})
  {
  }

  /** Every other free cell with y in 0..4 has all eight lines cut off
      within two steps. */
  lemma TeeLightClearLow(x: int, y: int)
    requires OnBoard(x, y) && 0 <= y < 4
    requires (x != 2 || y != 2) && (x != 4 || y != 2) && (x != 2 || y != 4) && (x != 1 || y != 2) && (x != 3 || y != 2) && (x != 5 || y != 2) && (x != 1 || y != 3) && (x != 5 || y != 3) && (x != 2 || y != 5) && (x != 3 || y != 5) && (x != 4 || y != 5)
    requires 8 * y + x !in {36} && 8 * y + x !in {26, 27, 28, 35}
    ensures !Playable(x, y, {36}, {26, 27, 28, 35})
  {
    ShallowCell(x, y, {36}, {26, 27, 28, 35});
  }

  /** Every other free cell with y in 4..8 has all eight lines cut off
      within two steps. */
  lemma TeeLightClearHigh(x: int, y: int)
    requires OnBoard(x, y) && 4 <= y < 8
    requires (x != 2 || y != 2) && (x != 4 || y != 2) && (x != 2 || y != 4) && (x != 1 || y != 2) && (x != 3 || y != 2) && (x != 5 || y != 2) && (x != 1 || y != 3) && (x != 5 || y != 3) && (x != 2 || y != 5) && (x != 3 || y != 5) && (x != 4 || y != 5)
    requires 8 * y + x !in {36} && 8 * y + x !in {26, 27, 28, 35}
    ensures !Playable(x, y, {36}, {26, 27, 28, 35})
  {
    ShallowCell(x, y, {36}, {26, 27, 28, 35});
  }

  /** The playable cells, cell by cell. */
  lemma TeeLightCell(x: int, y: int)
    requires OnBoard(x, y)
    ensures Playable(x, y, {36}, {26, 27, 28, 35}) <==> (x == 2 && y == 2) || (x == 4 && y == 2) || (x == 2 && y == 4)
  {
    if x == 2 && y == 2 {
      TeeLightAt22();
    } else if x == 4 && y == 2 {
      TeeLightAt42();
    } else if x == 2 && y == 4 {
      TeeLightAt24();
    } else if x == 1 && y == 2 {
      TeeLightAt12();
    } else if x == 3 && y == 2 {
      TeeLightAt32();
    } else if x == 5 && y == 2 {
      TeeLightAt52();
    } else if x == 1 && y == 3 {
      TeeLightAt13();
    } else if x == 5 && y == 3 {
      TeeLightAt53();
    } else if x == 2 && y == 5 {
      TeeLightAt25();
    } else if x == 3 && y == 5 {
      TeeLightAt35();
    } else if x == 4 && y == 5 {
      TeeLightAt45();
    } else if 8 * y + x in {36} || 8 * y + x in {26, 27, 28, 35} {
    } else if y < 4 {
      TeeLightClearLow(x, y);
    } else {
      TeeLightClearHigh(x, y);
    }
  }

  /** The legal moves, as a set of positions. */
  lemma TeeLightLayout()
    ensures LegalMoves(Tee, Light) == {Point(2, 2), Point(4, 2), Point(2, 4)}
  {
    TeeLightDepicts();
    forall q: Position ensures q in {Point(2, 2), Point(4, 2), Point(2, 4)} <==> Playable(q.x, q.y, {36}, {26, 27, 28, 35}) {
      TeeLightCell(q.x, q.y);
    }
    LegalMovesAre(Tee, Light, {36}, {26, 27, 28, 35}, {Point(2, 2), Point(4, 2), Point(2, 4)});
  }

  /** The legal positions are distinct. */
  lemma TeeLightCard()
    ensures |{Point(2, 2), Point(4, 2), Point(2, 4)}| == 3
  {
  }

  /** The same board, light: the three moves (2, 2), (4, 2) and (2, 4), each
      closing a line of dark disks against the light one at (4, 4). */
  lemma TeeLightMoves()
    ensures LegalMoves(Tee, Light) == {Point(2, 2), Point(4, 2), Point(2, 4)}
    ensures |LegalMoves(Tee, Light)| == 3
  {
    TeeLightLayout();
    TeeLightCard();
  }

  // Opening, Dark to move

  /** `Opening` as seen by Dark: the cells of its own disks and of the other colour's. */
  lemma OpeningDarkDepicts()
    ensures Depicts(Opening, Dark, {28, 35}, {27, 36})
  {
  }

  /** The legal cells, one by one. */
  lemma OpeningDarkAt32()
    ensures Playable(3, 2, {28, 35}, {27, 36})
  {
  }

  lemma OpeningDarkAt23()
    ensures Playable(2, 3, {28, 35}, {27, 36})
  {
  }

  lemma OpeningDarkAt54()
    ensures Playable(5, 4, {28, 35}, {27, 36})
  {
  }

  lemma OpeningDarkAt45()
    ensures Playable(4, 5, {28, 35}, {27, 36})
  {
  }

  /** A free cell one of whose lines runs on past the second step without
      closing; the free cells like it follow. */
  lemma OpeningDarkAt22()
    ensures !Playable(2, 2, {28, 35}, {27, 36})
  {
  }

  lemma OpeningDarkAt55()
    ensures !Playable(5, 5, {28, 35}, {27, 36})
  {
  }

  /** Every other free cell with y in 0..4 has all eight lines cut off
      within two steps. */
  lemma OpeningDarkClearLow(x: int, y: int)
    requires OnBoard(x, y) && 0 <= y < 4
    requires (x != 3 || y != 2) && (x != 2 || y != 3) && (x != 5 || y != 4) && (x != 4 || y != 5) && (x != 2 || y != 2) && (x != 5 || y != 5)
    requires 8 * y + x !in {28, 35} && 8 * y + x !in {27, 36}
    ensures !Playable(x, y, {28, 35}, {27, 36})
  {
    ShallowCell(x, y, {28, 35}, {27, 36});
  }

  /** Every other free cell with y in 4..8 has all eight lines cut off
      within two steps. */
  lemma OpeningDarkClearHigh(x: int, y: int)
    requires OnBoard(x, y) && 4 <= y < 8
    requires (x != 3 || y != 2) && (x != 2 || y != 3) && (x != 5 || y != 4) && (x != 4 || y != 5) && (x != 2 || y != 2) && (x != 5 || y != 5)
    requires 8 * y + x !in {28, 35} && 8 * y + x !in {27, 36}
    ensures !Playable(x, y, {28, 35}, {27, 36})
  {
    ShallowCell(x, y, {28, 35}, {27, 36});
  }

  /** The playable cells, cell by cell. */
  lemma OpeningDarkCell(x: int, y: int)
    requires OnBoard(x, y)
    ensures Playable(x, y, {28, 35}, {27, 36}) <==> (x == 3 && y == 2) || (x == 2 && y == 3) || (x == 5 && y == 4) || (x == 4 && y == 5)
  {
    if x == 3 && y == 2 {
      OpeningDarkAt32();
    } else if x == 2 && y == 3 {
      OpeningDarkAt23();
    } else if x == 5 && y == 4 {
      OpeningDarkAt54();
    } else if x == 4 && y == 5 {
      OpeningDarkAt45();
    } else if x == 2 && y == 2 {
      OpeningDarkAt22();
    } else if x == 5 && y == 5 {
      OpeningDarkAt55();
    } else if 8 * y + x in {28, 35} || 8 * y + x in {27, 36} {
    } else if y < 4 {
      OpeningDarkClearLow(x, y);
    } else {
      OpeningDarkClearHigh(x, y);
    }
  }

  /** The legal moves, as a set of positions. */
  lemma OpeningDarkLayout()
    ensures LegalMoves(Opening, Dark) == {Point(3, 2), Point(2, 3), Point(5, 4), Point(4, 5)}
  {
    OpeningDarkDepicts();
    forall q: Position ensures q in {Point(3, 2), Point(2, 3), Point(5, 4), Point(4, 5)} <==> Playable(q.x, q.y, {28, 35}, {27, 36}) {
      OpeningDarkCell(q.x, q.y);
    }
    LegalMovesAre(Opening, Dark, {28, 35}, {27, 36}, {Point(3, 2), Point(2, 3), Point(5, 4), Point(4, 5)});
  }

  /** The legal positions are distinct. */
  lemma OpeningDarkCard()
    ensures |{Point(3, 2), Point(2, 3), Point(5, 4), Point(4, 5)}| == 4
  {
  }

  /** The opening board, dark: the four moves (3, 2), (2, 3), (5, 4) and
      (4, 5), each closing one light disk against a dark one. */
  lemma OpeningDarkMoves()
    ensures LegalMoves(Opening, Dark) == {Point(3, 2), Point(2, 3), Point(5, 4), Point(4, 5)}
    ensures |LegalMoves(Opening, Dark)| == 4
  {
    OpeningDarkLayout();
    OpeningDarkCard();
  }

  // Opening, Light to move

  /** `Opening` as seen by Light: the cells of its own disks and of the other colour's. */
  lemma OpeningLightDepicts()
    ensures Depicts(Opening, Light, {27, 36}, {28, 35})
  {
  }

  /** The legal cells, one by one. */
  lemma OpeningLightAt42()
    ensures Playable(4, 2, {27, 36}, {28, 35})
  {
  }

  lemma OpeningLightAt53()
    ensures Playable(5, 3, {27, 36}, {28, 35})
  {
  }

  lemma OpeningLightAt24()
    ensures Playable(2, 4, {27, 36}, {28, 35})
  {
  }

  lemma OpeningLightAt35()
    ensures Playable(3, 5, {27, 36}, {28, 35})
  {
  }

  /** A free cell one of whose lines runs on past the second step without
      closing; the free cells like it follow. */
  lemma OpeningLightAt52()
    ensures !Playable(5, 2, {27, 36}, {28, 35})
  {
  }

  lemma OpeningLightAt25()
    ensures !Playable(2, 5, {27, 36}, {28, 35})
  {
  }

  /** Every other free cell with y in 0..4 has all eight lines cut off
      within two steps. */
  lemma OpeningLightClearLow(x: int, y: int)
    requires OnBoard(x, y) && 0 <= y < 4
    requires (x != 4 || y != 2) && (x != 5 || y != 3) && (x != 2 || y != 4) && (x != 3 || y != 5) && (x != 5 || y != 2) && (x != 2 || y != 5)
    requires 8 * y + x !in {27, 36} && 8 * y + x !in {28, 35}
    ensures !Playable(x, y, {27, 36}, {28, 35})
  {
    ShallowCell(x, y, {27, 36}, {28, 35});
  }

  /** Every other free cell with y in 4..8 has all eight lines cut off
      within two steps. */
  lemma OpeningLightClearHigh(x: int, y: int)
    requires OnBoard(x, y) && 4 <= y < 8
    requires (x != 4 || y != 2) && (x != 5 || y != 3) && (x != 2 || y != 4) && (x != 3 || y != 5) && (x != 5 || y != 2) && (x != 2 || y != 5)
    requires 8 * y + x !in {27, 36} && 8 * y + x !in {28, 35}
    ensures !Playable(x, y, {27, 36}, {28, 35})
  {
    ShallowCell(x, y, {27, 36}, {28, 35});
  }

  /** The playable cells, cell by cell. */
  lemma OpeningLightCell(x: int, y: int)
    requires OnBoard(x, y)
    ensures Playable(x, y, {27, 36}, {28, 35}) <==> (x == 4 && y == 2) || (x == 5 && y == 3) || (x == 2 && y == 4) || (x == 3 && y == 5)
  {
    if x == 4 && y == 2 {
      OpeningLightAt42();
    } else if x == 5 && y == 3 {
      OpeningLightAt53();
    } else if x == 2 && y == 4 {
      OpeningLightAt24();
    } else if x == 3 && y == 5 {
      OpeningLightAt35();
    } else if x == 5 && y == 2 {
      OpeningLightAt52();
    } else if x == 2 && y == 5 {
      OpeningLightAt25();
    } else if 8 * y + x in {27, 36} || 8 * y + x in {28, 35} {
    } else if y < 4 {
      OpeningLightClearLow(x, y);
    } else {
      OpeningLightClearHigh(x, y);
    }
  }

  /** The legal moves, as a set of positions. */
  lemma OpeningLightLayout()
    ensures LegalMoves(Opening, Light) == {Point(4, 2), Point(5, 3), Point(2, 4), Point(3, 5)}
  {
    OpeningLightDepicts();
    forall q: Position ensures q in {Point(4, 2), Point(5, 3), Point(2, 4), Point(3, 5)} <==> Playable(q.x, q.y, {27, 36}, {28, 35}) {
      OpeningLightCell(q.x, q.y);
    }
    LegalMovesAre(Opening, Light, {27, 36}, {28, 35}, {Point(4, 2), Point(5, 3), Point(2, 4), Point(3, 5)});
  }

  /** The legal positions are distinct. */
  lemma OpeningLightCard()
    ensures |{Point(4, 2), Point(5, 3), Point(2, 4), Point(3, 5)}| == 4
  {
  }

  /** The opening board, light: the four moves (4, 2), (5, 3), (2, 4) and
      (3, 5). */
  lemma OpeningLightMoves()
    ensures LegalMoves(Opening, Light) == {Point(4, 2), Point(5, 3), Point(2, 4), Point(3, 5)}
    ensures |LegalMoves(Opening, Light)| == 4
  {
    OpeningLightLayout();
    OpeningLightCard();
  }
}
