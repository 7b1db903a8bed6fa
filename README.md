# ruversi board engine in Dafny

A verified model of the playing core of **ruversi**, a Reversi (Othello) game written in Rust.

The model covers:

- **The 8x8 geometry.** This is the `Direction` table and `Position::new` / `Position::next`, which validate coordinates.
- **The board.** It has 64 cells, each empty, light or dark, stored row-major as cell `8 * y + x`.
- **Building a board.** This is `new` and `try_from_str`.
- **The line scans.** These are the two recursive helpers that decide whether a move sandwiches disks in one direction.
- **The move rules built on them.** These are `count_turn_disks`, `can_place`, `count_legal_movs`, `exists_legal_mov` and `count_disks`.
- **The mutating pass.** This is `turn_disks` with its two helpers, and `place`.
- **Turn handling.** This is `TurnPlayer` and the turn/pass bookkeeping of `Ruversi::run`.

## Modules and form

- `Disks` (`disk.rs`): the disk colour, and `reverse` as a function.
- `Positions` (`board.rs` lines 7-64): directions, validated positions, and `Ray`. A ray is the sequence of positions a line iterator visits.
- `BoardRules`: the read-only rules as functions over a `Grid`, which stands for the 64 cells. It also holds the description of which cells the flipping pass turns (`LineRun`, `Captured`) and the lemmas about all of these.
- `Boards`: `class Board` with the cells in an `array`. All writing code is methods on it:
  - `Set`, `TryFromStr`, the two recursive flipping helpers, `TurnDisks`, `Place`;
  - also the scanning loops of `count_legal_movs`.

  Each method is proved against the `BoardRules` functions applied to the old cells.
- `Game` (`ruversi.rs`): `TurnPlayer` and `class Ruversi`, with `exists_legal_mov` and the loop of `run`.
- `Scenarios`: the worked positions of the unit tests of `board.rs`. Each is proved as a lemma about the rule functions.
- `Layouts`: a board described by the cells of the mover's colour and the cells of the other colour. On such a description, `can_place` is a walk over two finite sets of cell numbers, and `count_disks` is the size of a set.
- `CountingScenarios`: on that description, the counting tests of `board.rs` and the opening position of `main.rs`.

## Main results

1. **The flipping pass does what the count reports.**
   - `Board.TurnDisks` returns exactly what `count_turn_disks` returns on the board as it was.
   - On success it turns exactly `Captured`; on failure the board is unchanged.
   - The key lemma is `TurnStep`: turning one direction never changes what a later direction sees. It holds because rays from one cell in different directions share no cell.
2. **Flip conservation** (`PlaceConservesDisks`, with `CapturedMatchesCount`). Suppose `count_turn_disks` reports `n`. Then placing:
   - adds `n + 1` disks of the mover's colour;
   - removes `n` of the other colour;
   - leaves every other cell as it was.
3. **Legality** (`CanPlaceIff`). A move is legal exactly when the cell is empty and, in some direction, a non-empty run of the other colour is closed by a disk of the mover's colour.
4. **The line helpers** (`CountLineEndSpec`, `CountLineSandwichedSpec`). Each helper is characterised by the closed run it recognises.
5. **Legal-move counting.** `count_legal_movs` equals the size of the set of legal positions.
6. **`Ruversi::run`'s counters.** Dark moves first and the players alternate. The skip count is the number of consecutive passes since the last move.
7. **The counting tests.** `LegalMovesOfLayout` and `CountDisksOfLayout` turn a board described by the cells of each colour into walks over those cells. On that description, the disk count of `test_count_disks2` and the legal moves of `test_count_legal_movs2`/`3` and of the opening position are derived in full (`CountingScenarios`).

## Model

| member | source | states |
|---|---|---|
| Disks.Reverse | src/core/board/disk.rs:8-13 | The reversed colour differs from the original. |
| Disks.ReverseInvolutive | src/core/board/disk.rs:8-13 | Reversing twice gives the original colour back. |
| Disks.DiskIsOneOfTwo | src/core/board/disk.rs:1-5 | Any colour is either `d` or its reverse: there are only two. |
| Positions.Tuple | src/core/board/board.rs:19-31 | Each direction's step is a non-zero unit vector, each component in -1..1. |
| Positions.DirectionTable | src/core/board/board.rs:7-31 | The eight directions have eight different steps, which together are all non-zero unit vectors. |
| Positions.AllDirectionsComplete | src/core/board/board.rs:7-17 | The iteration order lists every direction exactly once. |
| Positions.NewPosition | src/core/board/board.rs:48-58 | Ok exactly on the board, with the given coordinates. The x check comes first, then the y check. |
| Positions.NextStep | src/core/board/board.rs:60-63 | One step succeeds exactly when the neighbour is on the board, and then it is that neighbour: there is no wrap-around. |
| Positions.RayAt | src/core/board/board.rs:83-90 | The k-th position a line iterator visits is k+1 steps away from its start. |
| Positions.RayEnd | src/core/board/board.rs:83-90 | The walk of a line iterator stops exactly where the next step would leave the board. |
| Positions.RaysDisjoint | src/core/board/board.rs:83-90 | A ray never visits its origin or the same position twice, and rays from one origin in different directions do not meet. |
| BoardRules.PositionOf | src/core/board/board.rs:301-303 | Gives, for a cell number, the position that `get_index` maps to it. |
| BoardRules.GetIndexBijective | src/core/board/board.rs:301-303 | `get_index` is injective and `PositionOf` inverts it. |
| BoardRules.CountLineEnd | src/core/board/board.rs:227-241 | The only error is "end of this line has not another color". |
| BoardRules.CountLineEndBound | src/core/board/board.rs:227-241 | An Ok count is shorter than the remaining ray. |
| BoardRules.CountLineSandwiched | src/core/board/board.rs:208-225 | An Ok count is at least 1. The error is `ExistsDisk` exactly when the origin is occupied. |
| BoardRules.CountLineSandwichedBound | src/core/board/board.rs:208-225 | An Ok count is shorter than the ray. |
| BoardRules.CountLineEndSpec | src/core/board/board.rs:227-241 | Ok(m) holds iff the ray is m disks of the other colour followed by a disk of colour `end`. A walk meeting an empty cell or the edge first is an error. |
| BoardRules.CountLineSandwichedSpec | src/core/board/board.rs:208-225 | Ok(n) holds iff the origin is empty, n >= 1, and the ray is n other-colour disks closed by `end`. A first neighbour of colour `end`, an empty one, or none gives an error. |
| BoardRules.CountTurnDisks | src/core/board/board.rs:191-206 | `OccupiedCell` iff the cell is occupied. `NoDiskToFlip` iff it is empty and the per-direction counts (errors as 0) sum to 0. Otherwise Ok and positive. |
| BoardRules.FlipsUpToPositive | src/core/board/board.rs:196-201 | The sum over the first k directions is positive iff one of them has an Ok count. |
| BoardRules.CanPlaceIff | src/core/board/board.rs:319-321 | `can_place` holds iff the cell is empty and some direction has a non-empty other-colour run closed by the mover's colour. |
| BoardRules.CanPlaceHasSandwich | src/core/board/board.rs:319-321 | A placeable cell has a closed run in some direction. |
| BoardRules.SandwichMakesPlaceable | src/core/board/board.rs:319-321 | An empty cell with a closed run in some direction is placeable. |
| BoardRules.CountLineSandwichedFrame | src/core/board/board.rs:208-225 | A direction's count depends only on the origin and the cells of its ray. |
| BoardRules.CountLineEndFrame | src/core/board/board.rs:227-241 | The end helper depends only on the cells of its ray. |
| BoardRules.TurnStep | src/core/board/board.rs:243-258 | After the first k directions are turned, direction k counts what it counted on the original board. Turning it extends the turned cells by its run. |
| BoardRules.LineRunCount | src/core/board/board.rs:208-225 | The cells one direction turns are exactly as many as it counts, and all hold the other colour beforehand. |
| BoardRules.CapturedUpToCount | src/core/board/board.rs:243-258 | On the first k directions, the turned cells number exactly the summed count, all held the other colour, and the target cell is not among them. |
| BoardRules.CapturedMatchesCount | src/core/board/board.rs:243-258 | `turn_disks` turns exactly as many cells as `count_turn_disks` reports, all of the other colour, never the target. On `NoDiskToFlip` it turns none. |
| BoardRules.LegalMoves | src/core/board/board.rs:174-185 | The set contains exactly the positions where `can_place` holds. |
| BoardRules.CountDisks | src/core/board/board.rs:336-341 | At most one per cell. |
| BoardRules.CountDisksIsCardinality | src/core/board/board.rs:336-341 | `count_disks` equals the number of cells holding `Some(d)`. |
| BoardRules.PlaceConservesDisks | src/core/board/board.rs:323-329 | After a move reported as n: n+1 more disks of the mover's colour, n fewer of the other, and every untouched cell unchanged. |
| BoardRules.EmptyGridHasNoMove | src/core/board/board.rs:141-143 | On a new board, every move is refused with `NoDiskToFlip`. |
| BoardRules.EmptyGridHasNoLegalMove | src/core/board/board.rs:141-143 | A new board has no legal move for either colour. |
| Boards.Board.constructor | src/core/board/board.rs:141-143 | A fresh board with all 64 cells empty. |
| Boards.Board.Set | src/core/board/board.rs:331-334 | Writes the cell of p, and only that cell. |
| Boards.Board.TryFromStr | src/core/board/board.rs:145-164 | Ok iff the first 64 characters exist and are all `o`/`x`/`_`; then cell i is the content of character i. `TooShort` iff the input ends before any bad character. Otherwise `BadCharacter`. |
| Boards.Board.TurnLineEnd | src/core/board/board.rs:282-299 | Returns what the end helper returns on the old board. It turns exactly that helper's run, so an error turns nothing. |
| Boards.Board.TurnLineSandwiched | src/core/board/board.rs:260-280 | Returns what the line count returns on the old board, and turns exactly that line's run. |
| Boards.Board.TurnDirection | src/core/board/board.rs:248-253 | One direction of the pass adds that direction's count on the original board to the running sum and extends the turned cells by its run. |
| Boards.Board.TurnDisks | src/core/board/board.rs:243-258 | Returns exactly `count_turn_disks` of the old board. On success exactly `Captured` is turned; on failure the board is unchanged. |
| Boards.Board.Place | src/core/board/board.rs:323-329 | Returns `count_turn_disks` of the old board. On success the captured cells and the target hold the mover's colour; otherwise the board is unchanged. |
| Boards.Board.CountLegalMovs | src/core/board/board.rs:174-185 | The count is the number of positions where `can_place` holds. |
| Boards.Board.ExistsLegalMov | src/core/board/board.rs:187-189 | True iff some position admits a move. |
| Game.Another | src/core/ruversi.rs:11-16 | The other player differs from the given one. |
| Game.AnotherInvolutive | src/core/ruversi.rs:11-16 | Changing player twice gives the first player back. |
| Game.MakeTurn | src/core/ruversi.rs:18-20 | The new value is the other player. |
| Game.IntoDisk | src/core/ruversi.rs:22-27 | The dark player maps to dark disks and the light player to light ones, both ways. |
| Game.IntoDiskRespectsTurns | src/core/ruversi.rs:22-27 | `into_disk` is injective, and changing player reverses the colour. |
| Game.Ruversi.constructor | src/core/ruversi.rs:37-39 | Keeps the given board. |
| Game.Ruversi.ExistsLegalMov | src/core/ruversi.rs:53-55 | True iff some position admits a move for the player's colour. |
| Game.Ruversi.Run | src/core/ruversi.rs:65-89 | Dark plays iteration 0, and players alternate every iteration whether they move or pass. At every check the skip count is the number of passes since the last move, or since the start. |
| Scenarios.SingleLineMove | src/core/board/board.rs:191-206 | When only one direction counts, the move's count is that line's count and the turned cells are that line's run. |
| BoardRules.FlipsOfEight | src/core/board/board.rs:191-206 | The sum `count_turn_disks` forms is the eight directions' counts, errors as 0, added in the order `Direction::iter()` yields them. |
| Scenarios.TurnCountOfEight | src/core/board/board.rs:191-206 | On an empty cell, a positive total of the eight directions' counts is the move's count. |
| Scenarios.CapturedOfEight | src/core/board/board.rs:243-258 | The cells `turn_disks` turns are the union of the eight directions' runs, in iteration order. |
| Scenarios.NoLineOfEight | src/core/board/board.rs:191-206 | On an empty cell where none of the eight directions counts, the move is refused with `NoDiskToFlip`. |
| Scenarios.EdgeRunOfThree | src/core/board/board.rs:208-240 | Three disks of the other colour running into the edge: the direction gives an error. |
| Scenarios.EdgeRunOfFour | src/core/board/board.rs:208-240 | The same for four disks. |
| Scenarios.RunOfTwoClosed | src/core/board/board.rs:208-240 | Two disks of the other colour closed by a third cell: the direction counts 2 and turns exactly those two cells. |
| Scenarios.RunOfThreeClosed | src/core/board/board.rs:208-240 | The same for three disks: count 3, exactly those three cells. |
| Scenarios.PlaceOneScenario | src/core/board/board.rs:591-620 | Dark at (3,2) with light (3,3) and dark (3,4): count 1. Afterwards (3,3) is turned dark and (3,2) holds the new dark disk, so the column holds three dark disks; nothing else changes. |
| Scenarios.PlaceThreeScenario | src/core/board/board.rs:622-651 | Dark at (3,2) over three light disks closed at (3,6): count 3, and five dark disks afterwards. |
| Scenarios.PlaceSplitScenario | src/core/board/board.rs:653-682 | Dark at (3,1) over three light disks closed at (3,5): count 3. Only those three and (3,1) change; the light disks beyond (3,5) stay. |
| Scenarios.ThreeRaysScenario | src/core/board/board.rs:684-713 | Light at the corner (7,7) closes three dark disks towards smaller y, along the diagonal and towards smaller x: count 9. The board afterwards is the starting board with those nine cells and (7,7) light. |
| Scenarios.StarScenario | src/core/board/board.rs:715-744 | Light at (3,3) closes dark disks in all eight directions, three in three of them and two in the other five: count 19. The board afterwards is the starting board with all nineteen dark disks and (3,3) light. |
| Scenarios.CutScenario | src/core/board/board.rs:553-570 | Light at (3,3) with dark disks up to the edge in all eight directions is refused with `NoDiskToFlip`. |
| Scenarios.OpenLineTopScenario | src/core/board/board.rs:506-551 | For both colours: at (3,2) an unclosed column gives `NoDiskToFlip`, and the three occupied cells give `OccupiedCell`. |
| Scenarios.OpenLineBottomScenario | src/core/board/board.rs:506-551 | For both colours, (3,6) on the unclosed column gives `NoDiskToFlip`. |
| Scenarios.EdgeScenario | src/core/board/board.rs:820-850 | Light at (5,6), above a lone dark disk on the bottom row, is refused: the line runs into the edge. |
| Scenarios.EmptyBoardScenario | src/core/board/board.rs:852-884 | A new board holds no disk of either colour and offers no legal move. |
| Layouts.EndStep | src/core/board/board.rs:227-241 | The end helper succeeds iff the next cell exists and either holds `end`, or holds the other colour and the helper succeeds from there. |
| Layouts.SandwichedStep | src/core/board/board.rs:208-225 | A direction counts iff the origin is empty, the next cell exists and holds the other colour, and the end helper succeeds from there. |
| Layouts.ClosedWalkIff | src/core/board/board.rs:227-241 | On a described board, the end helper succeeds iff the walk over the two cell sets reaches a cell of `end` before an empty cell or the edge. |
| Layouts.FlanksIff | src/core/board/board.rs:208-225 | On a described board, a direction counts iff the origin is empty, its neighbour is of the other colour, and the walk beyond is closed. |
| Layouts.CellOfLayout | src/core/board/board.rs:305-312 | On a described board, a cell holds the mover's colour, the other colour, or nothing exactly as the two sets say. |
| Layouts.PlayableIff | src/core/board/board.rs:319-321 | On a described board, `can_place` holds iff the cell is in neither set and closes a walk in one of the eight directions. |
| Layouts.ShallowCell | src/core/board/board.rs:208-225 | A cell is not playable when each of its eight lines is cut off within two steps: the first cell is off the board or not the other colour, or the second is off the board or empty. |
| Layouts.LegalMovesOfLayout | src/core/board/board.rs:174-185 | On a described board, the legal moves are exactly the playable cells. |
| Layouts.LegalMovesAre | src/core/board/board.rs:174-185 | A set of positions is the legal moves of a described board when it holds exactly the playable cells. |
| Layouts.CountDisksOfLayout | src/core/board/board.rs:336-341 | On a described board, `count_disks` of each colour is the size of that colour's set. |
| Layouts.ElementsOfDistinct | src/core/board/board.rs:336-341 | A list without repetitions has as many distinct elements as entries. It gives the sizes of literal cell sets. |
| CountingScenarios.StarDisks | src/core/board/board.rs:860-876 | The board of `test_count_disks2` holds 19 dark disks and 8 light ones. |
| CountingScenarios.ThreeLineDarkMoves | src/core/board/board.rs:886-902 | On the board of `test_count_legal_movs2`, dark has exactly one legal move, (3,2). |
| CountingScenarios.ThreeLineLightMoves | src/core/board/board.rs:886-902 | On the same board, light has exactly one legal move, (3,7). |
| CountingScenarios.TeeDarkMoves | src/core/board/board.rs:904-920 | On the board of `test_count_legal_movs3`, dark has exactly three legal moves: (5,4), (4,5) and (5,5). |
| CountingScenarios.TeeLightMoves | src/core/board/board.rs:904-920 | On the same board, light has exactly three legal moves: (2,2), (4,2) and (2,4). |
| CountingScenarios.OpeningDarkMoves | src/main.rs:11-22 | On the opening board, dark has exactly four legal moves: (3,2), (2,3), (5,4) and (4,5). |
| CountingScenarios.OpeningLightMoves | src/main.rs:11-22 | On the opening board, light has exactly four legal moves: (4,2), (5,3), (2,4) and (3,5). |

## Left out

- **Console I/O and players.** `src/io/cui.rs`, `src/main.rs`, `src/player/user.rs` and `src/core/player.rs` are console I/O, process wiring, and a player trait that only delegates. They have no game logic. Only the opening board of `init_board` in `src/main.rs` is modelled, as `CountingScenarios.Opening`.
- **`src/ruversi_core`.** It is an older copy of the board that the crate does not build, so it is not part of this model.
- **`Display` impls.** The impls for `Board` and `Position` are presentation only.
- **The line iterators.** `BoardLineIter` and `BoardLineIterMut` are modelled as the position sequence `Ray` plus index reads and writes. The raw-pointer reborrow in `BoardLineIterMut` is a Rust aliasing device; the model writes cells by index.
- **`get_mut`.** It is folded into those index writes.
- **Test macros.** The `board!` / `board_fig!` macros are left out. Test boards are written as the empty grid with the test's disks put on it.
- **`strum`.** Its `EnumIter` is replaced by the fixed sequence `AllDirections` in declaration order.
- Game.Ruversi.Run: it abstracts `ends_game`, `turn_player_mov`, `update`, `game_start` and `game_end`, which are `unimplemented!()` in the source. It takes the answers of `exists_legal_mov` as a sequence, stops (the decision of `ends_game`) after that many iterations, and does not model what `update` would do to the board. The player fields are trait objects and are not modelled.
- **Message strings.** Error strings are modelled as datatype constructors: `PositionError`, `LineError`, `MoveError`, `ParseError`.
- Boards.Board.TurnDisks: its failure message for "nothing to turn" has no trailing full stop, unlike the one of `count_turn_disks`. Both are `NoDiskToFlip` here, so the contract equates the two results up to that text.
- Boards.Board.Place: it returns the result of `turn_disks`, so the same difference in the message applies. Its contract equates it with `count_turn_disks` up to that text.
- **Integer widths.** The source counts in `i32`/`usize`; the model uses unbounded integers. Disk and move counts never exceed 64 and coordinates stay in -1..8, so nothing wraps around there.
- Game.Ruversi.Run: its skip count is an `i32` in the source and grows by one with every pass. The model's count has no bound. Only `ends_game`, which the model abstracts, stops it from wrapping around after 2^31 passes in a row.
- Disks.Reverse: the source flips a disk in place through `&mut self`. The model gives the new value as a function of the old one.
- Game.MakeTurn: the source overwrites `*self` with the other player. The model returns the new value, and the caller stores it.
