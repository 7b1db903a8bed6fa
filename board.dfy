/** `struct Board` of src/core/board/board.rs: the 64 cells in an array and the
    operations that fill, write or scan it. Read-only queries (`count_turn_disks`,
    `can_place`, `count_disks`) are the functions of `BoardRules` applied to
    `Cells()`. */
module Boards {
  import opened Wrappers
  import opened Disks
  import opened Positions
  import opened BoardRules

  /** The messages of `Board::try_from_str`. */
  datatype ParseError =
    | BadCharacter  // "character must be 'x', 'o', or '_' "
    | TooShort      // "the length of source is not enough"

  /** The characters of a board layout. */
  predicate IsCellChar(c: char)
  {
    c == 'o' || c == 'x' || c == '_'
  }

  /** The content of a cell written as c: `o` is light, `x` dark, `_` empty. */
  function CellOf(c: char): Option<Disk>
    requires IsCellChar(c)
  {
    if c == 'o' then Some(Light) else if c == 'x' then Some(Dark) else None
  }

  /** A layout `try_from_str` accepts: at least 64 characters, the first 64
      all layout characters (anything after them is ignored). */
  predicate WellFormed(source: string)
  {
    |source| >= 64 && forall i | 0 <= i < 64 :: IsCellChar(source[i])
  }

  /** The first n cells read from a layout whose first n characters are
      layout characters; the cells after them still empty. */
  ghost predicate ReadUpTo(g: Grid, source: string, n: nat)
  {
    && n <= |source| && n <= 64
    && (forall i | 0 <= i < n :: IsCellChar(source[i]) && g[i] == CellOf(source[i]))
    && (forall i | n <= i < 64 :: g[i] == None)
  }

  /** Reading one more character extends the prefix read. */
  lemma ReadOneMore(g: Grid, source: string, n: nat)
    requires ReadUpTo(g, source, n) && n < |source| && n < 64 && IsCellChar(source[n])
    ensures ReadUpTo(g[n := CellOf(source[n])], source, n + 1)
  {
  }

  /** `seen` holds exactly the legal positions that the column-by-column
      walk of `count_legal_movs` has passed before (x, y). */
  ghost predicate SeenUpTo(g: Grid, d: Disk, seen: set<Position>, x: int, y: int)
  {
    forall q: Position :: q in seen <==> (q.x < x || (q.x == x && q.y < y)) && CanPlace(g, q, d)
  }

  /** Helper: one step of the walk adds (x, y) when legal, and it was not there before. */
  lemma SeenNext(g: Grid, d: Disk, seen: set<Position>, x: int, y: int)
    requires 0 <= x < 8 && 0 <= y < 8 && SeenUpTo(g, d, seen, x, y)
    ensures Point(x, y) !in seen
    ensures SeenUpTo(g, d, if CanPlace(g, Point(x, y), d) then seen + {Point(x, y)} else seen, x, y + 1)
  {
  }

  /** Helper: the end of a column is the start of the next. */
  lemma SeenColumn(g: Grid, d: Disk, seen: set<Position>, x: int)
    requires SeenUpTo(g, d, seen, x, 8)
    ensures SeenUpTo(g, d, seen, x + 1, 0)
  {
  }

  /** Helper: after the last column every legal position has been seen. */
  lemma SeenAll(g: Grid, d: Disk, seen: set<Position>)
    requires SeenUpTo(g, d, seen, 8, 0)
    ensures seen == LegalMoves(g, d)
  {
  }

  class Board {
    /** `Board::disks`, cell `8 * y + x` for (x, y). */
    const disks: array<Option<Disk>>

    ghost predicate Valid()
    {
      disks.Length == 64
    }

    /** The current content of the cells. */
    function Cells(): Grid
      reads disks
      requires Valid()
    {
      disks[..]
    }

    /** `Board::new`: a board with no disk. */
    constructor ()
      ensures Valid() && fresh(disks)
      ensures Cells() == EmptyGrid
    {
      disks := new Option<Disk>[64](_ => None);
      new;
      assert forall i | 0 <= i < 64 :: disks[i] == EmptyGrid[i];
    }

    /** `Board::set`: overwrite the cell of p, and only it. */
    method Set(p: Position, d: Disk)
      requires Valid()
      modifies disks
      ensures Cells() == old(Cells())[GetIndex(p) := Some(d)]
    {
      disks[GetIndex(p)] := Some(d);
    }

    /** `Board::try_from_str`: fills a new board from a row-major layout, cell
        by cell in the order y, then x. The first cell that is missing or has
        another character decides the error. */
    static method TryFromStr(source: string) returns (r: Result<Board, ParseError>)
      ensures r.Ok? <==> WellFormed(source)
      ensures r.Ok? ==> r.value.Valid() && fresh(r.value.disks)
      ensures r.Ok? ==> forall i | 0 <= i < 64 :: r.value.Cells()[i] == CellOf(source[i])
      ensures r == Err(TooShort) <==>
                |source| < 64 && forall i | 0 <= i < |source| :: IsCellChar(source[i])
    {
      var board := new Board();
      for y := 0 to 8
        invariant board.Valid() && fresh(board.disks)
        invariant ReadUpTo(board.Cells(), source, 8 * y)
      {
        for x := 0 to 8
          invariant board.Valid() && fresh(board.disks)
          invariant ReadUpTo(board.Cells(), source, 8 * y + x)
        {
          var pos := NewPosition(x, y).value;
          var idx := GetIndex(pos);
          ghost var g := board.Cells();
          if idx >= |source| {
            assert idx == 8 * y + x;
            return Err(TooShort);
          }
          var c := source[idx];
          if c == 'o' {
            ReadOneMore(g, source, idx);
            board.Set(pos, Light);
          } else if c == 'x' {
            ReadOneMore(g, source, idx);
            board.Set(pos, Dark);
          } else if c == '_' {
            ReadOneMore(g, source, idx);
            assert g[idx := None] == g;
          } else {
            assert idx == 8 * y + x && !IsCellChar(source[idx]);
            return Err(BadCharacter);
          }
        }
      }
      r := Ok(board);
    }

    /** `turn_line_disks_end_another_color`: the flipping twin of the end
        helper. It returns what the end helper returns on the board as it was,
        and turns the counted run to `end`; a cell is written only after the
        rest of the line has been found closed, so an error writes nothing. */
    method TurnLineEnd(p: Position, dir: Direction, end: Disk) returns (r: Result<nat, LineError>)
      requires Valid()
      modifies disks
      ensures r == CountLineEnd(old(Cells()), p, dir, end)
      ensures Cells() == Paint(old(Cells()), EndRun(old(Cells()), p, dir, end), end)
      decreases |Ray(p, dir)|
    {
      ghost var g := Cells();
      var next := Next(p, dir);
      if next.Err? {
        EndOpen(g, p, dir, end);
        return Err(NoEndDisk);
      }
      var q := next.value;
      RayShrinks(p, dir, q);
      var cell := disks[GetIndex(q)];
      if cell.None? {
        EndOpen(g, p, dir, end);
        return Err(NoEndDisk);
      }
      if cell.value == end {
        EndClosed(g, p, dir, q, end);
        return Ok(0);
      }
      var rest := TurnLineEnd(q, dir, end);
      if rest.Err? {
        EndBroken(g, p, dir, q, end);
        return Err(rest.error);
      }
      EndExtends(g, p, dir, q, end, rest.value);
      EndTurnStep(g, Cells(), p, dir, q, end);
      disks[GetIndex(q)] := Some(end);
      r := Ok(rest.value + 1);
    }

    /** `turn_line_disks_sandwitched_by_another_colors`: returns what the line
        count returns on the board as it was and turns exactly its run. */
    method TurnLineSandwiched(p: Position, dir: Direction, end: Disk) returns (r: Result<nat, LineError>)
      requires Valid()
      modifies disks
      ensures r == CountLineSandwiched(old(Cells()), p, dir, end)
      ensures Cells() == Paint(old(Cells()), LineRun(old(Cells()), p, dir, end), end)
    {
      ghost var g := Cells();
      if disks[GetIndex(p)].Some? {
        LineOpen(g, p, dir, end);
        return Err(ExistsDisk);
      }
      var next := Next(p, dir);
      if next.Err? {
        LineOpen(g, p, dir, end);
        return Err(NoDiskToTurn);
      }
      var q := next.value;
      var cell := disks[GetIndex(q)];
      if cell.None? || cell.value == end {
        LineOpen(g, p, dir, end);
        return Err(NoDiskToTurn);
      }
      var rest := TurnLineEnd(q, dir, end);
      if rest.Err? {
        LineBroken(g, p, dir, q, end);
        return Err(rest.error);
      }
      LineExtends(g, p, dir, q, end, rest.value);
      LineTurnStep(g, Cells(), p, dir, q, end);
      disks[GetIndex(q)] := Some(end);
      r := Ok(rest.value + 1);
    }

    /** One iteration of `turn_disks`: the k-th direction flipped on the board
        the first k directions left, which is its own line of the board as it was. */
    method TurnDirection(ghost g: Grid, p: Position, end: Disk, k: nat, total: nat) returns (sum: nat)
      requires Valid() && k < 8
      requires Cells() == Paint(g, CapturedUpTo(g, p, end, k), end)
      requires total == FlipsUpTo(g, p, end, k)
      modifies disks
      ensures sum == FlipsUpTo(g, p, end, k + 1)
      ensures Cells() == Paint(g, CapturedUpTo(g, p, end, k + 1), end)
    {
      TurnStep(g, p, end, k);
      var c := TurnLineSandwiched(p, AllDirections[k], end);
      sum := total + match c case Ok(m) => m case Err(_) => 0;
    }

    /** `Board::turn_disks`: the eight directions in turn, each flipped on the
        board the earlier ones left. It returns exactly what `count_turn_disks`
        returns on the board as it was; on success exactly the counted cells
        are turned (the target stays empty), on failure nothing changes. */
    method TurnDisks(p: Position, end: Disk) returns (r: Result<nat, MoveError>)
      requires Valid()
      modifies disks
      ensures r == CountTurnDisks(old(Cells()), p, end)
      ensures Cells() == if r.Ok? then Paint(old(Cells()), Captured(old(Cells()), p, end), end)
                         else old(Cells())
    {
      if disks[GetIndex(p)].Some? {
        return Err(OccupiedCell);
      }
      ghost var g := Cells();
      PaintNothing(g, end);
      var total := 0;
      for k := 0 to 8
        invariant Cells() == Paint(g, CapturedUpTo(g, p, end, k), end)
        invariant total == FlipsUpTo(g, p, end, k)
      {
        total := TurnDirection(g, p, end, k, total);
      }
      TurnDisksOutcome(g, Cells(), p, end, total);
      if total == 0 {
        return Err(NoDiskToFlip);
      }
      r := Ok(total);
    }

    /** `Board::place`: turn, then on success put `end` on p. */
    method Place(p: Position, end: Disk) returns (r: Result<nat, MoveError>)
      requires Valid()
      modifies disks
      ensures r == CountTurnDisks(old(Cells()), p, end)
      ensures Cells() == if r.Ok? then Placed(old(Cells()), p, end) else old(Cells())
    {
      ghost var g := Cells();
      r := TurnDisks(p, end);
      if r.Ok? {
        PaintOneMore(g, Captured(g, p, end), GetIndex(p), end);
        disks[GetIndex(p)] := Some(end);
      }
    }

    /** `Board::count_legal_movs`: the number of positions where `can_place` holds,
        counted column by column. */
    method CountLegalMovs(d: Disk) returns (count: nat)
      requires Valid()
      ensures count == |LegalMoves(Cells(), d)|
    {
      var g := Cells();
      count := 0;
      ghost var seen: set<Position> := {};
      for x := 0 to 8
        invariant count == |seen| && SeenUpTo(g, d, seen, x, 0)
      {
        for y := 0 to 8
          invariant count == |seen| && SeenUpTo(g, d, seen, x, y)
        {
          var pos := NewPosition(x, y).value;
          SeenNext(g, d, seen, x, y);
          if CanPlace(g, pos, d) {
            count := count + 1;
            seen := seen + {pos};
          }
        }
        SeenColumn(g, d, seen, x);
      }
      SeenAll(g, d, seen);
    }

    /** `Board::exists_legal_mov`: some position admits a move. */
    method ExistsLegalMov(d: Disk) returns (b: bool)
      requires Valid()
      ensures b <==> exists q: Position :: CanPlace(Cells(), q, d)
    {
      var count := CountLegalMovs(d);
      b := count > 0;
      if !b {
        assert LegalMoves(Cells(), d) == {};
      } else {
        var q :| q in LegalMoves(Cells(), d);
      }
    }
  }
}
