/** The turn bookkeeping of src/core/ruversi.rs: whose turn it is, how a turn
    maps to a disk colour, the game's legal-move query and the counters of
    `Ruversi::run`. */
module Game {
  import Disks
  import opened Positions
  import opened BoardRules
  import opened Boards

  /** `enum TurnPlayer`. */
  datatype TurnPlayer = Dark | Light

  /** `TurnPlayer::another`: the other player. */
  function Another(t: TurnPlayer): (r: TurnPlayer)
    ensures r != t
  {
    match t
    case Dark => Light
    case Light => Dark
  }

  /** Two changes of player give the first player back. */
  lemma AnotherInvolutive(t: TurnPlayer)
    ensures Another(Another(t)) == t
  {
  }

  /** `TurnPlayer::make_turn`: the source overwrites `*self` with the other
      player; the new value is returned here. */
  method MakeTurn(t: TurnPlayer) returns (next: TurnPlayer)
    ensures next != t
    ensures next == Another(t)
  {
    next := Another(t);
  }

  /** `TurnPlayer::into_disk`: the dark player plays dark disks, the light player light ones. */
  function IntoDisk(t: TurnPlayer): (d: Disks.Disk)
    ensures (t == Dark) <==> (d == Disks.Dark)
    ensures (t == Light) <==> (d == Disks.Light)
  {
    match t
    case Dark => Disks.Dark
    case Light => Disks.Light
  }

  /** `into_disk` is injective, and changing player reverses the colour. */
  lemma IntoDiskRespectsTurns(t: TurnPlayer, u: TurnPlayer)
    ensures IntoDisk(t) == IntoDisk(u) ==> t == u
    ensures IntoDisk(Another(t)) == Disks.Reverse(IntoDisk(t))
  {
  }

  /** At check i of the game loop, `skip_count` is s exactly when the last s
      iterations found no legal move and the one before them (if any) found one. */
  ghost predicate SkipCountAt(hasMove: seq<bool>, i: nat, s: nat)
    requires i <= |hasMove|
  {
    && s <= i
    && (forall j | i - s <= j < i :: !hasMove[j])
    && (s < i ==> hasMove[i - s - 1])
  }

  /** The running game of `struct Ruversi`; the two `Box<dyn Player>` fields have
      no behaviour here. */
  class Ruversi {
    const board: Board

    /** `Ruversi::new`. */
    constructor (board: Board)
      ensures this.board == board
    {
      this.board := board;
    }

    /** `Ruversi::exists_legal_mov`: the board's legal-move query for the
        player's colour. */
    method ExistsLegalMov(player: TurnPlayer) returns (b: bool)
      requires board.Valid()
      ensures b <==> exists q: Position :: CanPlace(board.Cells(), q, IntoDisk(player))
    {
      b := board.ExistsLegalMov(IntoDisk(player));
    }

    /** The bookkeeping of `Ruversi::run`. `hasMove[i]` is the answer of
        `exists_legal_mov` in iteration i; `ends_game` lets the loop run
        exactly |hasMove| iterations. It returns the player asked in each
        iteration and the `skip_count` handed to `ends_game` at each of the
        |hasMove| + 1 checks. Dark starts, the players alternate every
        iteration, and the skip count is the number of passes since the last
        move. */
    method Run(hasMove: seq<bool>) returns (turns: seq<TurnPlayer>, skips: seq<nat>)
      ensures |turns| == |hasMove| && |skips| == |hasMove| + 1
      ensures forall i | 0 <= i < |turns| :: turns[i] == if i % 2 == 0 then Dark else Light
      ensures forall i | 0 <= i <= |hasMove| :: SkipCountAt(hasMove, i, skips[i])
    {
      var turnPlayer := Dark;
      var skipCount := 0;
      turns, skips := [], [0];
      var i := 0;
      while i < |hasMove|
        invariant 0 <= i <= |hasMove|
        invariant |turns| == i && |skips| == i + 1
        invariant turnPlayer == if i % 2 == 0 then Dark else Light
        invariant forall j | 0 <= j < i :: turns[j] == if j % 2 == 0 then Dark else Light
        invariant skipCount == skips[i]
        invariant forall j | 0 <= j <= i :: SkipCountAt(hasMove, j, skips[j])
      {
        turns := turns + [turnPlayer];
        if hasMove[i] {
          skipCount := 0;
        } else {
          skipCount := skipCount + 1;
        }
        turnPlayer := MakeTurn(turnPlayer);
        i := i + 1;
        skips := skips + [skipCount];
      }
    }
  }
}
