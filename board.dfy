/**
 * The Board class: the mutable game state and the methods that scan,
 * place, flip, switch turns and tally.  Every method is proved against the
 * functions of Rules; the board dictionary `coord_to_piece` is the field
 * `grid`.
 */
module Boards {
  import opened BoardModel
  import opened Tags
  import opened Rules

  /** One `play_log` entry: (count, turn, coord). */
  datatype LogEntry = LogEntry(count: nat, turn: Turn, pos: Pos)

  /** The winner get_result writes: "先手(黒)", "後手(白)" or "引き分け". */
  datatype Outcome = FirstWins | SecondWins | Draw

  /** change_turn's successor turn: first and second swap, "wait" stays. */
  function Opponent(t: Turn): Turn {
    match t
    case First => Second
    case Second => First
    case Wait => Wait
  }

  /** Swapping twice is the identity, and a playing turn hands over to the other colour. */
  lemma OpponentSwaps(t: Turn)
    ensures Opponent(Opponent(t)) == t
    ensures t != Wait ==> Opponent(t) != Wait && OwnPiece(Opponent(t)) != OwnPiece(t)
  {
  }

  /** `all(p != 0 for p in coord_to_piece.values())`. */
  predicate Full(g: Grid) {
    forall i :: 0 <= i < 64 ==> g[i] != Empty
  }

  /** A board is full exactly when it has no empty cell left to count. */
  lemma FullIffNoEmpty(g: Grid)
    ensures Full(g) <==> Count(g, Empty) == 0
  {
    CountZero(g, Empty);
  }

  /** get_result's winner: the side with more discs, a draw when equal. */
  function Winner(black: nat, white: nat): Outcome {
    if black > white then FirstWins else if white > black then SecondWins else Draw
  }

  /**
   * The two tallies of get_result add up to the number of occupied cells; on
   * a full board the game is drawn exactly when each side holds 32 discs,
   * and otherwise the winner holds more than half of the board.
   */
  lemma ResultTally(g: Grid)
    ensures Count(g, Black) + Count(g, White) == 64 - Count(g, Empty)
    ensures Full(g) ==> (Winner(Count(g, Black), Count(g, White)) == Draw <==> Count(g, Black) == 32)
    ensures Full(g) && Winner(Count(g, Black), Count(g, White)) == FirstWins ==> Count(g, Black) > 32
    ensures Full(g) && Winner(Count(g, Black), Count(g, White)) == SecondWins ==> Count(g, White) > 32
  {
    CountPartition(g);
    FullIffNoEmpty(g);
  }

  /** The cell check_avalable_hit tests: the clicked cell if it is empty, otherwise 0_0. */
  function ClickTarget(g: Grid, p: Pos): (t: Pos)
    requires OnBoard(p)
    ensures OnBoard(t)
  {
    if At(g, p) == Empty then p else Pos(0, 0)
  }

  /**
   * The quirk of check_avalable_hit: on the opening board with a white disc
   * on 0_1 and a black disc on 0_2, clicking the occupied cell 3_3 is
   * accepted for black, because the test runs on 0_0 instead.
   */
  lemma OccupiedClickAccepted(g: Grid)
    requires g == Set(Set(Initial, Pos(0, 1), White), Pos(0, 2), Black)
    ensures At(g, Pos(3, 3)) != Empty && !Legal(g, Black, Pos(3, 3))
    ensures Brackets(g, Black, ClickTarget(g, Pos(3, 3)))
  {
    var g1 := Set(Initial, Pos(0, 1), White);
    InitialAt(Pos(3, 3));
    InitialAt(Pos(0, 0));
    SetAt(Initial, Pos(0, 1), White, Pos(3, 3));
    SetAt(Initial, Pos(0, 1), White, Pos(0, 0));
    SetAt(g1, Pos(0, 2), Black, Pos(3, 3));
    SetAt(g1, Pos(0, 2), Black, Pos(0, 0));
    SetAt(g1, Pos(0, 2), Black, Pos(0, 1));
    assert At(g, Pos(0, 1)) == White && At(g, Pos(0, 2)) == Black;
    assert FindOwn(g, Black, Pos(0, 1), Dir(0, 1));
    assert DirCaptures(g, Black, Pos(0, 0), Dirs[4]);
    BracketsByDir(g, Black, Pos(0, 0), 4);
  }

  /** Prefix `pre` onto a closed run; an open run stays open. */
  function Extend(pre: seq<Pos>, r: Option<seq<Pos>>): Option<seq<Pos>> {
    match r
    case None => None
    case Some(rest) => Some(pre + rest)
  }

  lemma ExtendNothing(r: Option<seq<Pos>>)
    ensures Extend([], r) == r
  {
    if r.Some? {
      assert [] + r.value == r.value;
    }
  }

  lemma ExtendAppend(pre: seq<Pos>, n: Pos, r: Option<seq<Pos>>)
    ensures Extend(pre, Extend([n], r)) == Extend(pre + [n], r)
  {
    if r.Some? {
      assert pre + ([n] + r.value) == (pre + [n]) + r.value;
    }
  }

  class Board {
    var grid: Grid                    // coord_to_piece
    var turn: Turn
    var count: nat
    var playLog: seq<LogEntry>
    var hit: bool
    var avalableHit: bool
    var randomHitListTag: seq<string>
    var randomHitListCoord: seq<Pos>
    var searchHitListTag: seq<string>
    var searchHitListCoord: seq<Pos>
    var passCount: nat
    var finishFlag: bool
    var resultCount: seq<nat>
    var restartFlag: bool
    var searchFlag: bool
    var resultWriteFlag: bool
    var maxReversals: map<Turn, nat>

    /** Board.__init__; the grid is empty until init_board_setup fills it. */
    constructor ()
      ensures grid == EmptyGrid() && turn == Wait && count == 0 && playLog == []
      ensures !hit && !avalableHit && !finishFlag && !restartFlag && !searchFlag && !resultWriteFlag
      ensures randomHitListTag == [] && randomHitListCoord == []
      ensures searchHitListTag == [] && searchHitListCoord == []
      ensures passCount == 0 && resultCount == []
      ensures maxReversals == map[First := 0, Second := 0]
    {
      grid := EmptyGrid();
      turn := Wait;
      count := 0;
      playLog := [];
      hit := false;
      avalableHit := false;
      randomHitListTag := [];
      randomHitListCoord := [];
      searchHitListTag := [];
      searchHitListCoord := [];
      passCount := 0;
      finishFlag := false;
      resultCount := [];
      restartFlag := false;
      searchFlag := false;
      resultWriteFlag := false;
      maxReversals := map[First := 0, Second := 0];
    }

    /** Writes every cell, row by row, with the initial layout. */
    method InitBoardSetup()
      modifies this`grid
      ensures grid == Initial
    {
      var i := 0;
      while i < 8
        invariant 0 <= i <= 8
        invariant forall q :: OnBoard(q) && q.x < i ==> At(grid, q) == InitialPiece(q)
      {
        var j := 0;
        while j < 8
          invariant 0 <= j <= 8
          invariant forall q :: OnBoard(q) && (q.x < i || (q.x == i && q.y < j)) ==> At(grid, q) == InitialPiece(q)
        {
          var piece := if (j == 3 && i == 3) || (j == 4 && i == 4) then Black
                       else if (j == 3 && i == 4) || (j == 4 && i == 3) then White
                       else Empty;
          grid := Set(grid, Pos(i, j), piece);
          j := j + 1;
        }
        i := i + 1;
      }
      forall q | OnBoard(q) ensures At(grid, q) == At(Initial, q) {
        InitialAt(q);
      }
      GridExt(grid, Initial);
    }

    /** find_own_piece_in_direction: the loop that walks from q along d. */
    method FindOwnPieceInDirection(q: Pos, d: Dir) returns (found: bool)
      requires IsDir(d)
      ensures found == FindOwn(grid, OwnPiece(turn), q, d)
    {
      var own := OwnPiece(turn);
      var c := q;
      while OnBoard(c)
        invariant FindOwn(grid, own, q, d) == FindOwn(grid, own, c, d)
        decreases Reach(c, d)
      {
        c := Step(c, d);
        if !OnBoard(c) {
          return false;
        }
        var piece := At(grid, c);
        if piece == Empty {
          return false;
        }
        if piece == own {
          return true;
        }
      }
      return false;
    }

    /**
     * The test check_piece_around applies to direction Dirs[k]: the
     * neighbour is on the board, neither empty nor the turn's colour, and
     * the scan from it finds the turn's colour.
     */
    method DirectionPasses(p: Pos, k: nat) returns (passes: bool)
      requires k < 8
      ensures passes == DirCaptures(grid, OwnPiece(turn), p, Dirs[k])
    {
      DirsAreDirs();
      var own := OwnPiece(turn);
      var d := Dirs[k];
      var n := Step(p, d);
      passes := false;
      if OnBoard(n) {
        var piece := At(grid, n);
        if !(piece == own || piece == Empty) {
          passes := FindOwnPieceInDirection(n, d);
        }
      }
    }

    /**
     * check_piece_around.  With checkOnly it sets avalableHit at the first
     * direction that passes and stops; otherwise it appends p's tag to
     * randomHitListTag (once) when some direction passes.
     */
    method CheckPieceAround(p: Pos, checkOnly: bool)
      requires OnBoard(p) && turn != Wait
      modifies this`avalableHit, this`randomHitListTag
      ensures checkOnly ==> randomHitListTag == old(randomHitListTag)
                            && avalableHit == (old(avalableHit) || Brackets(grid, OwnPiece(turn), p))
      ensures !checkOnly ==> avalableHit == old(avalableHit)
                             && randomHitListTag
                                == if Brackets(grid, OwnPiece(turn), p) && TagOf(p) !in old(randomHitListTag)
                                   then old(randomHitListTag) + [TagOf(p)] else old(randomHitListTag)
    {
      var own := OwnPiece(turn);
      ghost var list0 := randomHitListTag;
      var tag := TagOf(p);
      var k := 0;
      while k < 8
        invariant 0 <= k <= 8
        invariant avalableHit == old(avalableHit)
        invariant checkOnly ==> !BracketsBefore(grid, own, p, k) && randomHitListTag == list0
        invariant !checkOnly && BracketsBefore(grid, own, p, k) && tag !in list0 ==> randomHitListTag == list0 + [tag]
        invariant !checkOnly && !(BracketsBefore(grid, own, p, k) && tag !in list0) ==> randomHitListTag == list0
      {
        var passes := DirectionPasses(p, k);
        if passes {
          if checkOnly {
            avalableHit := true;
            BracketsSome(grid, own, p);
            return;
          }
          if tag !in randomHitListTag {
            randomHitListTag := randomHitListTag + [tag];
          }
        }
        k := k + 1;
      }
    }

    /** check_search_around: the same scan, appending p's tag to searchHitListTag (once). */
    method CheckSearchAround(p: Pos)
      requires OnBoard(p) && turn != Wait
      modifies this`searchHitListTag
      ensures searchHitListTag
              == if Brackets(grid, OwnPiece(turn), p) && TagOf(p) !in old(searchHitListTag)
                 then old(searchHitListTag) + [TagOf(p)] else old(searchHitListTag)
    {
      var own := OwnPiece(turn);
      ghost var list0 := searchHitListTag;
      var tag := TagOf(p);
      var k := 0;
      while k < 8
        invariant 0 <= k <= 8
        invariant BracketsBefore(grid, own, p, k) && tag !in list0 ==> searchHitListTag == list0 + [tag]
        invariant !(BracketsBefore(grid, own, p, k) && tag !in list0) ==> searchHitListTag == list0
      {
        var passes := DirectionPasses(p, k);
        if passes {
          if tag !in searchHitListTag {
            searchHitListTag := searchHitListTag + [tag];
          }
        }
        k := k + 1;
      }
    }

    /**
     * check_avalable_hit, as the source has it: an occupied click leaves
     * the coordinates at 0, 0, so the bracketing test runs on 0_0.
     */
    method CheckAvalableHit(p: Pos)
      requires OnBoard(p) && turn != Wait
      modifies this`avalableHit, this`randomHitListTag
      ensures randomHitListTag == old(randomHitListTag)
      ensures avalableHit == Brackets(grid, OwnPiece(turn), ClickTarget(grid, p))
      ensures At(grid, p) == Empty ==> (avalableHit <==> Legal(grid, OwnPiece(turn), p))
    {
      var x, y := 0, 0;
      avalableHit := false;
      if At(grid, p) == Empty {
        x, y := p.x, p.y;
      }
      CheckPieceAround(Pos(x, y), true);
    }

    /** check_random_hit: an empty cell's tag is appended (once) exactly when the cell is legal. */
    method CheckRandomHit(p: Pos)
      requires OnBoard(p) && (At(grid, p) == Empty ==> turn != Wait)
      modifies this`avalableHit, this`randomHitListTag
      ensures avalableHit == old(avalableHit)
      ensures randomHitListTag
              == if Legal(grid, OwnPiece(turn), p) && TagOf(p) !in old(randomHitListTag)
                 then old(randomHitListTag) + [TagOf(p)] else old(randomHitListTag)
    {
      if At(grid, p) == Empty {
        CheckPieceAround(p, false);
      }
    }

    /** check_search_hit: as check_random_hit, on the search list. */
    method CheckSearchHit(p: Pos)
      requires OnBoard(p) && (At(grid, p) == Empty ==> turn != Wait)
      modifies this`searchHitListTag
      ensures searchHitListTag
              == if Legal(grid, OwnPiece(turn), p) && TagOf(p) !in old(searchHitListTag)
                 then old(searchHitListTag) + [TagOf(p)] else old(searchHitListTag)
    {
      if At(grid, p) == Empty {
        CheckSearchAround(p);
      }
    }

    /** dohit: counts the move, writes the turn's colour on p and logs (count, turn, p). */
    method DoHit(p: Pos)
      requires OnBoard(p)
      modifies this`count, this`grid, this`playLog
      ensures count == old(count) + 1
      ensures grid == Set(old(grid), p, PlacedPiece(turn))
      ensures playLog == old(playLog) + [LogEntry(count, turn, p)]
    {
      count := count + 1;
      if turn == First {
        grid := Set(grid, p, Black);
      } else {
        grid := Set(grid, p, White);
      }
      playLog := playLog + [LogEntry(count, turn, p)];
    }

    /**
     * One direction of reverse_piece: collect the discs from p along d up
     * to a disc of colour `own`, then write `own` on each, in order.
     */
    method FlipLine(p: Pos, d: Dir, own: Piece) returns (flipped: nat)
      requires IsDir(d)
      modifies this`grid
      ensures grid == SetAll(old(grid), Captured(old(grid), own, p, d), own)
      ensures flipped == |Captured(old(grid), own, p, d)|
    {
      var n := Step(p, d);
      var toReverse: seq<Pos> := [];
      flipped := 0;
      ExtendNothing(Run(grid, own, n, d));
      while OnBoard(n)
        invariant forall c :: c in toReverse ==> OnBoard(c)
        invariant grid == old(grid) && flipped == 0
        invariant Run(grid, own, Step(p, d), d) == Extend(toReverse, Run(grid, own, n, d))
        decreases Reach(n, d)
      {
        var piece := At(grid, n);
        if piece == Empty {
          break;
        }
        if piece == own {
          assert Captured(grid, own, p, d) == toReverse;
          WriteAll(toReverse, own);
          flipped := |toReverse|;
          return;
        }
        ExtendAppend(toReverse, n, Run(grid, own, Step(n, d), d));
        toReverse := toReverse + [n];
        n := Step(n, d);
      }
    }

    /** `for r_coord in to_reverse: coord_to_piece[r_coord] = my_color_num`. */
    method WriteAll(cells: seq<Pos>, v: Piece)
      requires forall c :: c in cells ==> OnBoard(c)
      modifies this`grid
      ensures grid == SetAll(old(grid), cells, v)
    {
      var i := 0;
      while i < |cells|
        invariant 0 <= i <= |cells|
        invariant grid == SetAll(old(grid), cells[..i], v)
      {
        assert cells[..i + 1][..i] == cells[..i];
        grid := Set(grid, cells[i], v);
        i := i + 1;
      }
      assert cells[..|cells|] == cells;
    }

    /**
     * reverse_piece: the eight directions in order, each flipping in place;
     * maxReversals[turn] keeps the largest single-direction run.
     */
    method ReversePiece(p: Pos)
      requires OnBoard(p)
      modifies this`grid, this`maxReversals
      ensures grid == ReverseDirs(old(grid), OwnPiece(turn), p, 8)
      ensures maxReversals.Keys == old(maxReversals).Keys
      ensures forall t :: t in maxReversals && t != turn ==> maxReversals[t] == old(maxReversals)[t]
      ensures turn in maxReversals
              ==> maxReversals[turn] == Max(old(maxReversals)[turn], LongestRun(old(grid), OwnPiece(turn), p, 8))
    {
      var t, own := turn, OwnPiece(turn);
      ghost var g0, m0 := grid, maxReversals;
      var k := 0;
      while k < 8
        invariant 0 <= k <= 8
        invariant grid == ReverseDirs(g0, own, p, k)
        invariant maxReversals.Keys == m0.Keys
        invariant forall u :: u in maxReversals && u != t ==> maxReversals[u] == m0[u]
        invariant t in maxReversals ==> maxReversals[t] == Max(m0[t], LongestRun(g0, own, p, k))
      {
        var reversedCountInLine := ReverseDir(p, k, own, g0);
        RecordRun(t, reversedCountInLine);
        k := k + 1;
      }
    }

    /** The bookkeeping after one direction: a non-empty run raises max_reversals[turn] to its length. */
    method RecordRun(t: Turn, flipped: nat)
      modifies this`maxReversals
      ensures maxReversals.Keys == old(maxReversals).Keys
      ensures forall u :: u in maxReversals && u != t ==> maxReversals[u] == old(maxReversals)[u]
      ensures t in maxReversals ==> maxReversals[t] == Max(old(maxReversals)[t], flipped)
    {
      if flipped > 0 && t in maxReversals {
        maxReversals := maxReversals[t := Max(maxReversals[t], flipped)];
      }
    }

    /** The k-th direction of reverse_piece, on the board the earlier directions left. */
    method ReverseDir(p: Pos, k: nat, own: Piece, ghost g0: Grid) returns (flipped: nat)
      requires k < 8 && grid == ReverseDirs(g0, own, p, k)
      modifies this`grid
      ensures grid == ReverseDirs(g0, own, p, k + 1)
      ensures flipped == RunLength(g0, own, p, k)
    {
      flipped := FlipLine(p, Dirs[k], own);
    }

    /** change_turn: swap first and second, clear the per-turn flags. */
    method ChangeTurn()
      modifies this`turn, this`hit, this`avalableHit, this`searchFlag
      ensures turn == Opponent(old(turn))
      ensures !hit && !avalableHit && !searchFlag
    {
      if turn == First {
        turn := Second;
      } else if turn == Second {
        turn := First;
      }
      hit := false;
      avalableHit := false;
      searchFlag := false;
    }

    /** finish_game: finished after two passes in a row or when no cell is empty. */
    method FinishGame()
      modifies this`finishFlag
      ensures finishFlag == (old(finishFlag) || passCount >= 2 || Full(grid))
    {
      if passCount >= 2 {
        finishFlag := true;
        return;
      }
      if Full(grid) {
        finishFlag := true;
        return;
      }
    }

    /**
     * get_result: the two tallies and the winner written to the log file;
     * the write's success is a parameter, and only it sets resultWriteFlag.
     */
    method GetResult(writeSucceeds: bool) returns (winner: Outcome)
      modifies this`resultCount, this`resultWriteFlag
      ensures resultCount == [Count(grid, Black), Count(grid, White)]
      ensures winner == Winner(Count(grid, Black), Count(grid, White))
      ensures resultWriteFlag == (old(resultWriteFlag) || writeSucceeds)
    {
      var blackCount := Count(grid, Black);
      var whiteCount := Count(grid, White);
      resultCount := [blackCount, whiteCount];
      winner := Draw;
      if blackCount > whiteCount {
        winner := FirstWins;
      } else if whiteCount > blackCount {
        winner := SecondWins;
      }
      if writeSucceeds {
        resultWriteFlag := true;
      }
    }
  }
}
