/**
 * The Othello class: the game loop around the board.  update_game_state
 * decides between game over, a pass and the next turn; human_hit and
 * cpu_hit_base play a move; common_hit is the shared move sequence
 * (place, log, flip, hand over).  The window, its alerts and its timers are
 * not modelled: each method returns the Phase the window would be shown.
 */
module Engine {
  import opened BoardModel
  import opened Tags
  import opened Rules
  import opened Boards
  import opened Players
  import opened Strategies
  import opened LogFormat
  import opened Opening

  /** The three computer players: "random", "random_2" and "random_3". */
  datatype Cpu = Random1 | Random2 | Random3

  /**
   * What `strategy_func` promises about the cell it picks from a non-empty
   * list: a member of the list; for random_2 the first corner when there is
   * one, and otherwise a cell not next to a corner whenever the list has
   * such a cell; for random_3 the cell of the best evaluation.
   */
  predicate Chosen(cpu: Cpu, list: seq<Pos>, coord: Pos)
    requires |list| > 0 && forall c :: c in list ==> OnBoard(c)
  {
    && coord in list
    && (cpu == Random2 && FirstCorner(list) < |list| ==> coord == list[FirstCorner(list)])
    && (cpu == Random2 && FirstCorner(list) == |list| && (exists d :: d in list && !NearCorner(d))
        ==> !NearCorner(coord))
    && (cpu == Random3 ==> coord == list[BestIndex(list)])
  }

  /** What update_game_state ends in: alert_finish, a pass alert, or the turn display. */
  datatype Phase = GameOver | PassAlert | Playing

  /**
   * The coordinate list search_avalable_cell and random_avalable_cell build
   * from a tag list: each tag's cell, kept when it is empty and not yet in
   * the list.
   */
  function CoordsOf(tags: seq<string>, g: Grid): seq<Pos>
    requires forall t :: t in tags ==> ParseTag(t).Some?
  {
    if tags == [] then []
    else
      var n := |tags| - 1;
      var a := CoordsOf(tags[..n], g);
      var c := ParseTag(tags[n]).value;
      if At(g, c) == Empty && c !in a then a + [c] else a
  }

  /**
   * The `for tag in ...` loop of search_avalable_cell and
   * random_avalable_cell: each tag's cell is appended when it is empty and
   * not yet listed.  `tag_to_coord[tag]` fails on a string that is not a
   * tag, so every tag must name a cell.
   */
  method TagsToCoords(tags: seq<string>, g: Grid) returns (coords: seq<Pos>)
    requires forall t :: t in tags ==> ParseTag(t).Some?
    ensures coords == CoordsOf(tags, g)
  {
    coords := [];
    var i := 0;
    while i < |tags|
      invariant 0 <= i <= |tags|
      invariant coords == CoordsOf(tags[..i], g)
    {
      var coord := ParseTag(tags[i]).value;
      if At(g, coord) == Empty && coord !in coords {
        coords := coords + [coord];
      }
      assert tags[..i + 1][..i] == tags[..i];
      i := i + 1;
    }
    assert tags[..|tags|] == tags;
  }

  /** The tags of distinct empty cells map back to exactly those cells, in order. */
  lemma {:induction false} CoordsOfCells(cells: seq<Pos>, g: Grid)
    requires forall c :: c in cells ==> OnBoard(c) && At(g, c) == Empty
    requires Distinct(cells)
    ensures forall t :: t in TagsOf(cells) ==> ParseTag(t).Some?
    ensures CoordsOf(TagsOf(cells), g) == cells
  {
    var ts := TagsOf(cells);
    TagsOfAt(cells);
    forall t | t in ts ensures ParseTag(t).Some? {
      var i :| 0 <= i < |ts| && ts[i] == t;
      TagRoundTrip(t, cells[i]);
    }
    if cells != [] {
      var n := |cells| - 1;
      CoordsOfCells(cells[..n], g);
      assert ts[..n] == TagsOf(cells[..n]);
      TagRoundTrip(ts[n], cells[n]);
      assert cells[n] !in cells[..n];
      assert cells[..n] + [cells[n]] == cells;
    }
  }

  /** Mapping the tags of the legal cells back gives the legal cells. */
  lemma CoordsOfLegal(g: Grid, own: Piece)
    ensures forall t :: t in TagsOf(LegalCells(g, own)) ==> ParseTag(t).Some?
    ensures CoordsOf(TagsOf(LegalCells(g, own)), g) == LegalCells(g, own)
  {
    var cells := LegalCells(g, own);
    LegalCellsSpec(g, own);
    forall c | c in cells ensures OnBoard(c) && At(g, c) == Empty {
    }
    CoordsOfCells(cells, g);
  }

  /** The empty cells are not all gone at the start. */
  lemma InitialNotFull()
    ensures !Full(Initial)
  {
    InitialAt(Pos(0, 0));
    assert Initial[Idx(Pos(0, 0))] == Empty;
  }

  class Othello {
    const board: Board
    /** The log widget's text, one string per inserted line. */
    var logText: seq<string>

    /** Othello.__init__: a new board set to the starting position. */
    constructor ()
      ensures fresh(board)
      ensures board.grid == Initial && board.turn == Wait && board.count == 0 && board.playLog == []
      ensures !board.hit && !board.finishFlag && !board.resultWriteFlag && board.passCount == 0
      ensures logText == []
    {
      var b := new Board();
      b.InitBoardSetup();
      board := b;
      logText := [];
    }

    /** update_log_display: one line per move, in the log's own format. */
    method UpdateLogDisplay(e: LogEntry)
      requires OnBoard(e.pos)
      modifies this`logText
      ensures logText == old(logText) + [LogLine(e)]
    {
      logText := logText + [LogLine(e)];
    }

    /**
     * search_avalable_cell: clears the lists, collects the legal tags, then
     * maps them back to cells; the result is exactly the legal cells, in
     * x-major order.
     */
    method SearchAvalableCell()
      requires board.turn != Wait
      modifies board`searchHitListCoord, board`searchHitListTag, board`searchFlag
      ensures board.searchFlag
      ensures board.searchHitListTag == TagsOf(LegalCells(board.grid, OwnPiece(board.turn)))
      ensures board.searchHitListCoord == LegalCells(board.grid, OwnPiece(board.turn))
    {
      board.searchHitListCoord := [];
      board.searchHitListTag := [];
      board.searchFlag := true;
      SearchHit(board);
      var g := board.grid;
      FreshListIsLegalTags(g, OwnPiece(board.turn));
      CoordsOfLegal(g, OwnPiece(board.turn));
      board.searchHitListCoord := TagsToCoords(board.searchHitListTag, g);
    }

    /** random_avalable_cell: the same enumeration into the computer player's lists. */
    method RandomAvalableCell()
      requires board.turn != Wait
      modifies board`randomHitListCoord, board`randomHitListTag, board`avalableHit
      ensures board.avalableHit == old(board.avalableHit)
      ensures board.randomHitListTag == TagsOf(LegalCells(board.grid, OwnPiece(board.turn)))
      ensures board.randomHitListCoord == LegalCells(board.grid, OwnPiece(board.turn))
    {
      board.randomHitListCoord := [];
      board.randomHitListTag := [];
      RandomHit(board);
      var g := board.grid;
      FreshListIsLegalTags(g, OwnPiece(board.turn));
      CoordsOfLegal(g, OwnPiece(board.turn));
      board.randomHitListCoord := TagsToCoords(board.randomHitListTag, g);
    }

    /**
     * update_game_state.  A finished game is tallied (once) and reported;
     * otherwise the finish test runs, and when the side to move has not
     * started its move the legal cells are searched: none is a pass, and the
     * second pass in a row ends the game.
     */
    method UpdateGameState(writeSucceeds: bool) returns (phase: Phase)
      requires board.turn != Wait
      modifies board`finishFlag, board`resultCount, board`resultWriteFlag, board`passCount
      modifies board`searchHitListCoord, board`searchHitListTag, board`searchFlag
      decreases if board.finishFlag then 0 else 1
      ensures phase == GameOver <==> board.finishFlag
      ensures var ended := old(board.finishFlag) || old(board.passCount) >= 2 || Full(board.grid);
              var searched := !ended && !board.hit;
              var stuck := searched && board.searchHitListCoord == [];
              && (searched ==> board.searchFlag
                               && board.searchHitListCoord == LegalCells(board.grid, OwnPiece(board.turn)))
              && board.passCount == (if stuck then old(board.passCount) + 1 else old(board.passCount))
              && (board.finishFlag <==> ended || (stuck && board.passCount >= 2))
              && (phase == PassAlert <==> stuck && board.passCount < 2)
              && (!searched ==> board.searchFlag == old(board.searchFlag)
                                && board.searchHitListCoord == old(board.searchHitListCoord)
                                && board.searchHitListTag == old(board.searchHitListTag))
      ensures phase == GameOver && !old(board.resultWriteFlag)
              ==> board.resultCount == [Count(board.grid, Black), Count(board.grid, White)]
                  && board.resultWriteFlag == writeSucceeds
    {
      if board.finishFlag {
        if !board.resultWriteFlag {
          var _ := board.GetResult(writeSucceeds);
        }
        return GameOver;
      }
      board.FinishGame();
      if board.finishFlag {
        phase := UpdateGameState(writeSucceeds);
        return;
      }
      if !board.hit {
        SearchAvalableCell();
        if board.searchHitListCoord == [] {
          board.passCount := board.passCount + 1;
          if board.passCount >= 2 {
            board.finishFlag := true;
            phase := UpdateGameState(writeSucceeds);
          } else {
            phase := PassAlert;
          }
          return;
        }
      }
      phase := Playing;
    }

    /** start_game_setup: the first player moves first. */
    method StartGameSetup(writeSucceeds: bool) returns (phase: Phase)
      modifies board
      ensures board.turn == First && board.grid == old(board.grid)
      ensures old(board.grid) == Initial && old(board.passCount) == 0 && !old(board.finishFlag) && !old(board.hit)
              ==> phase == Playing
                  && board.searchHitListCoord == [Pos(2, 4), Pos(3, 5), Pos(4, 2), Pos(5, 3)]
    {
      board.turn := First;
      phase := UpdateGameState(writeSucceeds);
      if board.grid == Initial {
        InitialNotFull();
        InitialLegalCells();
      }
    }

    /** handle_pass: the turn goes to the other side and the state is updated. */
    method HandlePass(writeSucceeds: bool) returns (phase: Phase)
      requires board.turn != Wait
      modifies board
      ensures board.turn == Opponent(old(board.turn)) && board.grid == old(board.grid)
      ensures board.playLog == old(board.playLog) && board.count == old(board.count)
      ensures var ended := old(board.finishFlag) || old(board.passCount) >= 2 || Full(board.grid);
              var stuck := !ended && LegalCells(board.grid, OwnPiece(board.turn)) == [];
              && board.passCount == (if stuck then old(board.passCount) + 1 else old(board.passCount))
              && (board.finishFlag <==> ended || (stuck && board.passCount >= 2))
              && (phase == Playing <==> !ended && !stuck)
    {
      board.ChangeTurn();
      OpponentSwaps(old(board.turn));
      phase := UpdateGameState(writeSucceeds);
    }

    /** handle_cpu_turn: a computer side marks its move as started; the delayed call is the caller's. */
    method HandleCpuTurn(isCpu: bool)
      modifies board`hit
      ensures board.hit == (old(board.hit) || isCpu)
    {
      if isCpu {
        board.hit := true;
      }
    }

    /**
     * The move itself, as common_hit and human_hit both do it: dohit, the
     * log line (when logged), then reverse_piece.
     */
    method PlayMove(p: Pos, logged: bool)
      requires OnBoard(p)
      modifies board`count, board`grid, board`playLog, board`maxReversals, this`logText
      ensures board.grid == ApplyMove(old(board.grid), board.turn, p)
      ensures board.count == old(board.count) + 1
      ensures board.playLog == old(board.playLog) + [LogEntry(old(board.count) + 1, board.turn, p)]
      ensures logText == if logged then old(logText) + [LogLine(LogEntry(old(board.count) + 1, board.turn, p))]
                         else old(logText)
      ensures board.maxReversals.Keys == old(board.maxReversals).Keys
      ensures board.turn in board.maxReversals
              ==> board.maxReversals[board.turn]
                  == Max(old(board.maxReversals)[board.turn],
                         LongestRun(Set(old(board.grid), p, PlacedPiece(board.turn)), OwnPiece(board.turn), p, 8))
    {
      board.DoHit(p);
      if logged {
        var logEntry := board.playLog[|board.playLog| - 1];
        UpdateLogDisplay(logEntry);
      }
      board.ReversePiece(p);
    }

    /** common_hit: place, log (unless replaying), flip, hand over. */
    method CommonHit(p: Pos, fromReplay: bool)
      requires OnBoard(p)
      modifies board`count, board`grid, board`playLog, board`maxReversals
      modifies board`turn, board`hit, board`avalableHit, board`searchFlag, this`logText
      ensures board.grid == ApplyMove(old(board.grid), old(board.turn), p)
      ensures board.count == old(board.count) + 1
      ensures board.playLog == old(board.playLog) + [LogEntry(old(board.count) + 1, old(board.turn), p)]
      ensures logText == if fromReplay then old(logText)
                         else old(logText) + [LogLine(LogEntry(old(board.count) + 1, old(board.turn), p))]
      ensures board.turn == Opponent(old(board.turn))
      ensures !board.hit && !board.avalableHit && !board.searchFlag
      ensures board.maxReversals.Keys == old(board.maxReversals).Keys
      ensures old(board.turn) in board.maxReversals
              ==> board.maxReversals[old(board.turn)]
                  == Max(old(board.maxReversals)[old(board.turn)],
                         LongestRun(Set(old(board.grid), p, PlacedPiece(old(board.turn))), OwnPiece(old(board.turn)), p, 8))
    {
      PlayMove(p, !fromReplay);
      board.ChangeTurn();
    }

    /**
     * human_hit.  A click while a move is under way is ignored.  Otherwise
     * the check of check_avalable_hit decides (it tests the last empty
     * cell of the scan, which is the clicked cell when that cell is empty),
     * and an accepted click is played at the clicked cell.
     */
    method HumanHit(p: Pos, writeSucceeds: bool) returns (played: bool, phase: Phase)
      requires OnBoard(p) && board.turn != Wait
      modifies board, this`logText
      ensures old(board.hit) ==> !played
      ensures !old(board.hit)
              ==> (played <==> Brackets(old(board.grid), OwnPiece(old(board.turn)), ClickTarget(old(board.grid), p)))
      ensures !old(board.hit) && At(old(board.grid), p) == Empty
              ==> (played <==> Legal(old(board.grid), OwnPiece(old(board.turn)), p))
      ensures !played ==> board.grid == old(board.grid) && board.turn == old(board.turn)
                          && board.playLog == old(board.playLog) && logText == old(logText)
      ensures played ==> var e := LogEntry(old(board.count) + 1, old(board.turn), p);
                         && board.grid == ApplyMove(old(board.grid), old(board.turn), p)
                         && board.turn == Opponent(old(board.turn))
                         && board.playLog == old(board.playLog) + [e]
                         && logText == old(logText) + [LogLine(e)]
                         && board.passCount <= 1
      ensures played && !old(board.finishFlag) && !Full(board.grid)
              && LegalCells(board.grid, OwnPiece(board.turn)) != []
              ==> phase == Playing && board.passCount == 0
      ensures played ==> var ended := old(board.finishFlag) || Full(board.grid);
                         var stuck := !ended && LegalCells(board.grid, OwnPiece(board.turn)) == [];
                         && board.passCount == (if stuck then 1 else 0)
                         && (board.finishFlag <==> ended)
                         && (phase == GameOver <==> ended)
                         && (phase == Playing <==> !ended && !stuck)
      ensures !played ==> board.passCount == old(board.passCount) && board.finishFlag == old(board.finishFlag)
    {
      played, phase := false, Playing;
      if board.hit {
        return;
      }
      board.CheckAvalableHit(p);
      if board.avalableHit {
        played := true;
        phase := PlayClick(p, writeSucceeds);
      }
    }

    /** The accepted click of human_hit: the move is played, the pass count reset, the turn handed over. */
    method PlayClick(p: Pos, writeSucceeds: bool) returns (phase: Phase)
      requires OnBoard(p) && board.turn != Wait
      modifies board, this`logText
      ensures var e := LogEntry(old(board.count) + 1, old(board.turn), p);
              && board.grid == ApplyMove(old(board.grid), old(board.turn), p)
              && board.turn == Opponent(old(board.turn))
              && board.playLog == old(board.playLog) + [e]
              && logText == old(logText) + [LogLine(e)]
              && board.passCount <= 1
      ensures !old(board.finishFlag) && !Full(board.grid) && LegalCells(board.grid, OwnPiece(board.turn)) != []
              ==> phase == Playing && board.passCount == 0
      ensures var ended := old(board.finishFlag) || Full(board.grid);
              var stuck := !ended && LegalCells(board.grid, OwnPiece(board.turn)) == [];
              && board.passCount == (if stuck then 1 else 0)
              && (board.finishFlag <==> ended)
              && (phase == GameOver <==> ended)
              && (phase == Playing <==> !ended && !stuck)
    {
      board.hit := true;
      PlayMove(p, true);
      board.passCount := 0;
      board.ChangeTurn();
      OpponentSwaps(old(board.turn));
      phase := UpdateGameState(writeSucceeds);
    }

    /**
     * `strategy_func(hit_count)`: the chosen player's pick among the listed
     * cells.  Strategy 3 always finds a cell on a non-empty list.
     */
    method ChooseMove(cpu: Cpu, list: seq<Pos>) returns (coord: Pos)
      requires |list| > 0 && forall c :: c in list ==> OnBoard(c)
      ensures Chosen(cpu, list, coord)
    {
      match cpu {
        case Random1 =>
          var idx := PickIndex(|list|);
          coord := list[idx];
        case Random2 =>
          coord := Strategy2(list);
        case Random3 =>
          var r := Strategy3(list);
          if FirstCorner(list) < |list| {
            CornerIsBest(list);
          }
          coord := r.value;
      }
    }

    /**
     * cpu_hit_base with the strategy of random_hit_1, _2 or _3.  With no
     * legal cell the turn simply passes to the other side; otherwise the
     * chosen legal cell is played.
     */
    method CpuHitBase(cpu: Cpu, writeSucceeds: bool) returns (move: Option<Pos>, phase: Phase)
      requires board.turn != Wait
      modifies board, this`logText
      ensures board.turn == Opponent(old(board.turn))
      ensures var cells := LegalCells(old(board.grid), OwnPiece(old(board.turn)));
              && (move == None <==> cells == [])
              && (move == None ==> board.grid == old(board.grid) && board.playLog == old(board.playLog)
                                   && logText == old(logText))
              && (move.Some? ==> var e := LogEntry(old(board.count) + 1, old(board.turn), move.value);
                                 && move.value in cells
                                 && board.grid == ApplyMove(old(board.grid), old(board.turn), move.value)
                                 && board.playLog == old(board.playLog) + [e]
                                 && logText == old(logText) + [LogLine(e)])
              && (cells != [] ==> move.Some? && Chosen(cpu, cells, move.value))
      ensures var ended := old(board.finishFlag) || (move == None && old(board.passCount) >= 2) || Full(board.grid);
              var stuck := !ended && LegalCells(board.grid, OwnPiece(board.turn)) == [];
              var before := if move == None then old(board.passCount) else 0;
              && board.passCount == (if stuck then before + 1 else before)
              && (board.finishFlag <==> ended || (stuck && board.passCount >= 2))
              && (phase == Playing <==> !ended && !stuck)
    {
      RandomAvalableCell();
      var hitCount := |board.randomHitListCoord|;
      if hitCount == 0 {
        // the same two steps as handle_pass: change_turn, then update_game_state
        phase := HandlePass(writeSucceeds);
        move := None;
        return;
      }
      move, phase := CpuMove(cpu, writeSucceeds);
    }

    /** cpu_hit_base once the list is known to be non-empty: reset the pass count, pick a cell, play it. */
    method CpuMove(cpu: Cpu, writeSucceeds: bool) returns (move: Option<Pos>, phase: Phase)
      requires board.turn != Wait
      requires |board.randomHitListCoord| > 0 && forall c :: c in board.randomHitListCoord ==> OnBoard(c)
      modifies board, this`logText
      ensures move.Some? && Chosen(cpu, old(board.randomHitListCoord), move.value)
      ensures move.Some? ==> board.grid == ApplyMove(old(board.grid), old(board.turn), move.value)
      ensures board.turn == Opponent(old(board.turn))
      ensures move.Some? ==> board.playLog == old(board.playLog) + [LogEntry(old(board.count) + 1, old(board.turn), move.value)]
      ensures move.Some? ==> logText == old(logText) + [LogLine(LogEntry(old(board.count) + 1, old(board.turn), move.value))]
      ensures var ended := old(board.finishFlag) || Full(board.grid);
              var stuck := !ended && LegalCells(board.grid, OwnPiece(board.turn)) == [];
              && board.passCount == (if stuck then 1 else 0)
              && (board.finishFlag <==> ended)
              && (phase == Playing <==> !ended && !stuck)
    {
      board.passCount := 0;
      var coord := ChooseMove(cpu, board.randomHitListCoord);
      ghost var e := LogEntry(board.count + 1, board.turn, coord);
      assert e == LogEntry(old(board.count) + 1, old(board.turn), coord);
      phase := CpuPlay(coord, writeSucceeds);
      move := Some(coord);
    }

    /** The last two steps of cpu_hit_base: common_hit on the chosen cell, then update_game_state. */
    method CpuPlay(p: Pos, writeSucceeds: bool) returns (phase: Phase)
      requires OnBoard(p) && board.turn != Wait
      modifies board, this`logText
      ensures var e := LogEntry(old(board.count) + 1, old(board.turn), p);
              && board.grid == ApplyMove(old(board.grid), old(board.turn), p)
              && board.turn == Opponent(old(board.turn))
              && board.playLog == old(board.playLog) + [e]
              && logText == old(logText) + [LogLine(e)]
      ensures var ended := old(board.finishFlag) || old(board.passCount) >= 2 || Full(board.grid);
              var stuck := !ended && LegalCells(board.grid, OwnPiece(board.turn)) == [];
              && board.passCount == (if stuck then old(board.passCount) + 1 else old(board.passCount))
              && (board.finishFlag <==> ended || (stuck && board.passCount >= 2))
              && (phase == Playing <==> !ended && !stuck)
    {
      CommonHit(p, false);
      OpponentSwaps(old(board.turn));
      phase := UpdateGameState(writeSucceeds);
    }
  }
}
