/**
 * Replay of a saved log (TkView.start_replay_moves, replay_move,
 * backward_replay, forward_replay, toggle_replay_pause and
 * Othello.start_replay).  The moves are the tags the log's regex finds;
 * they are played with common_hit, without any legality check, and the
 * colours alternate strictly because passes are not logged.  After every
 * forward step the board is pushed onto a history so that a backward step
 * can restore it.
 *
 * The state a replay walks through is a Cursor value; the ReplayView
 * methods are proved to move their fields exactly as the Cursor functions
 * say, and the Cursor functions are proved to keep the history faithful
 * to the replayed game.
 */
module Replay {
  import opened BoardModel
  import opened Tags
  import opened Rules
  import opened Boards
  import opened LogFormat
  import opened Engine

  /** The side backward_replay sets after restoring move index i: first on even i. */
  function TurnAt(i: nat): (t: Turn)
    ensures t != Wait
  {
    if i % 2 == 0 then First else Second
  }

  /** The first n tags all name cells, so the replay index can reach n. */
  predicate Playable(tags: seq<string>, n: nat)
    requires n <= |tags|
  {
    forall j :: 0 <= j < n ==> ParseTag(tags[j]).Some?
  }

  /**
   * The board after replaying the first n tags from g0, colours strictly
   * alternating from first (a tag naming no cell plays nothing; the replay
   * index never passes one).
   */
  function Replayed(g0: Grid, tags: seq<string>, n: nat): Grid
    requires n <= |tags|
  {
    if n == 0 then g0
    else
      var prev := Replayed(g0, tags, n - 1);
      match ParseTag(tags[n - 1])
      case Some(p) => ApplyMove(prev, TurnAt(n - 1), p)
      case None => prev
  }

  /**
   * What a replay step reads and writes: replay_index, the history of
   * boards, and the board's cells and turn.
   */
  datatype Cursor = Cursor(index: nat, history: seq<Grid>, grid: Grid, turn: Turn)

  /** start_replay_moves before its first replay_move: index 0, the current board as history[0], first to move. */
  function Start(g0: Grid): Cursor {
    Cursor(0, [g0], g0, First)
  }

  /** Python's h[:n]: the first n entries, or all of h when it is shorter. */
  function Prefix(h: seq<Grid>, n: nat): (r: seq<Grid>)
    ensures |r| <= |h| && |r| <= n
    ensures forall i :: 0 <= i < |r| ==> r[i] == h[i]
  {
    if n <= |h| then h[..n] else h
  }

  /**
   * replay_move with the history cut back to the current index before the
   * new board is pushed.  A tag that names no cell, or the end of the list,
   * leaves everything as it was.
   */
  function Advance(tags: seq<string>, c: Cursor): (r: Cursor)
  {
    if c.index < |tags| && ParseTag(tags[c.index]).Some? then
      var g := ApplyMove(c.grid, c.turn, ParseTag(tags[c.index]).value);
      Cursor(c.index + 1, Prefix(c.history, c.index + 1) + [g], g, Opponent(c.turn))
    else c
  }

  /** replay_move as written: the new board is always appended at the end of the history. */
  function AdvanceAsWritten(tags: seq<string>, c: Cursor): (r: Cursor)
  {
    if c.index < |tags| && ParseTag(tags[c.index]).Some? then
      var g := ApplyMove(c.grid, c.turn, ParseTag(tags[c.index]).value);
      Cursor(c.index + 1, c.history + [g], g, Opponent(c.turn))
    else c
  }

  /** backward_replay: one index back, the board taken from the history, the turn set by parity. */
  function Retreat(c: Cursor): (r: Cursor)
    requires c.index <= |c.history|
  {
    if c.index > 0 then
      Cursor(c.index - 1, c.history, c.history[c.index - 1], TurnAt(c.index - 1))
    else c
  }

  /**
   * The replay invariant: the index has only passed tags that name cells,
   * every history entry up to the index is the board after that many moves,
   * and the board and turn on show are those of the index.
   */
  predicate Faithful(g0: Grid, tags: seq<string>, c: Cursor) {
    && c.index <= |tags| && Playable(tags, c.index)
    && c.index < |c.history|
    && (forall i :: 0 <= i <= c.index ==> c.history[i] == Replayed(g0, tags, i))
    && c.grid == Replayed(g0, tags, c.index)
    && c.turn == TurnAt(c.index)
  }

  /** A replay starts faithful. */
  lemma StartFaithful(g0: Grid, tags: seq<string>)
    ensures Faithful(g0, tags, Start(g0))
  {
  }

  /**
   * A step forward keeps the history faithful; it moves the index by one
   * exactly when the next tag names a cell, and otherwise changes nothing.
   */
  lemma AdvanceFaithful(g0: Grid, tags: seq<string>, c: Cursor)
    requires Faithful(g0, tags, c)
    ensures Faithful(g0, tags, Advance(tags, c))
    ensures Advance(tags, c).index
            == if c.index < |tags| && ParseTag(tags[c.index]).Some? then c.index + 1 else c.index
    ensures c.index < |tags| && ParseTag(tags[c.index]).None? ==> Advance(tags, c) == c
  {
    var r := Advance(tags, c);
    if c.index < |tags| && ParseTag(tags[c.index]).Some? {
      var n := c.index;
      assert Playable(tags, n + 1);
      assert r.grid == Replayed(g0, tags, n + 1);
      TurnAtNext(n);
      assert r.turn == TurnAt(n + 1);
      forall i | 0 <= i <= n + 1 ensures r.history[i] == Replayed(g0, tags, i) {
        if i <= n {
          assert r.history[i] == Prefix(c.history, n + 1)[i];
        }
      }
    } else {
      assert r == c;
    }
  }

  /** The parity turn after a move is the other side's. */
  lemma TurnAtNext(n: nat)
    ensures Opponent(TurnAt(n)) == TurnAt(n + 1)
  {
  }

  /** A step back keeps the history faithful and shows the board of one move fewer. */
  lemma RetreatFaithful(g0: Grid, tags: seq<string>, c: Cursor)
    requires Faithful(g0, tags, c)
    ensures Faithful(g0, tags, Retreat(c))
    ensures Retreat(c).index == if c.index > 0 then c.index - 1 else 0
  {
  }

  /** Backward after forward restores the board and the side to move. */
  lemma RewindRestores(g0: Grid, tags: seq<string>, c: Cursor)
    requires Faithful(g0, tags, c)
    ensures Retreat(Advance(tags, c)).grid == c.grid || Advance(tags, c) == c
    ensures Advance(tags, c) != c ==> Retreat(Advance(tags, c)).turn == c.turn
  {
    AdvanceFaithful(g0, tags, c);
  }

  /**
   * With the source's append, a step forward agrees with the corrected one
   * as long as the history ends at the index; only a step back makes them
   * differ.
   */
  lemma AsWrittenAtEnd(tags: seq<string>, c: Cursor)
    requires c.index + 1 == |c.history|
    ensures AdvanceAsWritten(tags, c) == Advance(tags, c)
    ensures AdvanceAsWritten(tags, c).index + 1 == |AdvanceAsWritten(tags, c).history|
  {
    assert Prefix(c.history, c.index + 1) == c.history;
  }

  /** A replay only ever stepped forward keeps the source's history faithful. */
  lemma ForwardOnlyFaithful(g0: Grid, tags: seq<string>, c: Cursor)
    requires Faithful(g0, tags, c) && c.index + 1 == |c.history|
    ensures Faithful(g0, tags, AdvanceAsWritten(tags, c))
    ensures AdvanceAsWritten(tags, c).index + 1 == |AdvanceAsWritten(tags, c).history|
  {
    AsWrittenAtEnd(tags, c);
    AdvanceFaithful(g0, tags, c);
  }

  /**
   * Backward after forward with the source's append: the board restored is
   * history[index], which is the board that was on show only while the
   * history holds it there (StaleAfterRewind is a case where it does not).
   */
  lemma RewindRestoresAsWritten(tags: seq<string>, c: Cursor)
    requires c.index < |c.history|
    ensures var r := AdvanceAsWritten(tags, c);
            || r == c
            || (&& Retreat(r).index == c.index
                && Retreat(r).grid == c.history[c.index]
                && Retreat(r).turn == TurnAt(c.index))
  {
  }

  /** Move i of a replay is placed in first's colour (black) exactly when i is even. */
  lemma ReplayColour(g0: Grid, tags: seq<string>, i: nat)
    requires i < |tags| && Playable(tags, i + 1)
    ensures At(Replayed(g0, tags, i + 1), ParseTag(tags[i]).value) == if i % 2 == 0 then Black else White
  {
    var p := ParseTag(tags[i]).value;
    MoveEffect(Replayed(g0, tags, i), TurnAt(i), p, p);
  }

  /** The button sequence <<, >>, >>, >> and << from the cursor start_replay_moves leaves. */
  function RewindScenario(tags: seq<string>, g0: Grid, advance: (seq<string>, Cursor) -> Cursor): Cursor
  {
    var c1 := advance(tags, Start(g0));
    var c2 := if c1.index <= |c1.history| then Retreat(c1) else c1;
    var c5 := advance(tags, advance(tags, advance(tags, c2)));
    if c5.index <= |c5.history| then Retreat(c5) else c5
  }

  /**
   * With the history appended to as written, that sequence shows the board
   * after one move while the index says two: the entry it restores was
   * pushed when the index was at one.
   */
  lemma {:induction false} StaleAfterRewind(g0: Grid, tags: seq<string>)
    requires |tags| >= 3 && Playable(tags, 3)
    requires At(Replayed(g0, tags, 1), ParseTag(tags[1]).value) != White
    ensures RewindScenario(tags, g0, AdvanceAsWritten).index == 2
    ensures RewindScenario(tags, g0, AdvanceAsWritten).grid == Replayed(g0, tags, 1)
    ensures Replayed(g0, tags, 1) != Replayed(g0, tags, 2)
  {
    var h1 := Replayed(g0, tags, 1);
    var h2 := Replayed(g0, tags, 2);
    var h3 := Replayed(g0, tags, 3);
    var c1 := AdvanceAsWritten(tags, Start(g0));
    assert c1 == Cursor(1, [g0, h1], h1, Second);
    var c2 := Retreat(c1);
    assert c2 == Cursor(0, [g0, h1], g0, First);
    var c3 := AdvanceAsWritten(tags, c2);
    assert c3 == Cursor(1, [g0, h1, h1], h1, Second);
    var c4 := AdvanceAsWritten(tags, c3);
    assert c4 == Cursor(2, [g0, h1, h1, h2], h2, First);
    var c5 := AdvanceAsWritten(tags, c4);
    assert c5 == Cursor(3, [g0, h1, h1, h2, h3], h3, Second);
    assert Retreat(c5).grid == h1;
    ReplayColour(g0, tags, 1);
  }

  /** A concrete log for the discrepancy: black 2_4, white 2_3, black 2_2 from the initial board. */
  lemma StaleReplayExample(g0: Grid)
    requires g0 == Initial
    ensures var tags := ["2_4", "2_3", "2_2"];
            && RewindScenario(tags, g0, AdvanceAsWritten).index == 2
            && RewindScenario(tags, g0, AdvanceAsWritten).grid != Replayed(g0, tags, 2)
  {
    var tags := ["2_4", "2_3", "2_2"];
    assert ParseTag(tags[0]) == Some(Pos(2, 4));
    assert ParseTag(tags[1]) == Some(Pos(2, 3));
    assert ParseTag(tags[2]) == Some(Pos(2, 2));
    InitialAt(Pos(2, 3));
    MoveKeepsEmptiness(g0, First, Pos(2, 4), Pos(2, 3));
    StaleAfterRewind(g0, tags);
  }

  /** With the history cut back before each push, the same sequence shows the board after two moves. */
  lemma RewindScenarioCorrected(g0: Grid, tags: seq<string>)
    requires |tags| >= 3 && Playable(tags, 3)
    ensures RewindScenario(tags, g0, Advance).index == 2
    ensures RewindScenario(tags, g0, Advance).grid == Replayed(g0, tags, 2)
  {
    var c := Start(g0);
    StartFaithful(g0, tags);
    AdvanceFaithful(g0, tags, c);
    var c1 := Advance(tags, c);
    RetreatFaithful(g0, tags, c1);
    var c2 := Retreat(c1);
    AdvanceFaithful(g0, tags, c2);
    var c3 := Advance(tags, c2);
    AdvanceFaithful(g0, tags, c3);
    var c4 := Advance(tags, c3);
    AdvanceFaithful(g0, tags, c4);
    var c5 := Advance(tags, c4);
    RetreatFaithful(g0, tags, c5);
  }

  /** The replay part of TkView: the tag list, the index, the history and the pause flag. */
  class ReplayView {
    const othello: Othello
    var moveTags: seq<string>
    var index: nat                    // replay_index
    var history: seq<Grid>            // replay_board_history
    var paused: bool                  // is_replay_paused

    constructor (o: Othello)
      ensures othello == o && moveTags == [] && index == 0 && history == [] && !paused
    {
      othello := o;
      moveTags := [];
      index := 0;
      history := [];
      paused := false;
    }

    /** The cursor these fields and the board spell out. */
    function State(): Cursor
      reads this, othello, othello.board
    {
      Cursor(index, history, othello.board.grid, othello.board.turn)
    }

    /**
     * replay_move.  Paused and not a manual step: nothing happens.
     * Otherwise the next tag, when it names a cell, is played with
     * common_hit (no log line), the index moves on and the new board is
     * appended at the end of the history, wherever the index stands.
     */
    method ReplayMove(manualStep: bool)
      modifies this`index, this`history
      modifies othello.board`count, othello.board`grid, othello.board`playLog, othello.board`maxReversals
      modifies othello.board`turn, othello.board`hit, othello.board`avalableHit, othello.board`searchFlag
      modifies othello`logText
      ensures State() == if paused && !manualStep then old(State()) else AdvanceAsWritten(moveTags, old(State()))
      ensures othello.logText == old(othello.logText)
      ensures othello.board.count == old(othello.board.count) + (index - old(index))
      ensures othello.board.playLog
              == if index == old(index) then old(othello.board.playLog)
                 else old(othello.board.playLog)
                      + [LogEntry(old(othello.board.count) + 1, old(othello.board.turn), ParseTag(moveTags[old(index)]).value)]
    {
      if paused && !manualStep {
        return;
      }
      if index < |moveTags| {
        var tag := moveTags[index];
        var coord := ParseTag(tag);
        if coord.Some? {
          othello.CommonHit(coord.value, true);
          index := index + 1;
          history := history + [othello.board.grid];
        }
      }
    }

    /** toggle_replay_pause: flip the flag; resuming plays the next move. */
    method TogglePause()
      modifies this`paused, this`index, this`history
      modifies othello.board`count, othello.board`grid, othello.board`playLog, othello.board`maxReversals
      modifies othello.board`turn, othello.board`hit, othello.board`avalableHit, othello.board`searchFlag
      modifies othello`logText
      ensures paused == !old(paused)
      ensures State() == if paused then old(State()) else AdvanceAsWritten(moveTags, old(State()))
      ensures paused ==> unchanged(othello.board) && othello.logText == old(othello.logText)
      ensures !paused ==> othello.logText == old(othello.logText)
                          && othello.board.count == old(othello.board.count) + (index - old(index))
      ensures !paused ==> othello.board.playLog
                          == if index == old(index) then old(othello.board.playLog)
                             else old(othello.board.playLog)
                                  + [LogEntry(old(othello.board.count) + 1, old(othello.board.turn), ParseTag(moveTags[old(index)]).value)]
    {
      paused := !paused;
      if !paused {
        ReplayMove(false);
      }
    }

    /** forward_replay: pause, then one manual step. */
    method ForwardReplay()
      modifies this`paused, this`index, this`history
      modifies othello.board`count, othello.board`grid, othello.board`playLog, othello.board`maxReversals
      modifies othello.board`turn, othello.board`hit, othello.board`avalableHit, othello.board`searchFlag
      modifies othello`logText
      ensures paused
      ensures State() == AdvanceAsWritten(moveTags, old(State()))
      ensures othello.logText == old(othello.logText)
      ensures othello.board.count == old(othello.board.count) + (index - old(index))
      ensures othello.board.playLog
              == if index == old(index) then old(othello.board.playLog)
                 else old(othello.board.playLog)
                      + [LogEntry(old(othello.board.count) + 1, old(othello.board.turn), ParseTag(moveTags[old(index)]).value)]
    {
      if !paused {
        TogglePause();
      }
      ReplayMove(true);
    }

    /** backward_replay: pause, then restore the board one index back and set the turn by parity. */
    method BackwardReplay()
      requires index <= |history|
      modifies this`paused, this`index, this`history
      modifies othello.board`count, othello.board`grid, othello.board`playLog, othello.board`maxReversals
      modifies othello.board`turn, othello.board`hit, othello.board`avalableHit, othello.board`searchFlag
      modifies othello`logText
      ensures paused
      ensures State() == Retreat(old(State()))
      ensures othello.board.count == old(othello.board.count) && othello.board.playLog == old(othello.board.playLog)
      ensures othello.board.maxReversals == old(othello.board.maxReversals) && othello.logText == old(othello.logText)
      ensures othello.board.hit == old(othello.board.hit) && othello.board.avalableHit == old(othello.board.avalableHit)
              && othello.board.searchFlag == old(othello.board.searchFlag)
    {
      if !paused {
        TogglePause();
      }
      if index > 0 {
        index := index - 1;
        var prevBoardState := history[index];
        othello.board.grid := prevBoardState;
        if index % 2 == 0 {
          othello.board.turn := First;
        } else {
          othello.board.turn := Second;
        }
      }
    }

    /**
     * start_replay_moves: take the tags, clear play_log, first to move,
     * the current board as the only history entry, unpaused, then the first
     * replay_move.
     */
    method StartReplayMoves(tags: seq<string>)
      modifies this`moveTags, this`paused, this`index, this`history
      modifies othello.board`count, othello.board`grid, othello.board`playLog, othello.board`maxReversals
      modifies othello.board`turn, othello.board`hit, othello.board`avalableHit, othello.board`searchFlag
      modifies othello`logText
      ensures moveTags == tags && !paused
      ensures othello.logText == old(othello.logText)
      ensures State() == Advance(tags, Start(old(othello.board.grid)))
      ensures othello.board.playLog
              == if index == 0 then []
                 else [LogEntry(old(othello.board.count) + 1, First, ParseTag(tags[0]).value)]
    {
      moveTags := tags;
      index := 0;
      othello.board.playLog := [];
      othello.board.turn := First;
      history := [];
      paused := false;
      history := history + [othello.board.grid];
      ReplayMove(false);
      AsWrittenAtEnd(tags, Start(old(othello.board.grid)));
    }

    /**
     * Othello.start_replay once the file's lines are read: reset the board,
     * show the lines, collect the tags with the log's regex, and start the
     * replay unless no line held a move.
     */
    method StartReplay(lines: seq<string>) returns (started: bool)
      modifies this`moveTags, this`paused, this`index, this`history
      modifies othello.board`count, othello.board`grid, othello.board`playLog, othello.board`maxReversals
      modifies othello.board`turn, othello.board`hit, othello.board`avalableHit, othello.board`searchFlag
      modifies othello`logText
      ensures started <==> MoveTags(lines) != []
      ensures started ==> moveTags == MoveTags(lines)
      ensures started ==> State() == Advance(MoveTags(lines), Start(Initial))
      ensures !started ==> othello.board.grid == Initial && othello.logText == old(othello.logText) + lines
      ensures started ==> othello.logText == old(othello.logText) + lines
    {
      othello.board.InitBoardSetup();
      othello.logText := othello.logText + lines;
      var tags := ExtractMoveTags(lines);
      if tags == [] {
        started := false;
        return;
      }
      StartReplayMoves(tags);
      started := true;
    }
  }

  /**
   * Replaying a game's own saved log: every tag names a cell, and move i is
   * the cell of the i-th play_log entry.
   */
  lemma LoggedGamePlayable(es: seq<LogEntry>)
    requires forall e :: e in es ==> OnBoard(e.pos)
    ensures |MoveTags(LogLines(es))| == |es|
    ensures Playable(MoveTags(LogLines(es)), |es|)
    ensures forall i :: 0 <= i < |es| ==> ParseTag(MoveTags(LogLines(es))[i]) == Some(es[i].pos)
  {
    LogRoundTrip(es);
    forall i | 0 <= i < |es| ensures ParseTag(MoveTags(LogLines(es))[i]) == Some(es[i].pos) {
      TagRoundTrip(TagOf(es[i].pos), es[i].pos);
    }
  }
}
