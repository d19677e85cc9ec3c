# Othello engine — a Dafny model

This project models the game engine of `othello.py`, a Tkinter Othello (Reversi)
game with a computer opponent and a replay facility. The model covers:

- the 8×8 board, seen through the `x_y` cell tags rather than pixel rectangles;
- the initial layout and the evaluation table;
- the eight-direction scan (`find_own_piece_in_direction`, `check_piece_around`,
  `check_search_around`) and the 64-cell enumerations that build the lists of
  playable cells;
- placing a disc (`dohit`) and flipping (`reverse_piece`), including the
  per-turn maximum single-direction flip count;
- the turn, pass and finish state machine (`change_turn`, `finish_game`,
  `update_game_state`, `handle_pass`, `human_hit`, `cpu_hit_base`,
  `common_hit`) and the result tally;
- the three computer move-selection rules (`random_hit_1/2/3`);
- the log line written for each move, the regex that reads it back (with
  `\d` matching any Unicode decimal digit, as Python's `re` does on a str
  pattern), and the replay cursor with its history of boards.

Modules, one per file:

| file | module | what it holds |
|---|---|---|
| board_model.dfy | BoardModel | pieces, turns, cells, directions; the grid as 64 cells in x-major order; the initial layout; the evaluation table |
| tags.dfy | Tags | `f"{x}_{y}"` tags and `tag_to_coord` lookup |
| rules.dfy | Rules | the scan, brackets, legality, the enumeration order, flipping and the longest run, as functions on a board value |
| board.dfy | Boards | class `Board`: the source's `Board` methods, each proved against the Rules functions |
| players.dfy | Players | `RandomPlayer.random_hit` / `search_hit` as nested loops over the 64 cells |
| opening.dfy | Opening | the legal cells of the opening position |
| strategy.dfy | Strategies | the three move-selection rules |
| logformat.dfy | LogFormat | the log line format, the regex `が (\d{1,2}_\d{1,2}) に配置`, and their round trip |
| engine.dfy | Engine | class `Othello`: the game flow around the board |
| replay.dfy | Replay | the replay cursor, the history of boards, and class `ReplayView` |

Some behaviour of the source is modelled as it is, not as it might have been
meant:

- `check_avalable_hit` on an occupied cell keeps x = y = 0 and tests cell 0_0
  instead (`Boards.ClickTarget`, `Boards.OccupiedClickAccepted`).
- Replay gives colours by strict alternation, because passes are not logged.
- Replay does not check legality.
- A replay tag that names no cell does not advance `replay_index`.
- `max_reversals[turn]` keeps the longest run in a single direction, not the
  number of discs a move flips.
- `turn_to_piece.get("wait")` is `None`. The model writes this as
  `OwnPiece(Wait) == Empty`, so no scan can succeed for the "wait" turn.
- `check_piece_around` and `check_search_around` fail with an unbound local
  when the turn is "wait", so their models require another turn.

Where the replay disagrees with what it evidently intends (every history
entry i is the board after i moves), the discrepancy is recorded under
"## Findings". The `ReplayView` class follows the source's step; the
corrected step is modelled and proved beside it.

## Model

| member | source | states |
|---|---|---|
| BoardModel.SetAt | othello.py:1386-1391 | writing one cell of the board changes that cell and no other |
| BoardModel.SetAllAt | othello.py:1414-1415 | writing a list of cells gives them the new colour and leaves every other cell as it was |
| BoardModel.InitialAt | othello.py:1180-1200 | the initial layout: black at 3_3 and 4_4, white at 3_4 and 4_3, every other cell empty |
| BoardModel.InitialBuilt | othello.py:1180-1200 | the initial board is the empty board with exactly those four cells written |
| BoardModel.InitialCount | othello.py:1180-1200 | the initial board has 2 black, 2 white and 60 empty cells |
| BoardModel.CountPartition | othello.py:1515-1516 | black + white + empty counts add up to the number of cells |
| BoardModel.EvalShape | othello.py:1115-1178 | the evaluation table is symmetric under both mirrors and the diagonal; it is 30 exactly at the corners and at most 0 elsewhere |
| Tags.TagRoundTrip | othello.py:428-437 | `tag_to_coord.get(t)` finds cell p exactly when t is p's tag `f"{x}_{y}"` |
| Tags.TagOfInjective | othello.py:428-437 | distinct cells have distinct tags |
| Rules.RayLength | othello.py:1297-1310 | a scan visits no more cells than lie between the start and the edge in its direction, so at most 7 |
| Rules.RaysDisjoint | othello.py:1403 | two different directions from one cell never visit the same cell |
| Rules.FindOwnIsBracketed | othello.py:1297-1310 | `find_own_piece_in_direction` succeeds exactly when the mover's disc is reached before an empty cell or the edge, with only opponent discs in between |
| Rules.BracketedCons | othello.py:1297-1310 | one step of the scan: found exactly when the next cell is the mover's, or an opponent disc from which the scan succeeds |
| Rules.RunShape | othello.py:1405-1421 | the run `reverse_piece` collects is a prefix of the ray, all opponent discs, and ends at a mover's disc |
| Rules.RunOfBracket | othello.py:1405-1421 | when opponent discs up to a mover's disc lie along the ray, the run is exactly those discs |
| Rules.CapturedInRay | othello.py:1405-1421 | every disc flipped in a direction lies on that ray and is an opponent disc |
| Rules.CapturedAtMostSix | othello.py:1405-1421 | at most six discs are flipped in one direction |
| Rules.FindOwnIsRun | othello.py:1297-1310 | the legality scan succeeds exactly when the flipping loop would close a run |
| Rules.DirCapturesIffFlips | othello.py:1325-1334 | a direction passes the legality check (adjacent opponent disc and successful scan) exactly when it flips at least one disc |
| Rules.BracketsBeforeSome | othello.py:1324-1342 | the check over the first k directions succeeds exactly when one of those directions passes |
| Rules.BracketsSome | othello.py:1324-1342 | the eight-direction check succeeds exactly when some direction passes |
| Rules.LegalBeforeSpec | othello.py:1047-1054 | the cells visited among the first k of x-major order that are empty and pass the check, in that order |
| Rules.LegalCellsSpec | othello.py:1047-1054 | the legal list holds exactly the empty cells that pass the check, sorted in x-major order, with no repeats |
| Rules.LaterRunsUnchanged | othello.py:1404-1421 | flipping the earlier directions does not change the run a later direction collects |
| Rules.InRunsBeforeSome | othello.py:1404-1421 | a cell lies in the runs of the first k directions exactly when it lies in one of them |
| Rules.NotInEarlierRuns | othello.py:1404-1421 | a cell on a later direction's ray is in no earlier direction's run |
| Rules.ReverseDirsAt | othello.py:1404-1421 | after the first k directions, a cell has the mover's colour if one of their runs holds it; otherwise it is unchanged |
| Rules.ReverseIsBatch | othello.py:1397-1421 | flipping direction by direction, in place, is the same as flipping the union of all eight runs at once |
| Rules.LongestRunEq | othello.py:1404-1425 | the maximum taken on the board as it changes equals the maximum of the runs on the original board |
| Rules.BatchLongestBounds | othello.py:1404-1425 | that maximum is at least every direction's run, equals some direction's run, and is at most 6 |
| Rules.LongestRunIsBatch | othello.py:1404-1425 | the value `reverse_piece` records is the longest single-direction run of the original board |
| Rules.PlacementKeepsRuns | othello.py:1374-1421 | writing the placed disc first does not change any run from that cell |
| Rules.MoveEffect | othello.py:1374-1421 | a move gives the placed cell the mover's colour (1 for first, 2 otherwise) and turns the closed runs of opponent discs to the mover's colour; nothing else changes |
| Rules.FlippedAreOpponents | othello.py:1405-1421 | only opponent discs are ever flipped |
| Rules.WaitFlipsNothing | othello.py:1402-1413 | for the "wait" turn no run closes, so nothing is flipped |
| Rules.MoveFillsOneCell | othello.py:1374-1421 | a move on an empty cell lowers the empty count by exactly one |
| Rules.MoveKeepsEmptiness | othello.py:1374-1421 | apart from the placed cell, a move never fills or empties a cell |
| Rules.LegalIffFlips | othello.py:1313-1342 | on an empty cell a move is legal exactly when playing it changes some other cell |
| Boards.OpponentSwaps | othello.py:1485-1491 | `change_turn` swaps first and second; it is its own inverse, and the two turns play different colours |
| Boards.FullIffNoEmpty | othello.py:1508 | the board is full exactly when the empty count is 0 |
| Boards.ResultTally | othello.py:1515-1536 | black + white = 64 − empty; on a full board it is a draw exactly at 32–32, and the winner holds more than 32 |
| Boards.OccupiedClickAccepted | othello.py:1203-1215 | a board on which a click on the occupied cell 3_3 is accepted, because the check tests 0_0 |
| Boards.Board.constructor | othello.py:1069-1113 | `Board.__init__`: turn "wait", count 0, empty lists, no passes, `max_reversals` 0 for both sides |
| Boards.Board.InitBoardSetup | othello.py:1180-1200 | the nested loop leaves exactly the initial layout |
| Boards.Board.FindOwnPieceInDirection | othello.py:1297-1310 | the while loop returns the scan's verdict |
| Boards.Board.DirectionPasses | othello.py:1329-1340 | one direction of the check: the neighbour is an opponent disc and the scan from it succeeds |
| Boards.Board.CheckPieceAround | othello.py:1313-1342 | with check_only, sets `avalable_hit` exactly when some direction passes; otherwise appends the cell's tag once when some direction passes |
| Boards.Board.CheckSearchAround | othello.py:1242-1266 | appends the cell's tag, at most once, exactly when some direction passes |
| Boards.Board.CheckAvalableHit | othello.py:1203-1215 | `avalable_hit` is the check of the click target; for an empty cell that is exactly legality |
| Boards.Board.CheckRandomHit | othello.py:1218-1227 | the cell's tag is appended, at most once, exactly when the cell is legal |
| Boards.Board.CheckSearchHit | othello.py:1230-1239 | the same, for the search list |
| Boards.Board.DoHit | othello.py:1374-1395 | count + 1, the mover's colour written, `(count, turn, coord)` appended to `play_log` |
| Boards.Board.FlipLine | othello.py:1405-1421 | one direction of `reverse_piece`: exactly the run is flipped, and its length is returned |
| Boards.Board.ReversePiece | othello.py:1397-1425 | the board after all eight directions; `max_reversals[turn]` becomes the max of its old value and the longest run; other keys are unchanged |
| Boards.Board.ChangeTurn | othello.py:1485-1501 | first and second swap, "wait" stays; hit, avalable_hit and search_flag are cleared |
| Boards.Board.FinishGame | othello.py:1504-1510 | finished once two passes in a row have happened or no cell is empty |
| Boards.Board.GetResult | othello.py:1513-1540 | result_count is [black, white]; the winner is the larger count, or a draw; the written flag is set only when the file write succeeds |
| Players.TagsOfAt | othello.py:1049-1051 | the i-th tag is the tag of the i-th cell |
| Players.AppendAbsentMembers | othello.py:1340-1342 | "append unless present" keeps exactly the union of tags, with no repeats |
| Players.FreshListIsLegalTags | othello.py:1047-1054 | starting from an empty list, the enumeration yields the tags of the legal cells in x-major order, without repeats |
| Players.CollectedStep | othello.py:1047-1054 | visiting one cell appends its tag exactly when it is legal and not yet listed |
| Players.RandomHit | othello.py:1047-1054 | the nested loops append the legal cells' tags, in x-major order, to the list they start from |
| Players.RandomVisit | othello.py:1049-1054 | one pass of the inner loop visits cell x_y |
| Players.SearchHit | othello.py:1057-1064 | the same for the search list |
| Players.SearchVisit | othello.py:1059-1064 | one pass of the inner loop of `search_hit` |
| Opening.FarCellsNotLegal | othello.py:1313-1342 | in the opening, a cell with no white neighbour is not legal for black |
| Opening.InitialLegal | othello.py:1313-1342 | in the opening, black may play exactly at 2_4, 3_5, 4_2 and 5_3 |
| Opening.LegalCellsOfInitial | othello.py:1047-1054 | the opening's legal list is [2_4, 3_5, 4_2, 5_3], in that order |
| Opening.SortedUnique | othello.py:1047-1054 | two x-major-sorted lists with the same cells are equal |
| Strategies.FirstCornerIsFirst | othello.py:239-242 | no cell before the first corner found is a corner |
| Strategies.FindCorner | othello.py:239-242 | the corner loop returns the first corner of the list, or nothing |
| Strategies.PickIndex | othello.py:224-229 | strategy 1's index lies in [0, hit_count − 1], and is 0 when hit_count is 1 |
| Strategies.LookupFormatted | othello.py:251-253 | `tag_to_coord.get(f"{x+dx}_{y+dy}")` finds a cell exactly when the neighbour is on the board |
| Strategies.AvoidAround | othello.py:248-253 | the two inner loops add exactly the on-board neighbours of one corner |
| Strategies.AvoidList | othello.py:245-253 | avoid_list holds exactly the on-board 8-neighbours of the four corners |
| Strategies.Unavoided | othello.py:255 | preferred_list holds exactly the listed cells that are not avoided |
| Strategies.Strategy2 | othello.py:235-260 | the first corner if the list holds one; otherwise a listed cell, and one that is not next to a corner whenever the list has such a cell |
| Strategies.BestIndexIsBest | othello.py:275-283 | the chosen cell has the maximal evaluation, and no earlier cell reaches it (strict `>` keeps the first maximum) |
| Strategies.Strategy3 | othello.py:265-283 | the first corner if the list holds one; otherwise the first cell of maximal evaluation |
| Strategies.CornerIsBest | othello.py:265-283 | when a corner is listed, the evaluation rule would choose that same first corner |
| Engine.CoordsOfCells | othello.py:198-202 | mapping tags back through `tag_to_coord`, keeping empty cells and skipping repeats, returns the original cells |
| Engine.TagsToCoords | othello.py:198-202 | the loop over the tag list computes that list of cells |
| Engine.CoordsOfLegal | othello.py:198-202 | the cell list rebuilt from the legal tags is the legal cell list |
| Engine.Othello.constructor | othello.py:17-31 | `Othello.__init__`: a fresh board in the initial layout, turn "wait", empty log |
| Engine.Othello.UpdateLogDisplay | othello.py:975-981 | the log gets one line `"{n}: {label}が {tag} に配置\n"` |
| Engine.Othello.SearchAvalableCell | othello.py:172-188 | the search lists are exactly the legal tags and cells, in x-major order; search_flag is set |
| Engine.Othello.RandomAvalableCell | othello.py:191-202 | the computer's lists are exactly the legal tags and cells, in x-major order |
| Engine.Othello.UpdateGameState | othello.py:33-67 | the game is finished exactly when it already was, after two passes, on a full board, or at the second consecutive pass; a side with no legal cell adds one pass; the result is tallied once |
| Engine.Othello.StartGameSetup | othello.py:69-73 | first to move; from the opening, play continues with the four legal cells offered |
| Engine.Othello.HandlePass | othello.py:75-78 | a pass swaps the turn and leaves board, count and log unchanged; when the side now to move has no legal cell the pass count rises by one, and play goes on exactly when the game has not ended and that side can move |
| Engine.Othello.HandleCpuTurn | othello.py:80-93 | a computer's turn sets `hit` so the loop does not start it twice |
| Engine.Othello.PlayMove | othello.py:295-299 | dohit, the log line when logged, then reverse_piece: the board is the move's result, count + 1, one play_log entry |
| Engine.Othello.CommonHit | othello.py:287-307 | the move is played, logged unless replaying, and the turn passes to the other side |
| Engine.Othello.HumanHit | othello.py:95-128 | ignored while a move is under way; otherwise played exactly when the check accepts (for an empty cell, exactly when legal). A played move resets the pass count, which ends as 1 exactly when the next side has no legal cell (PassAlert) and 0 otherwise; the game is finished and the phase GameOver exactly when it already was or the board is full; an unplayed click leaves the pass count and the finish flag alone |
| Engine.Othello.PlayClick | othello.py:112-126 | an accepted click: the move, the log line, the turn change, the pass count reset, then update_game_state: the count ends as 1 exactly when the next side is stuck and 0 otherwise, the game is finished (GameOver) exactly when it already was or the board is full, and play goes on exactly when neither holds and the next side can move |
| Engine.Othello.ChooseMove | othello.py:223-285 | the move chosen by strategy 1, 2 or 3 satisfies that strategy's promise and is one of the listed cells |
| Engine.Othello.CpuHitBase | othello.py:205-220 | no legal cell: the turn passes, nothing is played and the pass count rises as for a pass; otherwise the chosen legal cell is played and logged, the pass count is reset to 0 (1 when the next side must pass), the game is finished only on a full board, and play goes on exactly when the next side can move |
| Engine.Othello.CpuMove | othello.py:217-219 | with cells available: the pass count is reset, a cell chosen by the strategy is played; afterwards the pass count is 0, or 1 when the next side has no legal cell, and the game is finished exactly when it already was or the board is full |
| Engine.Othello.CpuPlay | othello.py:218-220 | a chosen cell: the move, the log line, the turn change, then update_game_state: the pass count rises by one exactly when the next side has no legal cell, the game finishes at the second pass or on a full board, and play goes on otherwise |
| LogFormat.LogLineTag | othello.py:975-981 | the regex finds exactly the move's tag in the line written for it |
| LogFormat.MarkedLineTag | othello.py:156 | a line whose only 'が' starts `"が {tag} に配置"` yields that tag |
| LogFormat.NoMarkNoTag | othello.py:156 | a line without 'が' yields no tag |
| LogFormat.WideDigitTag | othello.py:156 | `\d` also matches full-width digits: the line "1: 黒(先)が ２_４ に配置" yields the tag ２_４, which names no cell |
| LogFormat.ExtractMoveTags | othello.py:152-158 | the file loop collects group 1 of every matching line, in order, with `\d` read as any Unicode decimal digit |
| LogFormat.MoveTagsAppend | othello.py:152-158 | the tags of a concatenation are the concatenation of the tags |
| LogFormat.LogRoundTrip | othello.py:975-981 | reading back the lines written for a sequence of moves gives their tags in order |
| LogFormat.SavedLogTags | othello.py:1528-1537 | header and result lines without 'が' add no tags, so a saved log replays exactly its move lines |
| Replay.AdvanceFaithful | othello.py:637-649 | a forward step, with the history cut back at the index, keeps every entry up to the index equal to the board after that many moves; the index moves exactly when the tag names a cell |
| Replay.RetreatFaithful | othello.py:607-622 | a backward step keeps the history faithful and shows the board of one move fewer, with the turn set by parity |
| Replay.RewindRestores | othello.py:607-622 | with the corrected step, a backward step after a forward step restores the board and the side to move |
| Replay.RewindRestoresAsWritten | othello.py:607-622 | with the source's append, a backward step after a forward step restores history[index] and the parity turn, which is the board on show only while the history holds it there |
| Replay.AsWrittenAtEnd | othello.py:649 | the source's append and the corrected step agree whenever the history ends at the index |
| Replay.ForwardOnlyFaithful | othello.py:637-649 | a replay only ever stepped forward keeps the source's history faithful: entry i is the board after i moves |
| Replay.ReplayColour | othello.py:611-621 | during replay, move i is placed in black exactly when i is even |
| Replay.StaleAfterRewind | othello.py:637-649 | with the history appended to as written, the steps <<, >>, >>, >>, << show the board after one move while the index is two |
| Replay.StaleReplayExample | othello.py:637-649 | the log 2_4, 2_3, 2_2 from the opening triggers that discrepancy |
| Replay.RewindScenarioCorrected | othello.py:637-649 | with the corrected step, the same presses show the board after two moves |
| Replay.LoggedGamePlayable | othello.py:150-158 | every tag in a game's own saved log names a cell, and move i is the cell of the i-th play_log entry |
| Replay.ReplayView.ReplayMove | othello.py:637-655 | paused and not manual: nothing changes; otherwise exactly the source's cursor step (the new board appended at the end of the history), with no log line, the move count raised by one and one play_log entry numbered by it per move played |
| Replay.ReplayView.TogglePause | othello.py:591-598 | the flag flips; pausing changes nothing else, and resuming plays one step of the source with ReplayMove's effect on the count, play_log and the log text |
| Replay.ReplayView.ForwardReplay | othello.py:601-604 | pauses, then exactly one step of the source's cursor step: no log line, the count raised and one play_log entry per move played |
| Replay.ReplayView.BackwardReplay | othello.py:607-625 | pauses, then exactly one backward cursor step; count, play_log, max_reversals, the flags and the log text stay as they were |
| Replay.ReplayView.StartReplayMoves | othello.py:627-635 | index 0, the current board as the only history entry, first to move, play_log cleared, then one step, which from a fresh history is the corrected step |
| Replay.ReplayView.StartReplay | othello.py:130-169 | the board is reset and the lines shown; the replay starts exactly when the regex (Unicode `\d`) found a move, from the initial board |

## Left out

- Tkinter and PIL: window, canvas drawing, buttons, alerts, highlighting,
  `show_return_to_menu_button`, and the hit test that turns a click into a
  tag. Cells are modelled directly; pixel rectangles are dropped.
- File I/O. The log file is opened and read in `start_replay`; the model
  takes its lines as a parameter, and the read-error path is left out. The
  result file written by `get_result` and `save_log_to_file` are left out
  too. Whether `get_result`'s write succeeds is a parameter (`writeSucceeds`).
- Wall-clock timing: `turn_start_time`, `turn_times`, `get_stats_text` (a
  float average), `window.after` scheduling, `update_loop`, the 1500 ms
  computer delay and the replay speed. Each scheduled call is modelled as a
  direct call. Replay auto-play is one `ReplayMove(false)` at a time.
- The `random` module. Choices are nondeterministic (`:|`), with the
  contract that the result is one of the candidates.
- Dead code: `check_search_around_2`, `check_piece_around_2`,
  `reverse_piece_around(_2)`, `Player`/`HumanPlayer`, `alert_pass` and
  `turn_pass`. `reverse_dic` is cleared but never read, so it is not modelled.
- Which player type owns a turn (`view.players`). It is a parameter:
  `isCpu`, or the `Cpu` strategy.
- Engine.Othello.UpdateGameState: the pass alert's callback to
  `handle_pass` belongs to the UI, so the method returns `PassAlert` and
  `HandlePass` is a separate call.
- Replay.RewindRestores: stated for the corrected step only. With the
  source's append, forward then back restores history[index], which can be
  stale after earlier backward steps; Replay.RewindRestoresAsWritten states
  that, and Replay.StaleAfterRewind exhibits the stale case.
- LogFormat.IsDecimalDigit: the Unicode decimal digits are those of Unicode
  15.0. A Python build with other Unicode data matches a slightly different
  set of characters.
- Replay.Replayed: a tag that names no cell plays nothing. The replay index
  never passes such a tag, so this case is never reached.

## Findings

| source | as written | input that shows it | evidently intended | confidence | as-written member | corrected member |
|---|---|---|---|---|---|---|
| othello.py:649 | `replay_move` always appends the new board to `replay_board_history`, even after backward steps have moved `replay_index` below the end of the history. Entry i then stops being the board after i moves, and a later backward step restores a stale board. | Log 2_4, 2_3, 2_2. After the first move is replayed, press <<, >>, >>, >>, <<. The index is 2, but the board shown is the one after move 1 (2_3 is empty, not white). | Cut the history back to the index before pushing, so that entry i is always the board after i moves. | not executed | Replay.AdvanceAsWritten, Replay.ReplayView.ReplayMove, Replay.StaleAfterRewind, Replay.StaleReplayExample | Replay.Advance, Replay.AdvanceFaithful, Replay.RewindScenarioCorrected |
