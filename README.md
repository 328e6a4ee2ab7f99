# Connect Four: board engine and heuristic player

A Dafny model of a Connect-Four game with two parts. The first is the board engine of `gameBoard.py`. It handles a 6 x 7 grid filled by gravity, column heights, the ascending list of legal columns, a move counter, both players' move histories, and win detection around the piece just played. The second is the heuristic player of `heuristicAI.py`. It scans the legal columns for an immediate win or a block and otherwise falls back to the best candidate.

Files:

- `grid.dfy` (module `Grid`) holds the shared specification:
  - the grid as a value (`Cells`, rows of cells);
  - the four line orientations in their fixed order (`Lines`);
  - the bounded directional walk (`Run`) and the two-sided line count (`LineCount`);
  - the first winning orientation (`FirstLineFrom`);
  - a direct definition of "four in a row through a cell" (`FourInARowThrough`), which the counting definitions are proved equal to.
- `game_board.dfy` (module `Board`) holds:
  - `Game`, the value of everything a board object keeps, and `Consistent`, the relations between its fields;
  - the move functions `AddPieceSpec`, `Drop`, `Conclude` and `Play`, and their lemmas;
  - the class `GameBoard`. It keeps the board as an `array2<int>` and the heights as an `array<int>`. Each method is proved to move the object's value exactly as the matching function says.
- `heuristic_ai.dfy` (module `Heuristic`) holds:
  - the slot count and slot test;
  - the centre-first ordering of the legal columns;
  - the final-move scan and the fallback tie-break, as functions with lemmas;
  - the class `HeuristicAI`, whose methods are proved against those functions. The final-move methods carry the loops of heuristicAI.py. `CheckSlotForConsecTokens`, `BestCandidate`, `ConsiderColumn` and `ChooseMove` have no counterpart in heuristicAI.py; they are reconstructed from test_heuristicAI.py (see "## Left out").
- `agreement.dfy` (module `Agreement`) connects the two parts:
  - the player's slot test, made before a move, agrees with the engine's victory test, made after it;
  - the column the player picks from a board's own legal list is one the board accepts.
- `heuristic_examples.dfy` (module `HeuristicExamples`) works the positions of `test_heuristicAI.py` through the model. Each choose_move position is first proved for any grid with the test's rows, taken one slot at a time, and then for the test's own grid.

Conventions of the model:

- Columns passed to `add_piece` and `choose_move` are 1-based; rows and columns inside the grid are 0-based.
- Row 0 is the bottom row.
- Tokens are 1 and 2, and 0 is an empty cell.
- The engine's numpy `int8` cells are unbounded integers here. No value ever goes outside 0..2.

## Model

| member | source | states |
|---|---|---|
| Grid.Run | gameBoard.py:119-139 | the directional walk never lowers the count it starts from, and a count started at or below the cap of 3 ends at or below it |
| Grid.RunMatches | gameBoard.py:125-139 | the walk adds exactly the number of consecutive cells, from one step out, that are in bounds and hold the token; it stops at the first edge, empty cell or opposing piece, or at the cap of 3 |
| Grid.RunShift | gameBoard.py:108-114 | continuing a walk from a running count equals the running count plus a fresh walk, capped at 3 |
| Grid.LineCount | gameBoard.py:104-116 | the count along one orientation lies in 0..3 |
| Grid.LineCountSums | gameBoard.py:104-116 | the line count is the walk along the orientation plus the walk against it, capped at 3; vertical looks downward only |
| Grid.LineWinIsFourInARow | gameBoard.py:104-116 | for the vertical orientation, assume the cell above does not hold the token. Then the line count reaches 3 exactly when some window of four cells along that orientation, through the cell, holds the token everywhere except possibly the cell itself |
| Grid.FirstLineIsFirst | gameBoard.py:83-101 | the search returns the first orientation, in the fixed order, whose line count is 3, or the number of orientations when none is |
| Grid.FirstLineIsFourInARow | gameBoard.py:83-116 | when the cell above does not hold the token, some orientation wins exactly when there is four in a row through the cell |
| Board.LegalColumnsExact | gameBoard.py:21-23 | the legal list holds exactly the columns whose height is below 6, strictly ascending |
| Board.LegalAfterIncrement | gameBoard.py:59-61 | raising one column's height keeps the legal list, except that a column that has just become full is removed from it, and nothing else changes: the incremental update equals a recomputation |
| Board.FullBoardHasNoLegalMoves | gameBoard.py:77-80 | once 42 pieces are down, no column is legal |
| Board.VictoryResultIsFirst | gameBoard.py:83-101 | check_victory gives "No Victor" exactly when no orientation has line count 3; otherwise it gives the name of the first one in the order diagonal-up, horizontal, diagonal-down, vertical |
| Board.NamesDistinct | gameBoard.py:87-101 | the four direction names and "No Victor" are pairwise different, so the result identifies the orientation |
| Board.InitialConsistent | gameBoard.py:10-25 | the freshly constructed board satisfies every field relation the engine keeps between moves |
| Board.InitialGravity | gameBoard.py:14-21 | the empty grid and the zero heights agree |
| Board.AcceptedIffLegal | gameBoard.py:33-41 | add_piece accepts a column exactly when it is in the legal list; a rejected column (out of 1..7 or full) leaves the board unchanged |
| Board.DropKeepsGravity | gameBoard.py:43-50 | the piece lands in the lowest empty cell of its column, every other cell keeps its value, and the raised heights describe the new grid |
| Board.CountsAfterDrop | gameBoard.py:52-61 | after a drop the counter still equals the sum of the heights and the total length of the two histories, the histories stay balanced, and the legal list is still the non-full columns |
| Board.PlayKeepsConsistent | gameBoard.py:33-80 | every accepted move on an unfinished game leaves a board whose fields all agree again: grid, heights, legal list, counter, histories, victor and completion flag |
| Board.PlayWinIffFourInARow | gameBoard.py:66-75 | the accepted move wins exactly when the new piece makes four in a row through its cell; then the victor is the mover, the game is complete and the direction is the first winning orientation's name |
| Board.ConcludeWinIff | gameBoard.py:66-80 | the result step on its own: with the cell above the new piece empty, a victor is declared exactly when the piece makes four in a row, and it is then the mover, with the game complete and the first winning orientation as direction |
| Board.LegalMovesUntilEnd | gameBoard.py:76-80 | a game that has not ended always offers a legal column, and a game that ended with no victor has every column full |
| Board.GameBoard.constructor | gameBoard.py:10-25 | a new board is the empty game: zero grid and heights, columns 1..7 legal, counter 0, no victor, not complete |
| Board.GameBoard.AddPiece | gameBoard.py:33-80 | the outcome and the new board are those of the add_piece rule on the old board, and the field relations keep holding |
| Board.GameBoard.PlayColumn | gameBoard.py:43-80 | the accepted branch moves the board to the value of one accepted move |
| Board.GameBoard.DropToken | gameBoard.py:43-61 | returns the landing row (the old height) and the mover's token (by parity of the counter), and the board becomes the old one with the piece dropped |
| Board.GameBoard.RecordMove | gameBoard.py:52-58 | the column is appended to the mover's history only, and the counter goes up by one |
| Board.GameBoard.RaiseHeight | gameBoard.py:59-61 | only that column's height goes up by one, and the column leaves the legal list exactly when it becomes full |
| Board.GameBoard.SetCell | gameBoard.py:49-50 | exactly one cell of the board array changes |
| Board.GameBoard.RecordResult | gameBoard.py:66-80 | the victor, direction and completion flag become those of the result rule |
| Board.GameBoard.CheckVictory | gameBoard.py:83-101 | the loop over orientations returns the first winning orientation's name, or "No Victor" |
| Board.GameBoard.CheckLineForVictory | gameBoard.py:104-116 | true exactly when the two-sided count along the orientation reaches 3 |
| Board.GameBoard.CheckDirectionForTokens | gameBoard.py:119-139 | the loop computes the bounded directional walk |
| Heuristic.BestLineUpTo | test_heuristicAI.py:6-26 | the slot count over the first k orientations is the largest of their line counts: no orientation exceeds it, and one reaches it |
| Heuristic.SlotCountWins | heuristicAI.py:35-59 | a slot's consecutive count reaches 3 exactly when the final-move slot test finds a winning line there |
| Heuristic.CentreFirstInRange | test_heuristicAI.py:28-36 | the centre-first order holds only listed columns in 1..7 |
| Heuristic.CentreFirstStable | test_heuristicAI.py:68-82 | among columns equally near the centre, the given order is kept |
| Heuristic.CentreFirstOrder | test_heuristicAI.py:28-82 | the centre-first order is a permutation of the legal list, sorted by distance from column 4, and stable |
| Heuristic.FirstWinFrom | heuristicAI.py:20-32 | the first index from k whose slot wins; no index before it wins |
| Heuristic.FinalMovesFirst | heuristicAI.py:16-32 | the winning move is the first column, in the order given, whose slot wins for the player; the blocking move is the first column whose slot wins for the opponent, and it is recorded only if it comes before the winning one; 0 means neither |
| Heuristic.BestIsFirstMax | test_heuristicAI.py:68-82 | the fallback column is the first column, in centre-first order, with the highest score; a column scores its own count, or 0 when the slot above it would give the opponent more than that count |
| Heuristic.ChoosePriority | test_heuristicAI.py:28-82 | choose_move answers "no legal moves" exactly for an empty list and otherwise a listed column: the first winning column nearest the centre, else the first blocking column, else the fallback |
| Heuristic.ChooseTakesAWin | heuristicAI.py:16-32 | if some legal column wins at once, choose_move picks a legal column that wins at once |
| Heuristic.HeuristicAI.constructor | heuristicAI.py:8-13 | the player keeps its token, and both recorded moves start at 0 |
| Heuristic.HeuristicAI.CheckForFinalMoves | heuristicAI.py:16-32 | the scan loop leaves the winning and blocking moves that the scan rule gives from the old fields |
| Heuristic.HeuristicAI.CheckSlotForFinalMove | heuristicAI.py:35-45 | true exactly when some orientation would complete four through the empty slot |
| Heuristic.HeuristicAI.CheckLineForFinalMove | heuristicAI.py:48-59 | true exactly when the line count along the orientation reaches 3 |
| Heuristic.HeuristicAI.CountLineTokens | heuristicAI.py:52-57 | the two scans give the two-sided line count, continuing the count across both scans |
| Heuristic.HeuristicAI.CheckDirForTokens | heuristicAI.py:62-81 | the loop computes the bounded directional walk over the given grid |
| Heuristic.HeuristicAI.CheckSlotForConsecTokens | test_heuristicAI.py:6-26 | the loop returns the slot count: the largest line count over the four orientations |
| Heuristic.HeuristicAI.ConsiderColumn | test_heuristicAI.py:68-82 | one pass of the tie-break loop: the column takes over as best exactly when its own count beats the best so far and the opponent's count in the slot above does not exceed that count; otherwise the best is kept; and the rest of the loop's result is unchanged by the step |
| Heuristic.HeuristicAI.BestCandidate | test_heuristicAI.py:68-82 | the loop returns the fallback column of the tie-break rule |
| Heuristic.HeuristicAI.ChooseMove | test_heuristicAI.py:28-82 | the reply is choose_move's rule, and the recorded winning and blocking moves are those of the final-move scan over the centre-first order |
| Agreement.SlotWinsIffFour | heuristicAI.py:35-59 | on a grid whose cell above is empty, the slot test answers whether writing the token there makes four in a row |
| Agreement.SlotWinsIffPlayWins | heuristicAI.py:35-45 | the player's slot test, made before a move, agrees with the engine declaring the mover the victor after it |
| Agreement.BoardInputsValid | gameBoard.py:21-23 | a board's legal list and heights are inputs choose_move accepts |
| Agreement.ChosenMoveAccepted | gameBoard.py:36-41 | on an unfinished game, choose_move over the board's legal list picks a column, and add_piece accepts it |
| Agreement.ChosenWinWins | heuristicAI.py:16-32 | when some legal column wins at once for the player to move, the column choose_move picks wins the game on the engine |
| HeuristicExamples.SlotCountRowOfThree | test_heuristicAI.py:6-14 | a slot beside three in a row counts 3 |
| HeuristicExamples.SlotCountDiagonalGap | test_heuristicAI.py:16-26 | the slot filling a diagonal gap counts 3 |
| HeuristicExamples.CentreFirstOfAll | test_heuristicAI.py:28-36 | with all columns legal, the order is 4, 3, 5, 2, 6, 1, 7 |
| HeuristicExamples.CentreFirstOfAvoidLegal | test_heuristicAI.py:68-82 | the legal list 1, 2, 5, 6, 7 is taken in the order 5, 2, 6, 1, 7 |
| HeuristicExamples.SlotFromLines | heuristicAI.py:35-59 | a slot's count is the largest of its four line counts, and the slot wins exactly when one of them is 3 |
| HeuristicExamples.ChooseBlocksColumn | test_heuristicAI.py:28-36 | against three stacked opposing pieces in column 1, choose_move blocks at column 1 |
| HeuristicExamples.ChooseBlocksDiagonal | test_heuristicAI.py:38-50 | on the diagonal-threat position, choose_move blocks at column 3 |
| HeuristicExamples.ChooseBlocksRow | test_heuristicAI.py:52-66 | on the row-threat position, choose_move blocks at column 5 |
| HeuristicExamples.ChooseAvoidsEnabling | test_heuristicAI.py:68-82 | on the avoid-enabling position, with legal columns 1, 2, 5, 6, 7, choose_move picks column 2 |

## Left out

- main.py (the game driver) and player.py (an empty `Player` base class whose `select_move` does nothing) are not part of this model. Neither is `__repr__`, which is display only.
- Logging and printing are left out; they change no state.
- numpy: the board is an `array2<int>` in the class and a `seq<seq<int>>` value elsewhere. The `int8` width is not modelled because every cell holds 0, 1 or 2.
- The heuristic's methods take the board's grid and column heights as values, not the `GameBoard` object. They only read the board, so aliasing with the engine is not modelled.
- The raised `ValueError` of add_piece is modelled as an `Outcome` value (`Fail(InvalidColumn)` or `Fail(ColumnFull)`). The caller's handling of the exception is not part of this model.
- Board.GameBoard.AddPiece: requires that the game is not complete. The source has no such guard, but the engine's invariants (a victor only on a completed game) would not be kept by a move after the end.
- Parts of the two source files that cannot run as written are modelled at their evident intent:
  - gameBoard.py:108 calls a method name that does not exist; the model calls check_direction_for_tokens.
  - heuristicAI.py:24 swaps the row and column; the model uses the column's height as the row.
  - The loop at heuristicAI.py:20-32 does not advance its index; the model advances it on every pass.
  - heuristicAI.py:26-29 tests the same token in both branches; the model tests the player's own token for a win, then the opponent's token for a block.
  - At heuristicAI.py:55-57 the `if` that excludes vertical has no body, and the scan against the orientation sits after it, unconditionally. The model puts that second scan inside the `if`: it runs for every orientation except vertical and continues the count of the first scan.
  - check_slot_for_final_move (heuristicAI.py:35-45) calls check_line_for_final_move without its `board` argument (line 42) and discards the boolean it returns. Its loop tests `self.winning_move`, which no method of the file sets, so as written no win or block is ever recorded. In the model, `CheckSlotForFinalMove` returns whether some orientation wins, and `CheckForFinalMoves` sets `winningMove` or `blockingMove` from that answer.
  - heuristicAI.py:75 reads `self.board`, which the class never sets; the model reads the grid passed in.
- choose_move and `_check_slot_for_consec_tokens` do not appear in the heuristicAI.py revision at hand. They are built from the behaviour that test_heuristicAI.py expects:
  - the legal columns are ordered by distance from column 4, keeping the given order among equal distances;
  - an immediate win is taken first, then the first block;
  - otherwise the first column with the highest own count is taken, among columns whose slot above gives the opponent a count that does not exceed the own count. The stricter reading, skipping a column when the count above is at least the own count, would make test_heuristicAI.py:68-82 pick column 5 rather than 2;
  - a slot above the top row counts 0 for the opponent;
  - the fallback starts from the first column of the order with count 0;
  - an empty legal list gives `NoLegalMoves` instead of raising.
- Heuristic.HeuristicAI.ChooseMove: resets the recorded winning and blocking moves before the scan. Whether the source resets them cannot be seen, so the model takes a fresh scan per call.
