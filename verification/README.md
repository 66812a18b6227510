# SOS rules engine in Dafny

This project models the rules engine of a two-player SOS game. Blue and Red take turns writing an "S" or an "O" into an empty cell of a square board. A move that completes an S-O-S line has an effect that depends on the game variant:

- **Simple variant:** the first line wins, and the winner keeps the turn.
- **General variant:** every line scores one point for the player who made the move. The turn always passes. The game ends when the move counter reaches the number of cells.

The model also covers the two pieces of decision logic around the engine:

- the computer player's choice of an empty cell and a letter, and the human player's empty choice;
- the rule that turns two final scores into a winner or a draw.

The game state is an immutable record. Each operation is a pure function from state to state.

- `Board` holds the side, the letter grid and the owner grid.
- `Game` adds the turn, the move counter, the game-over flag, the last move's lines and mover, and the variant's own data.
- Moves return `Outcome(accepted, game)`. A refused move gives back the same game.

Modules:

- `Grid`: generic square grids of optional entries, with a count of their filled cells.
- `Board`: the shared state, construction, reset and the total queries: bounds, cell, owner, emptiness, turn toggling and the full-board test.
- `Detector`: the line detector (`form_sos`, `check_for_sos`). It scans four axes in both senses.
- `Letters`: normalisation of the submitted letter (strip surrounding whitespace, upper-case).
- `Rules`: the two move functions, the whole-game invariant and the lemmas about runs of moves.
- `Players`: the move sources and the general game's result.
- `Scenarios`: the five-move game from the repository's unit tests, played in both variants.

`check_for_sos(r, c)` records each line as `(r, c, r2, c2)`, anchored at the cell just played. So in the unit-test scenario the last move at (0,2) reports `(0, 2, 0, 0)`, which `Scenarios.LastMoveFormsTopRow` proves.

`reset_game` does not clear the simple game's winner or the general game's scores, because those fields are owned by the subclasses. `Board.Reset` keeps them the same way. In the source, `reset_game` runs only from the base constructor, before the subclass sets those fields, so this never shows.

## Model

| member | source | states |
|---|---|---|
| Board.Fresh | game_logic.py:8-23 | The board has side `n` and every cell and owner reads empty. The turn is Blue, the counter is zero, the game is not over, and there are no last lines and no last mover. |
| Board.NewSimple | game_logic.py:73-75 | The side is `max(3, requested)` and the board starts empty with Blue to move. The simple game starts with no winner. |
| Board.NewGeneral | game_logic.py:104-106 | The side is `max(3, requested)` and the board starts empty with Blue to move. Both scores start at zero. |
| Board.Reset | game_logic.py:12-23 | All cells and owners are emptied, the turn goes back to Blue, and the counter, game-over flag, last lines and last mover are cleared. The side and the variant's winner or scores are kept. |
| Board.InBoundsIsGridIndex | game_logic.py:25-26 | `in_bounds` holds exactly for the coordinates that index both the letter grid and the owner grid. |
| Board.GetCell | game_logic.py:34-35 | An off-board coordinate reads `None`, never an error. An on-board one reads the stored letter. |
| Board.GetCellOwner | game_logic.py:37-40 | An off-board coordinate has owner `None`. An on-board one has the stored owner. |
| Board.CellEmpty | game_logic.py:28-29 | True exactly when the cell is on the board and holds no letter. It is false off the board. |
| Board.Toggle | game_logic.py:31-32 | The result is always the other player. |
| Board.ToggleInvolution | game_logic.py:31-32 | Toggling twice gives back the original player. |
| Detector.FormSos | game_logic.py:53-64 | True exactly when the cells at zero, one and two steps along the direction read S, O, S. When it holds, all three cells are on the board. |
| Detector.SosLineOnBoard | game_logic.py:48-50 | A reported line has its second endpoint two steps from the first along one direction. Both endpoints hold "S" and the midpoint holds "O", all on the board. |
| Detector.CheckForSos | game_logic.py:42-51 | The lines are exactly the genuine S-O-S lines whose first "S" is the played cell, each listed once, at most eight. There are none unless that cell holds "S", and none exactly when no triple starts there in any of the eight directions. |
| Detector.ScanSound | game_logic.py:46-50 | Every line the axis-by-axis scan reports starts at the played cell, is a genuine S-O-S line and runs along a scanned axis. |
| Detector.ScanComplete | game_logic.py:46-50 | Every genuine line from the played cell along a scanned axis, forward or backward, is reported. |
| Detector.ScanDistinct | game_logic.py:43-50 | Scanning independent axes never reports the same line twice. |
| Detector.AxisLinesSound | game_logic.py:47-50 | One axis contributes only lines from the played cell that are genuine and run forward or backward along that axis. |
| Detector.ScanEmptyIff | game_logic.py:46-51 | The scan reports nothing exactly when no S-O-S triple starts at the played cell in any of the eight directions. |
| Letters.ParseLetter | game_logic.py:80-81 | The result is "S" exactly when the stripped input is "S" or "s". It is "O" exactly when the stripped input is "O" or "o". Any other input is refused. |
| Letters.ParseLetterText | game_logic.py:80-81 | A letter's own text, and that text padded with whitespace on both sides, parse back to the same letter. |
| Letters.StripIsTrimmedSlice | game_logic.py:80 | Stripping gives the slice of the input with only whitespace before and after it, and that neither starts nor ends with whitespace. |
| Letters.StripAround | game_logic.py:80 | Padding a word with whitespace on both sides and stripping gives the word back. |
| Letters.Upper | game_logic.py:80 | Upper-casing keeps the length, maps each character through the ASCII case rule, and leaves no lower-case ASCII letter in the result. |
| Letters.UpperIdempotent | game_logic.py:80 | Upper-casing twice is upper-casing once, and text without lower-case letters is left unchanged. |
| Rules.Rejection | game_logic.py:78-82 | A move is refused as "game over" exactly when the game is over. Otherwise it is refused for an invalid letter exactly when the letter does not normalise to S or O. Otherwise it is refused as "invalid move" exactly when the cell is off the board or filled. It is accepted in every other case. |
| Rules.Place | game_logic.py:84-90 | Exactly the target cell gets the letter and exactly its owner becomes the mover; every other cell and owner is unchanged. The counter grows by one, the mover becomes the last mover, and the stored lines are the detector's result. The turn, the game-over flag and the variant are unchanged. |
| Rules.SimpleMove | game_logic.py:77-98 | A move is accepted exactly when it is not refused, and a refused move changes nothing. An accepted move places the letter. With lines, the game ends, the mover wins and keeps the turn. Without lines, the game goes on, the winner is unchanged and the turn passes. |
| Rules.GeneralMove | game_logic.py:108-130 | A move is accepted exactly when it is not refused, and a refused move changes nothing. An accepted move places the letter and passes the turn. The mover's score grows by the number of lines found and the other score is unchanged. The game is over exactly when the counter has reached the number of cells. |
| Rules.MakeMove | game_logic.py:77-130 | The move follows the game's own variant and keeps that variant. It is accepted exactly when it is not refused. A refused move changes nothing, and an accepted one is a placement. |
| Rules.PlaceKeepsBoardInv | game_logic.py:84-90 | Placing a letter keeps three things true: a cell has an owner exactly when it has a letter, the counter equals the number of filled cells, and every stored line is genuine. |
| Rules.NewGameInv | game_logic.py:8-23 | Both kinds of new game satisfy the whole-game invariant. |
| Rules.MakeMovePreservesInv | game_logic.py:77-130 | Every move, accepted or refused, keeps the whole-game invariant. This covers owner/cell agreement, the counter equal to the filled cells, and genuine stored lines. In a simple game it also covers "over exactly when there is a winner", that winner having made the last line-forming move and holding the turn. In a general game it covers "over exactly when full" and non-negative scores. |
| Rules.RunPreservesInv | game_logic.py:77-130 | Any sequence of moves keeps the whole-game invariant. |
| Rules.Reachable | game_logic.py:8-130 | Every game reached from construction by moves satisfies the invariant. |
| Rules.RunFrozenAfterOver | game_logic.py:78-79 | Once a game is over, no further sequence of moves changes anything. |
| Rules.RunKeepsFilledCells | game_logic.py:81 | A filled cell keeps its letter and its owner through any later sequence of moves. |
| Rules.BoardFullIffNoEmptyCell | game_logic.py:66-67 | `is_board_full` compares the move counter with the number of cells; in a reachable game it holds exactly when no cell can take a letter. |
| Rules.GeneralOverIffNoEmptyCell | game_logic.py:127-128 | A reachable general game is over exactly when no empty cell is left. |
| Rules.SimpleFullBoardStalls | game_logic.py:92-98 | A simple game whose board filled up without a line is not over, has no winner, and refuses every further move without change. |
| Rules.OMoveFormsNoLine | game_logic.py:60-61 | A move that writes "O" records no line, never ends a simple game and changes no score. |
| Rules.ScoreIsCreditedLines | game_logic.py:122-123 | Over any sequence of moves, each player's general score grows by exactly the number of lines recorded for that player's accepted moves. |
| Players.HumanChooseMove | main.py:18-20 | A human player's source never proposes a move. |
| Players.EmptyCells | main.py:24-25 | The candidate list holds exactly the empty cells of the board. |
| Players.ComputerChooseMove | main.py:22-30 | No move is proposed exactly when no cell is empty. A proposed move names an on-board, empty cell and the letter S or O. The game is only read. |
| Players.GeneralResult | main.py:188-195 | Blue wins exactly when Blue's score is higher, Red wins exactly when Red's is higher, and the game is a draw exactly when the scores are equal. |
| Players.GeneralResultSymmetric | main.py:188-195 | Swapping the two scores swaps the winner and keeps a draw a draw. |
| Scenarios.LastMoveFormsTopRow | game_logic.py:42-51 | On the unit-test board after five moves, the detector at (0,2) reports exactly the line `(0, 2, 0, 0)`. |
| Scenarios.SimpleFirstMove | game_logic.py:84-98 | On a new simple game, the first move "S" at (0,0) is accepted, writes "S" there and passes the turn to Red. |
| Scenarios.SimpleScenario | game_logic.py:89-95 | In the unit-test simple game, Blue's fifth move completes the top row: the game is over, Blue wins and keeps the turn, and (0,2) holds "S". |
| Scenarios.GeneralScenario | game_logic.py:120-125 | In the unit-test general game, Blue scores one for the top row and Red stays at zero. The turn passes to Red and the game goes on. |

## Left out

- The tkinter interface in `main.py`: widgets, drawing, labels, message boxes, the timed computer-turn loop and the event handlers. They ask a player source for a move (`choose_move`), apply it with `make_move` and show the results; both calls are modelled, the scheduling and display are not.
- `random.choice`: `ComputerChooseMove` picks some candidate cell and some letter without fixing which. Uniformity of the random pick is not modelled.
- Unicode in `letter.strip().upper()`: `IsSpace` holds the ASCII whitespace that `str.strip` removes (space, tab, line feed, vertical tab, form feed, carriage return and U+001C to U+001F), and case follows the ASCII rule. Python also strips non-ASCII whitespace such as U+0085 and U+00A0, and upper-cases characters such as U+017F to "S"; those inputs are refused by the model. Input that is not a string is not modelled either.
- `int(board_size)`: the requested side is already an integer. Conversion from other Python values is not modelled.
- Coordinates that are not integers: the model takes integer coordinates, as every caller in the repository passes.
- Detector order: `CheckForSos` follows the source's order, forward before backward on each axis in turn, but its contract states membership, no duplicates and the bound, not the order.
- Direct writes to the board that bypass `make_move`, as some tests do: the invariant lemmas speak only of games reached through construction and moves.
- Mutable objects and identity: each operation returns a new game rather than updating one in place.
