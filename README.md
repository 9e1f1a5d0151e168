# DataHunt progression and puzzle verifiers in Dafny

This project models the part of the DataHunt puzzle-hunt game that decides things.
That covers three areas:

- **Progression.** The React front end's controller (`App.jsx`) tracks the
  current level, the completed and available levels, login state and the end
  of the game. The FastAPI backend (`level_services.py`, `level_routes.py`)
  keeps the completed set and applies the availability rule to it.
- **The eight level pages.** Each has its own verifier:
  - level 1: the sliding 8-puzzle, then a binary-to-decimal question;
  - level 2: a coordinate table, a marker map and a city riddle;
  - level 3: a word-association game played against the backend;
  - level 4: two three-gate logic circuits;
  - level 5: an access-log classification;
  - level 6: a command-sequence entry;
  - level 7: a code phrase;
  - level 8: a log prediction.
- **The backend's word-game service.** It holds a similarity table, a rule
  chain that scores word pairs, and the sessions.

The model is shaped like the source:

- Each React component or Python service object is a `class`. Its state
  variables are fields. Each event handler is a `method` whose `modifies`
  clause names the object and whose `ensures` clauses give the complete new
  state.
- Pure rules (availability, the circuit simulator, the answer tests, the
  similarity rule chain) are functions and predicates, with lemmas about them.
- Loops in the source are methods with loops and invariants, proved against
  those functions. For example:
  - the `forEach` that rebuilds the available levels;
  - the sort of the level set;
  - the gate-by-gate circuit evaluation;
  - the construction of the similarity table;
  - the spy-term scan and the common-prefix count.

Values that come from outside become parameters, and what a handler starts
asynchronously becomes a result:

- **Backend replies** (HTTP responses and failures) are datatype parameters.
- **Session identifiers** from `uuid4` are parameters.
- **Timers** (`setTimeout`) become a separate method, which is the callback.
  Or they become a result flag saying that a callback such as `onSolve` was
  scheduled.

The module `Text` gives ASCII versions of the string operations the source
uses:

- `toLowerCase`/`lower` and `toUpperCase`/`upper`;
- JavaScript's `trim` and Python's `strip`, kept apart because their ASCII
  white-space sets differ: `strip` also removes the separators 0x1C–0x1F;
- `includes`/`in`;
- `parseInt` and `parseFloat`, including JavaScript's prefix-parsing and NaN
  behaviour;
- printing an integer.

Some things the code does that a reader of the pages might not expect:

- **Level 4's `correctSequence` fields.** The circuit specs carry
  `correctSequence: ["XOR","OR","AND"]` and `["AND","NOR","NOT"]`
  (frontend/src/pages/level4.jsx:24 and :30). Run through the page's own
  simulator, these give `false` and `true`, the opposite of what each circuit
  expects (`Level4.ListedSequencesFail`). The page never reads these fields.
- **The backend's circuit answers.** The backend accepts different circuit
  answers (`NOT,AND,OR` and `NAND,OR,NOR`), and those do not fix the page's
  circuits (`Level4.BackendSequencesFailOnThePage`). The page never calls that
  endpoint.
- **A completed level can be taken back.** `reset_logic_circuits` removes
  level 4 from the completed set (backend/services/level_services.py:109-113),
  which makes level 5 unavailable again
  (`LevelServices.LevelService.ResetLogicCircuits`).
- **Levels past 5 in the backend.** The backend reports availability only for
  levels 1–5. Its `POST /solution` answers 403 for levels 6–8 until their
  predecessor is completed. The page ignores any failure and moves on anyway
  (`App.AppState.HandleLevelComplete`).
- **The map's check is bound to nothing.** `checkSolution` and `isSolution`
  (frontend/src/components/MapComponent.jsx:32-34 and 74-80) are called by no
  element of the map component. Its only handlers are the show/hide toggles,
  Add, Clear All Markers, Remove Marker and the map click that adds a marker.
  So level 2's `handleSolve` (frontend/src/pages/level2.jsx:26-28) never runs,
  and the markers cannot affect level 2 at all. `MapComponent.MapView.CheckSolution`
  and `Level2.Page.CheckMap` model what those functions would do if called.
- **Solved levels call `onSolve` twice.** On levels 3, 4, 5, 7 and 8 the
  handler that solves the level calls `onSolve` (level 5 directly, the others
  from a timer), and the success panel's button calls it again
  (`HandleProceed` in each of those `Page` classes).
- **The board's per-cell colour test.** `isCorrectPosition` would accept a tile
  numbered 9 at index 8. On a board made of the real pieces it agrees with the
  solution check (`PuzzleBoard.CorrectPositionsIsGoal`).

## Model

| member | source | states |
|---|---|---|
| Text.DecimalString | frontend/src/pages/level3.jsx:63 | the printed form of a natural number is a non-empty run of decimal digits whose value is that number |
| Text.IntStringRoundTrip | frontend/src/pages/level3.jsx:63 | `parseInt` reads an integer's printed form (with a minus sign when negative) back as the same integer |
| Text.TrimLowerCommute | frontend/src/pages/level2.jsx:34 | lower-casing then trimming gives the same text as trimming then lower-casing |
| Text.StripLowerCommute | backend/services/word_game_services.py:250 | lower-casing then stripping gives the same text as stripping then lower-casing |
| Text.StripOfTrim | backend/services/word_game_services.py:250 | Python's `strip` of a JavaScript-trimmed string is the `strip` of the original, since every character `trim` drops is one `strip` drops |
| Text.SeparatorsOnlyStripped | backend/services/word_game_services.py:250 | a separator 0x1C–0x1F survives `trim` but not `strip` |
| Text.NormalisationStable | frontend/src/pages/level3.jsx:44 | the backend's `lower().strip()` of the guess the page sends (trimmed, then lower-cased) equals its `lower().strip()` of the raw input |
| Text.TrimStartPadded | frontend/src/pages/level7.jsx:40 | `trim` drops any leading white space, whatever text follows it |
| Text.TrimEndPadded | frontend/src/pages/level7.jsx:40 | `trim` drops any trailing white space, whatever text precedes it |
| Text.TrimPadded | frontend/src/pages/level7.jsx:40 | `trim` of a phrase padded with white space on both sides gives the phrase back |
| App.InsertSorted | frontend/src/App.jsx:102-107 | inserting into an ascending list of distinct levels keeps it ascending and adds exactly the new level |
| App.StatusLevelsStep | frontend/src/App.jsx:54-57 | each completed level adds itself and, below level 8, its successor to the available set |
| App.BuildStatusLevels | frontend/src/App.jsx:50-57 | the loop yields level 1, the backend's available levels, every completed level and every successor below 8 |
| App.SortAscending | frontend/src/App.jsx:59 | the level set comes out as an ascending list with no repeats and exactly the same elements |
| App.AppState.constructor | frontend/src/App.jsx:18-23 | the game starts at level 1, with nothing completed, only level 1 available, logged out and not over |
| App.AppState.FetchLevelStatus | frontend/src/App.jsx:41-65 | a reply adopts the backend's completed list and makes the available list the sorted status set; a failure resets availability to `[1]` and keeps the rest |
| App.AppState.HandleLevelComplete | frontend/src/App.jsx:67-126 | the level is recorded once; level 8 ends the game; any other level moves to the next one and makes it available, whatever the backend replied; a non-zero `next_level` triggers a refetch |
| App.AppState.HandleLogin | frontend/src/App.jsx:128-144 | the user is stored and logged in, whether or not the login post succeeded; progress is untouched |
| App.AppState.HandleLogout | frontend/src/App.jsx:146-154 | every field returns to its initial value |
| App.AppState.ResetGame | frontend/src/App.jsx:156-159 | back to level 1 with the game no longer over; completed and available levels are kept |
| LevelServices.AvailableFrom | backend/services/level_services.py:36-37 | the comprehension from a given level on is ascending and holds exactly the levels from there up to 5 that `is_level_available` accepts |
| LevelServices.AvailableLevels | backend/services/level_services.py:34-37 | an ascending list of exactly the levels 1..5 that are level 1 or follow a completed level; it starts with level 1 |
| LevelServices.AvailableLevelsMonotone | backend/services/level_services.py:25-37 | completing more levels never makes a level unavailable |
| LevelServices.LevelService.constructor | backend/services/level_services.py:5-23 | nothing completed, neither circuit solved, a fresh word-game service with no session and the reference table |
| LevelServices.LevelService.CircuitsSolved | backend/services/level_services.py:106 | the list holds exactly the circuits whose flag is set |
| LevelServices.LevelService.CheckSolution | backend/services/level_services.py:43-76 | dev mode, or level 1, 2, 6, 7 or 8, records the level and passes; levels 3–5 pass only if already completed and change nothing; other ids fail and change nothing |
| LevelServices.LevelService.CompleteLevel3 | backend/services/level_services.py:78-80 | level 3 is added to the completed set; the circuit flags stay |
| LevelServices.LevelService.CompleteLevel4 | backend/services/level_services.py:82-84 | level 4 is added to the completed set; the circuit flags stay |
| LevelServices.LevelService.CheckLogicGates | backend/services/level_services.py:86-107 | correct exactly when the submission is a known circuit's stored solution; a correct answer sets that circuit's flag, and level 4 is recorded once both flags are set; the report mirrors the new state |
| LevelServices.LevelService.ResetLogicCircuits | backend/services/level_services.py:109-113 | both flags are cleared and level 4 is removed from the completed set |
| LevelServices.LevelService.CheckAccessPatterns | backend/services/level_services.py:115-125 | correct exactly on the reference classification, which records level 5; the report says whether level 5 is completed |
| LevelRoutes.NextLevel | backend/routers/level_routes.py:45 | the next level is the following one below level 5 and nothing from level 5 on |
| LevelRoutes.ServiceProvider.constructor | backend/routers/level_routes.py:8-9 | the provider starts without a service |
| LevelRoutes.ServiceProvider.Call | backend/routers/level_routes.py:11-15 | the first call creates a fresh service, and every later call returns that same object |
| LevelRoutes.CheckSolution | backend/routers/level_routes.py:38-48 | an unavailable level without dev mode gets 403 and changes nothing; otherwise the service check decides; a correct answer carries `NextLevel`, and that next level is then available |
| LevelRoutes.GetLevels | backend/routers/level_routes.py:50-59 | the reply is the completed set and the available list, which is ascending, within 1..5 and contains level 1 |
| LevelRoutes.GuessWord | backend/routers/level_routes.py:67-80 | an unknown session is an error and leaves the sessions alone; for a known session the reply is the scored, normalised guess with its similarity and success flag, and the guess is appended to that session's log; a successful guess records level 3; for a session playing "espionage", level 3 is recorded exactly when the guess normalises to that word |
| LevelRoutes.ResetLogicGates | backend/routers/level_routes.py:100-104 | the circuit flags are cleared, level 4 is removed and the reply reports success |
| WordGameServices.ReverseMapped | backend/services/word_game_services.py:68-78 | the table has a row for the target and for every word of the target's row, and no other |
| WordGameServices.CreateSimilarityMatrix | backend/services/word_game_services.py:33-80 | the loop builds the reverse-mapped table, in whatever order the words are visited |
| WordGameServices.ReverseMappedSymmetric | backend/services/word_game_services.py:68-75 | every entry of the table has its mirror entry with the same similarity |
| WordGameServices.ReverseMappedDiagonal | backend/services/word_game_services.py:76-78 | every word of the table rates itself 100 |
| WordGameServices.BaseRowBelowThreshold | backend/services/word_game_services.py:35-66 | no word but the target is rated above 90 against it |
| WordGameServices.FirstSpyTerm | backend/services/word_game_services.py:191-200 | the result is the score of the first term contained in the word, and it is missing exactly when no term is contained |
| WordGameServices.SpyTermsAtMost90 | backend/services/word_game_services.py:191-196 | no spy term scores above 90 |
| WordGameServices.CommonPrefixLength | backend/services/word_game_services.py:207-213 | both words agree up to the length, and differ just after it unless one of them ends there |
| WordGameServices.PrefixLengthIsMaximal | backend/services/word_game_services.py:208-213 | the count where the loop stops is the common prefix length |
| WordGameServices.NormaliseIsLower | backend/services/word_game_services.py:250 | a normalised guess has no upper-case letter |
| WordGameServices.SeparatorBeforeTargetSucceeds | backend/services/word_game_services.py:250 | "espionage" typed after a separator 0x1C–0x1F is sent with the separator (the page's `trim` keeps it), normalises to "espionage" in the backend and scores 100 |
| WordGameServices.OnlyTheTargetSucceeds | backend/services/word_game_services.py:244-277 | with the service's table, a guess reaches the 95 threshold exactly when it normalises to "espionage" |
| WordGameServices.RowAtMost90 | backend/services/word_game_services.py:172-219 | in any table whose row for the target rates no other word above 90, the rule chain rates no other lower-case word above 90 against the target |
| WordGameServices.TargetRowAtMost90 | backend/services/word_game_services.py:172-219 | with the service's table, any lower-case word other than "espionage" scores at most 90 against it |
| WordGameServices.Service.constructor | backend/services/word_game_services.py:14-31 | no session, and the table is the reverse-mapped reference table |
| WordGameServices.Service.CalculateSimilarity | backend/services/word_game_services.py:172-219 | the loops compute the rule chain: table entry, identity, first spy term, containment, common prefix, else 20 |
| WordGameServices.ScanSpyTerms | backend/services/word_game_services.py:198-200 | the loop returns the score of the first spy term contained in the word, and nothing when none is |
| WordGameServices.CountCommonPrefix | backend/services/word_game_services.py:207-212 | the counting loop yields the common prefix length of the two words |
| WordGameServices.Service.StartGame | backend/services/word_game_services.py:221-242 | the session plays for "espionage" with no guesses, and revealing it gives that word |
| WordGameServices.Service.CheckGuess | backend/services/word_game_services.py:244-277 | an unknown session is an error that changes nothing; otherwise the guess, lower-cased and stripped of Python white space (0x1C–0x1F included), is scored, appended once to that session's log, and succeeds at 95 or more |
| WordGameServices.Service.RevealWord | backend/services/word_game_services.py:279-284 | a word is revealed exactly for a known session |
| PuzzleBoard.IndexOfEmpty | frontend/src/components/PuzzleBoard.jsx:30 | the result is the first empty cell, or -1 exactly when there is none |
| PuzzleBoard.IsAdjacentIsGridNeighbour | frontend/src/components/PuzzleBoard.jsx:31-36 | on the 3×3 board, the adjacency test holds exactly for cells at grid distance one |
| PuzzleBoard.CentreNeighbours | frontend/src/components/PuzzleBoard.jsx:31-36 | the cells next to the centre are exactly 1, 3, 5 and 7 |
| PuzzleBoard.CheckSolutionIsGoal | frontend/src/components/PuzzleBoard.jsx:51-54 | on nine cells, the solution check holds exactly at 1..8 followed by the gap |
| PuzzleBoard.CorrectPositionsIsGoal | frontend/src/components/PuzzleBoard.jsx:57-60 | on a board of the real pieces, every cell passes `isCorrectPosition` exactly at the goal |
| PuzzleBoard.ArrangementHasOneGap | frontend/src/components/PuzzleBoard.jsx:30 | a board of the real pieces has exactly one gap, which `indexOf` finds |
| PuzzleBoard.SwapKeepsArrangement | frontend/src/components/PuzzleBoard.jsx:39-40 | swapping two cells keeps the same nine pieces |
| PuzzleBoard.StartIsArrangement | frontend/src/components/PuzzleBoard.jsx:19 | the start position is made of the nine pieces |
| PuzzleBoard.GoalIsArrangement | frontend/src/components/PuzzleBoard.jsx:52 | the solution is made of the nine pieces |
| PuzzleBoard.StartIsNotGoal | frontend/src/components/PuzzleBoard.jsx:19 | the start position is not already solved |
| PuzzleBoard.StartGapAtCentre | frontend/src/components/PuzzleBoard.jsx:19 | the start position's gap is in the centre |
| PuzzleBoard.Board.constructor | frontend/src/components/PuzzleBoard.jsx:8-22 | mounting sets the start position and leaves the board unsolved |
| PuzzleBoard.Board.ResetGame | frontend/src/components/PuzzleBoard.jsx:24-27 | back to the start position, unsolved |
| PuzzleBoard.Board.MoveTile | frontend/src/components/PuzzleBoard.jsx:29-49 | the new cells are `Moved(old cells, index)`: a cell next to the gap swaps with it and nothing else moves, any other click changes nothing; the result is true exactly when that move reaches the goal; the pieces are preserved |
| PuzzleBoard.Board.Click | frontend/src/components/PuzzleBoard.jsx:70 | a solved board ignores clicks; on an unsolved board the cells become `Moved(old cells, index)`; a click reports a solve exactly when the cell was next to the gap and the move reaches the goal |
| Level1.SecretIs181 | frontend/src/pages/level1.jsx:14-15 | the binary code "10110101" read in base 2 is 181 |
| Level1.DecimalExamples | frontend/src/pages/level1.jsx:26 | "181" is accepted and "180" is not |
| Level1.Page.constructor | frontend/src/pages/level1.jsx:5-11 | every flag is off, both messages are empty, and the board is at its start position |
| Level1.Page.ClickTile | frontend/src/pages/level1.jsx:17-20 | the board's cells stay put once solved and otherwise become `Moved(old cells, index)`; a click that solves the board reveals the binary code and sets the message; any other click leaves the page's fields alone |
| Level1.Page.ResetBoard | frontend/src/components/PuzzleBoard.jsx:24-27 | the board returns to its start position, unsolved |
| Level1.Page.HandleSolve | frontend/src/pages/level1.jsx:17-20 | the message is set and the binary code is shown |
| Level1.Page.HandleDecimalSubmit | frontend/src/pages/level1.jsx:22-34 | accepted exactly when `parseInt` reads 181, which clears the error and opens the modal; otherwise only the error is set |
| Level1.Page.HandleVideoEnded | frontend/src/pages/level1.jsx:36-38 | the video is marked ended and nothing else changes |
| Level1.Page.CloseModal | frontend/src/pages/level1.jsx:40-48 | the modal closes and the level's `onSolve` is called |
| MapComponent.FilterOutIndexSpec | frontend/src/components/MapComponent.jsx:64-66 | the filter drops exactly the marker at the index and keeps the others in order; an index off the list drops nothing |
| MapComponent.MapView.constructor | frontend/src/components/MapComponent.jsx:25-27 | no markers and empty search fields |
| MapComponent.MapView.AddMarker | frontend/src/components/MapComponent.jsx:37-39 | the position is appended and the fields stay |
| MapComponent.MapView.SetSearchLat | frontend/src/components/MapComponent.jsx:120 | only the latitude field changes |
| MapComponent.MapView.SetSearchLng | frontend/src/components/MapComponent.jsx:129 | only the longitude field changes |
| MapComponent.MapView.AddSearchMarker | frontend/src/components/MapComponent.jsx:42-61 | a marker is added exactly when both fields parse as numbers within range; then it is appended and the fields are cleared, otherwise nothing changes |
| MapComponent.MapView.RemoveMarker | frontend/src/components/MapComponent.jsx:64-66 | the marker at the index is removed and the others keep their order; another index changes nothing |
| MapComponent.MapView.ClearMarkers | frontend/src/components/MapComponent.jsx:69-71 | the marker list is emptied |
| MapComponent.MapView.CheckSolution | frontend/src/components/MapComponent.jsx:74-80 | `onSolve` is called exactly when there are at least five markers (nothing in the component calls this function) |
| Level2.AnswerIsTrimmedLowerCase | frontend/src/pages/level2.jsx:34-37 | the answer test is the same whether the answer is trimmed or lower-cased first |
| Level2.AnswerIgnoresCase | frontend/src/pages/level2.jsx:34-37 | an answer typed in upper or lower case is judged like the original |
| Level2.Toggle | frontend/src/pages/level2.jsx:52-57 | the chosen box flips (a box never ticked counts as unticked) and every other box stays |
| Level2.ToggleTwice | frontend/src/pages/level2.jsx:52-57 | ticking a box twice leaves every box as it was |
| Level2.Page.constructor | frontend/src/pages/level2.jsx:5-9 | empty messages, riddle hidden, no box ticked, and a map without markers |
| Level2.Page.HandleSolve | frontend/src/pages/level2.jsx:26-28 | the map's `onSolve` only sets the message |
| Level2.Page.CheckMap | frontend/src/pages/level2.jsx:114 | what the `onSolve` prop wired here would do if the map's `checkSolution` were ever called: with five or more markers the message is set; otherwise nothing changes |
| Level2.Page.HandleAnswerSubmit | frontend/src/pages/level2.jsx:30-46 | solved exactly when the lower-cased, trimmed answer is either spelling of Visakhapatnam; otherwise only the error is set |
| Level2.Page.ToggleRiddle | frontend/src/pages/level2.jsx:48-50 | the riddle's visibility flips |
| Level2.Page.HandleCheckboxChange | frontend/src/pages/level2.jsx:52-57 | the ticks become `Toggle` of the old ticks |
| Level3.InsertDescShape | frontend/src/pages/level3.jsx:56-57 | the entry is spliced in after the leading entries scoring at least as much, and the entry just after it scores less |
| Level3.InsertDescPermutes | frontend/src/pages/level3.jsx:56-57 | inserting adds the new entry and loses nothing |
| Level3.InsertDescPlacesEntry | frontend/src/pages/level3.jsx:56-57 | in a descending history the entry goes after every entry scoring at least as much and before every entry scoring less; the result is descending |
| Level3.SortDescPermutes | frontend/src/pages/level3.jsx:57 | the sort is a permutation |
| Level3.SortDescIsSorted | frontend/src/pages/level3.jsx:57 | the sort's result is in descending order of score |
| Level3.SortDescOfSorted | frontend/src/pages/level3.jsx:57 | sorting a descending history changes nothing |
| Level3.AppendThenSort | frontend/src/pages/level3.jsx:56-58 | appending to a descending history and sorting is inserting the entry in its place |
| Level3.ColorFollowsHeat | frontend/src/pages/level3.jsx:85-92 | the colour depends only on how many thresholds the score reaches, and each count has its own colour |
| Level3.BandsMonotone | frontend/src/pages/level3.jsx:85-102 | a higher score never shows a colder colour or icon |
| Level3.ThresholdIsVeryHot | frontend/src/pages/level3.jsx:86 | the very-hot colour shows exactly from 95 up |
| Level3.Page.constructor | frontend/src/pages/level3.jsx:6-12 | no session, guess, score, history or target word; the game is not over |
| Level3.Page.SetGuess | frontend/src/pages/level3.jsx:156 | only the guess field changes |
| Level3.Page.StartNewGame | frontend/src/pages/level3.jsx:19-35 | a started session clears the history, score, game-over flag, word and message; a failure only sets the message |
| Level3.Page.HandleGuess | frontend/src/pages/level3.jsx:37-82 | a blank guess sends nothing and changes nothing; otherwise the trimmed, lower-cased guess is sent, the field is cleared whatever happens, the display becomes `Answered` of the old display, the typed guess and the reply, and `onSolve` is scheduled exactly on a successful score |
| Level3.Page.ApplyReply | frontend/src/pages/level3.jsx:47-78 | whatever the reply, the display becomes `Answered` of the old display; the guess field and the session are left alone |
| Level3.Page.ApplyScore | frontend/src/pages/level3.jsx:52-74 | appending the entry and sorting the whole history, as the page does, yields the reference display `Answered`, in which the entry is inserted in place |
| Level3.Page.HandleProceed | frontend/src/pages/level3.jsx:136-141 | once the game is over, the panel's button calls `onSolve` again and changes nothing |
| Level3.AnsweredKeepsOrder | frontend/src/pages/level3.jsx:56-58 | whatever the reply, the history stays in descending order of score |
| Level3.AnsweredHistory | frontend/src/pages/level3.jsx:52-58 | a score adds exactly the typed word with its score, after every entry scoring at least as much and before every entry scoring less, the old entries in their order; any other reply leaves the history alone |
| Level3.AnsweredEndsGame | frontend/src/pages/level3.jsx:61-71 | the game is over afterwards exactly when it was before or the reply is a successful score; success reveals the typed word with the found message, and nothing else changes the word |
| Level3.AnsweredMessage | frontend/src/pages/level3.jsx:47-78 | a failed request or an error reply changes only the message; a score is shown, and when it does not win the message changes only inside 85..94 |
| Level4.LaterGatesIgnoreInputB | frontend/src/pages/level4.jsx:98-120 | after the first gate, AND clears the value, NAND sets it, OR and XOR keep it, and NOT and NOR invert it |
| Level4.ChainOfThree | frontend/src/pages/level4.jsx:92-121 | a full circuit's output is its three gates applied in order, the first to input B |
| Level4.ListedSequencesFail | frontend/src/pages/level4.jsx:19-32 | the sequences listed in the specs do not fix their circuits |
| Level4.CircuitsAreSolvable | frontend/src/pages/level4.jsx:19-32 | each circuit can be fixed with three distinct gates |
| Level4.BackendSequencesFailOnThePage | frontend/src/pages/level4.jsx:19-32 | the backend's stored solutions do not fix the page's circuits |
| Level4.SelectionKeepsDistinct | frontend/src/pages/level4.jsx:35-51 | a selection the handler lets through keeps the gates in a circuit distinct |
| Level4.Page.constructor | frontend/src/pages/level4.jsx:5-13 | all six slots unselected, nothing solved, no message |
| Level4.Page.HandleGateSelection | frontend/src/pages/level4.jsx:35-70 | choosing the current gate does nothing; a gate used in another slot only sets the warning; otherwise just that slot changes and the message clears; the other circuit is untouched |
| Level4.Page.CalculateCircuitOutput | frontend/src/pages/level4.jsx:84-124 | the loop returns null while a slot is empty, and otherwise the chain's value |
| Level4.Page.IsCircuitCorrect | frontend/src/pages/level4.jsx:127-131 | true exactly when the circuit is complete and gives its expected output |
| Level4.Page.CheckSolution | frontend/src/pages/level4.jsx:134-166 | a fixed circuit sets its own flag; with both flags set the level succeeds and `onSolve` is scheduled; a circuit that is not fixed only gets the failure message |
| Level4.Page.HandleProceed | frontend/src/pages/level4.jsx:219-224 | once the level succeeded, the panel's button calls `onSolve` again and changes nothing |
| Level4.Page.ResetCircuit | frontend/src/pages/level4.jsx:169-176 | that circuit's slots are emptied and the message cleared; nothing else changes |
| Level5.AllAuthorized | frontend/src/pages/level5.jsx:22 | ten answers, all "Authorized" |
| Level5.UnauthorizedFrom | frontend/src/pages/level5.jsx:35-36 | an ascending list of exactly the indices answered "Unauthorized" |
| Level5.CheckIsExactSet | frontend/src/pages/level5.jsx:30-42 | the check passes exactly when the records marked "Unauthorized" are those at 3, 5 and 7 |
| Level5.InitialAnswersFail | frontend/src/pages/level5.jsx:22 | the untouched answers fail the check |
| Level5.Page.constructor | frontend/src/pages/level5.jsx:22 | all ten answers "Authorized", no message, no success |
| Level5.Page.HandleAnswerChange | frontend/src/pages/level5.jsx:24-28 | only the answer at that index changes |
| Level5.Page.CheckAnswers | frontend/src/pages/level5.jsx:30-49 | solved exactly when the marked set is {3, 5, 7}, which sets success; otherwise only the failure message |
| Level5.Page.HandleProceed | frontend/src/pages/level5.jsx:51-58 | the success panel's button calls `onSolve` again |
| Level5.Page.ResetAnswers | frontend/src/pages/level5.jsx:60-64 | all answers back to "Authorized", message and success cleared |
| Level6.IsCorrectIsEquality | frontend/src/pages/level6.jsx:44 | on three commands, the check is equality with REBOOT, ISOLATE, EXECUTE |
| Level6.OrderMatters | frontend/src/pages/level6.jsx:44 | the right commands in another order are refused |
| Level6.Page.constructor | frontend/src/pages/level6.jsx:7-9 | empty sequence, no message, no success |
| Level6.Page.HandleClick | frontend/src/pages/level6.jsx:21-38 | a click after success or on a command already entered is ignored; otherwise the command is appended, and the third one triggers the check, which schedules `onSolve` or the reset; no command appears twice |
| Level6.Page.CheckSequence | frontend/src/pages/level6.jsx:40-80 | a correct sequence sets success and the granted message; a wrong one sets the denied message |
| Level6.Page.ResetSequence | frontend/src/pages/level6.jsx:82-85 | the sequence and the message are cleared |
| Level7.PhraseIgnoresCase | frontend/src/pages/level7.jsx:40 | the phrase typed in lower case is judged like the original |
| Level7.PhraseIgnoresLeadingSpace | frontend/src/pages/level7.jsx:40 | a leading space does not matter |
| Level7.PhraseIgnoresPadding | frontend/src/pages/level7.jsx:40 | white space around the phrase is trimmed away, so only the phrase itself is compared |
| Level7.LowerCasePhrase | frontend/src/pages/level7.jsx:40 | "fortress unlocked", the phrase in lower case, is accepted |
| Level7.DoubleSpacedPhrase | frontend/src/pages/level7.jsx:40 | "FORTRESS  UNLOCKED", with two spaces between the words, is refused |
| Level7.Page.constructor | frontend/src/pages/level7.jsx:4-6 | empty input and message, no success |
| Level7.Page.SetUserInput | frontend/src/pages/level7.jsx:161 | only the input changes |
| Level7.Page.HandleProceed | frontend/src/pages/level7.jsx:74-79 | once the phrase was accepted, the panel's button calls `onSolve` again and changes nothing |
| Level7.Page.CheckAnswer | frontend/src/pages/level7.jsx:39-47 | the trimmed, upper-cased input equal to the phrase sets success and schedules `onSolve`; otherwise only the denial is set |
| Level8.TimestampThirdAlternativeSubsumed | frontend/src/pages/level8.jsx:79-81 | the full-date alternative adds nothing to the "21:40" test |
| Level8.DescriptionIgnored | frontend/src/pages/level8.jsx:86-89 | the description never affects the verdict |
| Level8.BypassIgnoresCase | frontend/src/pages/level8.jsx:83-84 | a bypass typed in lower case is judged like the original |
| Level8.FourthLogPasses | frontend/src/pages/level8.jsx:74-89 | the log to be predicted passes the check |
| Level8.EarlierBypassFails | frontend/src/pages/level8.jsx:83-84 | the second log's bypass "PHANTOM-3" fails because it has no "5" |
| Level8.Page.constructor | frontend/src/pages/level8.jsx:4-12 | no logs, empty fields and message, form hidden, no success |
| Level8.Page.RevealNextLog | frontend/src/pages/level8.jsx:42-57 | the next of the first three logs is appended, and showing the form is scheduled after the third |
| Level8.Page.ShowForm | frontend/src/pages/level8.jsx:51 | the form appears once three logs are shown |
| Level8.Page.HandleInputChange | frontend/src/pages/level8.jsx:66-72 | only the named field takes the value |
| Level8.Page.CheckAnswer | frontend/src/pages/level8.jsx:74-98 | a prediction with the right time and bypass sets success, appends the fourth log and schedules `onSolve`; otherwise only the failure message is set |
| Level8.Page.HandleProceed | frontend/src/pages/level8.jsx:227-232 | once the prediction passed, the "Complete Mission" button calls `onSolve` again and changes nothing |
| Level8.Page.ClearMessage | frontend/src/pages/level8.jsx:97 | the timer clears the message |

## Definitions

The rules the source computes without changing state are functions and
predicates. Each is the reference that the contracts and lemmas above are
stated against, so the properties proved about it sit in those rows:

| definition | source | its properties are stated by |
|---|---|---|
| Text.Lower, Text.Upper | frontend/src/pages/level7.jsx:40 | `Text.TrimLowerCommute`, `Text.StripLowerCommute`, `Level2.AnswerIgnoresCase`, `Level7.PhraseIgnoresCase`, `Level8.BypassIgnoresCase` |
| Text.Trim, Text.TrimStart, Text.TrimEnd | frontend/src/pages/level7.jsx:40 | `Text.TrimStartPadded`, `Text.TrimEndPadded`, `Text.TrimPadded`, `Text.TrimLowerCommute`, `Text.SeparatorsOnlyStripped` |
| Text.Strip, Text.StripStart, Text.StripEnd | backend/services/word_game_services.py:250 | `Text.StripLowerCommute`, `Text.StripOfTrim`, `Text.SeparatorsOnlyStripped`, `Text.NormalisationStable` |
| Text.Contains | backend/services/word_game_services.py:198-205 | `WordGameServices.FirstSpyTerm`, `WordGameServices.Service.CalculateSimilarity`, `Level8.EarlierBypassFails` |
| Text.ParseInt, Text.IntString | frontend/src/pages/level1.jsx:26 | `Text.IntStringRoundTrip`, `Level1.SecretIs181`, `Level1.DecimalExamples` |
| Text.ParseFloat | frontend/src/components/MapComponent.jsx:43-44 | `MapComponent.MapView.AddSearchMarker` |
| LevelServices.IsLevelAvailable | backend/services/level_services.py:25-32 | `LevelServices.AvailableFrom`, `LevelServices.AvailableLevels`, `LevelServices.AvailableLevelsMonotone`, `LevelRoutes.CheckSolution` |
| WordGameServices.Similarity | backend/services/word_game_services.py:172-219 | `WordGameServices.Service.CalculateSimilarity`, `WordGameServices.RowAtMost90`, `WordGameServices.TargetRowAtMost90` |
| WordGameServices.Normalise, WordGameServices.Score | backend/services/word_game_services.py:250-271 | `WordGameServices.NormaliseIsLower`, `WordGameServices.OnlyTheTargetSucceeds`, `WordGameServices.SeparatorBeforeTargetSucceeds`, `WordGameServices.Service.CheckGuess` |
| PuzzleBoard.IsAdjacent | frontend/src/components/PuzzleBoard.jsx:31-36 | `PuzzleBoard.IsAdjacentIsGridNeighbour`, `PuzzleBoard.CentreNeighbours` |
| PuzzleBoard.Moved | frontend/src/components/PuzzleBoard.jsx:29-49 | `PuzzleBoard.Board.MoveTile`, `PuzzleBoard.Board.Click`, `Level1.Page.ClickTile` |
| PuzzleBoard.CheckSolution | frontend/src/components/PuzzleBoard.jsx:51-54 | `PuzzleBoard.CheckSolutionIsGoal`, `PuzzleBoard.StartIsNotGoal` |
| PuzzleBoard.IsCorrectPosition | frontend/src/components/PuzzleBoard.jsx:57-60 | `PuzzleBoard.CorrectPositionsIsGoal` |
| Level1.DecimalAccepted | frontend/src/pages/level1.jsx:26 | `Level1.DecimalExamples`, `Level1.Page.HandleDecimalSubmit` |
| Level2.AnswerAccepted | frontend/src/pages/level2.jsx:34-37 | `Level2.AnswerIsTrimmedLowerCase`, `Level2.AnswerIgnoresCase`, `Level2.Page.HandleAnswerSubmit` |
| Level3.GuessRequest | frontend/src/pages/level3.jsx:38-44 | `Level3.Page.HandleGuess` |
| Level3.InsertDesc, Level3.SortDesc | frontend/src/pages/level3.jsx:56-57 | `Level3.InsertDescShape`, `Level3.InsertDescPermutes`, `Level3.InsertDescPlacesEntry`, `Level3.SortDescPermutes`, `Level3.SortDescIsSorted`, `Level3.SortDescOfSorted`, `Level3.AppendThenSort` |
| Level3.ColorClass, Level3.TemperatureIcon | frontend/src/pages/level3.jsx:85-102 | `Level3.ColorFollowsHeat`, `Level3.BandsMonotone`, `Level3.ThresholdIsVeryHot` |
| Level3.Answered | frontend/src/pages/level3.jsx:47-78 | `Level3.AnsweredKeepsOrder`, `Level3.AnsweredHistory`, `Level3.AnsweredEndsGame`, `Level3.AnsweredMessage`, `Level3.Page.ApplyReply`, `Level3.Page.ApplyScore` |
| Level4.ApplyGate, Level4.Chain, Level4.Output, Level4.Correct | frontend/src/pages/level4.jsx:84-131 | `Level4.LaterGatesIgnoreInputB`, `Level4.ChainOfThree`, `Level4.ListedSequencesFail`, `Level4.CircuitsAreSolvable`, `Level4.BackendSequencesFailOnThePage`, `Level4.Page.CalculateCircuitOutput` |
| Level5.UserUnauthorizedIndices, Level5.CheckPasses | frontend/src/pages/level5.jsx:30-42 | `Level5.UnauthorizedFrom`, `Level5.CheckIsExactSet`, `Level5.InitialAnswersFail`, `Level5.Page.CheckAnswers` |
| Level6.IsCorrect | frontend/src/pages/level6.jsx:44 | `Level6.IsCorrectIsEquality`, `Level6.OrderMatters`, `Level6.Page.CheckSequence` |
| Level7.PhraseAccepted | frontend/src/pages/level7.jsx:40 | `Level7.PhraseIgnoresCase`, `Level7.PhraseIgnoresLeadingSpace`, `Level7.PhraseIgnoresPadding`, `Level7.LowerCasePhrase`, `Level7.DoubleSpacedPhrase` |
| Level8.TimestampCorrect, Level8.BypassCorrect, Level8.PredictionCorrect | frontend/src/pages/level8.jsx:79-89 | `Level8.TimestampThirdAlternativeSubsumed`, `Level8.BypassIgnoresCase`, `Level8.FourthLogPasses`, `Level8.EarlierBypassFails` |
| MapComponent.FilterOutIndex | frontend/src/components/MapComponent.jsx:64-66 | `MapComponent.FilterOutIndexSpec`, `MapComponent.MapView.RemoveMarker` |

## Left out

- **The network.** HTTP requests, responses and the `API_BASE_URL` are not
  modelled. Each reply a handler depends on is a parameter (`App.LevelsReply`,
  `App.SolutionReply`, `Level3.GuessReply`, `Level3.Page.StartNewGame`'s
  argument). Calls whose outcome is ignored are left out: the login post,
  level 6's report of its solution, and the level-2 map's `setView`.
- **Timers.** `setTimeout` delays, and the clean-up of level 8's effect, are not
  modelled. A delayed callback is either its own method
  (`Level8.Page.ShowForm`, `Level8.Page.ClearMessage`,
  `Level6.Page.ResetSequence`) or a "scheduled" result flag. A callback is
  assumed to run after the handler that scheduled it.
- **Loading and other display-only state.** The `loading` flags of levels 3,
  4 and 6 are left out. Levels 3 and 4 only use theirs to disable buttons.
  Level 6's is still true after a render only while `success` is already
  set: on a wrong sequence it is switched on and off in the same synchronous
  run. So its guard adds nothing. Also left out: level 8's `typing`, level 6's button highlight and
  shuffled order, level 7's audio state, the map component's `showMap` and `mapRef`,
  and the auto-scrolling terminal.
- **Audio, video, rendering, alerts, CSS and the login page.** These are
  presentation only.
- **Reading the stored login on mount** (`App.jsx:25-39`). This is browser
  storage, and it is not modelled.
- **Randomness and embeddings.** The word-game service's embeddings (Gemini
  or mock vectors from a seeded random generator) are never read when a guess
  is scored, so they are left out. `uuid4` session ids are parameters.
- **Trivial backend getters.** `get_completed_levels` and `get_valid_words`
  return a field or a constant list.
- **Pass-through routes.** `/word-game/start`, `/word-game/reveal`,
  `/word-game/words`, `/logic-gates/check` and `/access-patterns/check` only
  forward to the service methods modelled above.
- **Process-global services.** `LevelRoutes` handlers receive the service
  object from the provider as a parameter, instead of through FastAPI's
  dependency injection.
- **Text handling.** It covers ASCII only: no Unicode case mapping, and no
  white space beyond ASCII. Above ASCII the two languages' sets differ again
  (U+0085 is white space to Python's `strip` only, U+FEFF to JavaScript's
  `trim` only), and neither difference is modelled.
- **Number parsing.** `Text.ParseFloat` reads plain decimal notation only: no
  exponents and no `Infinity`. `Text.ParseInt` covers radixes 2 to 10 and no
  `0x` prefix. Level 1's decimal field is `type="number"`, so it only ever
  holds numeric text.
- **Numbers.** Word-game similarities are integers, because every value in
  the table and rule chain is integral. Python's `round(x, 2)` is therefore
  the identity and is left out. Marker coordinates are exact reals.
- **Concurrency.** React batches state updates asynchronously and reads state
  through stale closures; each handler is modelled as running to completion
  on the current state.
- Level4.Page.CheckSolution: the page's `solvedCircuits` state is two fields,
  `solved1` and `solved2`, and the level-wide `success` is proved equal to
  both flags set. The 500 ms delay before the check and the stale-closure
  read of `solvedCircuits` are not modelled.
- Level3.Page.HandleGuess: the history order uses a stable sort. JavaScript's
  `Array.prototype.sort` is stable from ES2019 on; an older engine could order
  tied scores differently.
