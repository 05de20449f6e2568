# Sudoku service core, modelled in Dafny

This project models the core of a Sudoku web service. The service keeps
puzzle templates (givens, solution, geometry, difficulty metric and label),
game sessions that players fill in move by move, and one daily challenge per
calendar date. Its services are:

- the engine interface and the placeholder "Dokusan" engine, which makes a
  cyclic pseudo-solution, zeroes random cells and rates a grid by its share
  of empty cells;
- engine selection from an explicit source, a configured default and the
  grid size;
- the generation pipeline, with its uniqueness gate and its metric-to-label
  thresholds;
- move application (number and pencil modes, given-cell protection, board
  normalisation), board validation, session start and completion;
- the first-empty-cell hint;
- the request serializers' checks;
- the idempotent daily-challenge insert;
- the two maintenance jobs (template refill and daily pre-creation).

One module per modelled source file, except that `Engines` covers both engine files, plus two helper modules:

| module | file | models |
|---|---|---|
| `Wrappers` | wrappers.dfy | Option / Result / Outcome |
| `PyText` | pytext.dfy | Python's `str(int)`, `int(str)`, `str.strip()`, `list(s)` and `"".join` on strings |
| `Models` | models.dfy | templates, labels, statuses, JSON payloads, the template and daily tables |
| `Engines` | engines.dfy | `puzzle/services/engines/base.py`, `dokusan_engine.py` |
| `Factory` | factory.dfy | `puzzle/services/factory.py` |
| `Generation` | generation.dfy | `puzzle/services/generation.py` |
| `Gameplay` | gameplay.dfy | `puzzle/services/gameplay.py` |
| `Hints` | hints.dfy | `puzzle/services/hints.py` |
| `Serializers` | serializers.dfy | `puzzle/serializers.py` |
| `Daily` | daily.dfy | `puzzle/services/daily.py` |
| `Tasks` | tasks.dfy | `puzzle/tasks.py` |

How the model is built:

- **Engine interface.** The abstract engine class becomes a closed datatype
  `Engine` with one variant per engine (only `Dokusan` exists). Each interface
  operation is a function or method that dispatches on it.
- **Tables.** The template table is a class holding a sequence of rows; a
  template's id is its position plus one. The daily table is a class holding
  a map from date (a day number) to template id. The unique date column is
  the map's one entry per key.
- **Sessions.** A game session is a class whose fields `apply_move` and
  `complete_game` update in place.
- **board_state.** The JSON column is the datatype `Json`: a scalar, a list
  of scalars, or an object.

Behaviour of the code worth noting:

- The placeholder engine checks only that the size is 4, 6 or 9. It never
  compares `box_h*box_w` with the size.
- A hint is absent when the solution's character at the empty cell is not a
  digit. Indexing past the end of the solution raises.
- `apply_move` can also raise IndexError on two paths: givens no longer
  than the cell index, and a number move on a board no longer than the cell
  index.
- Only `apply_move` protects given cells. The predicate `GivensKept` is
  therefore proved preserved by moves, not claimed as a global invariant of
  sessions.
- The refill job counts templates it created, not templates that carry the
  requested label (`Tasks.RefillLabelIgnoresRequest`).

## Model

| member | source | states |
|---|---|---|
| `Models.ParseLabel` | puzzle/models.py:17-26 | a stored label is one of easy, medium, hard, expert, and the parsed value names it back |
| `Models.TemplateStore.Get` | puzzle/services/gameplay.py:23 | lookup by primary key succeeds exactly for ids 1..count, returning that row |
| `Models.TemplateStore.Matching` | puzzle/services/daily.py:25-27 | the ids whose template has the given size and label string, and only those |
| `Models.TemplateStore.Create` | puzzle/services/generation.py:49-58 | inserting appends exactly one row and returns its new id |
| `Models.DailyTable.Create` | puzzle/models.py:115-119 | inserting a challenge for a date not yet present adds exactly that date's entry |
| `PyText.StripLeft` | puzzle/serializers.py:39 | `lstrip()` drops exactly the leading whitespace: the result is a suffix, empty exactly for all-whitespace text, and otherwise starts with a non-space |
| `PyText.StripRight` | puzzle/serializers.py:39 | `rstrip()` drops exactly the trailing whitespace: the result is a prefix, empty exactly for all-whitespace text, and otherwise ends with a non-space |
| `PyText.Strip` | puzzle/serializers.py:39 | `strip()` is empty exactly for all-whitespace text, otherwise starts and ends with a non-space, and leaves text without outer whitespace unchanged |
| `PyText.StripLeftPadded` | puzzle/serializers.py:39 | whitespace put in front of a string is removed by `lstrip()` |
| `PyText.StripLeftKeepsTail` | puzzle/serializers.py:39 | once a non-space character is met, `lstrip()` keeps everything after it |
| `PyText.StripRightPadded` | puzzle/serializers.py:39 | whitespace put after a string is removed by `rstrip()` |
| `PyText.StripKeepsNonSpace` | puzzle/serializers.py:39 | a non-space character such as U+0000 is in `s.strip()` exactly when it is in `s` (with `StripLeftKeepsNonSpace` and `StripRightKeepsNonSpace` for each side) |
| `PyText.StripLeftKeepsNonSpace` | puzzle/serializers.py:39 | a non-space character is in `s.lstrip()` exactly when it is in `s` |
| `PyText.StripRightKeepsNonSpace` | puzzle/serializers.py:39 | a non-space character is in `s.rstrip()` exactly when it is in `s` |
| `PyText.StripPadding` | puzzle/serializers.py:39 | `(pre + s + post).strip() == s.strip()` whenever `pre` and `post` are whitespace |
| `PyText.DecimalRoundTrip` | puzzle/services/gameplay.py:82 | Python's `int(str(n)) == n` for every integer, so a pencil-mark key `str(cell_index)` determines its cell |
| `PyText.DecimalInjective` | puzzle/services/gameplay.py:82 | distinct integers have distinct `str()` renderings, so each cell has its own pencil-mark key |
| `PyText.JoinChars` | puzzle/services/gameplay.py:61-62 | `"".join(list(s)) == s` |
| `PyText.ParseDigitChar` | puzzle/services/hints.py:35-38 | `int(c)` of one character succeeds exactly on a decimal digit, and the digit's character is `c` |
| `Engines.CyclicSolutionAt` | puzzle/services/engines/dokusan_engine.py:17-19 | for sizes 1..9 the pseudo-solution has size*size characters and character i is the digit (i % size)+1 |
| `Engines.SupportsExactly` | puzzle/services/engines/dokusan_engine.py:55-56 | the engine supports a spec exactly when its size is 4, 6 or 9, and the box shape never matters |
| `Engines.RandGrid` | puzzle/services/engines/dokusan_engine.py:15-26 | the solution is the cyclic string; the givens have its length and cell i is '0' exactly when draw i zeroes it, else the solution's character |
| `Engines.CountFilled` | puzzle/services/engines/dokusan_engine.py:51 | the count of non-'0' cells is at most the length, and equals it exactly when no cell is '0' |
| `Engines.RateDifficulty` | puzzle/services/engines/dokusan_engine.py:48-53 | metric times total equals total minus filled; division by zero exactly for size 0; on a grid of size*size cells the metric is in [0,1] and 0 exactly when no cell is empty |
| `Engines.RateMonotone` | puzzle/services/engines/dokusan_engine.py:48-53 | emptying more cells never lowers the metric |
| `Engines.Generate` | puzzle/services/engines/dokusan_engine.py:28-36 | fails exactly for sizes other than 4, 6, 9; otherwise both grids have size*size cells, each given is '0' or the solution's character, the givens follow the draws, and the metric is the rating of the givens and lies in [0,1] |
| `Engines.GenerateTwice` | tests/test_engine.py:9-14 | the same draws (seed) give identical givens, solution and metric |
| `Engines.Solve` | puzzle/services/engines/dokusan_engine.py:38-42 | no answer exactly when the grid length differs from size*size; otherwise the cyclic string, which for sizes up to 9 has the grid's length and holds values 1..size |
| `Engines.HasUniqueSolution` | puzzle/services/engines/dokusan_engine.py:44-46 | holds exactly when the grid has size*size cells, which is exactly when `Solve` answers |
| `Factory.GetEngineFor` | puzzle/services/factory.py:11-32 | an unknown explicit source fails; without a source, for size 9 only, a configured name other than "dokusan" fails; success exactly when the name resolves to dokusan and the size is 4, 6 or 9, yielding an engine that supports the spec |
| `Factory.EnvIgnoredUnlessNine` | puzzle/services/factory.py:17 | for sizes other than 9 the configured value makes no difference |
| `Generation.MapMetricToLabel` | puzzle/services/generation.py:17-27 | easy iff metric <= 0.25, medium iff in (0.25, 0.5], hard iff in (0.5, 0.75], expert iff > 0.75 |
| `Generation.LabelMonotone` | tests/test_generation.py:7-14 | a larger metric never gives an easier label |
| `Generation.SourceTag` | puzzle/services/generation.py:57 | a missing or empty source becomes "engine", any other source is kept |
| `Generation.GenerateTemplate` | puzzle/services/generation.py:30-59 | on failure no row is added, on success exactly one; success exactly when engine selection without a source succeeds; the row has the requested geometry, the engine's grids and metric, the label of its metric, the source tag, passes the uniqueness check and is well encoded |
| `Gameplay.IndexBoundsCheck` | puzzle/services/gameplay.py:16-19 | passes exactly for indices 0..size*size-1 |
| `Gameplay.NormalizeFlat` | puzzle/services/gameplay.py:61-65 | a string becomes its one-character cells (joining them gives it back); a list becomes its elements' `str()`; any other shape fails |
| `Gameplay.NormalizeBoard` | puzzle/services/gameplay.py:60-76 | succeeds exactly for a string, a list, or an object whose "board" field is one of those, normalising that field |
| `Gameplay.NumberCell` | puzzle/services/gameplay.py:79 | a value 0..9 is written as its one digit, 0 as "0" |
| `Gameplay.NumberMoveOnString` | puzzle/services/gameplay.py:78-79 | on a string board a number move of 0..9 changes exactly the chosen character |
| `Gameplay.SortedSeq` | puzzle/services/gameplay.py:92 | `sorted(set)` is strictly ascending and holds exactly the set's elements |
| `Gameplay.AscendingUnique` | puzzle/services/gameplay.py:92 | two strictly ascending lists with the same elements are equal |
| `Gameplay.Toggled` | puzzle/services/gameplay.py:83-90 | 0 clears the candidates; any other value is added when absent and removed when present, nothing else changes |
| `Gameplay.ToggleMarks` | puzzle/services/gameplay.py:81-94 | other keys are untouched; the cell's key stays exactly when candidates remain, with an ascending duplicate-free list of them |
| `Gameplay.TogglePencil` | puzzle/services/gameplay.py:81-95 | the in-place pencil update computes exactly `ToggleMarks` |
| `Gameplay.ToggleTwice` | tests/test_gameplay.py:42-45 | the same non-zero pencil move twice restores the marks |
| `Gameplay.ToggleTwiceCandidates` | puzzle/services/gameplay.py:82-94 | the same non-zero pencil move twice restores the cell's candidate set, whatever list was stored for it |
| `Gameplay.PencilMoveKeepsOtherCells` | puzzle/services/gameplay.py:82-94 | marks are keyed by `str(cell_index)`, so a pencil move on one cell leaves every other cell's entry as it was |
| `Gameplay.PencilScenario` | tests/test_gameplay.py:42-45 | marking 3 on an unmarked cell "2" stores [3]; marking it again removes the key |
| `Gameplay.GameSession.Start` | puzzle/services/gameplay.py:22-32 | a new session's board is the givens, with no marks, zero counters and status in progress |
| `Gameplay.GameSession.ApplyMove` | puzzle/services/gameplay.py:43-102 | succeeds exactly when index, value, given cell, board shape, mode and board length allow it; the checks run in the code's order and the first one that fails names the error (out of range, invalid value, givens IndexError, given cell, unsupported board, unknown mode, board IndexError), with no change; a number move rewrites one cell; a pencil move applies `ToggleMarks` and keeps the cells; given cells stay intact |
| `Gameplay.GameSession.IsSolved` | puzzle/services/gameplay.py:105-109 | solved exactly when the board is a string equal, character for character, to the solution |
| `Gameplay.GameSession.Complete` | puzzle/services/gameplay.py:112-116 | status becomes completed with the completion time; board, marks and counters are kept |
| `Gameplay.StartGame` | puzzle/services/gameplay.py:22-32 | fails exactly for a missing template id; otherwise a fresh session on that template that keeps the givens |
| `Hints.FirstIndexOf` | puzzle/services/hints.py:29-32 | the smallest index holding the character, or None exactly when there is none |
| `Hints.NextHint` | puzzle/services/hints.py:15-40 | no hint for a non-string board or one without '0'; otherwise the first '0' with the solution's digit there and technique "single-candidate", no hint when that character is not a digit, and an index error exactly when the solution is too short |
| `Hints.HintIsSolutionValue` | puzzle/services/hints.py:30-40 | on a well-encoded template's board with an empty cell the hint exists and carries the solution's value 1..size |
| `Hints.FirstEmptyCellScenario` | tests/test_hints.py:10-26 | givens "100"+"0"*78 with an all-ones solution give the hint (1, 1, "single-candidate") |
| `Serializers.IntegerField` | puzzle/serializers.py:44 | an int, or a string of at most 1000 characters that `int()` parses, at or above the minimum is accepted as itself; otherwise null is refused as null, a longer string as too long, any other non-integer (boolean, list, object, unparsable text) as not an integer, and a small integer by the minimum |
| `Serializers.OverlongRefused` | puzzle/serializers.py:44 | a 1001-digit string is refused as too long although `int()` parses it, and a list is refused as not an integer |
| `Serializers.ValidateListQuery` | puzzle/serializers.py:10-21 | size defaults to 9 and must be an integer >= 1; difficulty defaults to medium and must be one of the four labels; a parameter that is absent or empty takes its default |
| `Serializers.ListQueryRoundTrip` | puzzle/serializers.py:10-21 | a query built from a size and a label is accepted exactly for sizes >= 1 whose text has at most 1000 characters, and reads back the same pair |
| `Serializers.ValidateGameCreate` | puzzle/serializers.py:24-25 | template id is required and accepted exactly when it converts to an integer >= 1 |
| `Serializers.MarkList` | puzzle/serializers.py:41 | a mark list is accepted exactly when every element is an integer >= 1, and converts element by element |
| `Serializers.MarkEntry` | puzzle/serializers.py:41 | a list entry is converted by `MarkList`; null is refused as null, any other shape as not a list |
| `Serializers.CleanMarks` | puzzle/serializers.py:28-43 | the dictionary field accepts exactly a JSON object whose every entry is a valid mark list, keeping every key with its converted marks, all >= 1 |
| `Serializers.PencilMarksToInternal` | puzzle/serializers.py:28-35 | accepts exactly what `CleanMarks` accepts and returns its result; null and non-objects are refused before any entry, and a refusal carries the error of some bad entry |
| `Serializers.CharField` | puzzle/serializers.py:39 | a string is accepted exactly when it is not all whitespace and holds no U+0000, and is stored stripped (blank and null-character refusals reported as such); an integer becomes its decimal text; null is refused as null, booleans, lists and objects as not a string; an accepted value is non-empty and free of U+0000 |
| `Serializers.Cleaned` | puzzle/serializers.py:38-44 | the cleaned attributes, each present exactly when sent: the board as the char field cleans it (a string stripped, an integer as its decimal text, never empty); the marks exactly as `CleanMarks` converts them (the request's keys, all marks >= 1); and the time as converted, >= 0 |
| `Serializers.Validate` | puzzle/serializers.py:46-67 | passes exactly when a sent board has size*size characters for a positive integer context size (booleans count as integers) and, when the context has a size, every pencil mark lies in 1..size |
| `Serializers.BoardContentsIgnored` | puzzle/serializers.py:53-57 | only the board's length matters, not its characters |
| `Serializers.ValidateUpdate` | puzzle/serializers.py:38-67 | accepted exactly when every sent field passes its own check and `Validate` passes on the cleaned attributes, which are then the result; a field failure is reported as such, otherwise `Validate`'s error; an all-whitespace board is rejected as blank, a board holding U+0000 for its null character, and a list or object board as not a string |
| `Serializers.PaddedBoardAccepted` | puzzle/serializers.py:39-57 | a 9x9 board sent with a leading space is stripped to its 81 cells and passes the length check, while 82 characters without outer whitespace fail it |
| `Daily.CreateDailyChallenge` | puzzle/services/daily.py:17-32 | an existing date's challenge is returned uncreated with the table unchanged; otherwise it fails with no change exactly when no template matches, else the date gets a matching template and created is true |
| `Daily.CreateDailyTwice` | tests/test_daily.py:23-27 | a second request for the same date returns the same challenge with created false |
| `Tasks.Shortfall` | puzzle/tasks.py:25-27 | the loop count brings the existing count up to the minimum and no further |
| `Tasks.RefillPuzzleQueue` | puzzle/tasks.py:13-28 | returns max(0, min - existing) and adds exactly that many rows, each of the requested size with 3x3 boxes, tagged "engine", labelled by its metric, well encoded, with the cyclic solution and the givens its draws dictate; fails, adding nothing, exactly when rows are needed and engine selection fails |
| `Tasks.RefillLabelIgnoresRequest` | puzzle/services/generation.py:48-56 | a refilled template with no emptied cell has metric 0 and label easy, whatever label was requested |
| `Tasks.CountMissingNone` | puzzle/tasks.py:41-46 | with every date of the range present nothing is missing |
| `Tasks.CountMissingSome` | puzzle/tasks.py:41-46 | a date of the range without a challenge is counted |
| `Tasks.PrecreateDailyChallenges` | puzzle/tasks.py:31-46 | returns the number of dates of the range that had no challenge; afterwards every date of the range has one, existing entries are kept, new entries lie in the range and point to matching templates; fails exactly when a date is missing and no template matches |
| `Tasks.PrecreateTwice` | puzzle/tasks.py:41-45 | after a successful run, running again creates nothing |

## Left out

- The Django ORM, `select_related`, `save(update_fields=...)`: tables are in-memory classes.
- Transactions: only their outcome is modelled, which is no change on failure.
- The random ordering used to pick a daily template is a nondeterministic choice among matching ids.
- The clock. `timezone.now()`, `auto_now` and `auto_now_add` are not modelled. The completion time is a parameter, and `today` for the daily job is a day number.
- Analytics events written by `start_game` and `complete_game`: side effects outside the core.
- Python's `random.Random(seed)`. Each generation takes a function telling, for each cell index, whether its draw falls below 0.6. The refill job gets one such function per template.
- `os.getenv("PUZZLE_ENGINE_9")`: the configured value is a parameter.
- The HTTP views, URL routing, accounts, the admin console, management commands, settings and Celery configuration. They are plumbing around the modelled services.
- Real Sudoku validity and uniqueness: the placeholder engine does neither, and neither does the model.
- `supports` is not part of the abstract engine interface in `base.py`, though the factory calls it. The model gives every engine a `Supports`.
- Negative grid sizes. Sizes are natural numbers, so Python's `%` on a negative size is not modelled.
- Floating-point metrics: metrics are exact reals.
- JSON floats (also as a board_state, which DRF would accept as `str()` of the number), and lists nested in a list-shaped board.
- Python `int()` accepting surrounding whitespace, underscores and non-ASCII digits.
- DRF's integer field stripping a trailing ".0".
- Request bodies other than JSON. A form-encoded update or create body would have its empty fields read as absent, as the list query's parameters are. The update and create models take JSON bodies.
- A query parameter given twice: DRF reads its last value, the model takes one value per parameter.
- Lists nested inside a pencil-mark entry. A JSON list here holds scalars only; DRF would refuse such an element as not an integer.
- DRF collecting every field error rather than the first.
- Labels outside the four choices: the admin import could store them, the model cannot.
- `str(k)` on pencil-mark keys: JSON object keys are already strings.
- Gameplay.ToggleTwice: requires the cell's stored list to be absent or non-empty and strictly ascending, as pencil moves leave it. A list written by other means, such as an empty list, is not restored by two toggles; for such lists `Gameplay.ToggleTwiceCandidates` states the round trip on the candidate set.
- Gameplay.GameSession.ApplyMove: given-cell preservation is proved for sizes up to 9 only. For larger sizes a value of 10 or more writes two characters and shifts every later cell of a string board.
- Engines.Solve: the length and digit facts about its answer are stated for sizes 1..9 only, for the same reason.
- Models.DailyTable.Create: requires the date to be new. The database's unique constraint would raise instead, but the daily service checks the date first.
