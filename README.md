# Leaderboard model

This is a Dafny model of the score leaderboard of a small browser game's back end (`app/game.py`).

- The leaderboard keeps at most `max_entries` score entries. Each entry is a player name and a score.
- It keeps them in descending order of score. Entries with equal scores keep the order in which they were submitted.
- `submit` rejects a negative score before touching the board. Otherwise it:
  1. normalises the name: strip the surrounding whitespace, substitute the placeholder `무명 파일럿` for an empty result, and keep at most 32 characters;
  2. appends the new entry;
  3. stable-sorts the list by score, highest first;
  4. cuts it to `max_entries`;
  5. returns a copy of the result.
- `entries` returns a copy of the current ranking.
- `clear` empties the board.

The model has three modules:

- `PyStr` (`pystr.dfy`) models the Python built-ins the leaderboard relies on:
  - `str.isspace` is modelled as the set of code points for which it holds;
  - `str.strip()` is specified by `IsStripOf` and implemented by `Strip`;
  - the slice `s[:n]` is `SliceTo`, including Python's handling of a negative `n`.
- `Game` (`game.dfy`) holds:
  - the `ScoreEntry` value and the error;
  - name normalisation;
  - the stable descending sort. `SortByScoreDesc` implements it by repeatedly taking out the first entry with the highest score. `IsStableSortDesc` specifies it: sorted, and every score's group of entries in its input order. Together, `SortByScoreDescIsStable` and `StableSortIsSortByScoreDesc` show that this is the only function meeting that specification;
  - insertion after ties (`InsertByScore`), which on a sorted ranking equals append-then-sort;
  - the `Leaderboard` class. Its `Valid()` invariant says the ranking is sorted and no longer than the capacity. Every entry has a non-negative score and a non-empty name of at most 32 characters. The name does not start with whitespace, and it does not end with whitespace unless it was cut at 32 characters.
- `GameScenarios` (`scenarios.dfy`) states the repository's test scenarios as verified methods over the class. The names are parameters. Separate lemmas show that the tests' literal names meet the scenarios' requirements.

`submit` is modelled as a method whose body follows `app/game.py` step by step: append, sort, slice. Its postcondition gives the new board two ways:

- the definition in `app/game.py`, `SliceTo(SortByScoreDesc(old + [e]), maxEntries)`, written as `Admit`;
- the equivalent insertion after the last entry that scores at least as well.

`max_entries` is not validated: nothing in `app/game.py` requires it to be positive. A zero or negative value takes effect through Python slicing: `entries[:-1]` removes the last element. A board built with such a value therefore stays empty; the model captures this with `Capacity(n) = max(n, 0)`.

## Model

`ScoreEntry` (app/game.py:10-15) is the datatype `Game.ScoreEntry`: an immutable pair of a player name and a score. The constant set `PyStr.Whitespace` lists the whitespace code points.

| member | source | states |
|---|---|---|
| PyStr.IsSpace | app/game.py:32 | the whitespace `strip()` removes: exactly the code points for which Python's `str.isspace` holds |
| PyStr.Strip | app/game.py:32 | `strip()`: the result is the input minus leading and trailing whitespace, does not start or end with whitespace, and is empty exactly when the input is all whitespace |
| PyStr.StripOfUnique | app/game.py:32 | the strip specification has exactly one solution, so it determines `strip()` completely |
| PyStr.SliceTo | app/game.py:38 | Python's `s[:n]` gives a prefix of `s`: of length `min(n, len(s))` for `n >= 0`, and `len(s) + n` clamped at 0 for negative `n` |
| Game.Error.Message | app/game.py:30 | the message of the `ValueError` for a negative score, which begins with 점수 (score) |
| Game.NormalizeName | app/game.py:32-35 | the stored name is non-empty, at most 32 characters, does not start with whitespace, and ends with whitespace only if it was cut at 32 characters; an all-whitespace name becomes `무명 파일럿`; otherwise it is the prefix of the stripped name of length `min(32, len)` |
| Game.NormalizeTrimmedName | app/game.py:32-35 | a non-empty name with no whitespace at either end is stored as its first 32 characters |
| Game.RankOf | app/game.py:36-37 | the place of a new score: every entry before it scores at least as much, and the entry at it scores less |
| Game.SortByScoreDesc | app/game.py:37 | the descending sort is a permutation of its input, is sorted non-increasing by score, and introduces no higher score |
| Game.SortByScoreDescIsStable | app/game.py:37 | the sort is stable: for every score, the entries with that score keep their input order |
| Game.SortedDeterminedByScoreGroups | app/game.py:37 | two sorted rankings that have the same entries, in the same order, for every score are equal |
| Game.StableSortIsSortByScoreDesc | app/game.py:37 | every output that a stable descending sort may give equals `SortByScoreDesc`, so the model's sort is the sort `list.sort(key=score, reverse=True)` performs |
| Game.InsertByScore | app/game.py:36-37 | the ranking with the new entry placed after every entry that scores at least as much; it is one entry longer (its placement is stated by `InsertAfterTies`) |
| Game.InsertAfterTies | app/game.py:36-37 | in a sorted ranking, the new entry lands after exactly the entries that score at least as much (older ties included) and before the rest, with the other entries in their order |
| Game.InsertKeepsSorted | app/game.py:36-37 | inserting by score keeps a ranking sorted |
| Game.InsertKeepsGroups | app/game.py:36-37 | inserting by score and appending give every score group in the same order |
| Game.AppendSortIsInsert | app/game.py:36-37 | on a sorted ranking, append then stable sort equals insertion after the last entry with a score at least as high |
| Game.Admit | app/game.py:36-38 | append, stable sort and cut to `max_entries`: the result is sorted, holds only entries of the old board plus the new one, and stays within the capacity when the old board was |
| Game.AdmitKeepsValid | app/game.py:36-38 | append, sort and cut to `max_entries` keep the ranking sorted, within capacity and made of well-formed entries |
| Game.AdmitWithRoom | app/game.py:36-38 | with room on the board nothing is dropped: the result is the insertion of the new entry |
| Game.AdmitEvictsLast | app/game.py:36-38 | on a full board, a new entry that ranks inside the board is inserted, and exactly the previous last entry is dropped |
| Game.AdmitRankedOut | app/game.py:36-38 | on a full board, a new entry that scores no better than every entry, ties included, is dropped and the board is unchanged |
| Game.TiedNewcomerDropped | app/game.py:36-38 | at the cutoff the newer of two tied entries is dropped: a full board whose last entry has the new score is unchanged |
| Game.RankOfCountsAtLeast | app/game.py:36-37 | when the last entry of a sorted ranking scores at least `k`, the place of `k` is the end |
| Game.Leaderboard.constructor | app/game.py:21-23 | a new board has the given `max_entries` (10 when none is given), is empty, and satisfies the invariant |
| Game.Leaderboard.Submit | app/game.py:26-39 | a negative score gives `InvalidScore` and leaves the board unchanged; otherwise the board becomes the first `max_entries` entries of the stable sort of the old board plus the normalised entry, which is the same as insertion after ties; the result is the new ranking; the invariant is kept |
| Game.Leaderboard.Entries | app/game.py:41-45 | returns exactly the current ranking and changes nothing |
| Game.Leaderboard.Clear | app/game.py:47-51 | from any state, the board becomes empty and valid |
| GameScenarios.TestNamesStoredAsGiven | tests/test_leaderboard.py:8-14 | the names Alice, Bob, Cara, Dan, Ace and Nova are stored unchanged |
| GameScenarios.TopThreeInsertions | tests/test_leaderboard.py:7-15 | the four insertions of the top-three test, each cut to 3 entries |
| GameScenarios.TopThreeScenario | tests/test_leaderboard.py:6-15 | with capacity 3, submitting Alice 100, Bob 150, Cara 120 and Dan 90 leaves Bob 150, Cara 120, Alice 100 |
| GameScenarios.NegativeScoreScenario | app/game.py:29-30 | a negative score is refused with the error whose message starts with `점수`, and the board stays empty |
| GameScenarios.BlankTestName | tests/test_leaderboard.py:30 | the test's blank name is all whitespace |
| GameScenarios.LongTestName | tests/test_leaderboard.py:31 | the test's long name is over 32 characters and has no surrounding whitespace |
| GameScenarios.NameNormalizationInsertions | tests/test_leaderboard.py:28-35 | the two insertions of the normalisation test |
| GameScenarios.NameNormalizationScenario | tests/test_leaderboard.py:28-35 | a blank name submitted with 50, then a long name with 60, give the long name's first 32 characters first and the placeholder second |
| GameScenarios.SubmitAndFetchInsertions | tests/test_api.py:20-35 | the two insertions of the submit-and-fetch test |
| GameScenarios.SubmitAndFetchScenario | tests/test_api.py:13-35 | a fresh board is empty; Ace 320 returns [Ace 320]; Nova 420 then returns [Nova 420, Ace 320], which is also what a later read gives |
| GameScenarios.ClearScenario | app/game.py:47-51 | after any submission, clearing leaves nothing to read |

## Left out

- The `asyncio.Lock` and `async`/`await` (app/game.py:24,34,44,50) serialise the methods. Each method is modelled as one atomic step.
- The module-level default board (app/game.py:54) is process-global state. It is only a call of the constructor with capacity 10.
- `max_entries` is a public attribute that Python code could reassign. The model fixes it at construction (`const`), as the repository uses it.
- The `ValueError` exception is modelled as the `Err(InvalidScore)` result. The board is left unchanged, exactly as when `app/game.py` raises before mutating.
- `list(...)` copies: Dafny sequences are values, so the returned ranking cannot alias the board.
- Whitespace is the fixed list of code points for which Python's `str.isspace` holds. There is no further Unicode processing. Strings are sequences of code points.
- app/main.py is not part of this model. It is HTTP glue: payload validation, routes, and mapping the error to status 400. The API tests are replayed against the leaderboard directly, without HTTP status codes.
- The framework shim under `fastapi/` and the browser client `static/game.js` are not part of this model. They are I/O, drawing, timers and floating-point physics.
