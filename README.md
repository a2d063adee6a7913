# Live score board — a verified Dafny model

This project models a small live score board for sports games. The board keeps
the games started since it was last reset. It also keeps a "current game" that
score updates apply to. A game pairs a home team and an away team, each a name
with a mutable score, and it carries the instant it was created. The board can
start a game, finish the current game, update the current game's score, list a
ranked summary of its games and reset itself.

Layout, one module per source class:

- `team.dfy`, module `Teams`: class `Team`. The name is a `const`. The score is
  a `var` overwritten by `SetScore`. A new team has score 0.
- `game.dfy`, module `Games`: class `Game`. It has `const` home and away teams,
  a `const` creation time, the two score updates, and `TotalScore()`, the sum
  of both scores.
- `game_time_comparator.dfy`, module `GameTimeComparator`: the newest-first
  comparator on creation times, with the comparator laws.
- `summary.dfy`, module `Summary`: the summary comparator (total score
  descending, then the time comparator). It also holds the sortedness
  predicate, the insertion step the summary is built with, and the lemmas
  that pin down the summary order.
- `score_board.dfy`, module `Board`: class `ScoreBoard` with fields `games`
  (a set of `Game` references, distinct by identity) and `currentGame` (a
  nullable alias). Failures are values: `Outcome = Pass | Fail(Error)` with
  `Error = GameAlreadyExists(home, away) | InvalidScore`.
- `scenarios.dfy`, module `Scenarios`: client methods after the repository's
  unit tests. Each one derives that test's expected results from the
  contracts above.

`ScoreBoard.Valid()` is the board invariant. It ranges over the games the board
can still reach: the set plus the current game, which may be outside the set
after a reset. It states that every such game has two distinct teams, that no
team is shared between two games, that no score is negative, and that no two
games in the set have the same ordered pair of team names. Every mutating
operation preserves it. Scores never decrease:

- `UpdateScore` only raises or keeps the two scores it writes.
- Every other operation modifies no team.

Accessors are not separate members. The fields themselves play their part:
`getName`, `getScore`, `getHomeTeam`, `getAwayTeam`, `getTimeOfCreation`,
`getGames` and `getCurrentGame`. A team's name, a game's two teams and a game's
creation time are Dafny `const`s: Java declares those fields `final` and what
they hold never changes. Two `final` Java fields hold objects whose contents
do change: the board's set of games and a team's atomic score. Both are
`var`s in the model, and the operations that change them reassign them.

Two behaviours of the code are easy to miss, and the model keeps both:

- After `resetScoreBoard` the current game still points at a game that is no
  longer in the set. Updates still write to that game. This is why `Valid()`
  does not require the current game to be in the set.
- A finished game keeps blocking its ordered pair of names until a reset,
  because the duplicate check scans the whole set.

## Model

| member | source | states |
|---|---|---|
| `Teams.Team.constructor` | src/main/java/game/vo/Team.java:10-13 | a new team has the given name and score 0 |
| `Teams.Team.SetScore` | src/main/java/game/vo/Team.java:15-17 | the score becomes the given absolute value; only this team changes and its name is a constant |
| `Games.Game.constructor` | src/main/java/game/vo/Game.java:12-16 | the game holds exactly the two given team objects and the given creation time |
| `Games.Game.UpdateHomeTeamScore` | src/main/java/game/vo/Game.java:18-20 | the home score becomes the argument; the away score is unchanged when the two teams are different objects; the total is the new home score plus the old away score |
| `Games.Game.TotalScore` | src/main/java/game/vo/Game.java:43-45 | defined as the sum of the two current scores; with no negative score the total is at least each team's score and is zero exactly when neither team has scored |
| `Games.Game.UpdateAwayTeamScore` | src/main/java/game/vo/Game.java:22-24 | the away score becomes the argument; the home score is unchanged when the two teams are different objects; the total is the old home score plus the new away score |
| `GameTimeComparator.CompareTimes` | src/main/java/game/comperators/GameTimeComparator.java:10 | comparing two creation instants is negative, zero or positive exactly when the first is earlier, equal or later |
| `GameTimeComparator.Compare` | src/main/java/game/comperators/GameTimeComparator.java:9-11 | negative exactly when the first game was created later, zero exactly when both were created at the same instant, positive exactly when the first was created earlier |
| `GameTimeComparator.CompareAntisymmetric` | src/main/java/game/comperators/GameTimeComparator.java:9-11 | swapping the two games negates the result |
| `GameTimeComparator.CompareTransitive` | src/main/java/game/comperators/GameTimeComparator.java:9-11 | "not after" is transitive over three games |
| `GameTimeComparator.CompareOnlyByTime` | src/main/java/game/comperators/GameTimeComparator.java:10 | two pairs of games with the same creation times compare alike, whatever their teams and scores |
| `Summary.IntegerCompare` | src/main/java/game/ScoreBoard.java:65 | comparing two total scores is negative, zero or positive exactly when the first is smaller, equal or larger |
| `Summary.SummaryCompare` | src/main/java/game/ScoreBoard.java:64-66 | the first game may precede the second exactly when it has a higher total, or the same total and a creation time no earlier; the result is zero exactly when both total and time agree |
| `Summary.SummaryCompareAntisymmetric` | src/main/java/game/ScoreBoard.java:64-66 | the summary comparator changes sign when its arguments are swapped and is zero both ways or neither |
| `Summary.SummaryCompareTransitive` | src/main/java/game/ScoreBoard.java:64-66 | the summary comparator's "not after" is transitive |
| `Summary.InsertByRank` | src/main/java/game/ScoreBoard.java:64-67 | inserting a game into a sorted list gives a sorted list holding the old games plus that game |
| `Summary.SortedPair` | src/main/java/game/ScoreBoard.java:63-68 | of two games ranked strictly apart, every sorted listing puts the higher-ranked one first |
| `Summary.SortedKeysUnique` | src/main/java/game/ScoreBoard.java:63-68 | two sorted sequences of (total, time) keys with the same elements are equal |
| `Summary.KeysOfPermutation` | src/main/java/game/ScoreBoard.java:63-68 | rearranging games rearranges their (total, time) keys the same way |
| `Summary.SummaryKeysDetermined` | src/main/java/game/ScoreBoard.java:63-68 | any two sorted listings of the same games agree position by position on total and creation time: only games equal on both can trade places |
| `Board.ScoreBoard.constructor` | src/main/java/game/ScoreBoard.java:17-19 | a new board has no games and no current game, and satisfies the invariant |
| `Board.ScoreBoard.GameExists` | src/main/java/game/ScoreBoard.java:77-81 | true exactly when the ordered pair (home name, away name) is among the name pairs of the games in the set, compared by exact string equality |
| `Board.ScoreBoard.StartGame` | src/main/java/game/ScoreBoard.java:28-34 | fails with GameAlreadyExists(home, away) exactly when some game in the set has that ordered name pair, changing nothing; otherwise adds exactly one fresh game with fresh teams of those names, scores 0/0, total 0 and the given creation time, and makes it current; afterwards the pair is registered and the invariant holds |
| `Board.ScoreBoard.FinishGame` | src/main/java/game/ScoreBoard.java:39-41 | only the current game is cleared; the set and every score are unchanged, so a second call changes nothing |
| `Board.ScoreBoard.IsCorrectUpdatedScore` | src/main/java/game/ScoreBoard.java:83-85 | a new score is accepted exactly when it lies between the stored score and the stored score plus one |
| `Board.ScoreBoard.ShouldBeUpdatedScore` | src/main/java/game/ScoreBoard.java:87-91 | true exactly when there is a current game and each new score equals that team's stored score or the stored score plus one |
| `Board.ScoreBoard.UpdateScore` | src/main/java/game/ScoreBoard.java:49-56 | succeeds exactly when ShouldBeUpdatedScore held before the call; on success both scores of the current game become the given values; on failure (InvalidScore) no score changes; the set, the current game and every other game's scores are unchanged; scores never decrease and the invariant holds |
| `Board.ScoreBoard.GetSummary` | src/main/java/game/ScoreBoard.java:63-68 | returns every game in the set exactly once, sorted by total score descending and then creation time descending, and modifies nothing |
| `Board.ScoreBoard.ResetScoreBoard` | src/main/java/game/ScoreBoard.java:73-75 | the set becomes empty and the current game is left as it was |

## Left out

- Thread safety: the atomic score of `Team` and the `synchronized` update
  methods of `Game` are modelled as a plain field written sequentially. The
  concurrent check-then-set race in `updateScore` is not modelled.
- The wall clock: `LocalDateTime.now()` becomes the `now` argument of
  `StartGame`. Creation times are abstract naturals and may coincide.
- `GameTimeComparator.CompareTimes`: `LocalDateTime.compareTo` may return any
  negative or positive number. The model returns -1, 0 or 1, so only the sign
  is modelled, which is all a comparator promises.
- Exception classes and their message texts: failures are `Outcome` values.
  `GameAlreadyExists` carries the two names; `InvalidScore` carries nothing.
- `Board.ScoreBoard.IsCorrectUpdatedScore`: scores are unbounded integers.
  The 32-bit wrap of `oldScore + 1` at the largest `int` is not modelled. That
  wrap would accept the smallest `int` as a new score.
- `Games.Game.TotalScore`: the sum is unbounded. Its 32-bit overflow is not
  modelled.
- `Board.ScoreBoard.GetSummary`: the stream sort and the hash set's iteration
  order are not modelled. The summary is built by inserting the set's games,
  taken in an unspecified order, into a sorted list. The contract promises only
  what the stream sort promises: a permutation sorted by the comparator. The
  order of ties is left open, and `Summary.SummaryKeysDetermined` shows that
  ties are the only freedom.
- Changes made outside the board's own operations: the model assumes that
  only `StartGame` and `ResetScoreBoard` change the set of games, and only
  `UpdateScore` changes the scores. In Java, `getGames()` returns the live
  internal set, so a caller can add games to it or clear it directly. Java
  callers can also write any score, including a negative one, through the
  public `Team.setScore` or `Game.update*TeamScore` of a game on the board.
  After such writes `startGame` and `updateScore` still run. For example,
  after `setScore(-5)` the call `updateScore(-4, 0)` succeeds. The model
  does not cover these states: the set is a value field, and `Valid()`
  excludes shared teams, negative scores and duplicate name pairs.
- Null team names, which `Objects.equals` would tolerate: Dafny strings cannot
  be null.
- The invariant that the current game is always the most recently started
  game is not stated over histories. `StartGame` makes the new game current,
  and only `FinishGame` clears it.
- The unit tests are not modelled as a component. `scenarios.dfy` restates
  their expectations as client proofs.
