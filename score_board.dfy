/** The live score board: the games started so far and the game whose score
    is being updated (src/main/java/game/ScoreBoard.java). */
module Board {
  import opened Teams
  import opened Games
  import Summary

  /** The two failures the board reports to its caller. */
  datatype Error =
    | GameAlreadyExists(homeTeam: string, awayTeam: string)
    | InvalidScore

  datatype Outcome = Pass | Fail(error: Error)

  class ScoreBoard {
    /** Every game started since the last reset, each object at most once. */
    var games: set<Game>
    /** The game score updates apply to; null once finished. It is not
        cleared by a reset, so it may name a game no longer in games. */
    var currentGame: Game?

    /** The games the board can still reach: its set and the current game. */
    ghost function Tracked(): set<Game>
      reads this
    {
      if currentGame == null then games else games + {currentGame}
    }

    /** The teams of the reachable games. */
    ghost function TrackedTeams(): set<Team>
      reads this
    {
      (set game | game in Tracked() :: game.homeTeam) + (set game | game in Tracked() :: game.awayTeam)
    }

    ghost function CurrentTeams(): set<Team>
      reads this
    {
      if currentGame == null then {} else {currentGame.homeTeam, currentGame.awayTeam}
    }

    /** Every reachable game has two teams of its own, no team is shared by two
        games, no score is negative, and no two games in the set have the same
        ordered pair of team names. */
    ghost predicate Valid()
      reads this, TrackedTeams()
    {
      && (forall game | game in Tracked() :: game.homeTeam != game.awayTeam)
      && (forall game, other | game in Tracked() && other in Tracked() && game != other ::
            && game.homeTeam != other.homeTeam && game.homeTeam != other.awayTeam
            && game.awayTeam != other.homeTeam && game.awayTeam != other.awayTeam)
      && (forall game | game in Tracked() :: game.homeTeam.score >= 0 && game.awayTeam.score >= 0)
      && (forall game, other | game in games && other in games && game != other ::
            game.homeTeam.name != other.homeTeam.name || game.awayTeam.name != other.awayTeam.name)
    }

    /** An empty board with no current game. */
    constructor ()
      ensures Valid()
      ensures games == {} && currentGame == null
    {
      games := {};
      currentGame := null;
    }

    /** The ordered (home, away) name pairs of the games in the set. */
    ghost function NamePairs(): set<(string, string)>
      reads this
    {
      set game | game in games :: (game.homeTeam.name, game.awayTeam.name)
    }

    /** Whether some game in the set has exactly this ordered pair of names. */
    function GameExists(homeTeam: string, awayTeam: string): (found: bool)
      reads this
      ensures found <==> (homeTeam, awayTeam) in NamePairs()
    {
      exists game | game in games :: game.homeTeam.name == homeTeam && game.awayTeam.name == awayTeam
    }

    /** Starts a game between two new teams created at time now and makes it
        the current game, unless the ordered pair of names is already in the
        set, finished or not. */
    method StartGame(homeTeam: string, awayTeam: string, now: nat) returns (outcome: Outcome)
      requires Valid()
      modifies this
      ensures Valid()
      ensures outcome == if old(GameExists(homeTeam, awayTeam)) then Fail(GameAlreadyExists(homeTeam, awayTeam)) else Pass
      ensures outcome.Fail? ==> games == old(games) && currentGame == old(currentGame)
      ensures outcome.Pass? ==>
        && currentGame != null && fresh(currentGame)
        && fresh(currentGame.homeTeam) && fresh(currentGame.awayTeam)
        && currentGame.homeTeam.name == homeTeam && currentGame.awayTeam.name == awayTeam
        && currentGame.homeTeam.score == 0 && currentGame.awayTeam.score == 0
        && currentGame.TotalScore() == 0
        && currentGame.timeOfCreation == now
        && games == old(games) + {currentGame}
      ensures GameExists(homeTeam, awayTeam)
    {
      if GameExists(homeTeam, awayTeam) {
        return Fail(GameAlreadyExists(homeTeam, awayTeam));
      }
      var home := new Team(homeTeam);
      var away := new Team(awayTeam);
      currentGame := new Game(home, away, now);
      games := games + {currentGame};
      outcome := Pass;
    }

    /** Clears the current game; the game itself stays in the set. Calling it
        again changes nothing. */
    method FinishGame()
      requires Valid()
      modifies this`currentGame
      ensures Valid()
      ensures currentGame == null
      ensures games == old(games)
    {
      currentGame := null;
    }

    /** A new score is acceptable when it keeps the stored score or adds one. */
    static function IsCorrectUpdatedScore(oldScore: int, newScore: int): (ok: bool)
      ensures ok <==> oldScore <= newScore <= oldScore + 1
    {
      newScore == oldScore || newScore == oldScore + 1
    }

    /** Whether there is a current game and both new scores are acceptable
        against its stored scores. */
    function ShouldBeUpdatedScore(homeTeamScore: int, awayTeamScore: int): (ok: bool)
      reads this, CurrentTeams()
      ensures ok <==>
        && currentGame != null
        && currentGame.homeTeam.score <= homeTeamScore <= currentGame.homeTeam.score + 1
        && currentGame.awayTeam.score <= awayTeamScore <= currentGame.awayTeam.score + 1
    {
      currentGame != null
      && IsCorrectUpdatedScore(currentGame.homeTeam.score, homeTeamScore)
      && IsCorrectUpdatedScore(currentGame.awayTeam.score, awayTeamScore)
    }

    /** Sets both scores of the current game to the given absolute values when
        both are acceptable; otherwise reports InvalidScore and writes nothing.
        No other team's score changes. */
    method UpdateScore(homeTeamScore: int, awayTeamScore: int) returns (outcome: Outcome)
      requires Valid()
      modifies CurrentTeams()
      ensures Valid()
      ensures games == old(games) && currentGame == old(currentGame)
      ensures outcome == if old(ShouldBeUpdatedScore(homeTeamScore, awayTeamScore)) then Pass else Fail(InvalidScore)
      ensures outcome.Pass? ==>
        currentGame.homeTeam.score == homeTeamScore && currentGame.awayTeam.score == awayTeamScore
      ensures outcome.Fail? ==> unchanged(CurrentTeams())
      ensures forall game | game in games && game != currentGame ::
        game.homeTeam.score == old(game.homeTeam.score) && game.awayTeam.score == old(game.awayTeam.score)
      ensures forall team | team in CurrentTeams() :: old(team.score) <= team.score
    {
      if !ShouldBeUpdatedScore(homeTeamScore, awayTeamScore) {
        return Fail(InvalidScore);
      }
      currentGame.UpdateHomeTeamScore(homeTeamScore);
      currentGame.UpdateAwayTeamScore(awayTeamScore);
      outcome := Pass;
    }

    /** Every game in the set, highest total first and, among equal totals,
        the most recently created first; the board is left as it was. */
    method GetSummary() returns (summary: seq<Game>)
      ensures multiset(summary) == multiset(games)
      ensures Summary.Sorted(summary)
    {
      summary := [];
      var rest := games;
      while rest != {}
        invariant multiset(summary) + multiset(rest) == multiset(games)
        invariant Summary.Sorted(summary)
        decreases |rest|
      {
        var game :| game in rest;
        summary := Summary.InsertByRank(summary, game);
        assert multiset(rest) == multiset(rest - {game}) + multiset{game};
        rest := rest - {game};
      }
    }

    /** Empties the set of games; the current game is left as it was. */
    method ResetScoreBoard()
      requires Valid()
      modifies this`games
      ensures Valid()
      ensures games == {}
      ensures currentGame == old(currentGame)
    {
      games := {};
    }
  }
}
