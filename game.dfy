/** A game between a home and an away team, stamped with the time it was
    created (src/main/java/game/vo/Game.java). */
module Games {
  import opened Teams

  class Game {
    const homeTeam: Team
    const awayTeam: Team
    /** The creation instant, as an abstract point in time. */
    const timeOfCreation: nat

    /** A game holds exactly the two teams it is given. */
    constructor (homeTeam: Team, awayTeam: Team, timeOfCreation: nat)
      ensures this.homeTeam == homeTeam && this.awayTeam == awayTeam
      ensures this.timeOfCreation == timeOfCreation
    {
      this.homeTeam := homeTeam;
      this.awayTeam := awayTeam;
      this.timeOfCreation := timeOfCreation;
    }

    /** Sets the home score; the away score is untouched unless both sides
        are the same team object. */
    method UpdateHomeTeamScore(homeTeamScore: int)
      modifies homeTeam
      ensures homeTeam.score == homeTeamScore
      ensures awayTeam != homeTeam ==> awayTeam.score == old(awayTeam.score)
      ensures TotalScore() == if awayTeam != homeTeam then homeTeamScore + old(awayTeam.score) else 2 * homeTeamScore
    {
      homeTeam.SetScore(homeTeamScore);
    }

    /** Sets the away score; the home score is untouched unless both sides
        are the same team object. */
    method UpdateAwayTeamScore(awayTeamScore: int)
      modifies awayTeam
      ensures awayTeam.score == awayTeamScore
      ensures awayTeam != homeTeam ==> homeTeam.score == old(homeTeam.score)
      ensures TotalScore() == if awayTeam != homeTeam then old(homeTeam.score) + awayTeamScore else 2 * awayTeamScore
    {
      awayTeam.SetScore(awayTeamScore);
    }

    /** The sum of both teams' current scores. With no negative score, the
        total is at least each team's score and is zero only for a game in
        which neither team has scored. */
    function TotalScore(): (total: int)
      reads homeTeam, awayTeam
      ensures homeTeam.score >= 0 && awayTeam.score >= 0 ==>
        && total >= homeTeam.score
        && total >= awayTeam.score
        && (total == 0 <==> homeTeam.score == 0 && awayTeam.score == 0)
    {
      homeTeam.score + awayTeam.score
    }
  }
}
