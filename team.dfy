/** A team in a game: a name fixed at construction and a score that is
    overwritten in place (src/main/java/game/vo/Team.java). */
module Teams {

  class Team {
    /** The team's name; never changes after construction. */
    const name: string
    /** The team's current score. */
    var score: int

    /** A new team has the given name and has not scored yet. */
    constructor (name: string)
      ensures this.name == name
      ensures score == 0
    {
      this.name := name;
      score := 0;
    }

    /** Overwrites the score with an absolute value; the name stays as it was. */
    method SetScore(score: int)
      modifies this
      ensures this.score == score
    {
      this.score := score;
    }
  }
}
