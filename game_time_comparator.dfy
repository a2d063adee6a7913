/** Orders games by creation time, newest first
    (src/main/java/game/comperators/GameTimeComparator.java). */
module GameTimeComparator {
  import opened Games

  /** The sign of comparing two creation instants: negative when the first is
      earlier, zero when they coincide, positive when it is later. */
  function CompareTimes(time1: nat, time2: nat): (r: int)
    ensures -1 <= r <= 1
    ensures r < 0 <==> time1 < time2
    ensures r == 0 <==> time1 == time2
    ensures r > 0 <==> time1 > time2
  {
    if time1 < time2 then -1 else if time1 == time2 then 0 else 1
  }

  /** Compares the second game's creation time with the first's, so the game
      created later sorts first. Only the creation times are consulted. */
  function Compare(game1: Game, game2: Game): (r: int)
    ensures r < 0 <==> game1.timeOfCreation > game2.timeOfCreation
    ensures r == 0 <==> game1.timeOfCreation == game2.timeOfCreation
    ensures r > 0 <==> game1.timeOfCreation < game2.timeOfCreation
  {
    CompareTimes(game2.timeOfCreation, game1.timeOfCreation)
  }

  /** Swapping the arguments negates the result. */
  lemma CompareAntisymmetric(game1: Game, game2: Game)
    ensures Compare(game1, game2) == -Compare(game2, game1)
  {
  }

  /** "Not after" is transitive, as the Comparator contract requires. */
  lemma CompareTransitive(game1: Game, game2: Game, game3: Game)
    requires Compare(game1, game2) <= 0 && Compare(game2, game3) <= 0
    ensures Compare(game1, game3) <= 0
  {
  }

  /** Two pairs of games created at the same instants compare alike, whatever
      their teams and scores. */
  lemma CompareOnlyByTime(game1: Game, game2: Game, other1: Game, other2: Game)
    requires game1.timeOfCreation == other1.timeOfCreation
    requires game2.timeOfCreation == other2.timeOfCreation
    ensures Compare(game1, game2) == Compare(other1, other2)
  {
  }
}
