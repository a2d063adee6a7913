/** Client scenarios of the score board (after src/test/java/game/ScoreBoardTest.java):
    what a caller can conclude from the board's contracts alone. */
module Scenarios {
  import opened Games
  import opened Board
  import Summary

  method StartOneGame() {
    var board := new ScoreBoard();
    var outcome := board.StartGame("Poland", "German", 0);
    assert outcome == Pass;
    var game := board.currentGame;
    assert game != null && board.games == {game};
    assert game.homeTeam.name == "Poland" && game.awayTeam.name == "German";
    assert game.homeTeam.score == 0 && game.awayTeam.score == 0;
  }

  method StartTwoGames() {
    var board := new ScoreBoard();
    var first := board.StartGame("Poland", "German", 0);
    var game1 := board.currentGame;
    var second := board.StartGame("France", "Spain", 0);
    var game2 := board.currentGame;
    assert first == Pass && second == Pass;
    assert board.games == {game1, game2} && game1 != game2;
    assert |board.games| == 2;
  }

  method DuplicateGameIsRejected() {
    var board := new ScoreBoard();
    var first := board.StartGame("Poland", "German", 0);
    var game := board.currentGame;
    var again := board.StartGame("Poland", "German", 1);
    assert again == Fail(GameAlreadyExists("Poland", "German"));
    assert board.games == {game} && board.currentGame == game;
  }

  /** The pair is ordered: the reverse fixture and a different away team are new games. */
  method PairIsOrdered() {
    var board := new ScoreBoard();
    var first := board.StartGame("Poland", "German", 0);
    var reversed := board.StartGame("German", "Poland", 1);
    assert reversed == Pass;
    var other := board.StartGame("Poland", "Spain", 2);
    assert other == Pass;
  }

  method FinishedGameStillBlocksItsPair() {
    var board := new ScoreBoard();
    var first := board.StartGame("Poland", "German", 0);
    board.FinishGame();
    assert board.currentGame == null;
    board.FinishGame();
    assert board.currentGame == null;
    var again := board.StartGame("Poland", "German", 1);
    assert again.Fail?;
  }

  method UpdateScores() {
    var board := new ScoreBoard();
    var started := board.StartGame("Poland", "German", 0);
    var game := board.currentGame;
    var outcome := board.UpdateScore(0, 1);
    assert outcome == Pass;
    assert game.homeTeam.score == 0 && game.awayTeam.score == 1;
    outcome := board.UpdateScore(1, 1);
    assert outcome == Pass;
    assert game.homeTeam.score == 1 && game.awayTeam.score == 1;
    outcome := board.UpdateScore(10, 1);
    assert outcome == Fail(InvalidScore);
    outcome := board.UpdateScore(-2, 1);
    assert outcome == Fail(InvalidScore);
    outcome := board.UpdateScore(1, -1);
    assert outcome == Fail(InvalidScore);
    assert game.homeTeam.score == 1 && game.awayTeam.score == 1;
  }

  method UpdateWithoutCurrentGameFails() {
    var board := new ScoreBoard();
    var outcome := board.UpdateScore(0, 1);
    assert outcome == Fail(InvalidScore);
  }

  /** The summary of a board holding two games ranked strictly apart lists
      the higher-ranked one first. */
  method SummaryOfTwo(board: ScoreBoard, leader: Game, trailer: Game)
    requires board.games == {leader, trailer}
    requires Summary.SummaryCompare(leader, trailer) < 0
  {
    var summary := board.GetSummary();
    assert multiset(summary) == multiset{leader, trailer};
    Summary.SortedPair(summary, leader, trailer);
    assert summary == [leader, trailer];
  }

  method SummaryByTotalScore() {
    var board := new ScoreBoard();
    var first := board.StartGame("Poland", "German", 0);
    var game1 := board.currentGame;
    var second := board.StartGame("France", "Spain", 0);
    var game2 := board.currentGame;
    var updated := board.UpdateScore(0, 1);
    assert board.games == {game2, game1};
    assert game1.TotalScore() == 0 && game2.TotalScore() == 1;
    SummaryOfTwo(board, game2, game1);
  }

  method SummaryByCreationTime() {
    var board := new ScoreBoard();
    var first := board.StartGame("Poland", "German", 1);
    var game1 := board.currentGame;
    var second := board.StartGame("France", "Spain", 2);
    var game2 := board.currentGame;
    assert board.games == {game2, game1};
    assert game1.TotalScore() == 0 && game2.TotalScore() == 0;
    SummaryOfTwo(board, game2, game1);
  }

  method ResetEmptiesTheBoard() {
    var board := new ScoreBoard();
    var started := board.StartGame("Poland", "German", 0);
    var game := board.currentGame;
    board.ResetScoreBoard();
    var summary := board.GetSummary();
    assert |summary| == |multiset(summary)| == 0;
    // The current game survives the reset and still takes updates.
    assert board.currentGame == game;
    var outcome := board.UpdateScore(1, 0);
    assert outcome == Pass && game.homeTeam.score == 1;
    // Its pair is free again.
    var again := board.StartGame("Poland", "German", 1);
    assert again == Pass;
  }
}
