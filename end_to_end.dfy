/** How the client's submission meets the server's checks. */
module EndToEnd {
  import opened Js
  import opened Pipes
  import opened FlappyBird
  import opened Leaderboard
  import opened SubmitRoute

  /** The server's score for a client submission is the client's count of
      passed pipes in its stored list. */
  lemma ServerScoreIsClientCount(name: string, pipes: seq<Pipe>, gameWidth: real)
    ensures ComputeScore(Prop(SubmitBody(name, pipes, gameWidth), "gameData")) == CountPassed(pipes) as real
  {
    var gameData := Prop(SubmitBody(name, pipes, gameWidth), "gameData");
    assert Truthy(gameData);
  }

  /** A submission the client sends (its name does not trim to nothing) is
      stored with the passed-pipe count as its score when that count is
      positive, and refused as a bad request otherwise. */
  lemma ClientSubmissionVerdict(name: string, pipes: seq<Pipe>, gameWidth: real)
    requires Trim(name) != ""
    ensures SubmitVerdict(Body(SubmitBody(name, pipes, gameWidth)))
            == if CountPassed(pipes) > 0 then Store(Str(name), CountPassed(pipes) as real)
               else Reject(400, INVALID_SCORE)
  {
    ServerScoreIsClientCount(name, pipes, gameWidth);
  }

  /** The client's stored pipe list starts empty and is only filled by the
      game-data handler; while it is empty, every submission is refused. */
  lemma EmptyStoredPipesAreRefused(name: string, gameWidth: real)
    requires Trim(name) != ""
    ensures SubmitVerdict(Body(SubmitBody(name, [], gameWidth))) == Reject(400, INVALID_SCORE)
  {
    ClientSubmissionVerdict(name, [], gameWidth);
  }

  /** A stored client score is a whole number, so only the store being down,
      a name longer than the column or a count beyond the column's range can
      make the insert fail. */
  lemma ClientScoreFitsColumn(name: string, pipes: seq<Pipe>)
    requires |name| <= NAME_MAX_LENGTH && CountPassed(pipes) <= INT_MAX
    ensures StorageAccepts(Str(name), CountPassed(pipes) as real, true)
  {
  }
}
