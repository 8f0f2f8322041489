/** The score submission route: the score is taken from the submitted game
    data, checked, and appended to the leaderboard table. */
module SubmitRoute {
  import opened Js
  import opened Leaderboard

  const INVALID_NAME: string := "Invalid input. Name is required."
  const INVALID_SCORE: string := "Invalid game data or score is zero."
  const SUBMIT_FAILED: string := "Failed to submit score"

  /** The score of a submission: the claimed `pipesPassed` when the game
      data is present and that field is a number, 0 otherwise. The rest of
      the game data (the pipe list, the width) is not looked at. */
  function ComputeScore(gameData: JsValue): (score: real)
    ensures score == 0.0 || (gameData.Obj? && Prop(gameData, "pipesPassed") == Number(score))
    ensures !Truthy(gameData) ==> score == 0.0
    ensures Truthy(gameData) && Prop(gameData, "pipesPassed").Number? ==> score == Prop(gameData, "pipesPassed").n
  {
    if !Truthy(gameData) || !Prop(gameData, "pipesPassed").Number? then 0.0
    else Prop(gameData, "pipesPassed").n
  }

  /** Changing or adding any field other than `pipesPassed` — the pipe trace
      included — never changes the score. */
  lemma ComputeScoreReadsOnlyPipesPassed(fields: map<string, JsValue>, key: string, v: JsValue)
    requires key != "pipesPassed"
    ensures ComputeScore(Obj(fields[key := v])) == ComputeScore(Obj(fields))
  {
    assert Prop(Obj(fields[key := v]), "pipesPassed") == Prop(Obj(fields), "pipesPassed");
  }

  /** Any body with a non-empty string name and a positive numeric
      `pipesPassed` claim is stored with exactly that claim as its score,
      whatever else the game data holds. */
  lemma AnyClaimedCountIsStored(name: string, extra: map<string, JsValue>, k: real)
    requires name != "" && k > 0.0
    ensures SubmitVerdict(Body(Obj(map["name" := Str(name), "gameData" := Obj(extra["pipesPassed" := Number(k)])])))
            == Store(Str(name), k)
  {
    assert Prop(Obj(extra["pipesPassed" := Number(k)]), "pipesPassed") == Number(k);
  }

  /** `name` is a non-empty string. */
  predicate ValidName(name: JsValue)
  {
    Truthy(name) && name.Str?
  }

  /** The checks of the submission route, in order: an unreadable body is a
      server error; a missing or non-string name is a bad request before any
      score is computed; a score that is not positive is a bad request;
      otherwise the row to insert. */
  function SubmitVerdict(request: Request): (v: Verdict)
    ensures !request.Body? || !Destructurable(request.json) ==> v == Reject(500, SUBMIT_FAILED)
    ensures request.Body? && Destructurable(request.json) ==>
              var name, gameData := Prop(request.json, "name"), Prop(request.json, "gameData");
              && (!ValidName(name) ==> v == Reject(400, INVALID_NAME))
              && (ValidName(name) && ComputeScore(gameData) <= 0.0 ==> v == Reject(400, INVALID_SCORE))
              && (ValidName(name) && ComputeScore(gameData) > 0.0 ==> v == Store(name, ComputeScore(gameData)))
    ensures v.Store? ==> v.name.Str? && v.name.s != "" && v.score > 0.0
  {
    if request.Unparsable? || !Destructurable(request.json) then Reject(500, SUBMIT_FAILED)
    else
      var name := Prop(request.json, "name");
      var gameData := Prop(request.json, "gameData");
      if !Truthy(name) || !name.Str? then Reject(400, INVALID_NAME)
      else
        var score := ComputeScore(gameData);
        if score <= 0.0 then Reject(400, INVALID_SCORE)
        else Store(name, score)
  }

  /** POST /api/leaderboard/submit. */
  method Submit(table: Table, request: Request, now: int, dbUp: bool) returns (resp: Response)
    requires table.Valid()
    modifies table
    ensures table.Valid()
    ensures var v := SubmitVerdict(request);
            && (v.Reject? ==> resp == Failure(v.status, v.error) && table.rows == old(table.rows))
            && (v.Store? && StorageAccepts(v.name, v.score, dbUp) ==>
                  resp == Success(Entry(v.name, v.score.Floor, now)) && table.rows == old(table.rows) + [resp.entry])
            && (v.Store? && !StorageAccepts(v.name, v.score, dbUp) ==>
                  resp == Failure(500, SUBMIT_FAILED) && table.rows == old(table.rows))
  {
    resp := table.Apply(SubmitVerdict(request), now, dbUp, SUBMIT_FAILED);
  }
}
