/** The top-level client component: the screen state machine, the character
    table, the score bookkeeping after a round, the stored copy of the pipe
    list and the request body of a score submission. */
module FlappyBird {
  import opened Js
  import opened Pipes

  datatype GameState = Start | Selection | Playing | GameOver | LeaderboardView

  datatype Character = Character(
    id: string,
    name: string,
    color: string,
    jumpHeight: real,
    fallSpeed: real,
    moveSpeed: real,
    size: real)

  /** The one character whose final score is tripled, matched by name. */
  const BONUS_NAME: string := "Vanguard of Latency"

  /** The four playable characters. */
  function Characters(): (cs: seq<Character>)
    ensures |cs| == 4
    ensures forall i, j :: 0 <= i < j < |cs| ==> cs[i].id != cs[j].id
    ensures forall i :: 0 <= i < |cs| ==> cs[i].size > 0.0 && cs[i].fallSpeed > 0.0 && cs[i].moveSpeed > 0.0
    ensures forall i :: 0 <= i < |cs| ==> (cs[i].name == BONUS_NAME <==> cs[i].id == "yellow")
  {
    [ Character("yellow", "Vanguard of Latency", "yellow", 4.0, 0.5, 5.0, 30.0),
      Character("red", "Guardian of Privacy", "red", 3.5, 0.5, 3.0, 28.0),
      Character("blue", "Sentinel of Uptime", "blue", 4.0, 0.3, 2.0, 32.0),
      Character("green", "General of Open Access", "green", 4.5, 0.45, 2.5, 25.0) ]
  }

  /** The score kept after a round with the selected character. */
  function AdjustedScore(selected: Option<Character>, finalScore: nat): (kept: nat)
    ensures kept == finalScore || kept == 3 * finalScore
    ensures finalScore <= kept
  {
    if selected.Some? && selected.value.name == BONUS_NAME then finalScore * 3 else finalScore
  }

  /** Of the four characters only the yellow one triples the score; nothing
      selected keeps it as it is. */
  lemma OnlyYellowTriples(i: nat, finalScore: nat)
    requires i < |Characters()|
    ensures AdjustedScore(Some(Characters()[i]), finalScore)
            == if Characters()[i].id == "yellow" then 3 * finalScore else finalScore
    ensures AdjustedScore(None, finalScore) == finalScore
  {
  }

  function Max(a: nat, b: nat): nat
  {
    if a < b then b else a
  }

  /** The comparison that decides whether the stored pipe list is replaced:
      a different length, or some index whose pipe differs in a field. */
  predicate PipesChanged(pipes: seq<Pipe>, prevPipes: seq<Pipe>)
    ensures pipes == prevPipes ==> !PipesChanged(pipes, prevPipes)
    ensures |pipes| != |prevPipes| ==> PipesChanged(pipes, prevPipes)
  {
    || |pipes| != |prevPipes|
    || exists i :: 0 <= i < |pipes| &&
         (|prevPipes| <= i
          || pipes[i].x != prevPipes[i].x
          || pipes[i].topHeight != prevPipes[i].topHeight
          || pipes[i].passed != prevPipes[i].passed)
  }

  /** The field-by-field comparison is exactly value inequality of the lists. */
  lemma PipesChangedIffDifferent(pipes: seq<Pipe>, prevPipes: seq<Pipe>)
    ensures PipesChanged(pipes, prevPipes) <==> pipes != prevPipes
  {
    if !PipesChanged(pipes, prevPipes) {
      assert forall i :: 0 <= i < |pipes| ==> pipes[i] == prevPipes[i];
    }
  }

  /** The characters `String.prototype.trim` removes: white space (tab,
      vertical tab, form feed, space, no-break space, byte order mark and
      the other space separators) and line terminators. */
  predicate IsTrimmed(c: char)
  {
    || c == '\t' || c == '\n' || c == '\U{000B}' || c == '\U{000C}' || c == '\r'
    || c == ' ' || c == '\U{00A0}' || c == '\U{1680}' || ('\U{2000}' <= c <= '\U{200A}')
    || c == '\U{2028}' || c == '\U{2029}' || c == '\U{202F}' || c == '\U{205F}'
    || c == '\U{3000}' || c == '\U{FEFF}'
  }

  function TrimStart(s: string): string
  {
    if s != [] && IsTrimmed(s[0]) then TrimStart(s[1..]) else s
  }

  function TrimEnd(s: string): string
  {
    if s != [] && IsTrimmed(s[|s| - 1]) then TrimEnd(s[..|s| - 1]) else s
  }

  function Trim(s: string): string
  {
    TrimEnd(TrimStart(s))
  }

  /** A name trims to nothing exactly when all its characters are white space. */
  lemma {:induction false} TrimEmptyIffBlank(s: string)
    ensures Trim(s) == "" <==> forall i :: 0 <= i < |s| ==> IsTrimmed(s[i])
  {
    TrimStartEmptyIffBlank(s);
    var t := TrimStart(s);
    if t != [] {
      TrimStartKeepsFirst(s);
      TrimEndKeepsLast(t);
    }
  }

  lemma {:induction false} TrimStartEmptyIffBlank(s: string)
    ensures TrimStart(s) == "" <==> forall i :: 0 <= i < |s| ==> IsTrimmed(s[i])
  {
    if s != [] && IsTrimmed(s[0]) {
      TrimStartEmptyIffBlank(s[1..]);
      assert forall i :: 1 <= i < |s| ==> s[i] == s[1..][i - 1];
    }
  }

  lemma {:induction false} TrimStartKeepsFirst(s: string)
    ensures TrimStart(s) != "" ==> !IsTrimmed(TrimStart(s)[0])
  {
    if s != [] && IsTrimmed(s[0]) {
      TrimStartKeepsFirst(s[1..]);
    }
  }

  lemma {:induction false} TrimEndKeepsLast(s: string)
    requires s != [] && !IsTrimmed(s[0])
    ensures TrimEnd(s) != ""
  {
    if IsTrimmed(s[|s| - 1]) {
      TrimEndKeepsLast(s[..|s| - 1]);
    }
  }

  /** One pipe as the submitted game data carries it. */
  function EncodePipe(p: Pipe): JsValue
  {
    Obj(map["x" := Number(p.x), "topHeight" := Number(p.topHeight as real), "passed" := Bool(p.passed)])
  }

  /** The body of the score submission request: the name and the game data
      (the passed-pipe count, the stored pipes and the stored width). */
  function SubmitBody(name: string, pipes: seq<Pipe>, gameWidth: real): (body: JsValue)
    ensures Prop(body, "name") == Str(name)
    ensures Prop(Prop(body, "gameData"), "pipesPassed") == Number(CountPassed(pipes) as real)
    ensures var trace := Prop(Prop(body, "gameData"), "pipes");
            trace.Arr? && |trace.items| == |pipes|
            && forall i :: 0 <= i < |pipes| ==> trace.items[i] == EncodePipe(pipes[i])
    ensures Prop(Prop(body, "gameData"), "gameWidth") == Number(gameWidth)
  {
    var gameData := Obj(map[
      "pipesPassed" := Number(CountPassed(pipes) as real),
      "pipes" := Arr(seq(|pipes|, i requires 0 <= i < |pipes| => EncodePipe(pipes[i]))),
      "gameWidth" := Number(gameWidth)]);
    Obj(map["name" := Str(name), "gameData" := gameData])
  }

  /** What the component renders inside its frame. */
  datatype Screen =
    | StartScreen
    | CharacterSelection(choices: seq<Character>)
    | PlayScreen(character: Character)
    | GameOverScreen(score: nat, highScore: nat, defaultName: string)
    | LeaderboardScreen

  /** The component's state. `pipesVersion` counts the times the stored pipe
      list was replaced by a new array (each replacement re-renders). */
  class App {
    var gameState: GameState
    var selectedCharacter: Option<Character>
    var score: nat
    var highScore: nat
    var playerName: string
    var pipes: seq<Pipe>
    var pipesVersion: nat
    var gameWidth: real

    constructor ()
      ensures gameState == Start && selectedCharacter == None
      ensures score == 0 && highScore == 0 && playerName == ""
      ensures pipes == [] && pipesVersion == 0 && gameWidth == 0.0
    {
      gameState := Start;
      selectedCharacter := None;
      score := 0;
      highScore := 0;
      playerName := "";
      pipes := [];
      pipesVersion := 0;
      gameWidth := 0.0;
    }

    method HandleStartGame()
      modifies this`gameState
      ensures gameState == Selection
    {
      gameState := Selection;
    }

    method HandleCharacterSelect(character: Character)
      modifies this`selectedCharacter, this`gameState
      ensures selectedCharacter == Some(character) && gameState == Playing
    {
      selectedCharacter := Some(character);
      gameState := Playing;
    }

    /** The round ended with `finalScore` points. */
    method HandleGameOver(finalScore: nat)
      modifies this`score, this`highScore, this`gameState
      ensures score == AdjustedScore(selectedCharacter, finalScore)
      ensures selectedCharacter.Some? && selectedCharacter.value.name == BONUS_NAME ==> score == 3 * finalScore
      ensures !(selectedCharacter.Some? && selectedCharacter.value.name == BONUS_NAME) ==> score == finalScore
      ensures highScore == Max(old(highScore), score) && highScore >= old(highScore)
      ensures gameState == GameOver
    {
      var adjustedScore := finalScore;
      if selectedCharacter.Some? && selectedCharacter.value.name == BONUS_NAME {
        adjustedScore := finalScore * 3;
      }
      score := adjustedScore;
      if adjustedScore > highScore {
        highScore := adjustedScore;
      }
      gameState := GameOver;
    }

    method HandleRestart()
      modifies this`gameState, this`score
      ensures gameState == Selection && score == 0
    {
      gameState := Selection;
      score := 0;
    }

    method HandleViewLeaderboard()
      modifies this`gameState
      ensures gameState == LeaderboardView
    {
      gameState := LeaderboardView;
    }

    method HandleBackToMenu()
      modifies this`gameState
      ensures gameState == Start
    {
      gameState := Start;
    }

    /** Store the game screen's pipes and width. The list is replaced only
      when it differs, so a repeated report changes nothing. */
    method HandleUpdateGameData(newPipes: seq<Pipe>, newWidth: real)
      modifies this`pipes, this`pipesVersion, this`gameWidth
      ensures pipes == newPipes && gameWidth == newWidth
      ensures pipesVersion == if old(pipes) == newPipes then old(pipesVersion) else old(pipesVersion) + 1
      ensures old(pipes) == newPipes && old(gameWidth) == newWidth ==> unchanged(this)
    {
      PipesChangedIffDifferent(newPipes, pipes);
      if PipesChanged(newPipes, pipes) {
        pipes := newPipes;
        pipesVersion := pipesVersion + 1;
      }
      if newWidth != gameWidth {
        gameWidth := newWidth;
      }
    }

    /** Submit the score under `name`. Returns the request body sent, if
      any; `responseOk` is whether the server answered with a success
      status. */
    method HandleSubmitScore(name: string, responseOk: bool) returns (sent: Option<JsValue>)
      modifies this`playerName, this`gameState
      ensures Trim(name) == "" ==> sent == None && unchanged(this)
      ensures Trim(name) != "" ==>
                && sent == Some(SubmitBody(name, pipes, gameWidth))
                && Prop(Prop(sent.value, "gameData"), "pipesPassed") == Number(CountPassed(pipes) as real)
                && playerName == name
                && gameState == if responseOk then LeaderboardView else old(gameState)
    {
      if Trim(name) == "" {
        return None;
      }
      playerName := name;
      sent := Some(SubmitBody(name, pipes, gameWidth));
      if responseOk {
        gameState := LeaderboardView;
      }
    }

    /** The screens rendered for the current state. The five conditional
      blocks test exclusive states, so at most one of them renders. */
    function Screens(): (shown: seq<Screen>)
      reads this
      ensures |shown| <= 1
      ensures shown == [] <==> gameState == Playing && selectedCharacter.None?
      ensures gameState == Playing && selectedCharacter.Some? <==>
                selectedCharacter.Some? && shown == [PlayScreen(selectedCharacter.value)]
      ensures gameState == Start <==> shown == [StartScreen]
      ensures gameState == LeaderboardView <==> shown == [LeaderboardScreen]
      ensures gameState == Selection <==> shown == [CharacterSelection(Characters())]
      ensures gameState == GameOver <==> shown == [GameOverScreen(score, highScore, playerName)]
    {
      match gameState
      case Start => [StartScreen]
      case Selection => [CharacterSelection(Characters())]
      case Playing => if selectedCharacter.Some? then [PlayScreen(selectedCharacter.value)] else []
      case GameOver => [GameOverScreen(score, highScore, playerName)]
      case LeaderboardView => [LeaderboardScreen]
    }
  }
}
