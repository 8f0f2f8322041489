/** The game screen of one round: the bird's state, the pipe list, the
    round's score and the loop refs, advanced one animation frame at a
    time. */
module GameScreen {
  import opened Js
  import opened Pipes
  import opened FlappyBird

  /** Elapsed time of a frame; the first frame (no previous timestamp yet)
      counts as no time at all. */
  function Elapsed(lastTime: real, timestamp: real): (dt: real)
    ensures lastTime == 0.0 ==> dt == 0.0
    ensures lastTime != 0.0 ==> lastTime + dt == timestamp
    ensures lastTime <= timestamp ==> dt >= 0.0
  {
    if lastTime == 0.0 then 0.0 else timestamp - lastTime
  }

  /** Per-frame displacement for a speed given in pixels per 16 ms frame. */
  function Displacement(speed: real, dt: real): (d: real)
    ensures speed >= 0.0 && dt >= 0.0 ==> d >= 0.0
  {
    speed * (dt / 16.0)
  }

  class GameRound {
    const character: Character
    var birdPosition: real
    var birdVelocity: real
    var pipes: seq<Pipe>
    var score: nat
    var gameWidth: real
    /** Timestamp of the previous frame, 0 before the first one. */
    var lastTime: real
    /** Cleared when the round ends; frames after that do nothing. */
    var active: bool

    ghost predicate Valid()
      reads this
    {
      HeightsInRange(pipes)
    }

    constructor (character: Character)
      ensures Valid() && this.character == character
      ensures birdPosition == (GAME_HEIGHT / 2) as real && birdVelocity == 0.0
      ensures pipes == [] && score == 0 && gameWidth == 0.0
      ensures lastTime == 0.0 && active
    {
      this.character := character;
      birdPosition := (GAME_HEIGHT / 2) as real;
      birdVelocity := 0.0;
      pipes := [];
      score := 0;
      gameWidth := 0.0;
      lastTime := 0.0;
      active := true;
    }

    /** The container reports its width. A new, positive width starts the
      pipe list afresh with one pipe at the right edge; `r` is the random
      draw for its height. */
    method Resize(width: real, r: real)
      requires Valid() && 0.0 <= r < 1.0
      modifies this`gameWidth, this`pipes
      ensures Valid() && gameWidth == width
      ensures pipes == if width != old(gameWidth) && width > 0.0 then [CreatePipe(width, r)] else old(pipes)
    {
      if width != gameWidth {
        gameWidth := width;
        if width > 0.0 {
          pipes := [CreatePipe(width, r)];
        }
      }
    }

    /** A click, tap or space key: the velocity is overwritten. */
    method Jump()
      modifies this`birdVelocity
      ensures birdVelocity == -character.jumpHeight
    {
      birdVelocity := -character.jumpHeight;
    }

    /** One animation frame at `timestamp`; `r` is the random draw used if a
      pipe is spawned. Returns the score reported to the game-over handler
      when the frame ends the round. */
    method Tick(timestamp: real, r: real) returns (gameOver: Option<nat>)
      requires Valid() && 0.0 <= r < 1.0
      modifies this`birdPosition, this`birdVelocity, this`pipes, this`score, this`lastTime, this`active
      ensures Valid()
      ensures !old(active) || gameWidth == 0.0 ==> gameOver == None && unchanged(this)
      ensures old(active) && gameWidth != 0.0 ==>
                var dt := Elapsed(old(lastTime), timestamp);
                var next := Integrate(old(birdPosition), old(birdVelocity), Displacement(character.fallSpeed, dt));
                var dx := Displacement(character.moveSpeed, dt);
                && lastTime == timestamp
                && (Collides(next.0, old(pipes), character.size, gameWidth) ==>
                      && gameOver == Some(old(score)) && !active
                      && birdPosition == old(birdPosition) && birdVelocity == old(birdVelocity)
                      && pipes == old(pipes) && score == old(score))
                && (!Collides(next.0, old(pipes), character.size, gameWidth) ==>
                      && gameOver == None && active
                      && birdPosition == next.0 && birdVelocity == next.1
                      && pipes == NextPipes(old(pipes), dx, gameWidth, character.size, r)
                      && score == old(score) + FlipCount(old(pipes), dx, BirdLeft(gameWidth, character.size)))
    {
      if !active || gameWidth == 0.0 {
        return None;
      }
      if lastTime == 0.0 {
        lastTime := timestamp;
      }
      var deltaTime := timestamp - lastTime;
      lastTime := timestamp;
      ghost var next := Integrate(birdPosition, birdVelocity, Displacement(character.fallSpeed, deltaTime));
      assert deltaTime == Elapsed(old(lastTime), timestamp);

      var newVelocity := birdVelocity + Displacement(character.fallSpeed, deltaTime);
      var newPosition := birdPosition + newVelocity;
      assert newPosition == next.0 && newVelocity == next.1;

      var hit := CheckCollision(newPosition, pipes, character.size, gameWidth);
      if hit {
        active := false;
        assert Collides(next.0, pipes, character.size, gameWidth);
        return Some(score);
      }
      assert !Collides(next.0, pipes, character.size, gameWidth);

      birdVelocity := newVelocity;
      birdPosition := newPosition;

      var dx := Displacement(character.moveSpeed, deltaTime);
      var nextPipes, points := AdvancePipes(pipes, dx, gameWidth, character.size, r);
      NextPipesKeepsHeightsInRange(pipes, dx, gameWidth, character.size, r);
      pipes := nextPipes;
      score := score + points;
      return None;
    }
  }
}
