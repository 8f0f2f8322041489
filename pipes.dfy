/** The obstacle rules of the game screen: creating a pipe, detecting a
    collision, the per-tick pipe update and the bird's physics step.
    Coordinates are exact reals: screen pixels, y growing downwards. */
module Pipes {

  const GAME_HEIGHT: int := 500
  const PIPE_WIDTH: real := 60.0
  const PIPE_GAP: int := 150
  const PIPE_SPACING: real := 200.0
  /** Height of the ground band at the bottom of the playfield. */
  const GROUND_HEIGHT: int := 80
  const MIN_TOP_HEIGHT: int := 50
  const MAX_TOP_HEIGHT: int := GAME_HEIGHT - PIPE_GAP - 50
  /** A pipe is dropped once its right edge is this far left of the screen. */
  const OFF_SCREEN_MARGIN: real := 10.0

  /** An obstacle: the left edge `x`, the height of the top segment, and
      whether the bird has already scored for it. */
  datatype Pipe = Pipe(x: real, topHeight: int, passed: bool)

  // ---------------------------------------------------------------------
  // createPipe

  /** A new pipe at `startX`. `r` is the draw of the random source, in
      [0, 1); the top height is floor(r * 251) + 50. */
  function CreatePipe(startX: real, r: real): (p: Pipe)
    requires 0.0 <= r < 1.0
    ensures p.x == startX && !p.passed
    ensures MIN_TOP_HEIGHT <= p.topHeight <= MAX_TOP_HEIGHT
  {
    var span := MAX_TOP_HEIGHT - MIN_TOP_HEIGHT + 1;
    Pipe(startX, (r * span as real).Floor + MIN_TOP_HEIGHT, false)
  }

  /** Every height of the range is produced by some draw. */
  lemma CreatePipeReachesEveryHeight(startX: real, h: int)
    requires MIN_TOP_HEIGHT <= h <= MAX_TOP_HEIGHT
    ensures exists r :: 0.0 <= r < 1.0 && CreatePipe(startX, r).topHeight == h
  {
    var span := MAX_TOP_HEIGHT - MIN_TOP_HEIGHT + 1;
    var r := (h - MIN_TOP_HEIGHT) as real / span as real;
    assert r * span as real == (h - MIN_TOP_HEIGHT) as real;
    assert CreatePipe(startX, r).topHeight == h;
  }

  // ---------------------------------------------------------------------
  // checkCollision

  /** The bird touches the ceiling or the ground band. */
  predicate HitsBand(birdY: real, birdSize: real)
  {
    birdY - birdSize / 2.0 <= 0.0 || birdY + birdSize / 2.0 >= (GAME_HEIGHT - GROUND_HEIGHT) as real
  }

  /** The bird's horizontal span, centred on the middle of the screen,
      overlaps the pipe's span. */
  predicate Overlaps(p: Pipe, birdSize: real, gameWidth: real)
  {
    gameWidth / 2.0 + birdSize / 2.0 > p.x && gameWidth / 2.0 - birdSize / 2.0 < p.x + PIPE_WIDTH
  }

  /** The bird reaches into the top segment or into the bottom segment. */
  predicate OutsideGap(p: Pipe, birdY: real, birdSize: real)
  {
    birdY - birdSize / 2.0 < p.topHeight as real || birdY + birdSize / 2.0 > (p.topHeight + PIPE_GAP) as real
  }

  predicate HitsPipe(birdY: real, p: Pipe, birdSize: real, gameWidth: real)
  {
    Overlaps(p, birdSize, gameWidth) && OutsideGap(p, birdY, birdSize)
  }

  /** Reference definition of a terminal contact. */
  ghost predicate Collides(birdY: real, pipes: seq<Pipe>, birdSize: real, gameWidth: real)
  {
    || HitsBand(birdY, birdSize)
    || exists i :: 0 <= i < |pipes| && HitsPipe(birdY, pipes[i], birdSize, gameWidth)
  }

  /** The collision test as the game runs it: the band first, then each pipe
      in order, returning at the first hit. */
  method CheckCollision(birdY: real, pipes: seq<Pipe>, birdSize: real, gameWidth: real) returns (hit: bool)
    ensures hit <==> Collides(birdY, pipes, birdSize, gameWidth)
    ensures HitsBand(birdY, birdSize) ==> hit
  {
    if birdY - birdSize / 2.0 <= 0.0 || birdY + birdSize / 2.0 >= (GAME_HEIGHT - GROUND_HEIGHT) as real {
      return true;
    }
    var birdLeft := gameWidth / 2.0 - birdSize / 2.0;
    var birdRight := gameWidth / 2.0 + birdSize / 2.0;
    for i := 0 to |pipes|
      invariant forall j :: 0 <= j < i ==> !HitsPipe(birdY, pipes[j], birdSize, gameWidth)
    {
      var pipeLeft := pipes[i].x;
      var pipeRight := pipes[i].x + PIPE_WIDTH;
      if birdRight > pipeLeft && birdLeft < pipeRight {
        if birdY - birdSize / 2.0 < pipes[i].topHeight as real {
          return true;
        }
        if birdY + birdSize / 2.0 > (pipes[i].topHeight + PIPE_GAP) as real {
          return true;
        }
      }
    }
    return false;
  }

  /** A pipe that does not overlap the bird horizontally never decides the
      outcome: removing it anywhere from the list changes nothing. */
  lemma NonOverlappingPipeIsHarmless(birdY: real, a: seq<Pipe>, p: Pipe, b: seq<Pipe>, birdSize: real, gameWidth: real)
    requires !Overlaps(p, birdSize, gameWidth)
    ensures Collides(birdY, a + [p] + b, birdSize, gameWidth) <==> Collides(birdY, a + b, birdSize, gameWidth)
  {
    var s, t := a + [p] + b, a + b;
    if Collides(birdY, s, birdSize, gameWidth) && !HitsBand(birdY, birdSize) {
      var i :| 0 <= i < |s| && HitsPipe(birdY, s[i], birdSize, gameWidth);
      var j := if i < |a| then i else i - 1;
      assert t[j] == s[i];
    }
    if Collides(birdY, t, birdSize, gameWidth) && !HitsBand(birdY, birdSize) {
      var j :| 0 <= j < |t| && HitsPipe(birdY, t[j], birdSize, gameWidth);
      var i := if j < |a| then j else j + 1;
      assert s[i] == t[j];
    }
  }

  /** With no pipes, only the ceiling and the ground end the game. */
  lemma NoPipesOnlyBand(birdY: real, birdSize: real, gameWidth: real)
    ensures Collides(birdY, [], birdSize, gameWidth) <==> HitsBand(birdY, birdSize)
  {
  }

  /** For a single overlapping pipe, collision holds iff the bird leaves the
      band or reaches outside the gap. */
  lemma OverlappingPipeDecidesByGap(birdY: real, p: Pipe, birdSize: real, gameWidth: real)
    requires Overlaps(p, birdSize, gameWidth)
    ensures Collides(birdY, [p], birdSize, gameWidth) <==> HitsBand(birdY, birdSize) || OutsideGap(p, birdY, birdSize)
  {
    assert [p][0] == p;
  }

  // ---------------------------------------------------------------------
  // The per-tick pipe update

  /** Horizontal position of the bird's left edge. */
  function BirdLeft(gameWidth: real, birdSize: real): real
  {
    gameWidth / 2.0 - birdSize / 2.0
  }

  /** A pipe after moving left by `dx`; it becomes passed when its right
      edge is now strictly left of the bird. */
  function Moved(p: Pipe, dx: real, birdLeft: real): Pipe
  {
    var q := p.(x := p.x - dx);
    if !q.passed && q.x + PIPE_WIDTH < birdLeft then q.(passed := true) else q
  }

  /** The pipe's passed flag goes from false to true in this move. */
  predicate Flips(p: Pipe, dx: real, birdLeft: real)
  {
    !p.passed && p.x - dx + PIPE_WIDTH < birdLeft
  }

  function MoveAll(s: seq<Pipe>, dx: real, birdLeft: real): seq<Pipe>
  {
    seq(|s|, i requires 0 <= i < |s| => Moved(s[i], dx, birdLeft))
  }

  /** Number of pipes of `s` whose flag flips in this move. */
  function FlipCount(s: seq<Pipe>, dx: real, birdLeft: real): (n: nat)
    ensures n <= |s|
  {
    if s == [] then 0
    else FlipCount(s[..|s| - 1], dx, birdLeft) + if Flips(s[|s| - 1], dx, birdLeft) then 1 else 0
  }

  /** Number of pipes of `s` already passed. */
  function CountPassed(s: seq<Pipe>): (n: nat)
    ensures n <= |s|
  {
    if s == [] then 0 else CountPassed(s[..|s| - 1]) + if s[|s| - 1].passed then 1 else 0
  }

  predicate OnScreen(p: Pipe)
  {
    p.x + PIPE_WIDTH > -OFF_SCREEN_MARGIN
  }

  /** The pipes of `s` still on screen, in order. */
  function KeepOnScreen(s: seq<Pipe>): (kept: seq<Pipe>)
    ensures |kept| <= |s|
    ensures forall k :: 0 <= k < |kept| ==> OnScreen(kept[k])
  {
    if s == [] then []
    else KeepOnScreen(s[..|s| - 1]) + if OnScreen(s[|s| - 1]) then [s[|s| - 1]] else []
  }

  /** Indices, in increasing order, of exactly the pipes of `s` on screen. */
  function SurvivorIndices(s: seq<Pipe>): (idx: seq<nat>)
    ensures forall k :: 0 <= k < |idx| ==> idx[k] < |s| && OnScreen(s[idx[k]])
    ensures forall k, m :: 0 <= k < m < |idx| ==> idx[k] < idx[m]
    ensures forall i :: 0 <= i < |s| && OnScreen(s[i]) ==> i in idx
  {
    if s == [] then []
    else SurvivorIndices(s[..|s| - 1]) + if OnScreen(s[|s| - 1]) then [|s| - 1] else []
  }

  /** The last pipe, once moved, is far enough left for the next to spawn. */
  predicate SpawnDue(moved: seq<Pipe>, gameWidth: real)
  {
    |moved| > 0 && moved[|moved| - 1].x < gameWidth - PIPE_SPACING
  }

  /** Reference definition of the pipe list after one tick. */
  function NextPipes(pipes: seq<Pipe>, dx: real, gameWidth: real, birdSize: real, r: real): (next: seq<Pipe>)
    requires 0.0 <= r < 1.0
    ensures |next| <= |pipes| + 1
    ensures forall k :: 0 <= k < |next| ==>
              OnScreen(next[k]) || (k == |next| - 1 && next[k] == CreatePipe(gameWidth, r))
  {
    var moved := MoveAll(pipes, dx, BirdLeft(gameWidth, birdSize));
    KeepOnScreen(moved) + if SpawnDue(moved, gameWidth) then [CreatePipe(gameWidth, r)] else []
  }

  /** Extending a prefix by one pipe extends the moved list and the flip
      count by that pipe. */
  lemma PrefixStep(s: seq<Pipe>, i: nat, dx: real, birdLeft: real)
    requires i < |s|
    ensures MoveAll(s[..i + 1], dx, birdLeft) == MoveAll(s[..i], dx, birdLeft) + [Moved(s[i], dx, birdLeft)]
    ensures FlipCount(s[..i + 1], dx, birdLeft)
            == FlipCount(s[..i], dx, birdLeft) + if Flips(s[i], dx, birdLeft) then 1 else 0
  {
    assert s[..i + 1][..i] == s[..i];
  }

  /** The pipe update as the game loop runs it: copy the list, move and
      flag each pipe in place, note whether the last one calls for a new
      pipe, filter out the pipes off screen, then append. `points` is the
      number of score increments the update schedules. */
  method AdvancePipes(prevPipes: seq<Pipe>, dx: real, gameWidth: real, birdSize: real, r: real)
    returns (next: seq<Pipe>, points: nat)
    requires 0.0 <= r < 1.0
    ensures next == NextPipes(prevPipes, dx, gameWidth, birdSize, r)
    ensures points == FlipCount(prevPipes, dx, BirdLeft(gameWidth, birdSize))
  {
    var newPipes := new Pipe[|prevPipes|](i requires 0 <= i < |prevPipes| => prevPipes[i]);
    var addPipe := false;
    points := 0;
    ghost var birdLeft := BirdLeft(gameWidth, birdSize);
    for i := 0 to newPipes.Length
      invariant newPipes[..i] == MoveAll(prevPipes[..i], dx, birdLeft)
      invariant newPipes[i..] == prevPipes[i..]
      invariant points == FlipCount(prevPipes[..i], dx, birdLeft)
      invariant addPipe <==> i == newPipes.Length && SpawnDue(newPipes[..i], gameWidth)
    {
      PrefixStep(prevPipes, i, dx, birdLeft);
      ghost var before := newPipes[..i];
      assert newPipes[i] == prevPipes[i];
      newPipes[i] := newPipes[i].(x := newPipes[i].x - dx);
      if !newPipes[i].passed && newPipes[i].x + PIPE_WIDTH < gameWidth / 2.0 - birdSize / 2.0 {
        newPipes[i] := newPipes[i].(passed := true);
        points := points + 1;
      }
      assert newPipes[i] == Moved(prevPipes[i], dx, birdLeft);
      if i == newPipes.Length - 1 && newPipes[i].x < gameWidth - PIPE_SPACING {
        addPipe := true;
      }
      assert newPipes[..i] == before;
      assert newPipes[..i + 1] == before + [newPipes[i]];
    }
    assert prevPipes[..newPipes.Length] == prevPipes;
    assert newPipes[..] == newPipes[..newPipes.Length];
    var filteredPipes := KeepOnScreen(newPipes[..]);
    if addPipe {
      filteredPipes := filteredPipes + [CreatePipe(gameWidth, r)];
    }
    next := filteredPipes;
  }

  // ---------------------------------------------------------------------
  // Properties of the pipe update

  /** Filtering keeps exactly the on-screen pipes, in their order. */
  lemma {:induction false} KeepOnScreenSelects(s: seq<Pipe>)
    ensures |KeepOnScreen(s)| == |SurvivorIndices(s)|
    ensures forall k :: 0 <= k < |KeepOnScreen(s)| ==> KeepOnScreen(s)[k] == s[SurvivorIndices(s)[k]]
  {
    if s != [] {
      var n := |s| - 1;
      KeepOnScreenSelects(s[..n]);
    }
  }

  /** What one tick does to the pipe list: every surviving pipe moved by the
      same `dx`, its top height kept, its passed flag only ever raised (and
      only when its right edge is left of the bird); survivors keep their
      relative order and are on screen, no on-screen pipe is dropped; at most
      one pipe is appended, at the end, at x = gameWidth, and only when the
      last moved pipe is left of gameWidth - PIPE_SPACING. */
  lemma NextPipesShape(pipes: seq<Pipe>, dx: real, gameWidth: real, birdSize: real, r: real)
    requires 0.0 <= r < 1.0
    ensures var next := NextPipes(pipes, dx, gameWidth, birdSize, r);
            var birdLeft := BirdLeft(gameWidth, birdSize);
            var idx := SurvivorIndices(MoveAll(pipes, dx, birdLeft));
            var spawned := |pipes| > 0 && pipes[|pipes| - 1].x - dx < gameWidth - PIPE_SPACING;
            && |next| == |idx| + (if spawned then 1 else 0)
            && |next| <= |pipes| + 1
            && (forall k, m :: 0 <= k < m < |idx| ==> idx[k] < idx[m])
            && (forall k :: 0 <= k < |idx| ==>
                  && idx[k] < |pipes|
                  && next[k].x == pipes[idx[k]].x - dx
                  && next[k].topHeight == pipes[idx[k]].topHeight
                  && (next[k].passed <==> pipes[idx[k]].passed || next[k].x + PIPE_WIDTH < birdLeft)
                  && OnScreen(next[k]))
            && (forall i :: 0 <= i < |pipes| && pipes[i].x - dx + PIPE_WIDTH > -OFF_SCREEN_MARGIN ==> i in idx)
            && (spawned ==> next[|next| - 1] == CreatePipe(gameWidth, r) && next[|next| - 1].x == gameWidth)
  {
    var birdLeft := BirdLeft(gameWidth, birdSize);
    var moved := MoveAll(pipes, dx, birdLeft);
    KeepOnScreenSelects(moved);
    var idx := SurvivorIndices(moved);
    assert |idx| <= |pipes| by {
      IncreasingIndicesFit(idx, |pipes|);
    }
    forall i | 0 <= i < |pipes| && pipes[i].x - dx + PIPE_WIDTH > -OFF_SCREEN_MARGIN
      ensures i in idx
    {
      assert OnScreen(moved[i]);
    }
  }

  /** Every pipe of `s` has its top segment within the generated range. */
  predicate HeightsInRange(s: seq<Pipe>)
  {
    forall i :: 0 <= i < |s| ==> MIN_TOP_HEIGHT <= s[i].topHeight <= MAX_TOP_HEIGHT
  }

  /** A tick keeps every top height within the generated range. */
  lemma NextPipesKeepsHeightsInRange(pipes: seq<Pipe>, dx: real, gameWidth: real, birdSize: real, r: real)
    requires 0.0 <= r < 1.0
    requires HeightsInRange(pipes)
    ensures HeightsInRange(NextPipes(pipes, dx, gameWidth, birdSize, r))
  {
    NextPipesShape(pipes, dx, gameWidth, birdSize, r);
  }

  /** A strictly increasing list of indices below n has at most n elements. */
  lemma {:induction false} IncreasingIndicesFit(idx: seq<nat>, n: nat)
    requires forall k :: 0 <= k < |idx| ==> idx[k] < n
    requires forall k, m :: 0 <= k < m < |idx| ==> idx[k] < idx[m]
    ensures |idx| <= n
  {
    if idx != [] {
      var last := idx[|idx| - 1];
      IncreasingIndicesFit(idx[..|idx| - 1], last);
    }
  }

  /** The points a tick awards are exactly the flags it raises. */
  lemma {:induction false} FlipCountIsPassedGain(s: seq<Pipe>, dx: real, birdLeft: real)
    ensures CountPassed(MoveAll(s, dx, birdLeft)) == CountPassed(s) + FlipCount(s, dx, birdLeft)
  {
    if s != [] {
      var n := |s| - 1;
      FlipCountIsPassedGain(s[..n], dx, birdLeft);
      assert MoveAll(s, dx, birdLeft)[..n] == MoveAll(s[..n], dx, birdLeft);
    }
  }

  /** On a screen wider than 130 pixels a non-empty pipe list never empties:
      the last pipe is still on screen, or it is far enough left to spawn
      the next one. */
  lemma NonEmptyOnWideScreen(pipes: seq<Pipe>, dx: real, gameWidth: real, birdSize: real, r: real)
    requires 0.0 <= r < 1.0
    requires |pipes| > 0
    requires gameWidth > PIPE_SPACING - PIPE_WIDTH - OFF_SCREEN_MARGIN
    ensures |NextPipes(pipes, dx, gameWidth, birdSize, r)| > 0
  {
    var moved := MoveAll(pipes, dx, BirdLeft(gameWidth, birdSize));
    var last := moved[|moved| - 1];
    if OnScreen(last) {
      assert KeepOnScreen(moved) == KeepOnScreen(moved[..|moved| - 1]) + [last];
    }
  }

  /** On a container at most 130 pixels wide, a pipe can leave the screen
      before the next one is due: the list empties, and an empty list stays
      empty. With `NonEmptyOnWideScreen`, 130 pixels is the exact threshold. */
  lemma NarrowScreenRunsOutOfPipes(dx: real, gameWidth: real, birdSize: real, r: real)
    requires 0.0 <= r < 1.0
    requires gameWidth <= PIPE_SPACING - PIPE_WIDTH - OFF_SCREEN_MARGIN
    ensures NextPipes([Pipe(gameWidth - PIPE_SPACING + dx, MIN_TOP_HEIGHT, true)], dx, gameWidth, birdSize, r) == []
    ensures NextPipes([], dx, gameWidth, birdSize, r) == []
  {
    var p := Pipe(gameWidth - PIPE_SPACING + dx, MIN_TOP_HEIGHT, true);
    var moved := MoveAll([p], dx, BirdLeft(gameWidth, birdSize));
    assert moved == [Pipe(gameWidth - PIPE_SPACING, MIN_TOP_HEIGHT, true)];
    assert moved[..0] == [];
  }

  // ---------------------------------------------------------------------
  // Bird physics

  /** One physics step: the gravity displacement `fall` (fallSpeed times
      the elapsed time in 16 ms frames) is added to the velocity, then the
      new velocity to the position. */
  function Integrate(position: real, velocity: real, fall: real): (next: (real, real))
    ensures fall >= 0.0 ==> next.1 >= velocity
    ensures next.1 > 0.0 ==> next.0 > position
    ensures next.1 < 0.0 ==> next.0 < position
  {
    var v := velocity + fall;
    (position + v, v)
  }

  /** Sum of a list of displacements. */
  function Sum(s: seq<real>): real
  {
    if s == [] then 0.0 else Sum(s[..|s| - 1]) + s[|s| - 1]
  }

  /** The bird after one frame per entry of `falls` (each frame's gravity
      displacement, oldest first) without a jump. */
  function Fall(position: real, velocity: real, falls: seq<real>): (real, real)
    decreases |falls|
  {
    if falls == [] then (position, velocity)
    else
      var prev := Fall(position, velocity, falls[..|falls| - 1]);
      Integrate(prev.0, prev.1, falls[|falls| - 1])
  }

  /** Without a jump the velocity grows by the sum of the frames'
      displacements, which is non-negative under non-negative gravity. */
  lemma {:induction false} FallVelocity(position: real, velocity: real, falls: seq<real>)
    requires forall i :: 0 <= i < |falls| ==> falls[i] >= 0.0
    ensures Fall(position, velocity, falls).1 == velocity + Sum(falls)
    ensures Sum(falls) >= 0.0
    decreases |falls|
  {
    if falls != [] {
      FallVelocity(position, velocity, falls[..|falls| - 1]);
    }
  }

  /** A bird moving down keeps moving down, whatever the frame times: with
      every frame's gravity displacement non-negative, each frame leaves it
      strictly lower than the frame before, and its velocity is the start
      velocity plus the sum of the displacements. */
  lemma {:induction false} FallingBirdKeepsFalling(position: real, velocity: real, falls: seq<real>)
    requires velocity > 0.0
    requires forall i :: 0 <= i < |falls| ==> falls[i] >= 0.0
    ensures Fall(position, velocity, falls).1 == velocity + Sum(falls)
    ensures forall k :: 0 <= k < |falls| ==>
              Fall(position, velocity, falls[..k + 1]).0 > Fall(position, velocity, falls[..k]).0
  {
    FallVelocity(position, velocity, falls);
    forall k | 0 <= k < |falls|
      ensures Fall(position, velocity, falls[..k + 1]).0 > Fall(position, velocity, falls[..k]).0
    {
      var pre := falls[..k + 1];
      assert pre[..k] == falls[..k];
      FallVelocity(position, velocity, falls[..k]);
    }
  }
}
