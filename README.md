# Flappy Huddler — a Dafny model of the game loop and the leaderboard

Flappy Huddler is a browser Flappy Bird clone with an online leaderboard.
The player picks one of four characters and flies the bird through a
stream of pipes. When the round ends, the player may submit the score
under a name. The leaderboard is served by HTTP routes:
app/api/leaderboard/route.ts stores a score (POST) and lists the ten best
(GET); app/api/leaderboard/submit/route.ts stores a score read from the
submitted game data, and is the route the game calls;
app/api/leaderboard/data/route.ts lists the ten best with the same query
as the GET.

This project models that core in Dafny:

- `js.dfy` (module `Js`): the JavaScript values the routes and the client
  exchange, with JavaScript truthiness, property lookup and object
  destructuring.
- `pipes.dfy` (module `Pipes`): the pure parts of the game screen.
  - Pipe creation from a random draw.
  - The collision test, a loop proved against a declarative collision
    predicate.
  - The per-frame pipe update, a loop over a copied array proved against a
    reference function, with lemmas about counts, order and the spawn rule.
  - The bird's integration step.
- `game_screen.dfy` (module `GameScreen`): one round as a class.
  - Fields: the bird's position and velocity, the pipes, the score, the
    width, the previous timestamp and the active flag.
  - Methods for the resize handler, the jump handler and one animation
    frame.
- `flappy_bird.dfy` (module `FlappyBird`): the top-level component as a class.
  - The screen state machine and the character table.
  - Score tripling for the bonus character and the high score.
  - The stored copy of the pipe list, replaced only when it differs.
  - The trimmed-name check and the body of the score submission.
  - The screen rendered for each state.
- `leaderboard.dfy` (module `Leaderboard`): the leaderboard route.
  - POST validation.
  - The table's column constraints.
  - GET's `ORDER BY score DESC, date ASC LIMIT 10`, specified by an
    insertion sort and proved to list the best ten rows in rank order.
- `submit.dfy` (module `SubmitRoute`): the submission route.
  - The score is read from the game data.
  - The name check and the score check, in order.
  - The row is inserted.
- `end_to_end.dfy` (module `EndToEnd`): what the server decides about the
  exact body the client sends.

`computeScore` is commented as the server-side computation of the score
from game data (app/api/leaderboard/submit/route.ts:4-7), but it returns
the client's own `pipesPassed` number unchecked
(app/api/leaderboard/submit/route.ts:8-11); the model follows the code.
`SubmitRoute.ComputeScoreReadsOnlyPipesPassed` proves that the trace has
no influence on the score, and `SubmitRoute.AnyClaimedCountIsStored` that
any body claiming a positive count, not only one the game built, is
stored with that count.

Some consequences of the code as written are proved rather than assumed:

- The game screen never calls the `onUpdateGameData` callback it is
  given: components/game-screen.tsx:25 does not take it from its props.
  The component's stored pipe list therefore stays empty, and
  `EndToEnd.EmptyStoredPipesAreRefused` shows that every submission made
  with an empty list is answered 400.
- On every container at most 130 pixels wide, the pipe list can empty
  out and never refill: `Pipes.NarrowScreenRunsOutOfPipes` exhibits, for
  each such width, a one-pipe list that the next frame empties, and shows
  that an empty list stays empty. On any wider container,
  `Pipes.NonEmptyOnWideScreen` shows a non-empty list never empties.
- The submitted count is the number of passed pipes in the client's
  stored list. It is not the score the player saw, which was tripled for
  the bonus character.

## Model

| member | source | states |
|---|---|---|
| Pipes.CreatePipe | components/game-screen.tsx:239-249 | a new pipe starts at the given x, not yet passed, with a top height between 50 and 500 - 150 - 50 = 300 |
| Pipes.CreatePipeReachesEveryHeight | components/game-screen.tsx:240-242 | every top height from 50 to 300 is produced by some draw in [0, 1) |
| Pipes.CheckCollision | components/game-screen.tsx:251-280 | the result is true exactly when the bird's box touches the ceiling or the 80-pixel ground band, or overlaps some pipe horizontally while reaching above its top or below its gap; the band alone always collides |
| Pipes.NoPipesOnlyBand | components/game-screen.tsx:252-255 | with no pipes, a collision happens exactly when the bird touches the ceiling or the ground band |
| Pipes.NonOverlappingPipeIsHarmless | components/game-screen.tsx:258-266 | adding or removing a pipe that does not overlap the bird horizontally never changes the collision outcome |
| Pipes.OverlappingPipeDecidesByGap | components/game-screen.tsx:266-275 | a horizontally overlapping pipe causes a collision exactly when the bird is not wholly inside its gap |
| Pipes.FlipCount | components/game-screen.tsx:109-114 | the number of pipes that become passed in one frame is at most the number of pipes |
| Pipes.CountPassed | components/flappy-bird.tsx:154 | the number of passed pipes is at most the number of pipes |
| Pipes.SurvivorIndices | components/game-screen.tsx:123 | the off-screen filter keeps exactly the on-screen indices, in increasing order |
| Pipes.AdvancePipes | components/game-screen.tsx:99-133 | the per-frame pipe update over a copied array yields the reference next pipe list and awards one point per pipe that becomes passed |
| Pipes.NextPipes | components/game-screen.tsx:99-133 | the reference pipe list after a frame has at most one more pipe than before, and every pipe in it is on screen except possibly a freshly created last one |
| Pipes.KeepOnScreen | components/game-screen.tsx:123 | the filter never lengthens the list and keeps only pipes whose right edge is more than 10 pixels right of the left border |
| Pipes.KeepOnScreenSelects | components/game-screen.tsx:123 | the filtered list is, position by position, the pipes at the on-screen indices, in their original order |
| Pipes.NextPipesShape | components/game-screen.tsx:103-130 | each kept pipe is an input pipe shifted by the same distance, with the same top height; a passed pipe stays passed, and a pipe becomes passed exactly when its right edge is left of the bird; no on-screen pipe is dropped; at most one pipe is added, at the end at x = width, and only when the last moved pipe is more than 200 pixels left of the right edge |
| Pipes.NextPipesKeepsHeightsInRange | components/game-screen.tsx:99-133 | every pipe's top height stays between 50 and 300 from frame to frame |
| Pipes.FlipCountIsPassedGain | components/game-screen.tsx:110-114 | the points awarded in a frame equal the increase in passed pipes before the filter |
| Pipes.NonEmptyOnWideScreen | components/game-screen.tsx:117-130 | on a container wider than 130 pixels, a non-empty pipe list never becomes empty when the pipes move left |
| Pipes.NarrowScreenRunsOutOfPipes | components/game-screen.tsx:117-130 | on every container at most 130 pixels wide, a passed pipe that moves exactly 200 pixels left of the right edge leaves the screen without a successor, emptying the list; an empty list stays empty |
| Pipes.FallingBirdKeepsFalling | components/game-screen.tsx:80-85 | for any sequence of frames without a jump, whatever their elapsed times, if each frame's gravity displacement is non-negative and the bird starts moving down, every frame leaves it strictly lower than the frame before, and its velocity is the start velocity plus the sum of the displacements |
| Pipes.FallVelocity | components/game-screen.tsx:84 | without a jump the velocity after any frames is the start velocity plus the sum of their gravity displacements, and that sum is non-negative |
| Pipes.Integrate | components/game-screen.tsx:84-85 | one step never slows a fall under non-negative gravity, and the bird moves down when its new velocity is positive and up when it is negative |
| GameScreen.GameRound.constructor | components/game-screen.tsx:26-34 | a round starts with the bird at mid-height (250), at rest, no pipes, score 0, width 0, no previous timestamp, active |
| GameScreen.Elapsed | components/game-screen.tsx:76-81 | the first frame counts as no elapsed time; later frames add up to the timestamp; a non-decreasing timestamp gives a non-negative elapsed time |
| GameScreen.Displacement | components/game-screen.tsx:84 | a non-negative speed over a non-negative elapsed time moves by a non-negative distance |
| GameScreen.GameRound.Resize | components/game-screen.tsx:37-65 | a new positive width restarts the pipe list with one fresh pipe at the right edge; otherwise the pipes are kept; heights stay in range |
| GameScreen.GameRound.Jump | components/game-screen.tsx:147-150 | the velocity becomes minus the character's jump height |
| GameScreen.GameRound.Tick | components/game-screen.tsx:73-136 | an inactive round or a zero width does nothing; otherwise the bird is integrated over the elapsed time; a collision ends the round and reports the score, leaving the bird, pipes and score as they were; without one, the bird state, pipe list and score advance by the reference pipe update |
| FlappyBird.Characters | components/flappy-bird.tsx:21-58 | four characters with distinct ids and positive size, fall and move speeds; the bonus name belongs to the yellow character only |
| FlappyBird.OnlyYellowTriples | components/flappy-bird.tsx:94-98 | among the four characters only yellow triples the final score; with no selection the score is kept |
| FlappyBird.AdjustedScore | components/flappy-bird.tsx:95-98 | the kept score is the final score or three times it, never less than the final score |
| FlappyBird.PipesChanged | components/flappy-bird.tsx:123-133 | equal lists are never reported changed, and lists of different lengths always are |
| FlappyBird.PipesChangedIffDifferent | components/flappy-bird.tsx:123-133 | the length-and-field comparison holds exactly when the two pipe lists differ |
| FlappyBird.TrimEmptyIffBlank | components/flappy-bird.tsx:149 | a name trims to the empty string exactly when every one of its characters is white space or a line terminator |
| FlappyBird.SubmitBody | components/flappy-bird.tsx:154-170 | the request body carries the name and, under game data, the number of passed pipes in the stored list, the stored pipes one by one in order, and the stored width |
| FlappyBird.App.constructor | components/flappy-bird.tsx:62-68 | the component starts on the start screen with no character, scores 0, empty name, no pipes and width 0 |
| FlappyBird.App.HandleStartGame | components/flappy-bird.tsx:83-86 | moves to character selection |
| FlappyBird.App.HandleCharacterSelect | components/flappy-bird.tsx:88-92 | records the character and starts playing |
| FlappyBird.App.HandleGameOver | components/flappy-bird.tsx:94-106 | the kept score is the final score, tripled exactly when the selected character bears the bonus name; the high score becomes the larger of itself and that score and never decreases; the game-over screen follows |
| FlappyBird.App.HandleRestart | components/flappy-bird.tsx:108-111 | returns to selection with the score reset to 0 |
| FlappyBird.App.HandleViewLeaderboard | components/flappy-bird.tsx:113-115 | shows the leaderboard |
| FlappyBird.App.HandleBackToMenu | components/flappy-bird.tsx:117-119 | returns to the start screen |
| FlappyBird.App.HandleUpdateGameData | components/flappy-bird.tsx:121-146 | afterwards the stored pipes and width equal the reported ones; the list is replaced, and its version bumped, exactly when it differs, so a repeated report changes nothing |
| FlappyBird.App.HandleSubmitScore | components/flappy-bird.tsx:148-179 | a blank name sends nothing and changes nothing; otherwise the name is kept, the body with the stored passed-pipe count is sent, and a successful answer moves to the leaderboard |
| FlappyBird.App.Screens | components/flappy-bird.tsx:211-239 | at most one screen is shown; nothing is shown exactly when playing without a character; playing with a character shows exactly the game screen for that character; each other state shows exactly its own screen: start, the selection of the four characters, the game-over screen with the kept score, the high score and the player name, and the leaderboard |
| Leaderboard.PostVerdict | app/api/leaderboard/route.ts:33-39 | an unreadable or null body is a 500; otherwise a row is stored exactly when the name is truthy and the score a non-negative number, and every other body is a 400 with the route's message |
| Leaderboard.PostBoundaryCases | app/api/leaderboard/route.ts:37 | an empty name, a negative score and a string score are refused, and a score of 0 is accepted |
| Leaderboard.InsertRankedPermutes | app/api/leaderboard/route.ts:19 | inserting a row into a list adds exactly that row |
| Leaderboard.InsertRankedKeepsOrder | app/api/leaderboard/route.ts:19 | inserting a row into a ranked list keeps it ranked |
| Leaderboard.SortRankedPermutes | app/api/leaderboard/route.ts:19 | the listing order holds exactly the rows of the table, each as often as in the table |
| Leaderboard.SortRankedIsRankedPermutation | app/api/leaderboard/route.ts:19 | the ranking of the table is ordered by score descending, then date ascending, and is a permutation of the table |
| Leaderboard.RankedPrefixBeatsRest | app/api/leaderboard/route.ts:19 | in a ranked list every row of a prefix ranks no lower than every row after it |
| Leaderboard.TopTenIsBest | app/api/leaderboard/route.ts:19 | the listing has min(10, table size) rows, is ranked, and holds only rows of the table, none more often than in the table |
| Leaderboard.TopTenLeavesOutWorse | app/api/leaderboard/route.ts:19 | every row left out of the listing ranks no higher than every row listed |
| Leaderboard.TopTen | app/api/leaderboard/route.ts:19 | the listing has min(10, table size) rows and is a prefix of the ranked table |
| Leaderboard.TiesListEarliestFirst | app/api/leaderboard/route.ts:19 | two rows with equal score are listed earliest first, ahead of a lower score |
| Leaderboard.Table.constructor | app/api/leaderboard/route.ts:5-14 | the table starts empty |
| Leaderboard.StorageAccepts | app/api/leaderboard/route.ts:9-10 | an accepted insert needs the store up and a whole-number score within the `INTEGER` column's range that meets its `CHECK (score >= 0)` |
| Leaderboard.Table.Insert | app/api/leaderboard/route.ts:41-46 | when the store is up, the name present and within 255 characters, and the score a whole number from 0 to 2147483647, the row with the current time is appended and returned; otherwise nothing changes; every stored score meets the column check |
| Leaderboard.Table.Apply | app/api/leaderboard/route.ts:37-50 | a rejection is answered as is with the table unchanged; an accepted row is inserted and returned, or answered 500 with the route's message when the insert fails |
| Leaderboard.Table.Post | app/api/leaderboard/route.ts:33-51 | POST answers and changes the table as its verdict and the storage constraints decide |
| Leaderboard.Table.Get | app/api/leaderboard/route.ts:16-31 | with the store down the answer is a 500; otherwise it is the best ten rows, at most ten, ranked, each one a row of the table with a non-negative score |
| SubmitRoute.ComputeScore | app/api/leaderboard/submit/route.ts:5-12 | a truthy game-data value whose `pipesPassed` is a number scores exactly that number; anything else scores 0, and a non-zero score is always the client's own claim from a game-data object |
| SubmitRoute.ComputeScoreReadsOnlyPipesPassed | app/api/leaderboard/submit/route.ts:8-11 | changing or adding any game-data field other than `pipesPassed`, the pipe trace included, never changes the score |
| SubmitRoute.AnyClaimedCountIsStored | app/api/leaderboard/submit/route.ts:28-45 | any body with a non-empty string name and a positive numeric `pipesPassed` claim is stored with exactly that claim as its score, whatever else the game data holds |
| SubmitRoute.SubmitVerdict | app/api/leaderboard/submit/route.ts:28-38 | an unreadable or null body is a 500; a missing or non-string name is a 400 before the score is looked at; a score that is not positive is a 400; otherwise the row is stored with a non-empty string name and a positive score |
| SubmitRoute.Submit | app/api/leaderboard/submit/route.ts:26-50 | the submission route answers and changes the table as its verdict and the storage constraints decide, with its own 500 message |
| EndToEnd.ServerScoreIsClientCount | app/api/leaderboard/submit/route.ts:8-11 | the server's score for the client's body is exactly the client's count of passed pipes in its stored list |
| EndToEnd.ClientSubmissionVerdict | components/flappy-bird.tsx:148-170 | a body the client sends is stored under its name with the passed-pipe count when that count is positive, and refused with 400 otherwise |
| EndToEnd.EmptyStoredPipesAreRefused | components/flappy-bird.tsx:154-160 | a submission made while the stored pipe list is empty is refused with 400 |
| EndToEnd.ClientScoreFitsColumn | app/api/leaderboard/submit/route.ts:15-24 | a client count within the integer range, under a name within 255 characters, always satisfies the table's constraints while the store is up |

## Left out

- Rendering, CSS, the bird sprite and its rotation, and the UI-only components (start, selection, game-over and leaderboard screens) are not modelled; `FlappyBird.App.Screens` records which screen is shown and with what data.
- Audio (`playSound`) has no effect on state and is left out.
- `localStorage` is left out: the stored high score and player name are not restored at start-up (components/flappy-bird.tsx:71-81) or written back (102, 151), because they are browser I/O.
- `fetch` is left out: `FlappyBird.App.HandleSubmitScore` returns the body it would send and takes the response's `ok` flag as a parameter; a network error behaves like a failed response.
- The animation scheduling (`requestAnimationFrame`, `cancelAnimationFrame`, the effect's re-creation of the loop on every state change) is left out: `GameScreen.GameRound.Tick` models one frame over the current state.
- `Math.random` is left out: each operation that draws takes the draw `r` in [0, 1) as a parameter.
- `Pipes.CreatePipe`: only the range of the height and that every height is reachable are stated, not that heights are uniformly distributed.
- Floating-point arithmetic is modelled with exact reals; IEEE rounding of positions, velocities and the elapsed time is not modelled.
- The 32-bit integer limit of the `score` column is modelled as a storage constraint; JavaScript numbers above 2^53 are not distinguished.
- PostgreSQL is left out: the table is a sequence of rows, `dbUp` says whether the store answers, and the clock behind `CURRENT_TIMESTAMP` is the parameter `now`. `ensureTable`'s create-if-missing and the `id` column are not modelled.
- `Leaderboard.TopTenIsBest`: rows equal in both score and date are listed in table order, whereas the database leaves their order unspecified.
- `Leaderboard.StorageAccepts`: the database's text rendering of a non-string name (a number, a boolean, an array or an object) is not modelled; such a name is accepted without a length check, although a long array or object rendered as text would fail the `VARCHAR(255)` column with a 500. For string names, PostgreSQL's truncation of an over-long name whose excess is all spaces and its refusal of a NUL character are not modelled. Name length is counted in characters of the Dafny string.
- JSON parsing is left out: a request is either unparsable or a parsed value.
- A JSON number too large for a double parses to an infinity, which `Js.JsValue` does not represent; for both routes the outcome matches a large finite number (an infinite score passes the checks and the insert fails with 500; a negative infinity is refused with 400).
- GET's response mapping (app/api/leaderboard/route.ts:21-25: `Number(row.score)` and `date.toISOString()`) is left out: `Leaderboard.Table.Get` returns the rows themselves.
- `FlappyBird.App.HandleSubmitScore`: the move to the leaderboard happens after the awaited `fetch` (components/flappy-bird.tsx:165-175), so other handlers may run first; the model applies it at once.
- app/api/leaderboard/data/route.ts is not part of this model; it runs the same query as `Leaderboard.Table.Get`.
- lib/db.ts (the connection pool and query helper) is not part of this model.
