# Sky Glide: a verified model of the BirdGame simulation

This project models the simulation core of a single-screen "flappy bird"
arcade game. The player's bird falls under gravity. Space makes it jump.
Pairs of pipes scroll in from the right edge of the board. Each pipe is worth
half a point once the bird is past it. The game ends when the bird hits a
pipe or falls below the board. Space after the game is over restarts it.

The model has four modules:

- `Geometry` (`geometry.dfy`): integer rectangles and the intersection test
  of `java.awt.Rectangle.intersects`, re-implemented as a strict overlap of
  boxes with positive extents.
- `Model` (`model.dfy`): the board constants; the state of the bird, of one
  pipe and of the whole game as values (`BirdState`, `PipeState`, `World`);
  every transition of the game as a pure function (`Animated`, `AfterMove`,
  `AfterPlacePipes`, `AfterKeyPressed`, `AfterTick`, `AfterSpawn`); and the
  invariant `Inv` of reachable states.
- `Properties` (`properties.dfy`): lemmas about those functions. They cover
  the physics of one tick, scrolling, one-time scoring, the game-over rule,
  the pair layout of spawned pipes, the jump and the restart, the animation
  counter, the timers, and the preservation of `Inv`.
- `Game` (`game.dfy`): the classes `Bird` and `BirdGame`. Their methods update
  fields step by step, as the source does, including the `for` loop of
  `move`. Each method is proved to produce exactly the matching `Model`
  transition and to keep `Valid()`, which is `Inv` of the object's state.

The score is a `double` in the source. It only ever grows by 0.5 or is reset
to 0, so the model keeps it exactly as a natural number of half-points. The
random draw of `placePipes` becomes an integer parameter `r` with
`0 <= r < 256`. The cast `(int)` truncates toward zero, so the top pipe's y
is `-(128 + r)`, with `r` the integer part of `Math.random() * 256`. The two
Swing timers become the methods `Tick` (game loop) and `Spawn` (pipe timer)
and one `running` flag, because the source always starts and stops the
timers together. Every reachable state satisfies `running == !gameOver`
(`Model.Live`).

## Model

| member | source | states |
|---|---|---|
| `Geometry.IntersectsIffShareAPixel` | BirdGame.java:240 | the rectangle test holds exactly when the two boxes cover a common integer pixel (both directions) |
| `Geometry.IntersectsSymmetric` | BirdGame.java:240 | the rectangle test does not depend on argument order |
| `Geometry.TouchingEdgesDoNotIntersect` | BirdGame.java:240 | boxes that only share an edge do not intersect |
| `Model.RandomPipeY` | BirdGame.java:165 | the top pipe's y for a draw `r` lies in `(-384, -128]` |
| `Model.Credited` | BirdGame.java:219-222 | one tick awards at most one half-point per pipe |
| `Properties.MovePhysics` | BirdGame.java:207-209 | after `move` the velocity is one more than before, `bird.y` is `max(y + velocity', 0)` and so never negative, and `bird.x` is unchanged |
| `Properties.AnimationStep` | BirdGame.java:42-47 | `frameCount` grows by one; the frame index advances by one modulo the frame count exactly when the new count is a multiple of 10, stays a valid index, and nothing else about the bird changes |
| `Properties.AnimationPhase` | BirdGame.java:31-32 | when it starts from 0, the frame index is always `(frameCount / 10) % frames` |
| `Properties.CollisionMeaning` | BirdGame.java:234-240 | `collision` holds iff the bird box and the pipe box narrowed by 10 on each side have positive extents and overlap strictly on both axes |
| `Properties.MarginIsForgiven` | BirdGame.java:237-238 | a bird that overlaps only the 10-unit side margin of a pipe sprite does not collide |
| `Properties.CollisionMeansSpritesOverlap` | BirdGame.java:238-240 | every collision means the bird and the drawn pipe share a pixel |
| `Properties.AnyCollisionIff` | BirdGame.java:215-227 | the loop's collision check fires iff some pipe of the list collides with the bird |
| `Properties.MoveScrollsPipes` | BirdGame.java:215-217 | `move` moves every pipe's `x` by exactly -4; it keeps `y`, width, height and image; `passed` never goes from true to false; no pipe is added, removed or reordered |
| `Properties.CreditedIsFlipped` | BirdGame.java:219-222 | the half-points a tick awards are the number of `passed` flags that flip from false to true |
| `Properties.CountPassedScrolled` | BirdGame.java:219-222 | after a tick the number of passed pipes has grown by exactly the half-points awarded |
| `Properties.CreditedOnlyUnpassed` | BirdGame.java:219 | a tick credits only pipes not yet passed |
| `Properties.MoveScoring` | BirdGame.java:219-222 | the score grows by exactly one half-point per flipped flag, so it never decreases |
| `Properties.ScoreCreditsEachPipeOnce` | BirdGame.java:219-222 | in every reachable state the score counts exactly the passed pipes, before and after `move`, so no pipe is credited twice |
| `Properties.MoveGameOver` | BirdGame.java:224-231 | `move` sets `gameOver` iff some scrolled pipe collides with the moved bird or the bird is below y = 800, and otherwise leaves the flag unchanged; it never clears it |
| `Properties.FallingOffEndsGame` | BirdGame.java:229-231 | a bird that ends the tick below the board ends the game, with or without pipes |
| `Properties.PlacePipesAppendsPair` | BirdGame.java:164-175 | `placePipes` appends exactly two pipes and leaves the rest of the state untouched; both new pipes are at x = 500, unpassed, 64 wide and 512 high; the bottom one is 712 below the top one; the top one is at `-(128 + r)`, within `[-383, -128]` |
| `Properties.AppendPair` | BirdGame.java:168-174 | appending a well-formed pair keeps the pipe list a sequence of pairs |
| `Properties.ScrollKeepsPairs` | BirdGame.java:215-222 | scrolling keeps the pipe list a sequence of pairs, with equal x and equal `passed` flags within each pair |
| `Properties.PairsValidMeans` | BirdGame.java:164-175 | the pipe list has even length, and each pipe at an even index is a top pipe whose bottom pipe follows it, 712 lower, at the same x |
| `Properties.PassedPipesComeInPairs` | BirdGame.java:219-222 | in a list of pairs the number of passed pipes is even |
| `Properties.ScoreIsWholePoints` | BirdGame.java:220 | in every reachable state the score is a whole number of points, one per cleared pair |
| `Properties.OtherKeyChangesNothing` | BirdGame.java:263 | a key other than space changes nothing |
| `Properties.SpaceJumps` | BirdGame.java:263-264 | space while the game runs sets the velocity to -9 whatever it was, and changes nothing else |
| `Properties.SpaceRestarts` | BirdGame.java:266-276 | space after game over puts the bird at y = 250 with velocity 0, clears the pipes, resets the score to 0, clears `gameOver` and restarts the timers; the bird's animation state is kept |
| `Properties.TickWhileStopped` | BirdGame.java:254-256 | a tick while the timers are stopped changes nothing |
| `Properties.TickStopsOnGameOver` | BirdGame.java:251-259 | a running tick is one `move`, and the timers stop exactly when that `move` ended the game |
| `Properties.InitialInv` | BirdGame.java:87-119 | the constructed game satisfies the invariant and has its timers running |
| `Properties.MovePreservesInv` | BirdGame.java:205-232 | `move` keeps the invariant: bird geometry and animation phase, `y >= 0`, the pair layout, "passed iff right edge left of the bird", and score = number of passed pipes |
| `Properties.PlacePipesPreservesInv` | BirdGame.java:164-175 | `placePipes` keeps the invariant |
| `Properties.KeyPressedPreservesInv` | BirdGame.java:262-278 | `keyPressed` keeps the invariant and `running == !gameOver` |
| `Properties.TickPreservesInv` | BirdGame.java:251-259 | a tick keeps the invariant and `running == !gameOver` |
| `Properties.SpawnPreservesInv` | BirdGame.java:105-111 | a pipe-timer event keeps the invariant and `running == !gameOver` |
| `Properties.FreeFall` | BirdGame.java:207-209 | from rest with no pipes, after n ticks the velocity is n and the bird is 1 + 2 + ... + n lower |
| `Properties.FiveTicksFromRest` | BirdGame.java:207-209 | five ticks from rest move the bird down by 15 |
| `Game.Bird.constructor` | BirdGame.java:25-36 | a new bird is at (62, 250), 65 by 70, with frame index and count 0 |
| `Game.Bird.UpdateAnimation` | BirdGame.java:42-47 | the bird's new state is `Animated` of the old one |
| `Game.BirdGame.constructor` | BirdGame.java:87-119 | the new game is `InitialWorld()`: bird at rest at y = 250, no pipes, score 0, running |
| `Game.BirdGame.PlacePipes` | BirdGame.java:164-175 | the new state is `AfterPlacePipes` of the old one, and the invariant is kept |
| `Game.BirdGame.Move` | BirdGame.java:205-232 | the new state is `AfterMove` of the old one, and the invariant is kept |
| `Game.BirdGame.MovePipes` | BirdGame.java:215-227 | the loop leaves every pipe scrolled and possibly credited; the score grows by the half-points credited; `gameOver` is set iff some scrolled pipe collides |
| `Game.BirdGame.Tick` | BirdGame.java:251-259 | the new state is `AfterTick` of the old one; the invariant and `running == !gameOver` are kept |
| `Game.BirdGame.Spawn` | BirdGame.java:105-110 | the new state is `AfterSpawn` of the old one; the invariant and `running == !gameOver` are kept |
| `Game.BirdGame.KeyPressed` | BirdGame.java:262-278 | the new state is `AfterKeyPressed` of the old one; the invariant and `running == !gameOver` are kept |
| `Game.FiveTicksAfterStart` | BirdGame.java:205-209 | a new game ticked five times has its bird 15 lower, velocity 5, and is not over |

## Left out

- Rendering (`paintComponent`, `draw`, `Bird.draw`) is not modelled. The score shown on screen is `(int) score`, which is `score / 2` of the model's half-points.
- Image loading (the constructor's `ImageIcon` calls and `loadBirdAnimation`) is not modelled. A bird's frame array is represented by its length, which is 4. A pipe's image is represented by `PipeImage`, top or bottom.
- Audio is not modelled: `loadSounds`, `playBGM`, `stopBGM`, `playExplosionSound`, and the explosion sound that `collision` plays. These are calls into `javax.sound`. `Collision` is the boolean result alone.
- Swing timer scheduling and event dispatch are not modelled. This covers the 1500 ms pipe period, the 1000/60 ms game-loop period, and how the two timers' events interleave. `Tick` and `Spawn` can be called in any order; `running` gates both.
- `Math.random()` and the `double` arithmetic of `placePipes` are replaced by the integer draw `r`.
- Java's 32-bit `int` is not modelled. Over very long runs `pipe.x` (pipes are never evicted), `velocityY` and `frameCount` could wrap around; the model uses unbounded integers.
- Pipes are values in the game's pipe list rather than heap objects. The source never shares a `Pipe` outside that list, so no aliasing is lost.
- The loop of `move` is the helper method `MovePipes`. `Move` calls it between the bird update and the fall-off check, preserving the source's order.
- `keyTyped` and `keyReleased` are empty in the source.
- `App.java` is not part of this model; it only creates the window.
- Game.Bird.UpdateAnimation: requires a non-empty frame array. The source would throw `ArithmeticException` on the tenth tick with an empty one, but the game always gives the bird four frames.
