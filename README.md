# Horizontal physics of a two-player canvas platformer (first iteration)

This project models the per-frame physics step of the first iteration of a
two-player browser platformer prototype (`main.ts`). Each frame, every player
turns its two held movement keys into a direction. The rule is latching: when
both keys are held, the direction stored on the player is kept. The player
then accelerates toward that direction. With no direction, it decays toward
zero without overshooting. Its horizontal velocity is clamped to the maximum
speed, and its horizontal position advances by the new velocity. Player 1
steers with `a`/`d`, player 2 with the left/right arrow keys. Numbers are
Dafny `real`s.

The project has three modules:

- `Physics` (`physics.dfy`) holds the pure rules. These are the constants
  `PlayerMaxSpeed = 0.4` and `PlayerAcceleration = 0.03`, `AbsClamp`,
  `DesiredDirection` and the velocity rule `NextVelocity`. It also holds
  `Coast`, which applies the no-direction rule `n` times.
- `Simulation` (`simulation.dfy`) is the value view of the game. It has a
  `Snapshot` of both players and the injected `KeyboardState`. `Step` is one
  frame, `Run` is a sequence of frames, and `Initial` is the start state.
  The lemmas connecting them live here.
- `Game` (`game.dfy`) mirrors the source's mutable objects as classes. `R2`
  is a coordinate pair whose `x` is overwritten in place. `Player` owns
  separate position and velocity objects. `GameState` owns both players.
  The methods `HandleHorizontalMovement`, `HandleEvents`, `StartGame`,
  `GameLoop` and `PlayGame` create these objects or update them in place.
  Each method is proved to agree with the matching `Simulation` function.

The source's `handleEvents` takes an `input` parameter that it never reads.
Instead it reads the process-wide keyboard table. The model passes that table
in explicitly as a `KeyboardState` and drops the unused parameter.

## Model

| member | source | states |
|---|---|---|
| Physics.AbsClamp | main.ts:55-58 | for a non-negative limit the result lies in `[-limit, limit]`; it is the value itself when already in range and the nearer bound otherwise; for a negative limit it is the limit |
| Physics.DesiredDirection | main.ts:60-70 | the direction is None exactly when no key is held (or both are and the stored one is None), Right exactly when only right is held (or both are and the stored one is Right), likewise Left; with both keys held it is the stored direction |
| Physics.StoredDirectionOnlyOnConflict | main.ts:60-70 | unless both keys are held, the stored direction has no influence on the result |
| Physics.ConflictIsIdempotent | main.ts:67-69 | resolving a both-keys frame twice gives the stored direction back, so repeated both-held frames are idempotent |
| Physics.DesiredVelocity | main.ts:81-92 | pushing right aims exactly one acceleration higher, pushing left one lower; with no direction the aim is one acceleration nearer zero in magnitude (`max(0, abs(v) - 0.03)`), on the same side of zero, never past it |
| Physics.NextVelocity | main.ts:80-93 | the new horizontal velocity never exceeds the maximum speed in magnitude, whatever the old velocity |
| Physics.AccelerateRight | main.ts:86-88 | from a velocity within bounds, pushing right gives `min(v + 0.03, 0.4)`: never less than before, at most one acceleration more |
| Physics.AccelerateLeft | main.ts:83-85 | from a velocity within bounds, pushing left gives `max(v - 0.03, -0.4)`: never more than before, at most one acceleration less |
| Physics.DecayTowardZero | main.ts:89-93 | with no direction the velocity keeps its sign or becomes 0 and never grows in magnitude; from within bounds its magnitude becomes `max(0, abs(v) - 0.03)` |
| Physics.CoastMagnitude | main.ts:89-93 | after `n` frames with no direction the magnitude is `max(0, abs(v) - n*0.03)` and the sign never flips |
| Physics.CoastStops | main.ts:89-93 | coasting from within bounds reaches exactly 0 after `n` frames if and only if `n*0.03 >= abs(v)`, that is after `ceil(abs(v)/0.03)` frames and not earlier |
| Simulation.Steer | main.ts:73-75 | writing the resolved direction changes only the direction; with both keys held the player is left as it is, with none its direction is None, with one its direction is that key's |
| Simulation.MoveHorizontally | main.ts:79-97 | velocity.x becomes the bounded next velocity for the stored direction; position.x grows by exactly the new velocity.x; direction, position.y and velocity.y are unchanged |
| Simulation.StepBySide | main.ts:72-77 | in a frame each player's direction is resolved from its own keys first, and its velocity then follows that new direction |
| Simulation.StepIndependent | main.ts:72-77 | a player's next state depends only on its own state and its own two keys, not on the other player or any other key |
| Simulation.Step | main.ts:72-77 | one frame steers each player by its own keys and then moves it (see StepBySide, StepIndependent); afterwards both speeds are within the maximum from any prior state, each player has advanced by exactly its new velocity, and nothing vertical changes |
| Simulation.Run | main.ts:161-166 | the frames applied one after another: after at least one frame, and in every state reached from a speed-bounded state, both speeds are within the maximum; no run changes position.y or velocity.y |
| Simulation.RunConflictKeepsDirection | main.ts:60-77 | while a player holds both of its keys frame after frame, its direction stays what it was before |
| Simulation.RunReleasedCoasts | main.ts:72-97 | while a player holds neither of its keys, its velocity after `n` frames is the `n`-frame coast of its starting velocity |
| Simulation.RunReleasedStops | main.ts:72-97 | a player within the speed bound that releases its keys stands still after `n` frames exactly when `n*0.03` covers its speed |
| Simulation.RestIsStable | main.ts:72-97 | a game with both players still and facing no direction does not change while no movement key is held |
| Simulation.Initial | main.ts:144-155 | the start state has both players at rest (zero horizontal velocity, no direction) at the same height, player 1 left of player 2 |
| Simulation.InitialState | main.ts:144-155 | the game starts with player 1 at (50, 80) and player 2 at (150, 80), both with zero velocity and no direction, inside the speed bound, and a frame without keys leaves it unchanged |
| Game.HandleHorizontalMovement | main.ts:79-97 | updates the player's objects in place to the `MoveHorizontally` value of its old state: bounded velocity.x for its direction, position.x advanced by it, position.y and velocity.y untouched |
| Game.HandleEvents | main.ts:72-77 | writes each player's direction from its keys (`a`/`d`, arrow left/right) before moving that player; the new game state is `Step` of the old one, and the six objects stay distinct |
| Game.StartGame | main.ts:143-155 | creates fresh objects (the game state, both players and all four coordinate objects), distinct from each other, whose state is the initial snapshot |
| Game.GameLoop | main.ts:161-166 | running one `HandleEvents` per frame leaves the game in `Run` of the frames |
| Game.PlayGame | main.ts:143-166 | starting a game and running it for any frames gives `Run` of the initial state over those frames, within the speed bound, without modifying any pre-existing object |

## Left out

- Canvas lookup, viewport rescaling, `gameScale` and the aspect ratio (main.ts:32-53) are left out. They are page-layout glue that uses division and has no effect on physics.
- Rendering (main.ts:99-109) is left out. It only reads the state.
- The key listeners (main.ts:128-141) are left out. They are asynchronous page events. The held-key table they maintain is a `KeyboardState` parameter instead.
- Frame scheduling by `requestAnimationFrame` is left out. A missing canvas context is also left out; it is a start-up failure. `Game.GameLoop` runs one step for each element of a finite sequence of keyboard snapshots.
- The `GameInput` / `PlayerInput` values (main.ts:22-30, 156-159) are left out. They are created but never read.
- Floating-point behaviour is not modelled: rounding, `NaN` and signed zero, including in `Math.min`, `Math.max` and `Math.sign`. All numbers are exact reals.
- Screen wrap, wall collision and jumping are not part of this model. They belong to later iterations of the prototype and are absent from `main.ts`.
