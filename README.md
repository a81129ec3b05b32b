# First-person walk demo: key state and per-frame movement

The demo lets a player walk over a flat plane. Four module-level flags
(`moveForward`, `moveBackward`, `moveLeft`, `moveRight`) follow the keyboard. In each
animation frame, `animate` does three things:

- It derives a normalised direction from the flags.
- When the pointer is locked, it updates a persistent velocity.
- It passes the negated, scaled velocity to the pointer-lock controls' `moveRight` and
  `moveForward`.

This project models that input-and-movement state machine in Dafny and proves what it does.

- `input.dfy`, module `Input`, holds the key table. It has the flags as a value `Keys`, and
  `Binding` is the case labels shared by both `switch` statements. `Press` and `Release` say
  what `onKeyDown` and `onKeyUp` do. `Replay` runs a sequence of key events in order.
- `motion.dfy`, module `Motion`, holds one frame as a function `Step` and `n` frames as
  `Run`. It also holds the raw axes (`Number(a) - Number(b)`) and the normalisation. The
  constants are walk speed 5, frame factor `delta` 0.1 and damping coefficient 10.
- `player.dfy`, module `Player`, is the module-level state as class `Game`. Its fields are
  the four flags, the velocity and direction components, and the constant `isGrounded`.
  `OnKeyDown` and `OnKeyUp` assign the flags through the same `switch` shape. `Animate`
  updates the direction and velocity field by field, as the source does. Each method's
  `modifies` list names exactly the fields it may change. The methods are proved against
  `Press`, `Release` and `Step`. Two client methods run the methods in scenarios.

Modelling decisions:

- **Pointer lock.** Whether the pointer is locked (`controls.isLocked`) is an input to each
  frame.
- **Camera calls.** The two calls on the controls are returned as a sequence of
  `CameraCall` values, in call order. Nothing is called.
- **Normalisation.** `direction.normalize()` belongs to the rendering library. It divides
  by the vector's length, or by 1 when the length is 0. A raw direction `(x, z)` here has
  both components in {-1, 0, 1}, so its length is 0, 1 or the square root of two. The
  model takes that square root as a parameter `root2` and does not compute it.
  `LengthIsEuclidean` and `UnitDirection` are proved under `root2 * root2 == 2`.
- **Velocity.** The velocity is two `real`s, with no floating-point rounding.
- **`isGrounded`.** `main.ts:9` initialises `isGrounded` to `false`, and nothing ever
  assigns it. The class therefore carries it as a constant that the constructor sets to
  `false`. `Step` takes the grounded flag as a parameter, so the dead damping branch is
  modelled and can be reasoned about.

What the proofs show about the code as written:

- **`isGrounded` is never true.** The damping branch (main.ts:116-119) therefore never runs,
  and nothing else slows the velocity down.
  - After a key is released, the camera keeps moving at the last speed
    (`ReleasedKeyKeepsSliding`).
  - Every locked frame with the same keys held adds the same impulse, so after `n` frames
    the velocity is `v + n * i` (`HeldKeysAccumulate`). From rest, forward alone gives a
    forward speed that grows by 0.05 per frame without bound (`ForwardSpeedGrows`). Starting
    from a velocity that points the other way, the speed first falls and only then grows.
- **The damping factor is exactly 1.** It is `10.0 * 0.1`, so the branch, if it could run,
  would stop the velocity in one frame rather than decay it gradually
  (`GroundedDampingStopsAtOnce`).
- **Left and right are inverted.** The x axis is `left - right`. The impulse is subtracted
  from the velocity, and the velocity is negated again for the call. So each frame with
  right alone held lowers the `moveRight` distance by 0.05 (`RightPushesMoveRightDown`), and
  left alone raises it (`ImpulseSigns`). From rest, right alone gives `moveRight(-0.05)`, a
  move to the camera's left (`RightFromRest`). The z axis behaves as its comments suggest:
  forward raises the `moveForward` distance. This looks unintended, but the model keeps the
  code's convention.

## Model

| member | source | states |
|---|---|---|
| `Input.Binding` | main.ts:64-81 | the case labels shared by both switch statements; it has no contract of its own and is specified by `Input.BindingAliases` |
| `Input.Press` | main.ts:63-82 | onKeyDown on the flags: afterwards a flag is held exactly when it was held before or the code is bound to it |
| `Input.Release` | main.ts:84-103 | onKeyUp on the flags: afterwards a flag is held exactly when it was held before and the code is not bound to it |
| `Input.Apply` | main.ts:63-103 | one event, routed to the handler its kind names: the flag bound to the code becomes whether it is a key-down, and every other flag is kept |
| `Input.Replay` | main.ts:63-103 | events delivered in order, each run to completion; no contract of its own, specified by `Input.ReplayLastEventWins` and `Input.UnboundEventsChangeNothing` |
| `Input.BindingAliases` | main.ts:63-82 | ArrowUp and KeyW, and only they, drive forward; likewise ArrowDown/KeyS for backward, ArrowLeft/KeyA for left and ArrowRight/KeyD for right; no other code drives a flag |
| `Input.PressSetsOnlyItsFlag` | main.ts:63-82 | a key-down with a bound code makes that direction's flag true and leaves the other three flags unchanged |
| `Input.ReleaseClearsOnlyItsFlag` | main.ts:84-103 | a key-up with a bound code makes that direction's flag false and leaves the other three flags unchanged |
| `Input.UnboundCodeIgnored` | main.ts:64-102 | a key-down or key-up with any code outside the eight bound ones leaves all four flags unchanged |
| `Input.ReleaseByEitherAlias` | main.ts:63-103 | a key-up of either alias clears the flag whichever alias pressed it, and the other flags are as before the press |
| `Input.PressReleaseRoundTrip` | main.ts:63-103 | press then release of the same direction, with no other event, restores the flags it started from if that flag was clear, in particular the all-false initial state |
| `Input.EventsIdempotent` | main.ts:63-103 | a repeated key-down, or a repeated key-up, of the same code changes nothing more than the first |
| `Input.DistinctDirectionsCommute` | main.ts:63-103 | key events of different directions give the same flags in either order |
| `Input.ReplayLastEventWins` | main.ts:63-103 | after any sequence of key events each flag is true exactly when the last event bound to its direction (either alias) was a key-down, and keeps its starting value if there was none |
| `Input.UnboundEventsChangeNothing` | main.ts:64-102 | any sequence of key events whose codes are all unbound leaves the flags as they were |
| `Motion.Number` | main.ts:109-110 | Number of a boolean is 1 for true and 0 for false |
| `Motion.RawAxis` | main.ts:109-110 | a raw axis is in {-1, 0, 1}; it is 0 exactly when both or neither of its keys are held, 1 exactly when only the positive key is, -1 exactly when only the negative key is |
| `Motion.AxisX` | main.ts:110 | direction.x, left minus right, is in {-1, 0, 1} |
| `Motion.AxisZ` | main.ts:109 | direction.z, forward minus backward, is in {-1, 0, 1} |
| `Motion.LengthIsEuclidean` | main.ts:111 | the length the normalisation divides by is the non-negative Euclidean length of the raw pair |
| `Motion.Normalize` | main.ts:111 | normalising keeps each component zero exactly when its raw axis is zero and positive exactly when it is positive, and keeps the direction of the raw pair; the zero vector stays zero |
| `Motion.UnitDirection` | main.ts:111 | a non-zero raw direction, diagonal included, normalises to length 1 |
| `Motion.Step` | main.ts:109-127 | the movement part of one animate frame; no contract of its own, specified by `Motion.UnlockedFrameIsInert`, `Motion.LockedFrameEmitsDistances`, `Motion.AxisChangesOnlyWhenHeld`, `Motion.ImpulseSigns`, `Motion.ImpulseMagnitude` and `Motion.FrameAddsImpulse` |
| `Motion.Run` | main.ts:105-127 | n successive frames with the same inputs; no contract of its own, specified by `Motion.HeldKeysAccumulate`, `Motion.IdleRunKeepsVelocity` and `Motion.UnlockedRunKeepsVelocity` |
| `Motion.UnlockedFrameIsInert` | main.ts:113-128 | with the pointer not locked a frame leaves the velocity unchanged and makes no call, whatever keys are held |
| `Motion.LockedFrameEmitsDistances` | main.ts:114-127 | a locked frame calls moveRight then moveForward with minus the new velocity.x and minus the new velocity.z, times 0.1: the velocity after this frame's updates |
| `Motion.IdleFrameKeepsVelocity` | main.ts:116-127 | not grounded, a locked frame with no key held leaves the velocity unchanged and moves by minus the same velocity times 0.1 |
| `Motion.AxisChangesOnlyWhenHeld` | main.ts:122-123 | not grounded, velocity.z changes exactly when one of forward and backward is held without the other, and velocity.x exactly when one of left and right is; both keys of a pair held leave that component unchanged |
| `Motion.ImpulseSigns` | main.ts:109-127 | not grounded, the moveForward distance grows exactly when forward alone is held and shrinks exactly when backward alone is; the moveRight distance grows exactly when left alone is held and shrinks exactly when right alone is |
| `Motion.ImpulseMagnitude` | main.ts:111-123 | not grounded, a locked frame changes the velocity by a vector of length walkSpeed * delta (0.5) whenever the raw direction is non-zero, diagonal included, and by nothing otherwise |
| `Motion.GroundedDampingStopsAtOnce` | main.ts:116-119 | the damping branch, if it ran, would set the velocity to zero in one frame with no key held, since 10.0 * 0.1 is 1 |
| `Motion.ForwardFromRest` | main.ts:109-127 | forward alone, locked, from rest: direction (0, 1), velocity (0, -0.5), calls moveRight(0) then moveForward(0.05) |
| `Motion.RightFromRest` | main.ts:109-127 | right alone, locked, from rest: direction (-1, 0), velocity (0.5, 0), calls moveRight(-0.05) then moveForward(0) |
| `Motion.RightPushesMoveRightDown` | main.ts:110-126 | right alone, locked, from any velocity v: moveRight(-v.x * 0.1 - 0.05) then moveForward(-v.z * 0.1) |
| `Motion.ForwardLeftFromRest` | main.ts:109-127 | forward and left, locked, from rest: both velocity components -0.5 / sqrt 2, both distances 0.05 / sqrt 2, speed 0.5 as for one key |
| `Motion.FrameAddsImpulse` | main.ts:116-123 | not grounded, a locked frame adds to any velocity the same change it makes to a zero velocity |
| `Motion.RunAddsImpulsePerFrame` | main.ts:116-123 | not grounded, n locked frames with the same keys add the one-frame impulse once per frame to the starting velocity |
| `Motion.HeldKeysAccumulate` | main.ts:116-123 | not grounded, n locked frames with the same keys held take the velocity from v to v + n * i, where i is the one-frame impulse from rest |
| `Motion.IdleRunKeepsVelocity` | main.ts:116-123 | not grounded, any number of locked frames with no key held leave the velocity unchanged; from rest it stays zero |
| `Motion.UnlockedRunKeepsVelocity` | main.ts:113 | any number of frames with the pointer not locked leave the velocity unchanged |
| `Motion.ForwardSpeedGrows` | main.ts:122 | holding forward alone for n locked frames from rest gives velocity.z = -0.5 n, which grows without bound |
| `Motion.ReleasedKeyKeepsSliding` | main.ts:84-127 | after press W, a frame and release W, the flags are all false again, but the next frame still moves 0.05 forward |
| `Player.Game.constructor` | main.ts:58-61 | the initial state: all four flags false (main.ts:58-61), velocity and direction zero and not grounded (main.ts:6-9) |
| `Player.Game.OnKeyDown` | main.ts:63-82 | onKeyDown sets the flags to Press of the old flags and changes no field but the four flags |
| `Player.Game.OnKeyUp` | main.ts:84-103 | onKeyUp sets the flags to Release of the old flags and changes no field but the four flags |
| `Player.Game.Animate` | main.ts:105-128 | one frame: direction, velocity and calls are those of Step on the flags, the grounded flag, the lock state and the old velocity; the flags are unchanged |
| `Player.PressForwardOneFrame` | main.ts:58-127 | from the initial state, W down and one locked frame call moveRight(0) then moveForward(0.05), and W up leaves every flag false |
| `Player.UnlockedFrameMovesNothing` | main.ts:108-128 | with the pointer not locked, forward and right held, a frame makes no call and the velocity stays zero, while the direction is still computed |

## Left out

- `init` (main.ts:15-55) is left out. It creates the scene, camera, renderer, ground and
  player meshes and wires the DOM events, all of it library and browser plumbing.
- The click handler that calls `controls.lock()` is left out. The lock state is an input
  to each frame instead.
- `requestAnimationFrame` (main.ts:106) and `renderer.render` (main.ts:130) are left out:
  they are the host's frame scheduling and rendering. `Run` is `n` iterations of the frame
  body.
- The pointer-lock controls are not part of this model. This covers `moveRight`,
  `moveForward` and `isLocked`. Their calls are returned as values.
- The body of `direction.normalize()` is not part of this model. It is the library's
  division by the vector's length, with the square root of two given as a parameter.
- Floating-point behaviour (rounding, NaN, infinities) is not modelled. All velocity
  arithmetic is on exact reals.
- `runSpeed` (main.ts:5), `gravity` (main.ts:8) and `direction.y` are left out. They are
  never read by the movement code.
- Key-event timing relative to frames is not modelled. Events and frames are separate
  calls that each run to completion.
- `Player.Game.Animate`: requires `root2 > 0`, because the normalisation divides by the
  length. The constructor, the only writer of `root2`, requires `root2 * root2 == 2`.
