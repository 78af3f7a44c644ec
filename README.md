# Platformer player controller — verified model

This project models the movement core of the platformer's `PlayerController`
(a Unity `MonoBehaviour`). On every fixed physics tick, `FixedUpdate` does five
things in order:

1. It sets the horizontal velocity from the input axis.
2. It consumes a latched jump request against a remaining-jumps counter.
3. It applies a per-tick gravity decrement.
4. It integrates the velocity into a wanted position.
5. It runs four directional collision probes: up, left, right, then down.

Each probe (`PlayerCollisionCheck`) casts a ray from the wanted position. On a
blocking hit it may snap the position, stop vertical motion, set the grounded
flag and refill the jump counter. Between ticks, `Update` ORs jump-button
presses into a latch.

Layout:

- `Geometry.dfy`: `Vec3` over reals, with `Add`, `Scale`, `Dot`, `Abs` and the four unit directions.
- `Physics.dfy`: the raycast query. A scene is an oracle `(origin, direction, layer mask) -> Option<Hit>`. It reports the nearest surface along the ray. `Cast` keeps that hit only when it lies within the ray's length.
- `PlayerProperties.dfy`: the immutable tuning record and its default values.
- `Movement.dfy`: the specification. `State` holds the controller's private fields, and each step of a tick is a function over it (`HorizontalStep`, `JumpStep`, `GravityStep`, `IntegrateStep`, `Probe`, `Tick`). It also holds the latch (`LatchJump`, `Presses`) and runs of many ticks (`Run`).
- `Controller.dfy`: the class `PlayerController`. Its fields are updated in place by `FixedUpdate`, `PlayerCollisionCheck` and `LatchJumpPress`, following the source statement by statement. Each method is proved to leave the fields exactly as the matching `Movement` function says.
- `MovementProperties.dfy`: lemmas about those functions. They cover each step's effect, probe classification and correction, grounding, jump accounting, and invariants over whole runs.

Behaviours of `PlayerController.cs` that the model keeps as written:

- The jump counter is not clamped to `maxJumps - 1` when the player leaves the ground.
- A blocking down hit grounds the player whatever the sign of `velocity.y`.
- A vertical-blocking down hit always snaps y.
- A miss or a graze clears the grounded flag on every probe: up, left and right as well as down.
- With `deltaTime = 0`, a tick can still change the velocity and the position. The horizontal step, the jump, gravity and probe snaps still apply. `ZeroDeltaTime` proves only that integration does not move the position and that the rays are the bare half extents.

## Model

| member | source | states |
|---|---|---|
| `Controller.PlayerController.constructor` | PlayerController.cs:12-23 | Fields start not grounded, with no jumps, zero velocity and the latch clear, at the given start position |
| `Controller.PlayerController.LatchJumpPress` | PlayerController.cs:63 | The latch becomes its old value OR the press; nothing else changes |
| `Controller.PlayerController.FixedUpdate` | PlayerController.cs:26-59 | The new fields are exactly `Tick` of the old ones. Afterwards the latch is clear, grounded implies a full jump counter, and the jump invariant is kept when `maxJumps >= 1` |
| `Controller.PlayerController.PlayerCollisionCheck` | PlayerController.cs:69-116 | The new fields are exactly `Probe` of the old ones |
| `Physics.Cast` | PlayerController.cs:78 | A hit is reported iff the scene has one at a distance in `[0, rayDistance]`, and then it is the scene's hit |
| `Movement.HalfExtent` | PlayerController.cs:75 | The half extent is non-negative and is half the absolute size of the character along the probe direction |
| `Movement.LookaheadBias` | PlayerController.cs:72-73 | For `deltaTime >= 0` the bias is never positive. It is zero when the velocity along the probe direction is zero or positive, that is, when moving towards that side or across it |
| `Movement.RayDistance` | PlayerController.cs:72-76 | For `deltaTime >= 0` the ray is never longer than the half extent along the direction. It equals the half extent when `Dot(direction, velocity) >= 0` (moving towards that side or across it) or when `deltaTime = 0`. When moving away from that side, it is shortened by exactly `Dot(direction, velocity) * deltaTime`, and it can become negative |
| `Movement.HorizontalBlocking` | PlayerController.cs:83 | The sign tests of the classification; `DirectionClassification` states what they give for each probe direction |
| `Movement.VerticalBlocking` | PlayerController.cs:84 | As `HorizontalBlocking`, on the y components; stated by `DirectionClassification` |
| `Movement.LatchJump` | PlayerController.cs:63 | The OR-assignment of one `Update` frame; `PressesLatch` states its effect over any number of frames |
| `Movement.Presses` | PlayerController.cs:63 | The latch after the `Update` frames between two ticks; stated by `PressesLatch` |
| `Movement.HorizontalStep` | PlayerController.cs:32-35 | Step 1 of a tick; its effect is stated by `HorizontalStepEffect` |
| `Movement.JumpStep` | PlayerController.cs:39-45 | Step 2 of a tick; its effect is stated by `JumpStepEffect` and `JumpDroppedWhenExhausted` |
| `Movement.GravityStep` | PlayerController.cs:47-51 | Step 3 of a tick; its effect is stated by `GravityStepEffect` |
| `Movement.IntegrateStep` | PlayerController.cs:53-54 | Step 4 of a tick; its effect is stated by `IntegrateStepEffect` |
| `Movement.Run` | PlayerController.cs:26-63 | `Update` frames and `FixedUpdate` ticks interleaved, each tick with its own geometry; `RunKeepsJumpInvariant` and `RunKeepsVelocityZ` state what holds over it |
| `Movement.Probe` | PlayerController.cs:69-116 | The result is grounded iff the hit blocks and the direction points down, and then the counter is refilled, else unchanged. `velocity.x`, `velocity.z`, position z, displacement and latch never change. `velocity.y` is kept or zeroed |
| `Movement.Tick` | PlayerController.cs:26-59 | After a tick the latch is clear, grounded implies `jumpsRemaining == maxJumps`, `velocity.z` is unchanged and z advances by `velocity.z * deltaTime` |
| `MovementProperties.PressesLatch` | PlayerController.cs:63 | Any series of presses between ticks leaves the latch equal to old latch OR any press, and changes nothing else |
| `MovementProperties.HorizontalStepEffect` | PlayerController.cs:32-35 | `velocity.x` becomes `input * moveSpeed` iff grounded, `abs(input) > 0.5` or `velocity.y < 0`; otherwise it and everything else is unchanged |
| `MovementProperties.JumpStepEffect` | PlayerController.cs:39-45 | The jump fires iff latched and (grounded or jumps > 0). Then `velocity.y := jumpForce` and the counter drops by exactly 1, otherwise neither changes. The latch is always cleared |
| `MovementProperties.JumpDroppedWhenExhausted` | PlayerController.cs:39-45 | In the air with no jumps left, the step only clears the latch: the request is dropped |
| `MovementProperties.GravityStepEffect` | PlayerController.cs:47-51 | Only when not grounded, `velocity.y` drops by exactly `gravity` (not scaled by `deltaTime`); x and z are untouched |
| `MovementProperties.IntegrateStepEffect` | PlayerController.cs:53-54 | The wanted position moves by exactly `velocity * deltaTime` and the displacement field holds that vector; nothing else changes |
| `MovementProperties.AtRestStaysAtRest` | PlayerController.cs:32-54 | A grounded player at rest, with zero input and no request, keeps zero velocity and does not move before probing |
| `MovementProperties.ZeroDeltaTime` | PlayerController.cs:53-76 | With `deltaTime = 0` integration does not move the position and every ray is the bare half extent |
| `MovementProperties.DirectionClassification` | PlayerController.cs:83-84 | The strict `> 0` sign tests give the following. Up probe: horizontal-blocking iff `n.x > 0`, vertical-blocking iff `n.y <= 0`. Down and left probes: horizontal-blocking iff `n.x > 0`, vertical-blocking iff `n.y > 0`. Right probe: horizontal-blocking iff `n.x <= 0`, vertical-blocking iff `n.y > 0` |
| `MovementProperties.ProbeBlockingEffect` | PlayerController.cs:83-105 | On a blocking hit, x snaps to `bounds.x - direction.x * halfExtent` iff horizontal-blocking, y likewise iff vertical-blocking. `velocity.y` is zeroed iff vertical-blocking, and grounded becomes `direction.y < 0` |
| `MovementProperties.ProbeMissEffect` | PlayerController.cs:106-115 | No hit within the ray, or a graze, changes nothing but clearing the grounded flag |
| `MovementProperties.VerticalProbeSnapsXOntoBounds` | PlayerController.cs:83-96 | An up or down probe whose hit normal has positive x sets x to the bounds point itself, with no offset |
| `MovementProperties.SideProbeStopsVerticalMotion` | PlayerController.cs:83-104 | A left or right probe hitting a surface with positive normal y zeroes `velocity.y` and leaves the player ungrounded |
| `MovementProperties.RightWallScenario` | PlayerController.cs:83-99 | A right probe hitting a wall with normal `(-1,0,0)` snaps x to `bounds.x - halfExtent` and leaves y and the velocity alone |
| `MovementProperties.TickGroundedIffDownBlocks` | PlayerController.cs:55-58 | After a tick the player is grounded iff the final down probe reported a blocking hit |
| `MovementProperties.TickJumpAccounting` | PlayerController.cs:39-91 | After a tick a grounded player has a full counter. Otherwise the counter is the old one, less 1 iff the jump fired, so at most one jump per tick and no increase except by landing |
| `MovementProperties.TickVelocityX` | PlayerController.cs:32-104 | Probes never touch `velocity.x`, so after the tick it is what the horizontal step set |
| `MovementProperties.TickPreservesJumpInvariant` | PlayerController.cs:39-91 | With `maxJumps >= 1`, a tick keeps `0 <= jumpsRemaining <= maxJumps` and (grounded implies a full counter) |
| `MovementProperties.RunKeepsJumpInvariant` | PlayerController.cs:39-91 | The same invariant holds after any sequence of jump presses and ticks, even when the geometry differs from tick to tick |
| `MovementProperties.JumpsStayInBounds` | PlayerController.cs:12-13 | From the initial fields, with `maxJumps >= 1`, `jumpsRemaining` stays in `[0, maxJumps]` for ever |
| `MovementProperties.DefaultAssetJumpsStayInBounds` | PlayerProperties.cs:8-14 | With the asset's default values (one jump), the counter is always 0 or 1, over any run from the initial fields |
| `MovementProperties.RunKeepsVelocityZ` | PlayerController.cs:26-116 | No press or tick ever changes `velocity.z`, whatever geometry each tick meets |
| `MovementProperties.JumpFromGroundScenario` | PlayerController.cs:39-58 | A grounded player with a latched request, and nothing around, leaves with `velocity.y == jumpForce`, one jump spent, not grounded |
| `MovementProperties.LandingScenario` | PlayerController.cs:47-58 | A player falling at `velocity.y = -5` with gravity 1 onto a floor with normal up, within the down ray, ends grounded with `velocity.y == 0` and a full counter |

## Left out

- Visual interpolation in `Update` (the `Vector3.Lerp` of the transform towards the wanted position) and `_movementInterpolationSpeed`: this is presentation only and never feeds back into the state.
- Unity's lifecycle and the transform: `Start` becomes the constructor's start-position parameter.
- Input polling (`Input.GetAxis`, `Input.GetButtonDown`) and `Time.deltaTime`: these are parameters of `FixedUpdate` and `LatchJumpPress`.
- The physics engine (`Physics.Raycast`, `ClosestPointOnBounds`): it is an oracle of static geometry that reports the nearest hit on the ray. Layer filtering is passed through as the mask argument, and the oracle is assumed to answer consistently.
- A ray of negative length finds nothing. `Cast` reports a hit only at a distance in `[0, rayDistance]`, so a negative ray never reports one. Unity's behaviour for a negative `maxDistance` is an engine detail that is not modelled, and the model takes it to be a miss. Ordinary play reaches this case. With the default gravity of 9.81 per tick and a 0.02 s tick, the up ray becomes negative on the third tick of a free fall.
- `Debug.DrawLine`: it has no effect on state.
- Floating-point rounding: all arithmetic is on mathematical reals.
- The commented-out movement line in `FixedUpdate`, and the unused `groundCheckDistance` asset field, which is kept in the record but never read.
- The `IPlayerController` interface: this controller does not implement it, and it has no bodies.
- Controller.PlayerController.FixedUpdate: the jump invariant is promised only when `maxJumps >= 1`. With `maxJumps = 0` a grounded jump drives the counter to -1, and the source allows that.
