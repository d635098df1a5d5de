# Falling cube: the per-frame physics step

The project models the physics demo in `script.js`. A single cube (a `Box`)
falls under gravity and moves left or right while the A or D key is held.
It lands on a static platform (the ground, also a `Box`) and bounces with
damping. If it drifts off the platform it falls freely, and it is reset once
it drops below y = -10. A call of `animate` is one frame. The model covers
the physics that runs in that frame and proves what the frames guarantee.

The model has three files:

- `physics.dfy`, module `Physics`. The value model `Body` is a snapshot of every
  field a `Box` has: extents, centre, velocity, the six bounds and the gravity.
  `Keys` holds the two key states. Each piece of the step is a function:
  `WithSides` is updateSides, `Steered` is the input block of animate,
  `MovedX` is the x move, `Overlaps` is the platform test, `Fallen`, `OffEdge`
  and `AfterReset` are the off-platform branch and resetCube, `AfterGravity`
  is applyGravity, `Updated` is update, `Frame` is one animate call, and
  `Run` is a sequence of frames. The constants `Gravity` (-0.005),
  `MoveSpeed` (0.05), `Damping` (0.8) and `FallLimit` (-10) are the
  source's literals.
- `script.dfy`, module `Script`. The `Box` class has the source's mutable
  fields. Its constructor, `UpdateSides`, `Update` and `ApplyGravity` assign
  those fields the way the JavaScript does. `ResetCube` and `Animate` are
  the top-level functions of the same name. Each method is proved to leave
  `State()` equal to the matching `Physics` function of the old state.
  `FirstFrame` builds the page's cube and ground and steps them through the
  first frame.
- `properties.dfy`, module `Properties`. The lemmas: the bound invariant,
  input priority, what the platform test decides, the two branches of
  update, bounce damping, the platform invariant, what one frame changes,
  and two results over runs of frames: resting on the platform, and free fall
  in closed form.

Points where the model follows the code closely:

- The platform test reads bounds that `updateSides` computed before the
  frame's x move (`script.js:72-75`). So the test lags the x move by one frame
  (`DecisionUsesPreMoveX`, `StaleDecisionExample`). The bounds a frame leaves
  behind also describe the position at that frame's start.
- `applyGravity` reads its `bottom`, which is current, because y has not
  changed since `updateSides`. It compares that bottom with the global
  `ground` (`script.js:97`). The model passes the ground that `update` received,
  which is the same object.
- `resetCube` resets the global `cube`. Its only caller is `update`, which only
  ever runs on `cube`, so the model resets `this`. `resetCube` does not
  recompute the bounds. It also zeroes z and the z speed, so "z never
  changes" holds only on frames without a reset (`FrameChangesOnlyMotion`); for a
  body that starts with zero z and z speed, as the page's cube does, both stay
  zero regardless (`RunKeepsZ`).
- `Update`, `ApplyGravity` and `Animate` require the cube and the ground to
  be different objects, as they are in the page's only call.
- The velocity reset in `resetCube` cannot succeed as written (see Findings).
  The model uses the reset its comment describes.

## Model

| member | source | states |
|---|---|---|
| `Script.Box.constructor` | script.js:41-57 | A new box has the given extents, position and velocity and gravity -0.005; its bounds span the extents centred on the position |
| `Script.Box.UpdateSides` | script.js:60-69 | Only the six bounds change, and afterwards they are centred on the position with right-left = width, top-bottom = height, front-back = depth |
| `Physics.WithSides` | script.js:60-69 | The recomputed bounds are centred on the position and span exactly the extents; nothing else changes |
| `Properties.CentredIffSides` | script.js:60-69 | A body's bounds are centred with the right spans if and only if they are exactly the ones updateSides computes |
| `Physics.InputVelocityX` | script.js:188-193 | The chosen speed is -0.05, 0 or 0.05; it is negative iff A is held and positive iff D is held without A |
| `Properties.InputOverwrites` | script.js:188-193 | velocity.x after the input block does not depend on its old value: A (with or without D) gives -0.05, D alone 0.05, neither 0; nothing else changes |
| `Properties.OverlapIsIntersection` | script.js:75 | For boxes of non-negative width the platform test holds iff the two x-intervals share a point |
| `Properties.OverlapIgnoresOtherAxes` | script.js:75 | The platform test depends only on the left and right bounds of both boxes; y, z, height and depth play no part |
| `Properties.DecisionUsesPreMoveX` | script.js:72-75 | update's test is the overlap of the interval around the position before the frame's x move, while the body itself moves by velocity.x |
| `Properties.StaleDecisionExample` | script.js:72-75 | A cube at the page ground's right edge (x = 3) with D held ends the frame with the left edge of its new position at 2.55, past the ground's right edge at 2.5, yet the frame took the over-platform branch |
| `Script.Box.Update` | script.js:71-90 | The new state is the value model's update of the old state against the ground |
| `Script.Box.ApplyGravity` | script.js:92-101 | The new state is the value model's applyGravity of the old state against the ground's top |
| `Physics.AfterGravity` | script.js:92-101 | Only y and vy change; on predicted contact the position stays and vy becomes -0.8 times vy plus gravity; otherwise vy gains gravity, y moves by it and the moved bottom is still above the ground's top |
| `Properties.UpdateOverPlatform` | script.js:71-101 | Over the platform x moves by vx, vy first gains gravity, then on bottom + vy <= ground top vy becomes -0.8 vy and y stays, else y gains vy and vy stays; extents, z and gravity are unchanged |
| `Properties.BounceDamps` | script.js:97-99 | A bounce leaves exactly 0.8 of the speed after gravity, in the opposite direction, never more than before |
| `Properties.StaysAbovePlatform` | script.js:97-100 | Over the platform, a bottom above the ground's top at the start of the frame is still above it after the frame, recomputed from the new position |
| `Physics.Fallen` | script.js:79-80 | Only y and vy change: vy gains gravity and y moves by the new vy |
| `Physics.OffEdge` | script.js:77-86 | If the fall ends below -10 the body is at the origin with zero velocity; otherwise it is the free-fallen body, at or above -10 |
| `Properties.UpdateOffEdge` | script.js:71-86 | Off the platform vy gains gravity and y gains vy; a reset fires iff the resulting y is below -10 and then position and velocity are the origin; otherwise x moves by vx and x, y and vy take those values |
| `Physics.AfterReset` | script.js:172-175 | The intended reset: position and velocity at the origin, every other field as it was |
| `Script.ResetCube` | script.js:172-175 | The cube's state becomes the intended reset of its old state: position and velocity zero, bounds untouched |
| `Properties.ResetRestoresOrigin` | script.js:83-84 | When update takes the off-platform branch and falls below the limit, the body ends at the origin with zero velocity |
| `Physics.AfterResetAsWritten` | script.js:174-175 | As written only the position is zeroed; the velocity, the bounds, the extents and the gravity keep their values |
| `Properties.ResetAsWrittenKeepsFallSpeed` | script.js:174-175 | Every reset of a body above the limit happens while it moves down; as written it keeps that downward speed, while the intended reset stops it |
| `Properties.ResetAsWrittenExample` | script.js:175 | A cube at x = 3.5, y = -9.9, vy = -0.2 is off the page's ground, so update takes the off-platform branch and resets it; as written it keeps velocity (0, -0.205, 0), as intended it has zero velocity |
| `Script.Animate` | script.js:183-195 | The cube's new state is the value model's frame (input block, then update) of its old state; the ground is unchanged |
| `Properties.FrameChangesOnlyMotion` | script.js:188-195 | A frame keeps extents and gravity; without a reset it keeps z and the z speed, a reset zeroes them; velocity.x afterwards is the input's unless a reset zeroed it; the bounds left are those of the start-of-frame position |
| `Properties.RunKeepsZ` | script.js:71-90 | A body with zero z and zero z speed, as the page's cube starts, keeps both at zero over any run of frames, resets included |
| `Properties.FirstFrameFallsFreely` | script.js:104-128 | With the page's ground and cube and no key, the first frame is over the platform without contact and ends at y = -0.015 with vy = -0.015 |
| `Script.FirstFrame` | script.js:104-128 | Building the cube and the ground as the page does and running one frame with no key gives position (0, -0.015, 0) and velocity (0, -0.015, 0) |
| `Properties.RestingStaysOnPlatform` | script.js:92-101 | With no key held, a body over the platform with its bottom above the ground's top keeps its x and stays over the platform and above its top for any number of frames, so it is never reset |
| `Properties.FreeFallStep` | script.js:77-86 | One frame off the platform with no key and no reset: vy gains gravity, y gains the new vy, x and the fixed fields stay, and the body is still off the platform |
| `Properties.FreeFallRun` | script.js:77-86 | With no key held and no frame ending below -10, a body off the platform keeps its x and fixed fields, stays off the platform, and after n frames has the height and speed of n frame-by-frame free-fall steps |
| `Properties.StepClosedForm` | script.js:79-80 | n free-fall steps from height y0 and speed v0 under gravity g give speed v0 + n g and height y0 + n v0 + g n (n+1) / 2 |

The functions `Steered`, `MovedX`, `Overlaps`, `OverPlatform`, `Updated`, `Frame`
and `Run` define the step and carry no contract of their own. The lemmas above
and the `Script` methods' postconditions state their properties.

## Left out

- The Three.js scene, camera, renderer, orbit controls, materials, colours, lights and shadows: rendering through a library outside the model.
- The keydown/keyup listeners: event wiring. The keys are a `Keys` value given to each frame.
- `requestAnimationFrame` scheduling and `renderer.render`: the frame loop is external. One `Animate` call is one frame.
- The `console.log` when the cube leaves the platform: output with no effect on state.
- The scene membership check in `resetCube`: the cube is never removed from the scene, so it changes nothing the model holds.
- Floating-point arithmetic: all quantities are `real`. Claims that the bounce settles on the platform within a tolerance depend on rounding and are not stated. Each bounce's damping is proved (`BounceDamps`). So is the fact that a bottom above the top stays above it, for one frame under any keys (`StaysAbovePlatform`) and for any number of frames with no key held (`RestingStaysOnPlatform`).
- The constructor's default arguments (zero velocity, origin position, green colour): the model's constructor takes all five arguments, and where the page omits one (the cube's position, the ground's velocity) the model passes the default's value, `Origin`. The colour is rendering.
- The velocity object is shared by reference in the source (`this.velocity = velocity`), and the position is a Three.js `Vector3`. The model keeps both as values. No other code holds these objects, so nothing can observe the difference.
- The exception thrown by `resetCube` and how it propagates: the model does not represent it. Only its effect on the state is modelled, as `AfterResetAsWritten`.
- Boxes of negative width: `OverlapIsIntersection` assumes non-negative widths, since degenerate extents are outside what the program handles.

## Findings

| source | as written | input that shows it | evidently intended | confidence | as-written member | corrected member |
|---|---|---|---|---|---|---|
| script.js:175 | `resetCube` calls `set` on the cube's velocity. That velocity is the plain object literal passed at construction, which has no `set` method. The call throws after the position has been zeroed, so the velocity is never reset, and the cube restarts at the origin still falling at the speed it had | cube at (3.5, -9.9, 0), off the platform, with vy = -0.2: the frame takes y to -10.105 and resets; as written the velocity stays (0, -0.205, 0) | position and velocity both at the origin, as the comment on line 173 says | not executed; high: a plain object literal has no `set` method | `Properties.ResetAsWrittenExample` | `Physics.AfterReset` |
