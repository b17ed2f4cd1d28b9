# Navigation and input state of the splatter-three demo page

The demo page (`main.js`) shows a streamed Gaussian-splat scene. The user moves
through it like a walker: W/A/S/D or the arrow keys move the camera, Space
jumps, gravity pulls the camera down to a floor at height 1, and a
double-click on the scene re-centres the orbit controller's target and a
yellow marker ball on the surface point under the cursor. A `loaded`
handler hides the loading spinner once enough splats have arrived.

This project models that state machine and proves properties of it:

- `vectors.dfy` (module `Vectors`): exact three-component vectors over
  `real`, and `ApplyAll`, the point reached by adding a list of moves in
  order. It proves that adding the same moves to two points keeps their
  offset.
- `navigation.dfy` (module `Navigation`): the state as a value (`Nav`) and
  one function per handler. `KeyDown` and `KeyUp` are the key handlers.
  `Frame` is the movement part of `render`: `Translated` followed by
  `GroundClamp`. `Click` is the double-click handler. The module also holds
  the lemmas about one or two steps.
- `traces.dfy` (module `Traces`): a sequence of events dispatched to those
  handlers, and lemmas that hold along every sequence. These cover runs
  without orbit-controller input, because `controls.update` (main.js:146)
  is not modelled. In such runs, every state reached at the end of a
  modelled handler is consistent: the camera is not below the floor, a jump
  is allowed only while not rising, and the horizontal velocity is zero.
  The target keeps its offset from the camera while nothing lands or
  re-centres, and the keyboard alone gives at most one jump between frames.
- `controller.dfy` (module `Controller`): class `NavigationState`. It has the
  page's mutable variables as fields. Its methods update those fields in
  place, in the order the page does. Each method is proved to leave exactly
  the state that the matching `Navigation` function describes.
- `loading.dfy` (module `Loading`): the threshold test of the `loaded`
  handler.

Parameters stand for things the page gets from the browser and from its
libraries:

- Timestamps (`performance.now()`) are parameters.
- The camera's flattened, normalised facing direction `forward` is a
  parameter. `camera.getWorldDirection` and `normalize` need a square root.
- The factor `diag` (1/√2), which `direction.normalize()` applies to a
  diagonal key direction, is a parameter. The unit-length facts are proved
  under `IsInvSqrt2(diag)` and `HorizontalBasis(forward)`.
- The right-hand direction is computed as `forward × up`. For a level unit
  or zero `forward` this is already normalised (`RightIsPerpendicular`).
- The splat renderer's hit test is a parameter of type `Option<Vec3>`.

The double-click handler reads the clock twice: once in the test and once
when it records the time. The model takes the two readings as `checkTime`
and `stampTime`.

Four behaviours of the code are easy to misread. The model follows the code:

- Every click event re-arms the 300 ms window, including one that has just
  re-centred. A third quick event therefore re-centres again
  (`ThirdClickRecentresAgain`).
- The horizontal damping factor is `1 - 10 * delta`. For a frame gap longer
  than 0.2 s it is below -1, so the horizontal velocity would reverse and
  grow (`DampingOvershootsOnLongStall`). Nothing ever gives the camera a
  horizontal velocity (`ReachableIsConsistent`), so this cannot be seen.
- The recorded click time starts at -1000 ms. The first event after
  start-up can therefore never re-centre (`FirstClickNeverRecentres`).
- The handler is attached to the browser's `dblclick` event (main.js:265).
  The "within 300 ms" test is therefore applied between double-click events,
  not between single clicks.

## Model

| member | source | states |
|---|---|---|
| Navigation.Init | main.js:51-70 | The start state has no key held, no jump allowed and zero velocity. The camera is at (3, 3, 3), above the floor. The orbit target and the ball are at the origin. The previous-frame time is the start time. The recorded click time is at most -300 ms, so no event at a non-negative time is within 300 ms of it. |
| Navigation.KeyDown | main.js:189-212 | A movement key raises exactly its own flag (W/ArrowUp forward, S/ArrowDown backward, A/ArrowLeft left, D/ArrowRight right). Space adds exactly 350 to the vertical velocity if and only if a jump was allowed, and leaves jumping forbidden in every case. Any other code changes nothing, and no key moves anything. |
| Navigation.KeyUp | main.js:214-233 | A movement key lowers exactly its own flag. Every other code, Space included, leaves the state unchanged. |
| Navigation.KeyUpUndoesKeyDown | main.js:189-233 | Releasing a movement key that was up before it was pressed restores the exact previous state. |
| Navigation.NoDoubleJump | main.js:207-210 | Two Space presses in a row add the impulse at most once, and jumping is forbidden afterwards. |
| Navigation.Damped | main.js:98-100 | Each horizontal component is multiplied by 1 - 10·delta. The vertical component decreases by exactly 980·delta. |
| Navigation.DampingSlowsDown | main.js:98-99 | For 0 ≤ delta ≤ 0.2 s the damping never increases the horizontal speed. |
| Navigation.DampingOvershootsOnLongStall | main.js:98-99 | After a one-second gap the damping factor is -9, so the horizontal speed grows. |
| Navigation.RawDirection | main.js:102-103 | The direction is level. Its z is forward minus backward and its x is right minus left, each in {-1, 0, 1}. It is 0 exactly when the opposite keys agree and 1 exactly when only the positive key is held. |
| Navigation.Normalized | main.js:104 | Normalising keeps the direction level and keeps the sign of each component. |
| Navigation.NormalizedIsUnit | main.js:104 | With diag = 1/√2, a non-zero key direction becomes a unit vector parallel to the raw one. |
| Navigation.NormalizedLength | main.js:104 | The squared length after normalising is 0 for no intent, 1 for a single axis, and 2·diag² for a diagonal. |
| Navigation.NormalizedParallel | main.js:104 | Normalising does not change the heading. |
| Navigation.RightOf | main.js:112-113 | The right-hand direction of a level forward is level. |
| Navigation.RightIsPerpendicular | main.js:112-113 | For a level unit or zero forward, the right-hand direction is perpendicular to it and equally long, so normalising it changes nothing. |
| Navigation.KeyMoves | main.js:116-125 | One move along forward while forward or backward is held and one along right while left or right is held, in that order. Every key move is level. With opposite keys cancelling on both axes, every key move is zero. |
| Navigation.KeyMovesInTurn | main.js:116-125 | Applying the key moves adds the forward move, if any, and then the right move, if any. |
| Navigation.KeyMovesOnlyKeys | main.js:116-125 | The key moves depend on the held keys only, not on the velocity, position or times. |
| Navigation.KeyMovesAlongBasis | main.js:102-125 | The forward move is forward scaled by the z of the normalised key direction times 10·delta, and the right move is the right-hand direction scaled by its x. An axis without a held key asks for no distance. |
| Navigation.KeyDisplacement | main.js:102-125 | The key moves of a frame add up to the key step laid out in the camera's level basis: its z along forward and its x along the right-hand direction. |
| Navigation.KeyMoveSpeed | main.js:102-125 | With a level unit forward and diag = 1/√2, the key moves of a frame with some net intent add up to a displacement of squared length (10·delta)², on an axis and on a diagonal alike. |
| Navigation.VelocityMoves | main.js:128-136 | There are three velocity moves: along forward, along right and straight up. The first two are level. The third is (0, vy·delta, 0). They are zero when there is no horizontal velocity. |
| Navigation.Translated | main.js:94-136 | The camera and the target receive the same moves, so the target-minus-camera offset is unchanged. The velocity is the damped one. The camera rises by exactly the damped vertical velocity times delta. The previous-frame time becomes the new time. The flags, the ball and the click time are unchanged. |
| Navigation.FrameMovesShift | main.js:116-136 | Of all the moves of a frame, only the last one (the vertical velocity move) changes the camera's height. |
| Navigation.NoIntentNoKeyMove | main.js:116-136 | With no net key intent, only the velocity moves the camera. |
| Navigation.GroundClamp | main.js:138-143 | The camera always ends at or above height 1. If it was below, then afterwards it is at exactly 1, the vertical velocity is 0, a jump is allowed, the target height is max(1, old height), and nothing else changes. If it was at or above 1, nothing changes. |
| Navigation.FrameKeepsOffset | main.js:116-143 | A frame keeps the horizontal target-minus-camera offset. It keeps the full offset unless the camera touched the floor. |
| Navigation.LandsOnGround | main.js:138-143 | A camera below the floor and not rising ends the frame on the floor, at rest vertically and allowed to jump. |
| Navigation.Click | main.js:237-247 | The target and the ball move to the hit point exactly when the event is within 300 ms of the previous one and the hit test found a point. Otherwise they are unchanged. The recorded time is updated on every event, and nothing else changes. |
| Navigation.SecondClickTiming | main.js:238 | A second event 299 ms after the first re-centres on a hit. One 301 ms after it does not. |
| Navigation.FirstClickNeverRecentres | main.js:236-238 | The first event after start-up never moves the target. |
| Navigation.ThirdClickRecentresAgain | main.js:237-247 | A third event shortly after a re-centring one re-centres again. |
| Traces.StepConsistent | main.js:94-143 | Every handler, given a frame time that does not go backwards, keeps the state consistent. Consistent means the camera is at or above the floor, a jump is allowed only while not rising, and the horizontal velocity is zero. |
| Traces.RunConsistent | main.js:261-265 | Any chronological sequence of key, frame and click events keeps a consistent state consistent. |
| Traces.ReachableIsConsistent | main.js:59-70 | Every state reached from start-up is consistent at the end of every modelled handler, in runs without orbit-controller input (main.js:146 is left out). |
| Traces.SteadyKeepsOffset | main.js:116-136 | Along any events where nothing lands and nothing re-centres, the target keeps its offset from the camera at the end of every modelled handler, in runs without orbit-controller input (main.js:146 is left out). |
| Traces.OneJumpBetweenFrames | main.js:189-233 | Between two frames, any key events add at most one jump impulse. They never allow a jump that was not allowed. They leave the camera, the target, the ball, the level velocity, the previous-frame time and the click time unchanged. |
| Vectors.OffsetUnchanged | main.js:116-136 | Adding the same moves to two points keeps the offset between them. |
| Vectors.LevelMovesKeepHeight | main.js:116-129 | Level moves never change the height. |
| Vectors.ZeroMovesStay | main.js:116-125 | Zero moves leave a point where it is. |
| Controller.NavigationState.constructor | main.js:51-70 | The new object holds the start state, which is consistent. |
| Controller.NavigationState.OnKeyDown | main.js:189-212 | The fields afterwards are exactly KeyDown of the fields before. Consistency is preserved. |
| Controller.NavigationState.OnKeyUp | main.js:214-233 | The fields afterwards are exactly KeyUp of the fields before. Consistency is preserved. |
| Controller.NavigationState.FrameStep | main.js:94-143 | The fields afterwards are exactly Frame of the fields before. The camera is at or above the floor. Consistency is preserved when time does not run backwards. |
| Controller.NavigationState.ApplyDamping | main.js:98-100 | The velocity becomes its damped value. |
| Controller.NavigationState.ApplyKeyMoves | main.js:102-125 | The camera and the target each receive exactly the key moves of the held keys. |
| Controller.NavigationState.ApplyVelocity | main.js:127-136 | The camera and the target each receive exactly the three velocity moves. |
| Controller.NavigationState.ClampToGround | main.js:138-143 | The fields afterwards are exactly GroundClamp of the fields before. |
| Controller.NavigationState.OnClick | main.js:237-247 | The fields afterwards are exactly Click of the fields before. Consistency is preserved. |
| Loading.HidesSpinner | main.js:250-254 | The spinner is hidden exactly when twice the loaded count exceeds the total size or more than 1,000,000 splats are displayed. |
| Loading.HiddenStaysHidden | main.js:250-254 | Once the test passes, it keeps passing as both counts grow. |
| Loading.HalfIsNotEnough | main.js:251 | Exactly half of an even total does not hide the spinner. One more does. |

## Left out

- WebGL2 context creation, the alert and the thrown error (main.js:11-17) are left out: they are browser start-up.
- The renderer, the scene, the grid, the meshes, the lights and both draw calls (main.js:20-47, 148-150) are left out: they are library calls with no effect on the navigation state.
- The Splatter setup, its transforms and the inside of `hitTest` (main.js:26-27, 86-87, 239) are left out. The hit test's answer is an `Option<Vec3>` parameter.
- `OrbitControls` and its own damping and update (main.js:53-56, 146) are left out. The orbit controller is represented only by its target point. `controls.update` runs after the floor clamp and re-places the camera around the target, so the camera that is drawn can be below height 1. The floor and offset properties hold at the end of each modelled handler, before that call.
- `camera.getWorldDirection`, `Vector3.normalize` and the normalisation of the right vector (main.js:104, 108-113) are not computed. They need square roots, so `forward` and the factor `diag` are parameters.
- The animation-frame loop, the empty `update()` and the unused `frameRequested` flag (main.js:91, 152-176) are left out: they only schedule redraws.
- `resize` (main.js:179-185) is left out: it only changes the viewport.
- The spinner's DOM change (main.js:252) is left out. Only the threshold test is modelled.
- IEEE-754 double arithmetic is not modelled: the model uses exact reals. In doubles, `9.8 * 100.0` is 980.0000000000001 rather than 980.
- Vectors are values held in fields. The page's `Vector3` objects are distinct objects that are never shared, so aliasing is not modelled.
- Controller.NavigationState.FrameStep: requires only that `forward` is level and that `diag` is positive, which is what every frame of the page satisfies. The unit-length properties of the moves are proved separately under `HorizontalBasis` and `IsInvSqrt2`.
- Traces.StepConsistent: assumes frame timestamps never decrease. A clock that runs backwards would make the gravity step push the camera up; the model says nothing about that case.
