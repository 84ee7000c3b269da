# Runner game: player control, touch joystick, HUD clock and dust, in Dafny

This project models the logic of a small three.js / Rapier obstacle-course game.
In the game a ball rolls along a course against a clock. The model covers five
React source files:

- **Player** (`player.dfy`, module `PlayerControl`). Each frame, the four held
  direction keys and the frame delta become a movement impulse and a rolling
  torque. A jump casts a ray straight down from just below the ball and gives an
  upward impulse only when ground is near. A camera follows the ball through two
  smoothed vectors that are lerped towards fixed offsets every frame.
- **Joystick** (`joystick.dfy`, module `JoystickInput`). Three touch handlers
  track one finger by its identifier. An effect measures the centre of the disc.
  Another effect derives the cursor offset from the drag. Its length is linear up
  to 22 px, then `22 + 5 ln(d - 22)`, and capped at 49. `sin`, `cos`, `atan2`,
  `hypot`, `log` and `PI` are parameters (`MathLib`). Properties that need facts
  about them state those facts as hypotheses.
- **Joystick store** (`joystick_store.dfy`, module `JoystickStore`). One `jump`
  flag, set by `pressJump` and cleared by `releaseJump`.
- **Interface** (`interface.dfy`, module `HudInterface`). The elapsed time shown
  each frame depends on the game phase. The restart control and the input
  widgets are shown or hidden by phase and by device.
- **Dust** (`dust.dfy`, module `DustEffect`). A loop fills a 300-entry position
  array from random draws. An alpha uniform fades by `5 * delta` per frame, never
  goes below 0, and is reset to 1 when the positions are recomputed.

`common.dfy` holds the shared vector and option types. JavaScript numbers are
reals. Physics results, the clock, random draws and DOM presence are inputs.

Three behaviours of the source are worth knowing before reading the model:

- `jump` reads `hit.timeOfImpact` without checking that `castRay` found
  anything (src/Player.jsx:24-26), and the jump-key listener ignores the key
  state it is given (src/Player.jsx:33-36). `JumpAsWritten` and
  `OnJumpKeyAsWritten` model the source as written. The model's own jump
  (`Jump`, `JumpAttempt`, `OnJumpKey`) is the corrected one, as the Findings
  table explains.
- The camera lerp factor is `5 * delta` (src/Player.jsx:89-90), and nothing
  clamps it. So `LerpStaysBetween` only applies to frames with `5 * delta <= 1`.
- Past the 22-pixel dead zone the joystick radius is `22 + ln(d - 22) * 5`
  (src/Joystick.jsx:94-102). Just past 22 this drops below 22, and even below
  -49 (`RadiusUnboundedBelow`).

## Model

| member | source | states |
|---|---|---|
| PlayerControl.ComputeControls | src/Player.jsx:42-68 | the impulse and torque built by successive per-key updates equal the reference vectors: x follows right minus left, z follows backward minus forward, strength `delta` |
| PlayerControl.ControlsProperties | src/Player.jsx:44-68 | for every key combination: y components are 0, `impulse.z == torque.x`, `torque.z == -impulse.x`, no key gives zero vectors, opposite keys cancel, each component is in {-delta, 0, delta} |
| PlayerControl.JumpAsWritten | src/Player.jsx:19-28 | as written: the `(0, 0.5, 0)` impulse exactly when the time of impact is below 0.15; a TypeError exactly when the ray hits nothing |
| PlayerControl.Jump | src/Player.jsx:19-28 | the model's jump: never throws; the `(0, 0.5, 0)` impulse exactly when a hit has time of impact below 0.15; otherwise the body is untouched; agrees with the source whenever the ray hits |
| PlayerControl.NoHitFaults | src/Player.jsx:24-26 | a ray that hits nothing makes the source's jump throw, and the model's jump do nothing |
| PlayerControl.JumpNeedsGroundUnderBall | src/Player.jsx:20-26 | the ray (translation lowered by 0.31, pointing down) starts outside the 0.3 ball; a jump fires exactly when the surface hit lies less than 0.16 below the ball's lowest point |
| PlayerControl.JumpRay | src/Player.jsx:20-23 | the ray's origin is the translation lowered by 0.31; it points along (0, -1, 0), reaches at most 10 and is solid |
| PlayerControl.JumpAttempt | src/Player.jsx:19-28 | the whole corrected jump with `castRay` as a parameter: never throws; an impulse exactly when the ray hits a surface less than 0.16 below the ball's lowest point |
| PlayerControl.OnJumpKeyAsWritten | src/Player.jsx:33-36 | as written, every key change, press or release alike, runs the source's jump: an impulse exactly when the time of impact is below 0.15, a TypeError exactly when the ray hits nothing |
| PlayerControl.OnJumpKey | src/Player.jsx:33-36 | the press-only listener: a release never touches the body, a press runs the jump |
| PlayerControl.ReleaseAlsoJumps | src/Player.jsx:33-36 | as written, one press plus one release while resting on the floor give two impulses |
| PlayerControl.AtMostOneJumpPerPress | src/Player.jsx:33-36 | with the press-only listener, any run of key changes gives at most one impulse per press |
| PlayerControl.Lerp | src/Player.jsx:89-90 | after a lerp, the gap to the target is the old gap scaled by `1 - alpha` |
| PlayerControl.LerpStaysBetween | src/Player.jsx:89-90 | for a factor in [0, 1], each smoothed coordinate lies between its old value and the target |
| PlayerControl.FollowGap | src/Player.jsx:89-90 | following a still target for `n` frames shrinks the gap by `(1 - alpha)^n` |
| PlayerControl.Player.constructor | src/Player.jsx:12-13 | the smoothed camera position starts at (10, 10, 10) and the smoothed target at the origin |
| PlayerControl.Player.Frame | src/Player.jsx:38-95 | with the body attached: the reference impulse and torque are applied; both smoothed vectors are lerped by `5 * delta` towards body + (0, 0.65, 2.25) and body + (0, 0.25, 0); the camera copies them. Without the body: nothing is applied and no state changes |
| JoystickInput.FindTouch | src/Joystick.jsx:34-37 | the result is the first changed touch whose identifier equals the recorded one; None exactly when no touch matches (always, while no identifier is recorded) |
| JoystickInput.RectCenter | src/Joystick.jsx:60-68 | the centre is equidistant from the left and right edges and from the top and bottom edges |
| JoystickInput.Radius | src/Joystick.jsx:94-102 | the radius never exceeds 49; it equals the distance up to 22; beyond 22 it is `min(22 + 5 ln(d - 22), 49)` |
| JoystickInput.RadiusLinearInDeadZone | src/Joystick.jsx:94-98 | for `d1 < d2 <= 22` the radius strictly increases |
| JoystickInput.RadiusUnboundedBelow | src/Joystick.jsx:96-102 | with the natural logarithm, a drag of 22.0000001 px gives a radius below -49: the cap bounds the radius from above only |
| JoystickInput.CursorOffset | src/Joystick.jsx:84-106 | a zero drag length puts the cursor at (0, 0), whatever the trigonometric functions return |
| JoystickInput.CursorAlongDrag | src/Joystick.jsx:84-106 | if sin and cos agree with the drag's direction, the cursor lies along the drag at the response radius; inside the dead zone it equals the drag exactly |
| JoystickInput.Joystick.constructor | src/Joystick.jsx:6-12 | the joystick starts inactive, with no identifier recorded and both centres at the origin |
| JoystickInput.Joystick.MeasureCenter | src/Joystick.jsx:60-68 | a mounted element's rectangle sets the centre to its midpoint; without one the centre is kept |
| JoystickInput.Joystick.TouchStart | src/Joystick.jsx:16-29 | the first changed touch activates the joystick, records its identifier and becomes the current position; no touch changes nothing; keeps "active implies an identifier is recorded" |
| JoystickInput.Joystick.TouchMove | src/Joystick.jsx:31-42 | only the tracked finger moves the current position; other touches leave it |
| JoystickInput.Joystick.TouchEnd | src/Joystick.jsx:44-57 | lifting the tracked finger deactivates the joystick and returns the current position to the centre; other touches change nothing; an active joystick (which always has a tracked finger) ends exactly when that finger's identifier is among the changed touches |
| JoystickInput.Gesture | src/Joystick.jsx:16-57 | measure, touch down, move, lift: the joystick ends inactive with the cursor at (0, 0) |
| JoystickStore.Apply | src/stores/useJoystick.js:6-7 | each action overwrites the flag from any state: set after a press, clear after a release |
| JoystickStore.ApplyIdempotent | src/stores/useJoystick.js:6-7 | applying an action twice equals applying it once |
| JoystickStore.LastActionWins | src/stores/useJoystick.js:6-7 | after any run of actions, the flag depends only on the last action (the initial value if there was none) |
| JoystickStore.Store.constructor | src/stores/useJoystick.js:5 | the flag starts false |
| JoystickStore.Store.PressJump | src/stores/useJoystick.js:6 | sets the flag, from any state |
| JoystickStore.Store.ReleaseJump | src/stores/useJoystick.js:7 | clears the flag, from any state |
| HudInterface.ElapsedSeconds | src/Interface.jsx:19-27 | 0 when not playing or ended; `(now - startTime)/1000` while playing; `(endTime - startTime)/1000` once ended |
| HudInterface.EndedTimeIsFrozen | src/Interface.jsx:23-27 | once ended, the time does not depend on the clock and equals the playing time at `now == endTime` |
| HudInterface.PlayingTimeMonotone | src/Interface.jsx:21-22 | while playing and after the start, the time is non-negative and never runs backwards as the clock advances |
| HudInterface.ShowTime | src/Interface.jsx:16-31 | the time text is written exactly when the element is mounted, and it is the elapsed time |
| HudInterface.ShowTimeAcrossFrames | src/Interface.jsx:16-31 | over two frames of the effect with the element mounted: once ended the same text (the running time at the end) is shown at both; while playing after the start the text never decreases |
| HudInterface.Render | src/Interface.jsx:45-53 | the restart control shows exactly when the phase is ended; exactly one of the keyboard display and the joystick shows, and it is the joystick exactly on mobile |
| DustEffect.FillPositions | src/Dust.jsx:39-50 | the filled array has 300 entries; entry `k` is built from draw `k`; with draws in [0, 1), x entries lie in [x - 0.15, x + 0.15), y entries in [0, 0.15), z entries in [z - 0.15, z + 0.15) |
| DustEffect.CoordinateBounds | src/Dust.jsx:44-46 | a draw in [0, 1) puts each coordinate inside the slab |
| DustEffect.Decay | src/Dust.jsx:61-69 | one frame's alpha is never negative; it is either 0 or the old alpha minus `5 * delta`; for `delta >= 0` it does not grow, so 0 stays 0 |
| DustEffect.FadeClosedForm | src/Dust.jsx:61-69 | over any run of non-negative deltas, from a non-negative alpha, the fade is `max(0, alpha - 5 * total time)` |
| DustEffect.Dust.constructor | src/Dust.jsx:39-57 | on mount the positions come from the draws and alpha is 1 |
| DustEffect.Dust.Frame | src/Dust.jsx:61-69 | with the material mounted, alpha decays by one frame; without it, alpha is kept; alpha stays non-negative |
| DustEffect.Dust.Recompute | src/Dust.jsx:71-73 | recomputed positions come from the new draws, and alpha is reset to 1 |

## Findings

| source | as written | input that shows it | evidently intended | confidence | as-written member | corrected member |
|---|---|---|---|---|---|---|
| src/Player.jsx:33-36 | the jump-key subscription calls `jump` on every change of the key's state, and `jump` ignores its `value` argument, so a release runs the ground check too | press and release the jump key while the ball rests on the floor (time of impact 0 both times): two upward impulses | jump only on a press (`if (value) jump()`), one impulse per press | medium, not executed | PlayerControl.ReleaseAlsoJumps | PlayerControl.AtMostOneJumpPerPress |
| src/Player.jsx:24-26 | `hit.timeOfImpact` is read without checking that `castRay` returned a hit | press jump with nothing within 10 units below the ball (after rolling off the floor): `castRay` returns null and the handler throws a TypeError | a missing hit means "not grounded": no impulse | medium, not executed | PlayerControl.NoHitFaults | PlayerControl.Jump |

## Left out

- The game store `src/stores/useGame.js` is not part of this model. Its `phase`, `startTime` and `endTime` are inputs, and its `restart` action, which the interface reads (src/Interface.jsx:12), is not modelled.
- HudInterface.Phase has three values. The source compares `phase` with the strings `"playing"` and `"ended"`. Any other string behaves like `Ready`.
- Rapier's `castRay`, `applyImpulse` and `applyTorqueImpulse` are not modelled. The time of impact (or no hit) is an input, and the impulses are outputs.
- Three.js `copy` and `lookAt` are not modelled. The scene camera is two vectors on `Player`: its position and the point it looks at.
- `Math.sin`, `Math.cos`, `Math.atan2`, `Math.hypot`, `Math.log` and `Math.PI` are uninterpreted parameters, so their real values are not modelled.
- `Math.random` is not modelled. Its draws are an input sequence assumed to lie in [0, 1).
- Floating point is not modelled: numbers are reals, there is no Float32Array rounding, and `toFixed(2)` formatting is left out.
- Joystick.jsx reads `cursor` and `setCursorPosition` from the joystick store (src/Joystick.jsx:13-14), but src/stores/useJoystick.js defines no `cursor` or `setCursorPosition`, only `jump`, `pressJump` and `releaseJump`. With this store `cursorPosition` is undefined, so reading `cursorPosition.x` while rendering the cursor (src/Joystick.jsx:143) throws on the first render, and `setCursorPosition(...)` (src/Joystick.jsx:103) is not a function. The model does not capture either failure: it returns the cursor offset as a value (`CursorOffset`) instead of storing it.
- Adding and removing event listeners (the touch listeners, the key subscription, the frame effect) is not modelled. Nor are their stale-closure and dependency quirks, or store subscriptions and re-renders.
- The opacity writes in the touch handlers, the GLSL shaders and all JSX markup and styles are left out.
- `src/Keyboard.jsx`, `src/JumpButton.jsx`, `src/Level.jsx`, `src/MobileMask.jsx` and `src/hooks/useMobileDetect.js` are not part of this model. They only render markup or detect the device, and `isMobile` is an input.
- JoystickInput.Joystick.TouchMove and JoystickInput.Joystick.TouchEnd model the handlers themselves, which do not check `active`. The source registers them only while the joystick is active (src/Joystick.jsx:73-80). The model can therefore call them on an inactive joystick with a stale identifier, a state the source never reaches. Their contracts hold in both states.
- PlayerControl.Player.Frame: the frame delta is not clamped, so the smoothing stays between the old value and the target only for `5 * delta <= 1` (`LerpStaysBetween`).
