# Camera vertical-motion model

This project models the `Camera` class of a small OpenGL demo (`src/Camera.cpp`).
It covers the class's vertical-motion state machine and its two input clamps.

The state is five booleans: `isJumping`, `isFalling`, `isCrouching`,
`isStandingUp` and `crouched`, plus the position `Position` (x, y, z).
For FORWARD, BACKWARD, LEFT and RIGHT, `ProcessKeyboard` moves the camera along
`Front` or `Right`. The move can change y while `Front.y` (or `Right.y`) is
non-zero, as it is after the basis is recomputed by the constructor or by mouse
movement. Every call, whatever the key, then sets `Front.y` to 0. For the JUMP,
CROUCH and STAND_UP keys it does not move the camera and only raises a request
flag, and only when the current flags allow it. Four per-frame integrators then move `y` by
half the velocity (`MovementSpeed * deltaTime`) per call:

- `jump` rises until the next step would pass the jump height 0.25;
- `ProcessFalling` sinks until it would pass 0, then lands on y = 0;
- `Crouching` sinks until it would pass the crouch height -0.15;
- `StandingUp` rises until it would pass 0, then ends on y = 0.

Mouse movement adds the scaled offsets to yaw and pitch. On request it clamps
pitch to [-89, 89]. The scroll wheel keeps the zoom in [1, 45].

Layout:

- `camera_spec.dfy`, module `CameraSpec`. It holds the state as a value
  (`Motion`), one function per operation, the flag invariant `Consistent`, and
  lemmas about several frames. Each phase (jump, fall, crouch, stand up) ends
  after finitely many frames. A jump request followed by its frames, or a crouch
  followed by a stand-up, brings an idle camera back to rest on y = 0 with x and
  z unchanged.
- `camera.dfy`, module `CameraClass`. It holds the class `Camera` with the
  source's fields and methods. Each method is proved to change exactly the
  fields it names, in the way the matching `CameraSpec` function says. Each
  method also keeps the object invariant `Valid`: the thresholds keep their
  values and the flags stay `Consistent`.

Scalars are `real`. `SPEED`, `SENSITIVITY` and `ZOOM` are defined in
`Camera.hpp`, which is not part of this model, so they are constructor
parameters here. `Front` and `Right` enter the planar moves as given vectors.

Behaviour of the code worth noting:

- Landing and standing up set y to the constant 0 (src/Camera.cpp:97, 124),
  not to the `Ground` value stored by the constructor.
- The end of a crouch is not snapped to the crouch height. `CrouchSettles`
  shows that the resting height lies within one half-step above -0.15.
- The constructor sets `Position` to `ground`. It ignores its `position` argument.
- `ProcessMouseScroll` changes a zoom that starts outside [1, 45] only by
  clamping it. The scroll offset is not applied in that case.

## Model

| member | source | states |
|---|---|---|
| CameraSpec.PlanarMove | src/Camera.cpp:44-52 | a planar key displaces the position by velocity times the signed Front or Right vector; the other keys leave it alone |
| CameraSpec.Request | src/Camera.cpp:57-71 | JUMP sets isJumping iff neither jumping nor falling, CROUCH sets isCrouching iff not crouching and not standing up, STAND_UP sets isStandingUp iff crouched and not standing up; nothing else changes, a jump while airborne is a no-op, and the flag invariant is kept |
| CameraSpec.Keyboard | src/Camera.cpp:43-72 | planar keys change only the position, by the signed Front or Right vector times the velocity (y included); JUMP, CROUCH and STAND_UP never move the camera; the flags then follow the guards of Request; the flag invariant is kept |
| CameraSpec.JumpStep | src/Camera.cpp:74-85 | no-op unless jumping; otherwise y rises by exactly half the velocity while that stays at or below 0.25, else the jump turns into a fall with the position unchanged; x, z and the crouch flags never change; y stays at or below 0.25 and never drops for a non-negative velocity |
| CameraSpec.FallStep | src/Camera.cpp:87-100 | no-op unless falling; otherwise y sinks by half the velocity while that stays at or above 0, else both jump flags clear and y becomes exactly 0 with x, z kept; a non-negative y never becomes negative |
| CameraSpec.CrouchStep | src/Camera.cpp:102-112 | no-op unless crouching; otherwise y sinks by half the velocity while that stays at or above -0.15, else isCrouching clears and crouched is set with the position unchanged; y at or above -0.15 stays there |
| CameraSpec.StandUpStep | src/Camera.cpp:114-127 | no-op unless standing up; otherwise y rises by half the velocity while that stays at or below 0, else isCrouching, isStandingUp and crouched clear and y becomes exactly 0 with x, z kept; a non-positive y stays non-positive |
| CameraSpec.Frames | src/Camera.cpp:74-127 | any number of frames of any integrator keeps x and z and the flag invariant |
| CameraSpec.JumpReachesApex | src/Camera.cpp:74-85 | repeated jump frames end the jump in finitely many frames, turning it into a fall; the apex is never above 0.25 (when started there or below) and lies within one half-step of it |
| CameraSpec.FallLands | src/Camera.cpp:87-100 | repeated falling frames land in finitely many frames on exactly (x, 0, z) with both jump flags clear |
| CameraSpec.CrouchSettles | src/Camera.cpp:102-112 | repeated crouching frames complete the crouch in finitely many frames; the resting y is at least -0.15 (when started there or above) and less than one half-step above it |
| CameraSpec.StandUpFinishes | src/Camera.cpp:114-127 | repeated standing-up frames finish in finitely many frames on exactly (x, 0, z) with every crouch flag clear |
| CameraSpec.JumpRoundTrip | src/Camera.cpp:57-100 | from idle, a JUMP key, jump frames and then falling frames end idle on (x, 0, z); from y = 0 this returns exactly the starting state |
| CameraSpec.CrouchRoundTrip | src/Camera.cpp:62-127 | from idle, a CROUCH key and crouching frames complete a crouch near -0.15; a STAND_UP key and standing-up frames then end idle on (x, 0, z), exactly the starting state from y = 0 |
| CameraSpec.MouseLook | src/Camera.cpp:131-145 | yaw becomes old yaw plus sensitivity times xoffset, unclamped; pitch gets sensitivity times yoffset added and, when constrained, always lies in [-89, 89], clamped to the nearer bound when out of range |
| CameraSpec.ScrollZoom | src/Camera.cpp:153-160 | the new zoom always lies in [1, 45], whatever the old zoom; an in-range zoom moves by -yoffset when it stays in range and is otherwise clamped; an out-of-range zoom is only clamped |
| CameraClass.Camera.constructor | src/Camera.cpp:4-21 | the camera starts idle at the `ground` argument, with the given up vector, angles and tunables, thresholds 0.25 and -0.15 and the object invariant |
| CameraClass.Camera.ProcessKeyboard | src/Camera.cpp:43-72 | position and flags change exactly as Keyboard says, Front.y becomes 0, nothing else changes, the invariant is kept |
| CameraClass.Camera.Jump | src/Camera.cpp:74-85 | position and flags change exactly as JumpStep says with velocity MovementSpeed times deltaTime; nothing else changes |
| CameraClass.Camera.ProcessFalling | src/Camera.cpp:87-100 | position and flags change exactly as FallStep says; nothing else changes |
| CameraClass.Camera.Crouching | src/Camera.cpp:102-112 | position and flags change exactly as CrouchStep says; nothing else changes |
| CameraClass.Camera.StandingUp | src/Camera.cpp:114-127 | position and flags change exactly as StandUpStep says; nothing else changes |
| CameraClass.Camera.ProcessMouseMovement | src/Camera.cpp:131-149 | yaw and pitch change as MouseLook says, so a constrained pitch lies in [-89, 89]; only the angles and the basis vectors change |
| CameraClass.Camera.ProcessMouseScroll | src/Camera.cpp:153-160 | Zoom becomes ScrollZoom of the old zoom and lies in [1, 45]; nothing else changes |

## Left out

- `updateCameraVectors` (src/Camera.cpp:163-178) computes the basis with trigonometry and `glm::normalize`/`glm::cross`, which reals cannot express. `CameraClass.Camera.UpdateCameraVectors` lets Front, Right and Up take any value, so the orthonormality of the basis is not modelled.
- CameraClass.Camera.ProcessMouseMovement: says nothing about the recomputed Front, Right and Up, because their computation is not modelled (see above).
- CameraClass.Camera.constructor: says nothing about the initial Front, Right and Up, for the same reason.
- `GetViewMatrix` (src/Camera.cpp:36-38) only wraps `glm::lookAt`, a matrix library call.
- The console trace in `ProcessFalling` (src/Camera.cpp:92) is output only.
- The scalar 8-argument constructor (src/Camera.cpp:23-33) leaves the motion flags, `Ground`, `jumpHeight` and `CrouchHeight` uninitialised. Objects built that way have no defined behaviour to model.
- `src/main.cpp` is window, shader and buffer setup plus a render loop. It never uses the camera.
- Float rounding: all scalars are reals, so the model does not show rounding in the comparisons against the thresholds.
- The multi-frame lemmas run one integrator at a time with a fixed positive velocity. No caller in the repository fixes the order in which a frame calls the integrators, so interleavings are not modelled.
