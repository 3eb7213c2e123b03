# Maze walkthrough character core, modelled in Dafny

The demo's `main.js` drives a character through a maze with a follow camera.
Most of it is rendering-engine plumbing. This project models the part of it
that is its own logic:

- **Collision** (`checkCollisions`). The character's box is built from its
  position: centred half a height above the feet, `2R − 2P` wide and `H − P`
  tall, with H = 54, R = 12, P = 3 after the model scale of 30. The X part of
  the proposed displacement is tried alone, then the Z part alone. Each is
  tried against every wall box. A blocked part becomes 0; the rest, Y included,
  passes through. Without a character model or without walls the displacement
  is returned unchanged. The loop is a method (`AnyWallHit`, run once per axis)
  proved equal to the predicate "some wall box overlaps" (`HitsWall`).
- **Held keys** (`inputManager`). This is a class whose `keys` map the
  key-down and key-up listeners overwrite, always under the lower-cased key
  name. `IsKeyPressed` folds its query the same way and answers false for the
  empty query.
- **Animation selector and busy flag** (`switchAnimation`,
  `onAnimationFinished`, the trigger and switch logic of `updateCharacter`).
  The pure transitions over `Anim` live in the `Animation` module. The
  `Controller.Character` class holds the same fields (`currentActionName`,
  `canPlayAction`, `position`, `moveDirection`). Its methods are proved to
  follow `Switch`, `Finish` and `Step`.
- **Camera clearance**. When the camera's distance from the target is
  degenerate, a fallback ray is used instead. When the ray hits a wall, the
  camera is pulled in to `max(5, hit − 2.5)`, using the nearest hit.

Proved beyond the per-operation contracts:
- `Valid` holds from setup on and every frame or finished event keeps it.
- While busy, no frame moves the character or changes its action.
- On a free frame, `run` is chosen exactly when a move key is held and the
  applied displacement is long enough. So pushing into a wall gives `idle`.
- Two consequences of the code as written:
  - If the kick clip failed to load, a space press marks the character busy,
    and no later frame or finished event can free it. Every loaded action
    then loops, and looping actions never clear the flag.
  - A space press while `kick` is still the current action switches nothing
    but still marks the character busy.
- Testing the two axes separately does not test the diagonal move. A wall at
  a corner can be overlapped by the full allowed displacement.

Two details of the animation code that the model keeps:
- A finished event frees the character for any loaded action other than
  `idle`/`run` (main.js:298-301), whichever action made it busy.
- A finished kick does not switch to idle by itself. It only clears the busy
  flag; the next frame's idle/run choice does the switch.

Inputs the code gets from the engine are parameters here:
- the wall boxes (`Box3.setFromObject` of each collidable);
- the steering direction (`steer`): the normalised, camera-relative direction
  that the held move keys add up to;
- the frame time `delta`;
- the ray-cast hit distances;
- the name of the action a finished event reports.

## Model

| member | source | states |
|---|---|---|
| Geometry.FromCenterAndSize | main.js:325 | the box has exactly the requested extent on each axis and its midpoint is the requested centre |
| Geometry.Translate | main.js:329-334 | translation moves both corners by the offset and keeps the box's extent |
| Geometry.Intersects | main.js:332 | `intersectsBox`: boxes the test reports as meeting overlap as closed intervals on every axis; the converse and symmetry are `IntersectsIsIntervalOverlap` |
| Geometry.IntersectsIsIntervalOverlap | main.js:332 | the overlap test is closed-interval overlap on all three axes ("touching" counts) and is symmetric |
| Collision.CharacterBox | main.js:319-325 | the character box is centred horizontally on the position, `2R−2P` wide, and spans from `P/2` above the feet to `P/2` below the top of the height |
| Collision.HitsWall | main.js:330-333 | some wall in the list overlaps the box, so an empty list is never hit; `AnyWallHit` is the scan proved equal to it |
| Collision.Allowed | main.js:317-343 | Y is kept; X and Z are each either the input value or 0, so never larger in magnitude; without a model or walls the input comes back unchanged |
| Collision.AnyWallHit | main.js:330-333 | the early-exit scan over the walls reports a hit exactly when some wall box overlaps the moved box |
| Collision.CheckCollisions | main.js:317-343 | the method returns exactly `Allowed`: each horizontal component is kept or zeroed, Y is kept |
| Collision.BlockedAxisIsZeroed | main.js:327-341 | X is zeroed when the box moved by `(dx,0,0)` meets a wall and kept when it does not; likewise Z with `(0,0,dz)` |
| Collision.AxesDecidedIndependently | main.js:329-338 | the X outcome depends only on `dx` and the Z outcome only on `dz` |
| Collision.AllowedAxisIsClear | main.js:329-341 | a non-zero allowed component moves the box along its axis without meeting any wall |
| Collision.DiagonalCanCutACorner | main.js:329-341 | a concrete corner wall that blocks neither single-axis move yet overlaps the box moved by the full allowed displacement |
| Input.Lower | main.js:67 | folding keeps the length and lower-cases every character in place |
| Input.IsKeyPressed | main.js:65-68 | a key reads as held only if it is non-empty and its folded name is in the table |
| Input.InputManager.constructor | main.js:63-64 | the table starts empty |
| Input.InputManager.KeyDown | main.js:163 | key-down records exactly the folded key as held and changes nothing else |
| Input.InputManager.KeyUp | main.js:164-166 | key-up records exactly the folded key as released and changes nothing else |
| Input.LowerIdempotent | main.js:67 | folding an already folded name changes nothing |
| Input.QueryIgnoresCase | main.js:65-68 | two queries that differ only in letter case get the same answer |
| Input.HeldAfterKeyDown | main.js:163 | after key-down of `K`, every non-empty casing of `K` reads as held |
| Input.ReleasedAfterKeyUp | main.js:164-166 | after key-up of `K`, no casing of `K` reads as held |
| Input.OtherKeysUnaffected | main.js:163-166 | a listener leaves every key that folds differently as it was |
| Input.EmptyQueryNeverHeld | main.js:66 | the empty query is false whatever the table holds |
| Animation.Setup | main.js:230-247 | a mixer exists exactly with the model and the idle clip; then the loaded clips are the actions and idle is current; the character starts free and `Valid` |
| Animation.Switch | main.js:306-310 | `switchAnimation`: only the current name changes, and only to the requested name; `SwitchSelects` and `SwitchIdempotent` say when |
| Animation.Finish | main.js:297-303 | `onAnimationFinished`: only the busy flag changes, and a free character is never made busy; `FinishFreesOnlyForOneShot` says when it frees |
| Animation.SwitchSelects | main.js:306-310 | a switch changes only the current name, to `name` exactly when a mixer exists and `name` is a loaded action; otherwise nothing |
| Animation.SwitchIdempotent | main.js:307 | requesting the current name is a no-op, so switching twice equals switching once |
| Animation.FreeSwitchPreservesValid | main.js:306-314 | a switch while free, and starting the kick while marking busy, keep `Valid` |
| Animation.FinishFreesOnlyForOneShot | main.js:297-303 | a finished event frees the character exactly when the action is loaded and is neither idle nor run; otherwise it changes nothing; only the flag ever changes |
| Animation.FinishPreservesValid | main.js:297-303 | a finished event keeps `Valid` |
| Animation.NoOneShotWithoutKick | main.js:297-303 | without the kick clip, no finished event changes anything |
| Controller.StartAction | main.js:349-352 | the trigger never changes the mixer or the loaded actions; busy or without space it changes nothing; space while free marks busy (`SpaceStartsKick`, `KickAgainWhileKickCurrent`) |
| Controller.Settle | main.js:382-384 | the idle/run choice changes only the current action, nothing while busy, and only to `idle` or `run` (`FreeFrameChoosesRunOrIdle`) |
| Controller.Step | main.js:346-387 | a frame never changes whether the model, the mixer and the clips loaded, and without model or mixer it changes nothing; `ApplyPreservesValid`, `BusyFrameChangesNothing` and `FreeFrameChoosesRunOrIdle` describe the rest |
| Controller.Character.constructor | main.js:229-247 | the object after setup is `Setup` of what loaded, at the initial position, and `Valid` |
| Controller.Character.SwitchAnimation | main.js:306-314 | only `currentActionName` changes, as `Switch` says |
| Controller.Character.OnAnimationFinished | main.js:297-303 | only `canPlayAction` changes, as `Finish` says |
| Controller.Character.TriggerAction | main.js:349-352 | space while free switches to the kick and marks busy; otherwise nothing changes |
| Controller.Character.Move | main.js:360-380 | the move direction is the steering direction exactly when free and trying, zero otherwise; the applied displacement is the collision-checked one when free and zero when busy; the position advances by it |
| Controller.Character.SettleAnimation | main.js:382-384 | only `currentActionName` changes, as the idle/run switch `Settle` says, and only when free |
| Controller.Character.UpdateCharacter | main.js:346-387 | the new state of the object is `Step` of the old state, the held keys, the steering direction, `delta` and the walls |
| Controller.ApplyPreservesValid | main.js:346-387 | every frame and every finished event keeps `Valid` |
| Controller.ReplayPreservesValid | main.js:346-387 | any sequence of frames and finished events keeps `Valid` |
| Controller.BusyFrameChangesNothing | main.js:360-384 | while busy, a frame leaves position, current action and flag as they were (space does not re-trigger) and clears the move direction |
| Controller.SpaceStartsKick | main.js:349-352 | space while free marks busy, makes the kick current when it loaded, and applies no movement in the same frame |
| Controller.FreeFrameChoosesRunOrIdle | main.js:378-384 | on a free frame without space, the position moves by the collision-checked displacement and `run` is current exactly when a move key is held and the displacement's squared length exceeds 0.0001, `idle` otherwise |
| Controller.PushingIntoWallIdles | main.js:378-384 | with a move key held and each horizontal part of the desired displacement either zero or blocked by a wall, the character stays put and idles |
| Controller.NoMoveKeyIdles | main.js:354-384 | with no move key held, a free frame leaves the position alone and idles |
| Controller.OpenFloorAdvances | main.js:378-380 | with no walls, a free frame with a move key held advances by `steer × 150 × delta` |
| Controller.BusyUntilOneShotFinishes | main.js:297-384 | once busy, no frames and no finished events other than a loaded one-shot's change the position or the animation state |
| Controller.MissingKickLocksCharacter | main.js:349-352 | without the kick clip, a space press leaves the character busy at the same place through every later sequence of events |
| Controller.KickAgainWhileKickCurrent | main.js:349-352 | space while free with the kick still current switches nothing but marks busy |
| Controller.KickThenFinishFreesAgain | main.js:297-352 | a kick makes the kick current and marks busy; its finished event then frees the character without touching the current action |
| CameraRig.WallRay | main.js:437-450 | the ray is never shorter than 0.001; it keeps the camera's own direction and distance exactly when that distance is at least 0.001, otherwise it runs the clearance distance along the default offset |
| CameraRig.ClearanceDistance | main.js:456 | the pulled-in distance is at least the clearance and at least `hit − clearance/2`, and equals one of the two |
| CameraRig.ClearanceMonotone | main.js:456 | a farther wall never pulls the camera nearer |
| CameraRig.ClearanceAgainstWall | main.js:455-457 | a wall at least 7.5 away leaves the camera exactly 2.5 in front of it; a wall nearer than 5 leaves the camera beyond it |
| CameraRig.CameraGoal | main.js:451-458 | a correction exists exactly when the ray hit something; it equals the clearance distance of the nearest hit, `max(5, h − 2.5)`, so it is at least the clearance and no farther than the clearance distance of any hit |

## Left out

- Rendering and scene setup are not modelled: renderer, lights, fog, ground, shadows, layers, window resize, and the minimap pass with its scissor and viewport save/restore. None of it is logic of the demo's own.
- Asset loading is not modelled: the GLTF/FBX loaders, `Promise.all` and the error banner are asynchronous I/O. Only its outcome enters the model, as the arguments of `Animation.Setup`: whether the model loaded and which clips did. The filter that makes meshes whose name contains "wall" collidable is not modelled; the wall boxes are an input.
- The engine's own calls are inputs, since their code is not part of this model: `Box3.setFromObject`, the ray cast, and OrbitControls.
- The camera-relative steering direction is an input: `getWorldDirection`, `crossVectors` and `normalize` need square roots and floating point.
- The character's facing is not modelled: the quaternion `slerp` toward the move direction.
- The camera's smoothing is not modelled: the `lerp` of the follow target and of the camera position, and the correction to the preferred distance (`|CAMERA_OFFSET|` is a square root).
- Mixer fades are not modelled: `fadeIn`/`fadeOut(0.2)`, `reset`, blend weights and `mixer.update`. Only the choice of the current action is. Finished events are separate `Finished` events, applied after the frame that produced them.
- The per-frame console logging and `requestAnimationFrame` scheduling are not modelled.
- Coordinates and constants are exact reals, not IEEE doubles. The base sizes times the scale (1.8×30, 0.4×30, 0.1×30) are taken as 54, 12 and 3. Rounding at the 0.0001 movement threshold and in the overlap test is not captured.
- Input.Lower: folds only ASCII `A`–`Z`, whereas `toLowerCase` applies full Unicode case mapping, which can change a string's length.
- Input.IsKeyPressed: takes a string, so the JavaScript `undefined`/`null` query, which the code also answers with false, cannot be written. The empty string stands for all falsy keys.
- Controller.Character.OnAnimationFinished: takes the finished action's name rather than the action object. The code's reverse lookup (`Object.keys(...).find`) is modelled as membership in the loaded actions, since each name maps to its own action.
