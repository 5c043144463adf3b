# Camera controller of an indoor map viewer, in Dafny

This project models the camera-control core of a browser viewer for an indoor,
multi-storey campus map. The modelled parts are:

- the shared camera state record and its per-frame damped update;
- the top-level mode and floor arbitration;
- the gesture and free-roam input controllers;
- the follow-mode and floor-selection state machines;
- the database-to-world coordinate map and the browser zoom lock;
- the location search box and floor buttons of the overlay page.

There is one Dafny module per source file:

| module | file | models |
|---|---|---|
| `Wrappers` | wrappers.dfy | `Option`, standing in for `null`/`undefined` and `??` |
| `Maths` | maths.dfy | `Math.abs` |
| `Camera` | camera.dfy | src/core/camera.ts |
| `World` | world.dfy | src/core/world.ts |
| `FollowManager` | follow.dfy | src/core/followmanage.ts |
| `FloorManager` | floor.dfy | src/ui/floormanage.ts |
| `BrowserLock` | browserlock.dfy | src/core/browserlock.ts |
| `GestureController` | gesture.dfy | src/controls/gestureController.ts |
| `FreeController` | free.dfy | src/controls/freeController.ts |
| `Viewer` | viewer.dfy | src/main.ts |
| `SearchPanel` | search.dfy | js/app.js |

The source keeps its state in module-level `let`s, in closure variables of the
`bind…` functions and in the shared `state` record. Each of these is a Dafny
`class` whose fields are those variables, and each event handler is a method
that updates them.

A controller talks to its owner through callbacks:

- What a handler *reads* through a callback is a parameter of the handler method: `isActive()`, `getZoom()` and `getPosition()`.
- The call a handler *makes* is the method's result, an `Intent`: `setZoom`, `addYaw`, `addPitch` or `setPosition`.
- `Viewer.App` delivers gesture intents to the camera state, with the same mode gate as src/main.ts.

Every quantity is a Dafny `real`. The library maths is abstract:

- `decay(rate, dt)` stands for `1 - Math.exp(-rate * dt)`. `THREE.MathUtils.damp` and the yaw step use it. It is known only to lie in `[0, 1]` and to be `0` when `dt == 0`.
- `angleDelta(d)` stands for `Math.atan2(Math.sin(d), Math.cos(d))`. Only `angleDelta(0) == 0` is used, and only as a hypothesis.
- The pinch distance `Math.hypot(dx, dy)` is an input.
- `toLowerCase` is an abstract function `lower` on strings.

## Model

| member | source | states |
|---|---|---|
| Maths.Abs | src/controls/gestureController.ts:76 | `Math.abs`: the result is nonnegative and is `x` or `-x` |
| Camera.PitchDampRate | src/core/camera.ts:130 | the pitch damping rate is `PITCH.DAMP` when configured and 6 otherwise |
| Camera.Lerp | src/core/camera.ts:83-87 | the lerp gives the first endpoint at `t = 0`, the second at `t = 1`, and in general moves from the first by `t` times the gap |
| Camera.LerpBetween | src/core/camera.ts:83-87 | for `t` in `[0, 1]` the lerp lies between its two endpoints |
| Camera.LerpMonotone | src/core/camera.ts:83-87 | with ordered endpoints the lerp is nondecreasing in `t` |
| Camera.LerpAntitone | src/core/camera.ts:115-119 | with reversed endpoints the lerp is nonincreasing in `t` |
| Camera.Damp | src/core/camera.ts:70-75 | a damped value ends between its old value and its target (no overshoot); a zero-length frame keeps it; a value at its target stays there |
| Camera.Clamp | src/core/camera.ts:121-125 | `clamp(v, lo, hi)` lies in `[lo, hi]` when `lo <= hi`, is `v` inside the range, `lo` below it and `hi` above it |
| Camera.YawStep | src/core/camera.ts:61-66 | the yaw does not move when the target yaw equals the current yaw, or when the blend factor is 0 |
| Camera.ZoomFraction | src/core/camera.ts:77-79 | `t` is the position of the zoom in the zoom range: `ZOOM.MIN + t*(ZOOM.MAX - ZOOM.MIN)` is the zoom, so `t = 0` at `ZOOM.MIN` and `t = 1` at `ZOOM.MAX` |
| Camera.ZoomFractionInUnit | src/core/camera.ts:77-79 | a zoom inside the range has `t` in `[0, 1]`, and a larger zoom has a larger `t` |
| Camera.TargetHeight | src/core/camera.ts:83-87 | the target height is `HEIGHT.MIN` at `t = 0` and `HEIGHT.MAX` at `t = 1` |
| Camera.TargetFov | src/core/camera.ts:100-104 | the target FOV is `FOV.MIN` at `t = 0` and `FOV.MAX` at `t = 1` |
| Camera.BasePitch | src/core/camera.ts:115-119 | the base pitch interpolates reversed: `PITCH.MAX` at `t = 0`, `PITCH.MIN` at `t = 1` |
| Camera.FinalTargetPitch | src/core/camera.ts:121-125 | the pitch the camera heads for lies in `[PITCH.MIN, PITCH.MAX]` when `MIN <= MAX`, and is base pitch plus offset whenever that is already in range |
| Camera.ZoomEndpoints | src/core/camera.ts:77-119 | at `ZOOM.MIN` the height, FOV and base-pitch targets are `HEIGHT.MIN`, `FOV.MIN` and `PITCH.MAX`; at `ZOOM.MAX` they are `HEIGHT.MAX`, `FOV.MAX` and `PITCH.MIN` |
| Camera.TargetHeightFollowsZoom | src/core/camera.ts:77-87 | for zooms in range the target height is in the height range and grows with the zoom |
| Camera.FovFollowsZoom | src/core/camera.ts:98-104 | for zooms in range with `FOV.MIN <= FOV.MAX` the target FOV is in the FOV range and grows with the zoom |
| Camera.PitchFollowsZoom | src/core/camera.ts:113-119 | for zooms in range with `PITCH.MIN <= PITCH.MAX` the base pitch is in the pitch range and falls as the zoom grows |
| Camera.DampedZoomStaysInRange | src/core/camera.ts:70-87 | once the camera zoom and the target zoom are in range, one frame keeps the zoom in range and the target height in the height range |
| Camera.CameraState.constructor | src/core/camera.ts:27-46 | the initial state: target zoom 1, both yaws 0, target X and Z 0, both pitches `PITCH.MIN`, both heights `HEIGHT.MIN` |
| Camera.PerspectiveCamera.constructor | src/core/camera.ts:20-25 | a new camera has the given FOV, aspect and clipping planes, zoom 1, and sits at the origin unrotated |
| Camera.CreateCamera | src/core/camera.ts:19-49 | `createCamera` gives a camera with FOV `FOV.MIN`, near plane 0.1 and far plane 5000 at height `HEIGHT.MIN`, and the initial state record |
| Camera.UpdateCamera | src/core/camera.ts:51-160 | one frame leaves the five controller targets alone and sets every other written value by the steps above; no damped value overshoots, the pitch heads for a point in the pitch range, a settled yaw stays put, and a zero-length frame moves nothing |
| World.MapToWorld | src/core/world.ts:1-10 | scaling world X and Z back by `MAP_SCALE` gives the database X and Y; the height is `floor * 3` |
| World.WorldToMap | src/core/world.ts:6-8 | the reverse map divided by `MAP_SCALE` gives back the world X and Z |
| World.RoundTrip | src/core/world.ts:4-10 | the map inverts exactly over the reals |
| World.Injective | src/core/world.ts:4-10 | distinct database points (or floors) map to distinct world points |
| World.Linear | src/core/world.ts:4-10 | the origin maps to the origin and the map is additive in X, Y and floor |
| World.StrictlyIncreasing | src/core/world.ts:1-8 | since `MAP_SCALE > 0`, world X grows strictly with database X and world Z with database Y |
| FollowManager.Flipped | src/core/followmanage.ts:37-43 | toggling always gives the other mode |
| FollowManager.FlippedTwice | src/core/followmanage.ts:37-43 | toggling twice restores the mode |
| FollowManager.Follow.constructor | src/core/followmanage.ts:5 | the initial mode is `IDLE` and nothing is logged |
| FollowManager.Follow.GetFollowMode | src/core/followmanage.ts:11-13 | the reported mode, through which the mutators state their effect: `FOLLOW_USER` after `enableFollow`, `IDLE` after `disableFollow` and after `cancelFollowOnUserInteraction` |
| FollowManager.Follow.IsFollowing | src/core/followmanage.ts:15-17 | true exactly when `getFollowMode()` reports `FOLLOW_USER` and false exactly when it reports `IDLE`; `enableFollow` makes it true, `disableFollow` and the cancel make it false, `toggleFollow` negates it |
| FollowManager.Follow.EnableFollow | src/core/followmanage.ts:23-28 | afterwards the mode is `FOLLOW_USER`, so `isFollowing()` holds and `getFollowMode()` reports `FOLLOW_USER`; the message is logged only on an actual transition |
| FollowManager.Follow.DisableFollow | src/core/followmanage.ts:30-35 | afterwards the mode is `IDLE`, so `isFollowing()` is false and `getFollowMode()` reports `IDLE`; the message is logged only on an actual transition |
| FollowManager.Follow.ToggleFollow | src/core/followmanage.ts:37-43 | the mode flips, so `isFollowing()` is negated, and exactly the transition's message is logged |
| FollowManager.Follow.CancelFollowOnUserInteraction | src/core/followmanage.ts:50-55 | always ends in `IDLE`, with `isFollowing()` false; from `IDLE` it changes nothing, otherwise it logs the cancel message |
| FollowManager.ToggleTwice | src/core/followmanage.ts:37-43 | two toggles restore the mode and log two lines |
| FloorManager.Floors.constructor | src/ui/floormanage.ts:1 | the initial floor is null |
| FloorManager.Floors.SetFloor | src/ui/floormanage.ts:3-12 | afterwards the floor is `f`; the result is true iff the floor changed, and only a change is logged |
| FloorManager.Floors.GetCurrentFloor | src/ui/floormanage.ts:14-16 | returns the current floor |
| FloorManager.SetFloorTwice | src/ui/floormanage.ts:3-12 | setting the same floor twice in a row: the second call returns false |
| BrowserLock.ZoomLock.constructor | src/core/browserlock.ts:1 | the page starts unlocked, with no wheel listener |
| BrowserLock.ZoomLock.SetBrowserZoomLock | src/core/browserlock.ts:7-23 | afterwards `isLocked == lock`; a call with `lock == isLocked` changes nothing; locking sets `touchAction` to `none` and `overflow` to `hidden`, unlocking restores both to `""`; the listener is attached exactly while locked, never twice |
| BrowserLock.ZoomLock.WheelDefaultPrevented | src/core/browserlock.ts:3-5 | a wheel event's browser zoom is cancelled iff the lock is on and ctrl is held |
| GestureController.ClampZoom | src/controls/gestureController.ts:63-64 | the clamped zoom lies in `[zoomMin, zoomMax]` when `zoomMin <= zoomMax`, and is the zoom itself inside the range |
| GestureController.ClampZoomMonotone | src/controls/gestureController.ts:63-64 | clamping keeps the order of two zooms |
| GestureController.ZoomBy | src/controls/gestureController.ts:58-66 | a zoom step lands in the range, and is exact when the unclamped result is in range |
| GestureController.ZoomByDirection | src/controls/gestureController.ts:58-66 | from inside the range, a nonnegative step never zooms out and a nonpositive step never zooms in |
| GestureController.DragYaw | src/controls/gestureController.ts:76-78 | a drag of `dx` calls `addYaw(-dx * panSens)` exactly when `abs(dx) > deadzone`, and a zero drag never turns |
| GestureController.Gesture.constructor | src/controls/gestureController.ts:18-27 | `zoomSpeed` defaults to 0.001 and `deadzone` to 0 when omitted; nothing is in progress |
| GestureController.Gesture.TouchStart | src/controls/gestureController.ts:35-47 | one finger starts a drag at its X; two fingers stop dragging and start a pinch at their distance; anything else, or inactivity, changes nothing |
| GestureController.Gesture.TouchMove | src/controls/gestureController.ts:49-82 | a pinch zooms by `(d - lastPinchDist) * zoomSpeed`, clamped, remembers `d` and never turns; a one-finger drag always remembers its X and turns only beyond the deadzone; anything else does nothing |
| GestureController.Gesture.TouchEnd | src/controls/gestureController.ts:84-87 | resets `isTouchPanning` to false and `lastPinchDist` to null |
| GestureController.Gesture.MouseDown | src/controls/gestureController.ts:97-101 | an active controller starts a mouse drag at the pointer X |
| GestureController.Gesture.MouseMove | src/controls/gestureController.ts:103-112 | during an active drag it remembers X and turns by the deadzone rule; otherwise nothing |
| GestureController.Gesture.MouseUp | src/controls/gestureController.ts:114-116 | clears `isMouseDown` |
| GestureController.Gesture.MouseLeave | src/controls/gestureController.ts:118-120 | clears `isMouseDown` |
| GestureController.Gesture.Wheel | src/controls/gestureController.ts:123-137 | an active controller sets the zoom to the current zoom plus `-deltaY * zoomSpeed`, clamped to the range; its own state is untouched |
| FreeController.Ids | src/controls/freeController.ts:162-164 | the identifier set of a touch list holds exactly the identifiers of its touches |
| FreeController.IdsSnoc | src/controls/freeController.ts:162-164 | the identifiers of a list are those of its front plus its last touch's |
| FreeController.Recorded | src/controls/freeController.ts:76-82 | recording no touch keeps the map; recording keeps every old key, and the last touch's identifier maps to its position |
| FreeController.RecordedKeys | src/controls/freeController.ts:76-82 | recording a touch list adds exactly its identifiers to the map |
| FreeController.RecordedKeepsOthers | src/controls/freeController.ts:76-82 | entries of fingers not in the list keep their positions |
| FreeController.RecordedLast | src/controls/freeController.ts:76-82 | each recorded identifier maps to the position of its last touch in the list |
| FreeController.Held | src/controls/freeController.ts:182-185 | a key never pressed reads as not held; a recorded key is held iff its entry is true |
| FreeController.Axis | src/controls/freeController.ts:182-185 | per axis the move is +1, 0 or -1 steps: 0 exactly when both or neither of the opposite keys are held |
| FreeController.ProductSign | src/controls/freeController.ts:140-142 | the sign of `dy1 * dy2` is negative iff the moves have opposite signs, positive iff the same sign, zero iff one is zero |
| FreeController.Pan | src/controls/freeController.ts:102-110 | the one-finger pan moves the camera against the finger: an unmoved finger leaves the position, and with a positive speed the camera X (Z) decreases iff the finger moved right (down) |
| FreeController.TwoFingerTurn | src/controls/freeController.ts:140-145 | opposite vertical moves add yaw `(dy1 - dy2) * rotateSens`, same-direction moves add pitch `-(dy1 + dy2)/2 * rotateSens`, and a zero move adds neither |
| FreeController.Free.constructor | src/controls/freeController.ts:17-23 | no key, finger or button is down; the minimum horizontal gap is 0.4 of the window width |
| FreeController.Free.KeyDown | src/controls/freeController.ts:29-32 | sets the lower-cased key only while active |
| FreeController.Free.KeyUp | src/controls/freeController.ts:34-36 | clears the lower-cased key even while inactive |
| FreeController.Free.MouseDown | src/controls/freeController.ts:45-49 | an active controller starts a drag at the pointer X |
| FreeController.Free.MouseMove | src/controls/freeController.ts:51-58 | during an active drag, turns by `-dx * rotateSens` and remembers X; otherwise nothing |
| FreeController.Free.MouseUp | src/controls/freeController.ts:60-62 | clears `isMouseDown` |
| FreeController.Free.TouchStart | src/controls/freeController.ts:68-85 | while active, one finger makes the gesture single and two or more make it multi, and every touch is recorded; inactive, nothing changes |
| FreeController.Free.TouchMove | src/controls/freeController.ts:87-159 | inactive does nothing. A single-finger move pans and records the finger; an unrecorded finger is ignored. In multi mode an unrecorded finger, a gap below the minimum or both vertical moves below 2 return early with the map unchanged; otherwise the two-finger rule applies and both fingers are recorded |
| FreeController.Free.TouchEnd | src/controls/freeController.ts:161-169 | removes exactly the lifted identifiers; the gesture becomes none when no touch remains, and otherwise keeps its mode |
| FreeController.Free.Update | src/controls/freeController.ts:175-188 | while active, the new position is the old plus one signed move-speed step per held WASD key, so opposite keys cancel; inactive makes no call |
| Viewer.Toggled | src/main.ts:105 | the toggle always gives the other mode |
| Viewer.ToggledTwice | src/main.ts:105 | toggling twice restores the mode |
| Viewer.IntendedToggle | src/main.ts:104-113 | the intended toggle: the mode flips and the zoom lock is engaged exactly in GYRO mode |
| Viewer.AsWrittenToggle | src/main.ts:104-113 | the toggle as written: the mode flips, GESTURE unlocks, and a lock that was off stays off |
| Viewer.AsWrittenGyroUnlocked | src/main.ts:104-113 | from start-up, the first toggle as written enters GYRO with the lock off, unlike the intended toggle |
| Viewer.After | src/main.ts:52-55 | after a run of location polls the floor shown is the last polled floor, or the starting one if there was no poll |
| Viewer.PollLoads | src/main.ts:52-55 | the floor loads a run of polls triggers: never more loads than polls, and every load is of a polled floor |
| Viewer.RepeatedPollsLoadOnce | src/main.ts:52-55 | polling the same floor any number of times loads it exactly once, or never if it was already shown |
| Viewer.NoLoadsKeepFloor | src/main.ts:52-55 | polls that load nothing leave the starting floor shown |
| Viewer.LastLoadIsShown | src/main.ts:52-55 | after any load, the floor shown is the floor last loaded |
| Viewer.NoRepeatedLoads | src/main.ts:52-55 | no floor is loaded twice in a row, and the first load is never the floor already shown |
| Viewer.AfterAppend | src/main.ts:52-55 | the floor shown after two runs of polls is the one the second run leaves, starting from where the first left off |
| Viewer.PollLoadsAppend | src/main.ts:52-55 | the loads of two runs of polls in a row are the first run's loads followed by the second run's, from the floor the first leaves |
| Viewer.App.constructor | src/main.ts:20-95 | the mode starts as GESTURE and the floor as null; the state record is the initial one; the gesture controller gets the zoom range, zoom speed 0.002 and the configured pan sensitivity and deadzone |
| Viewer.App.GyroIsActive | src/main.ts:73 | the gyro controller is active iff the mode is GYRO; `toggleMode` negates it and leaves the zoom lock engaged iff it holds |
| Viewer.App.ToggleMode | src/main.ts:104-113 | the intended toggle (`IntendedToggle`): the mode flips, so `GyroIsActive` is negated; afterwards the browser zoom lock is on iff the gyro is active, and the gyro is enabled once on each entry to GYRO |
| Viewer.App.ToggleModeAsWritten | src/main.ts:104-113 | the toggle as written (`AsWrittenToggle`): entering GYRO throws at `gyro.enable()` after the mode has flipped, leaving the lock as it was; entering GESTURE unlocks |
| Viewer.App.HandleLocation | src/main.ts:49-60 | a floor is loaded only when it differs from the one shown, and then shown; the loads so far are `PollLoads` of all polls; target X and Z become the world position of the map point; nothing else in the state changes |
| Viewer.App.AddYaw | src/main.ts:87-91 | the gesture yaw callback changes the target yaw only in GESTURE mode, and nothing else |
| Viewer.App.SetZoom | src/main.ts:81 | the zoom callback sets the target zoom in every mode, and nothing else |
| Viewer.App.Deliver | src/main.ts:80-91 | a gesture callback reaches the state through the two callbacks above |
| Viewer.App.OnWheel | src/main.ts:77-95 | a wheel event moves the target zoom by the clamped wheel step, so it lands in the configured zoom range, whatever the mode |
| Viewer.App.OnTouchMove | src/main.ts:77-95 | a touch move either keeps the target zoom or puts it in the configured range, never changes the target yaw in GYRO mode, and touches no other field |
| Viewer.App.OnMouseMove | src/main.ts:77-95 | the button state is kept; with the button down the last X becomes the pointer X and, in GESTURE mode, the target yaw moves by the drag's `addYaw` delta (nothing inside the deadzone); with it up nothing changes; only the target yaw can change, and in GYRO mode nothing |
| SearchPanel.OccursAt | js/app.js:48 | the query occurs at index `i` iff it fits there and agrees with the name character by character |
| SearchPanel.Contains | js/app.js:48 | `includes`: a name never contains a longer query, and always contains the empty query and itself |
| SearchPanel.ContainsEmpty | js/app.js:48 | the empty query occurs in every name, and only the empty query occurs in an empty name |
| SearchPanel.ContainsSlice | js/app.js:48 | every piece of a name occurs in it |
| SearchPanel.SearchName | js/app.js:46-47 | a missing or empty name searches as `""`, any other name lower-cased |
| SearchPanel.Matches | js/app.js:45-49 | the empty query matches every location, and a match needs a name at least as long as the query |
| SearchPanel.MissingNameMatchesThroughOther | js/app.js:46-48 | a location missing one name matches a nonempty query exactly through its other name |
| SearchPanel.Filter | js/app.js:45-49 | every kept location comes from the list and has a lower-cased Thai or English name containing the query |
| SearchPanel.FilterComplete | js/app.js:45-49 | every matching location is kept |
| SearchPanel.FilterAppend | js/app.js:45 | filtering a concatenation concatenates the filtered parts, so the original order is kept |
| SearchPanel.WholeNameFound | js/app.js:36-49 | typing a location's whole name, in any letter case that lower-casing folds away, finds it |
| SearchPanel.RowsOf | js/app.js:58-66 | one selectable row per item, in order |
| SearchPanel.Page.constructor | js/app.js:8-9 | no locations are loaded and no floor is chosen |
| SearchPanel.Page.Load | js/app.js:24-27 | the fetched locations become the ones searched |
| SearchPanel.Page.RenderResults | js/app.js:54-72 | the list is shown; with items it gains one row per item in order, with none it holds exactly one "not found" row |
| SearchPanel.Page.OnKeyup | js/app.js:36-52 | the list is cleared; an empty query hides it without filtering; otherwise it lists the matches in order, or exactly one "not found" row |
| SearchPanel.Page.SetFloor | js/app.js:95-110 | afterwards the chosen floor is `f`, and a button is active iff its number equals `f` |
| SearchPanel.SearchRowsSoundAndComplete | js/app.js:45-66 | every result row is a matching location from the list, and every matching location gets a row |

## Left out

- Rendering, the scene and the DOM overlay (src/core/scene.ts, src/ui/ui.ts) and the JSON editor (test.py) are not part of this model. They are plumbing and UI without state logic.
- Floor loading (src/core/floorloader.ts) is asynchronous asset loading. `loadFloor` is modelled as an entry appended to `Viewer.App.floorLoads`.
- Location and GPS services (src/core/locationservice.ts, src/core/gpsservice.ts) are network, timer and geolocation I/O. A poll is a call of `Viewer.App.HandleLocation`.
- The gyro controller's orientation handling (src/controls/gyroController.ts) is not part of this model. `bindGyro` returns only `dispose` and expects `setTargetYaw`/`setDebugAlpha`, while src/main.ts passes `setYaw` and calls `gyro.enable()` at src/main.ts:108. As written that call throws a `TypeError`, and src/ui/ui.ts:63-66 has no `try`/`catch`, so `setBrowserZoomLock(true)` and the button's `update()` are never reached. This is modelled by `Viewer.App.ToggleModeAsWritten` and listed under Findings. `Viewer.App.ToggleMode` models the intended toggle: it counts the `enable()` call as returning normally, and the rest of the model uses it.
- The animation loop and the clock (src/main.ts:135-145) are not modelled beyond `Camera.UpdateCamera`, which takes `dt` as a parameter.
- `updateProjectionMatrix`, the `toFixed` debug string and `getPosition` of src/main.ts are rendering or display only.
- Transcendental maths (`Math.exp`, `Math.atan2`, `sin`, `cos`, `Math.hypot`) is abstract, as described above. Wrap-around facts about `atan2` are not proved.
- Floating point is out of scope: all quantities are exact reals, with no rounding, NaN or Infinity. Floors are integers, and `Number(btn.textContent)` is assumed to give one.
- Camera.UpdateCamera: requires a configuration with a nonempty zoom range and nonnegative damping rates. The source checks neither; an empty zoom range gives NaN there.
- Camera.UpdateCamera: states the current pitch only as heading for some point of the pitch range (between the old pitch and `PITCH.MIN` or `PITCH.MAX`), besides its exact value in terms of `FinalTargetPitch`.
- Camera.YawStep: says nothing about the size of the yaw step, because only `angleDelta(0) == 0` is known about `atan2`.
- Viewer.App.OnTouchMove: speaks of the target-zoom range only for the gesture controller's clamp. It does not restate the whole pinch and drag behaviour, which `GestureController.Gesture.TouchMove` states.
- Only `OnWheel`, `OnTouchMove` and `OnMouseMove` of the gesture wiring are modelled in `Viewer.App`. The other gesture handlers only forward to the controller with `isActive` true.
- `handleLocationSelect`, the outside-click handler and `sendNavigationGoal` in js/app.js are DOM focus and network calls. `initFloorSelector` only binds click handlers to `setFloor`. The `console.log` lines are not modelled.
- Listener timing, that is event-loop ordering between the animation frame, polling and input events, is not modelled. Each handler runs to completion, one at a time.
- The source has no FREE mode in the mode toggle, no follow-mode check in `handleLocation`, no sticky two-finger sub-mode and no yaw-relative panning, so none of these is modelled.

## Findings

| source | as written | input that shows it | evidently intended | confidence | as-written member | corrected member |
|---|---|---|---|---|---|---|
| src/main.ts:107-109 | `gyro.enable()` is called on the object `bindGyro` returns (src/controls/gyroController.ts:22-26), which has only `dispose`; the call throws before `setBrowserZoomLock(true)` | the first click of the mode button after start-up: the mode becomes GYRO and the browser zoom lock stays off (`Viewer.AsWrittenGyroUnlocked`) | entering GYRO enables the gyro and engages the zoom lock, so the lock is on exactly in GYRO mode | not executed; high, since the gyro controller shown defines no `enable` | Viewer.AsWrittenToggle | Viewer.IntendedToggle |
