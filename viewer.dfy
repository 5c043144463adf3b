/**
 * The top-level wiring of the viewer (src/main.ts): the camera mode, the floor
 * shown, the location handler that loads floors and moves the camera target,
 * the mode toggle that drives the browser zoom lock, and the callbacks the
 * gesture controller is bound with.
 *
 * `loadFloor(scene, floor)` is modelled as an entry appended to `floorLoads`,
 * and `gyro.enable()` as a count of calls, since neither's effect is part of
 * this model.
 */
module Viewer {
  import opened Wrappers
  import Camera
  import World
  import BrowserLock
  import GestureController

  datatype CameraMode = Gesture | Gyro

  /** The toggle `cameraMode === "GYRO" ? "GESTURE" : "GYRO"`: always the other mode. */
  function Toggled(m: CameraMode): (r: CameraMode)
    ensures r != m
  {
    if m == Gyro then Gesture else Gyro
  }

  /** With only two modes, toggling twice gives back the mode. */
  lemma ToggledTwice(m: CameraMode)
    ensures Toggled(Toggled(m)) == m
  {
  }

  /** The camera mode together with whether the browser zoom lock is engaged. */
  datatype Toggle = Toggle(mode: CameraMode, locked: bool)

  /**
   * `toggleMode` as intended: the mode flips and the zoom lock follows it,
   * engaged exactly in GYRO mode.
   */
  function IntendedToggle(mode: CameraMode): (r: Toggle)
    ensures r.mode == Toggled(mode) && r.mode != mode
    ensures r.locked <==> r.mode == Gyro
  {
    var m := Toggled(mode);
    Toggle(m, m == Gyro)
  }

  /**
   * `toggleMode` as written: `gyro.enable` is not a member of the object
   * `bindGyro` returns, so entering GYRO throws after the mode has flipped and
   * before `setBrowserZoomLock(true)`; the lock keeps its old state. Entering
   * GESTURE unlocks as intended. Starting unlocked, the lock never engages.
   */
  function AsWrittenToggle(mode: CameraMode, locked: bool): (r: Toggle)
    ensures r.mode == Toggled(mode)
    ensures r.mode == Gesture ==> !r.locked
    ensures !locked ==> !r.locked
  {
    var m := Toggled(mode);
    Toggle(m, if m == Gyro then locked else false)
  }

  /** From the start-up state, the first toggle as written enters GYRO with the zoom lock off. */
  lemma AsWrittenGyroUnlocked()
    ensures AsWrittenToggle(Gesture, false) == Toggle(Gyro, false)
    ensures AsWrittenToggle(Gesture, false) != IntendedToggle(Gesture)
  {
  }

  /** The floor shown after the location polls `floors`, starting from `cur`. */
  function After(cur: Option<int>, floors: seq<int>): (r: Option<int>)
    ensures floors != [] ==> r == Some(floors[|floors| - 1])
    ensures floors == [] ==> r == cur
  {
    if floors == [] then cur else Some(floors[|floors| - 1])
  }

  /**
   * The floor loads that the location polls `floors` trigger, starting from
   * the floor `cur`: a poll loads its floor exactly when that floor is not the
   * one shown. Each load is of a polled floor, and there are never more loads
   * than polls.
   */
  function PollLoads(cur: Option<int>, floors: seq<int>): (loads: seq<int>)
    ensures |loads| <= |floors|
    ensures forall i :: 0 <= i < |loads| ==> loads[i] in floors
    decreases |floors|
  {
    if floors == [] then []
    else
      var init, last := floors[..|floors| - 1], floors[|floors| - 1];
      var earlier := PollLoads(cur, init);
      assert forall i :: 0 <= i < |earlier| ==> earlier[i] in floors by {
        forall i | 0 <= i < |earlier|
          ensures earlier[i] in floors
        {
          assert earlier[i] in init;
        }
      }
      earlier + (if After(cur, init) == Some(last) then [] else [last])
  }

  /** Polling the same floor over and over loads it once, and only if it was not already shown. */
  lemma {:induction false} RepeatedPollsLoadOnce(cur: Option<int>, floors: seq<int>, f: int)
    requires forall i :: 0 <= i < |floors| ==> floors[i] == f
    ensures PollLoads(cur, floors) == (if floors == [] || cur == Some(f) then [] else [f])
    decreases |floors|
  {
    if floors != [] {
      var init := floors[..|floors| - 1];
      RepeatedPollsLoadOnce(cur, init, f);
    }
  }

  /** When polls load nothing at all, the floor shown is still the starting one. */
  lemma {:induction false} NoLoadsKeepFloor(cur: Option<int>, floors: seq<int>)
    requires PollLoads(cur, floors) == []
    ensures After(cur, floors) == cur
    decreases |floors|
  {
    if floors != [] {
      var init, last := floors[..|floors| - 1], floors[|floors| - 1];
      assert PollLoads(cur, init) == [];
      NoLoadsKeepFloor(cur, init);
      assert After(cur, init) == Some(last);
    }
  }

  /** After at least one load, the floor shown is the floor last loaded. */
  lemma {:induction false} LastLoadIsShown(cur: Option<int>, floors: seq<int>)
    requires PollLoads(cur, floors) != []
    ensures After(cur, floors) == Some(PollLoads(cur, floors)[|PollLoads(cur, floors)| - 1])
    decreases |floors|
  {
    var init, last := floors[..|floors| - 1], floors[|floors| - 1];
    if After(cur, init) == Some(last) {
      LastLoadIsShown(cur, init);
    }
  }

  /**
   * A floor is never loaded twice in a row, and the first load is never of
   * the floor already shown at the start.
   */
  lemma {:induction false} NoRepeatedLoads(cur: Option<int>, floors: seq<int>)
    ensures var loads := PollLoads(cur, floors);
      && (forall i :: 0 <= i < |loads| - 1 ==> loads[i] != loads[i + 1])
      && (loads != [] && cur.Some? ==> loads[0] != cur.value)
    decreases |floors|
  {
    if floors != [] {
      var init, last := floors[..|floors| - 1], floors[|floors| - 1];
      NoRepeatedLoads(cur, init);
      var earlier := PollLoads(cur, init);
      if After(cur, init) != Some(last) {
        if earlier == [] {
          NoLoadsKeepFloor(cur, init);
        } else {
          LastLoadIsShown(cur, init);
        }
      }
    }
  }

  /** The floor shown after two runs of polls is the one the second run leaves, starting where the first left off. */
  lemma AfterAppend(cur: Option<int>, p: seq<int>, q: seq<int>)
    ensures After(cur, p + q) == After(After(cur, p), q)
  {
    if q != [] {
      assert (p + q)[|p + q| - 1] == q[|q| - 1];
    } else {
      assert p + q == p;
    }
  }

  /**
   * Polling runs compose: the loads of two runs in a row are the loads of the
   * first run followed by those of the second, from the floor the first leaves.
   */
  lemma {:induction false} PollLoadsAppend(cur: Option<int>, p: seq<int>, q: seq<int>)
    ensures PollLoads(cur, p + q) == PollLoads(cur, p) + PollLoads(After(cur, p), q)
    decreases |q|
  {
    if q == [] {
      assert p + q == p;
    } else {
      var init, last := q[..|q| - 1], q[|q| - 1];
      assert (p + q)[..|p + q| - 1] == p + init;
      assert (p + q)[|p + q| - 1] == last;
      PollLoadsAppend(cur, p, init);
      AfterAppend(cur, p, init);
    }
  }

  /** How far a gesture callback turns the target yaw: its delta for `addYaw`, nothing otherwise. */
  function TurnOf(intent: Option<GestureController.Intent>): (d: real)
    ensures intent.Some? && intent.value.AddYaw? ==> d == intent.value.delta
    ensures intent.None? || intent.value.SetZoom? ==> d == 0.0
  {
    if intent.Some? && intent.value.AddYaw? then intent.value.delta else 0.0
  }

  /**
   * The module-level state of the viewer: the mode, the floor shown, the
   * camera state record and the controllers bound to it.
   */
  class App {
    var cameraMode: CameraMode
    var currentFloor: Option<int>
    const config: Camera.Config
    const camera: Camera.PerspectiveCamera
    const state: Camera.CameraState
    const lock: BrowserLock.ZoomLock
    const gesture: GestureController.Gesture

    /** The floors `loadFloor` was called with, in order. */
    var floorLoads: seq<int>
    /** How many times `gyro.enable()` was called. */
    var gyroEnableCalls: nat
    /** The floors of all locations handled so far. */
    ghost var polls: seq<int>

    /** The loads and the floor shown are those the polls so far determine, and the lock is consistent. */
    ghost predicate Valid()
      reads this, lock
    {
      && lock.Valid()
      && floorLoads == PollLoads(None, polls)
      && currentFloor == After(None, polls)
    }

    /**
     * Start-up: the camera and its state from `createCamera`, the gesture
     * controller bound with the configured zoom range, zoom speed 0.002 and
     * the configured pan sensitivity and deadzone; mode GESTURE and no floor.
     */
    constructor (config: Camera.Config, aspect: real, panSens: real, deadzone: real,
                 touchAction: string, overflow: string)
      ensures Valid()
      ensures cameraMode == Gesture && currentFloor == None
      ensures floorLoads == [] && gyroEnableCalls == 0
      ensures this.config == config
      ensures state.Values() == Camera.StateValues(1.0, 0.0, 0.0, 0.0, 0.0,
                                                   config.pitch.min, config.pitch.min,
                                                   config.height.min, config.height.min)
      ensures !lock.isLocked
      ensures gesture.zoomMin == config.zoom.min && gesture.zoomMax == config.zoom.max
      ensures gesture.zoomSpeed == 0.002 && gesture.panSens == panSens && gesture.deadzone == deadzone
      ensures fresh(camera) && fresh(state) && fresh(lock) && fresh(gesture)
    {
      cameraMode := Gesture;
      currentFloor := None;
      this.config := config;
      var c, s := Camera.CreateCamera(config, aspect);
      camera, state := c, s;
      lock := new BrowserLock.ZoomLock(touchAction, overflow);
      gesture := new GestureController.Gesture(
        GestureController.Options(config.zoom.min, config.zoom.max, Some(0.002), panSens, Some(deadzone)));
      floorLoads := [];
      gyroEnableCalls := 0;
      polls := [];
    }

    /** The gyro controller's `isActive` callback: it is active exactly in GYRO mode. */
    function GyroIsActive(): (active: bool)
      reads this
      ensures active <==> cameraMode == Gyro
    {
      cameraMode == Gyro
    }

    /**
     * `toggleMode`: switches to the other mode; entering GYRO enables the gyro
     * and locks browser zoom, entering GESTURE unlocks it. Afterwards the lock
     * is engaged exactly in GYRO mode.
     */
    method ToggleMode()
      requires Valid()
      modifies this, lock
      ensures Valid()
      ensures cameraMode == Toggled(old(cameraMode))
      ensures GyroIsActive() == !old(GyroIsActive())
      ensures lock.isLocked <==> cameraMode == Gyro
      ensures lock.isLocked <==> GyroIsActive()
      ensures Toggle(cameraMode, lock.isLocked) == IntendedToggle(old(cameraMode))
      ensures gyroEnableCalls == old(gyroEnableCalls) + (if cameraMode == Gyro then 1 else 0)
      ensures currentFloor == old(currentFloor) && floorLoads == old(floorLoads) && polls == old(polls)
    {
      cameraMode := if cameraMode == Gyro then Gesture else Gyro;
      if cameraMode == Gyro {
        gyroEnableCalls := gyroEnableCalls + 1;
        lock.SetBrowserZoomLock(true);
      } else {
        lock.SetBrowserZoomLock(false);
      }
    }

    /**
     * `toggleMode` as written, with the `TypeError` of `gyro.enable()` as the
     * out-parameter `threw`: entering GYRO throws before the lock is touched.
     */
    method ToggleModeAsWritten() returns (threw: bool)
      requires Valid()
      modifies this, lock
      ensures Valid()
      ensures Toggle(cameraMode, lock.isLocked) == AsWrittenToggle(old(cameraMode), old(lock.isLocked))
      ensures threw <==> cameraMode == Gyro
      ensures gyroEnableCalls == old(gyroEnableCalls)
      ensures currentFloor == old(currentFloor) && floorLoads == old(floorLoads) && polls == old(polls)
    {
      cameraMode := if cameraMode == Gyro then Gesture else Gyro;
      if cameraMode == Gyro {
        threw := true;
        return;
      }
      lock.SetBrowserZoomLock(false);
      threw := false;
    }

    /**
     * `handleLocation({x, y, floor})`: loads the floor only when it is not the
     * one shown and then shows it; the camera's target X and Z become the
     * world position of the map point. Nothing else in the state changes.
     */
    method HandleLocation(x: real, y: real, floor: int)
      requires Valid()
      modifies this, state
      ensures Valid()
      ensures polls == old(polls) + [floor]
      ensures currentFloor == Some(floor)
      ensures floorLoads == old(floorLoads) + (if old(currentFloor) == Some(floor) then [] else [floor])
      ensures state.Values() == old(state.Values()).(targetX := World.MapToWorld(x, y, floor).x,
                                                     targetZ := World.MapToWorld(x, y, floor).z)
      ensures cameraMode == old(cameraMode) && gyroEnableCalls == old(gyroEnableCalls)
    {
      if Some(floor) != currentFloor {
        floorLoads := floorLoads + [floor];
        currentFloor := Some(floor);
      }
      polls := polls + [floor];
      assert polls[..|polls| - 1] == old(polls);
      var pos := World.MapToWorld(x, y, floor);
      state.targetX := pos.x;
      state.targetZ := pos.z;
    }

    /** The gesture controller's `addYaw` callback: it turns the camera only in GESTURE mode. */
    method AddYaw(d: real)
      modifies state
      ensures cameraMode == Gesture ==> state.Values() == old(state.Values()).(targetYaw := old(state.targetYaw) + d)
      ensures cameraMode == Gyro ==> state.Values() == old(state.Values())
    {
      if cameraMode == Gesture {
        state.targetYaw := state.targetYaw + d;
      }
    }

    /** The gesture controller's `setZoom` callback: it applies in every mode. */
    method SetZoom(z: real)
      modifies state
      ensures state.Values() == old(state.Values()).(targetZoom := z)
    {
      state.targetZoom := z;
    }

    /** Delivers a callback the gesture controller made, if any. */
    method Deliver(intent: Option<GestureController.Intent>)
      modifies state
      ensures intent.None? ==> state.Values() == old(state.Values())
      ensures intent.Some? && intent.value.SetZoom? ==>
                state.Values() == old(state.Values()).(targetZoom := intent.value.zoom)
      ensures intent.Some? && intent.value.AddYaw? && cameraMode == Gesture ==>
                state.Values() == old(state.Values()).(targetYaw := old(state.targetYaw) + intent.value.delta)
      ensures intent.Some? && intent.value.AddYaw? && cameraMode == Gyro ==>
                state.Values() == old(state.Values())
    {
      match intent {
        case None =>
        case Some(AddYaw(d)) => AddYaw(d);
        case Some(SetZoom(z)) => SetZoom(z);
      }
    }

    /**
     * A wheel event on the gesture controller, which is active in every mode:
     * the zoom target moves by `-deltaY` times the zoom speed, clamped to the
     * configured range, and nothing else in the state changes.
     */
    method OnWheel(deltaY: real)
      modifies state
      ensures state.Values() == old(state.Values()).(targetZoom :=
                GestureController.ZoomBy(old(state.targetZoom), -deltaY * gesture.zoomSpeed,
                                         gesture.zoomMin, gesture.zoomMax))
      ensures gesture.zoomMin <= gesture.zoomMax ==> gesture.zoomMin <= state.targetZoom <= gesture.zoomMax
    {
      var intent := gesture.Wheel(true, deltaY, state.targetZoom);
      Deliver(intent);
    }

    /**
     * A touch move on the gesture controller: the zoom target either stays or
     * lands in the configured range, and in GYRO mode the yaw target is left
     * to the gyro.
     */
    method OnTouchMove(touches: seq<GestureController.Touch>, pinchDist: real)
      modifies gesture, state
      ensures state.targetZoom == old(state.targetZoom)
              || (gesture.zoomMin <= gesture.zoomMax ==> gesture.zoomMin <= state.targetZoom <= gesture.zoomMax)
      ensures cameraMode == Gyro ==> state.targetYaw == old(state.targetYaw)
      ensures state.currentYaw == old(state.currentYaw)
      ensures state.targetX == old(state.targetX) && state.targetZ == old(state.targetZ)
      ensures state.targetPitch == old(state.targetPitch) && state.currentPitch == old(state.currentPitch)
      ensures state.targetHeight == old(state.targetHeight) && state.currentHeight == old(state.currentHeight)
    {
      var intent := gesture.TouchMove(true, touches, pinchDist, state.targetZoom);
      Deliver(intent);
    }

    /**
     * A mouse move on the gesture controller: it can only turn the camera, and
     * in GYRO mode not even that.
     */
    method OnMouseMove(clientX: real)
      modifies gesture, state
      ensures cameraMode == Gyro ==> state.Values() == old(state.Values())
      ensures state.Values() == old(state.Values()).(targetYaw := state.targetYaw)
      ensures gesture.isMouseDown == old(gesture.isMouseDown)
      ensures old(gesture.isMouseDown) ==> gesture.lastMouseX == clientX
      ensures !old(gesture.isMouseDown) ==>
                gesture.lastMouseX == old(gesture.lastMouseX) && state.Values() == old(state.Values())
      ensures old(gesture.isMouseDown) && cameraMode == Gesture ==>
                state.targetYaw == old(state.targetYaw) + TurnOf(GestureController.DragYaw(
                  clientX - old(gesture.lastMouseX), gesture.deadzone, gesture.panSens))
    {
      var intent := gesture.MouseMove(true, clientX);
      Deliver(intent);
    }
  }
}
