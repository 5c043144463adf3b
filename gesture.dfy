/**
 * The gesture controller (src/controls/gestureController.ts): one-finger and
 * mouse drags turn the camera, two-finger pinches and the mouse wheel zoom it.
 *
 * The controller talks to its owner through callbacks. Here `isActive()` and
 * `getZoom()` are parameters of each handler (`active`, `zoom`), and the call a
 * handler makes to `addYaw` or `setZoom` is its result, an `Intent`. The pinch
 * distance `Math.hypot(dx, dy)` of the first two touches is an input as well.
 */
module GestureController {
  import opened Wrappers
  import opened Maths

  datatype Touch = Touch(identifier: int, clientX: real, clientY: real)

  /** A call the controller makes into its owner. */
  datatype Intent = AddYaw(delta: real) | SetZoom(zoom: real)

  /** The options object; `zoomSpeed` and `deadzone` may be omitted. */
  datatype Options = Options(
    zoomMin: real,
    zoomMax: real,
    zoomSpeed: Option<real>,
    panSens: real,
    deadzone: Option<real>)

  const DEFAULT_ZOOM_SPEED: real := 0.001
  const DEFAULT_DEADZONE: real := 0.0

  /** `Math.min(zoomMax, Math.max(zoomMin, zoom))`: the zoom limited to the configured range. */
  function ClampZoom(zoom: real, zoomMin: real, zoomMax: real): (r: real)
    ensures zoomMin <= zoomMax ==> zoomMin <= r <= zoomMax
    ensures zoomMin <= zoom <= zoomMax ==> r == zoom
    ensures zoom < zoomMin && zoomMin <= zoomMax ==> r == zoomMin
    ensures zoomMax < zoom ==> r == zoomMax
  {
    var atLeastMin := if zoomMin < zoom then zoom else zoomMin;
    if atLeastMin < zoomMax then atLeastMin else zoomMax
  }

  /** Clamping keeps the order of two zoom values. */
  lemma ClampZoomMonotone(zoom: real, zoom': real, zoomMin: real, zoomMax: real)
    requires zoom <= zoom'
    ensures ClampZoom(zoom, zoomMin, zoomMax) <= ClampZoom(zoom', zoomMin, zoomMax)
  {
  }

  /** The zoom after a step of `delta`: the current zoom plus the step, clamped. */
  function ZoomBy(zoom: real, delta: real, zoomMin: real, zoomMax: real): (r: real)
    ensures zoomMin <= zoomMax ==> zoomMin <= r <= zoomMax
    ensures zoomMin <= zoom + delta <= zoomMax ==> r == zoom + delta
  {
    ClampZoom(zoom + delta, zoomMin, zoomMax)
  }

  /**
   * From a zoom inside the range, a nonnegative step never zooms out and a
   * nonpositive step never zooms in: spreading the fingers or scrolling up
   * (with a nonnegative speed) cannot shrink the zoom.
   */
  lemma ZoomByDirection(zoom: real, delta: real, zoomMin: real, zoomMax: real)
    requires zoomMin <= zoom <= zoomMax
    ensures 0.0 <= delta ==> zoom <= ZoomBy(zoom, delta, zoomMin, zoomMax)
    ensures delta <= 0.0 ==> ZoomBy(zoom, delta, zoomMin, zoomMax) <= zoom
  {
    if 0.0 <= delta {
      ClampZoomMonotone(zoom, zoom + delta, zoomMin, zoomMax);
    }
    if delta <= 0.0 {
      ClampZoomMonotone(zoom + delta, zoom, zoomMin, zoomMax);
    }
  }

  /**
   * A horizontal drag of `dx` pixels: it turns the camera by `-dx * panSens`
   * exactly when it is longer than the deadzone, and otherwise makes no call.
   */
  function DragYaw(dx: real, deadzone: real, panSens: real): (r: Option<Intent>)
    ensures r.Some? <==> Abs(dx) > deadzone
    ensures r.Some? ==> r.value == AddYaw(-dx * panSens)
    ensures 0.0 <= deadzone && dx == 0.0 ==> r.None?
  {
    if Abs(dx) > deadzone then Some(AddYaw(-dx * panSens)) else None
  }

  /** `bindGesture`: the closure state of the handlers, and the options they read. */
  class Gesture {
    const zoomMin: real
    const zoomMax: real
    const zoomSpeed: real
    const panSens: real
    const deadzone: real

    var isTouchPanning: bool
    var lastPanX: real
    var lastPinchDist: Option<real>
    var isMouseDown: bool
    var lastMouseX: real

    /** Binding the handlers: omitted options take their defaults, and nothing is in progress. */
    constructor (options: Options)
      ensures zoomMin == options.zoomMin && zoomMax == options.zoomMax
      ensures panSens == options.panSens
      ensures zoomSpeed == (if options.zoomSpeed.Some? then options.zoomSpeed.value else DEFAULT_ZOOM_SPEED)
      ensures deadzone == (if options.deadzone.Some? then options.deadzone.value else DEFAULT_DEADZONE)
      ensures !isTouchPanning && lastPanX == 0.0 && lastPinchDist == None
      ensures !isMouseDown && lastMouseX == 0.0
    {
      zoomMin, zoomMax, panSens := options.zoomMin, options.zoomMax, options.panSens;
      zoomSpeed := options.zoomSpeed.GetOr(DEFAULT_ZOOM_SPEED);
      deadzone := options.deadzone.GetOr(DEFAULT_DEADZONE);
      isTouchPanning, lastPanX, lastPinchDist := false, 0.0, None;
      isMouseDown, lastMouseX := false, 0.0;
    }

    /**
     * `touchstart`: one finger starts a drag from its X; two fingers stop any
     * drag and start a pinch at their distance `pinchDist`. Other finger counts,
     * or an inactive controller, change nothing.
     */
    method TouchStart(active: bool, touches: seq<Touch>, pinchDist: real)
      modifies this
      ensures active && |touches| == 1 ==>
                isTouchPanning && lastPanX == touches[0].clientX && lastPinchDist == old(lastPinchDist)
      ensures active && |touches| == 2 ==>
                !isTouchPanning && lastPanX == old(lastPanX) && lastPinchDist == Some(pinchDist)
      ensures !active || (|touches| != 1 && |touches| != 2) ==>
                isTouchPanning == old(isTouchPanning) && lastPanX == old(lastPanX)
                && lastPinchDist == old(lastPinchDist)
      ensures isMouseDown == old(isMouseDown) && lastMouseX == old(lastMouseX)
    {
      if !active {
        return;
      }
      if |touches| == 1 {
        isTouchPanning := true;
        lastPanX := touches[0].clientX;
      }
      if |touches| == 2 {
        isTouchPanning := false;
        lastPinchDist := Some(pinchDist);
      }
    }

    /**
     * `touchmove`. With two fingers and a pinch in progress the zoom moves by
     * the change in finger distance times the zoom speed, clamped, and the
     * distance is remembered; no turn is made. With one finger while dragging,
     * the finger's X is remembered and the camera turns if the step is beyond
     * the deadzone. Anything else does nothing.
     */
    method TouchMove(active: bool, touches: seq<Touch>, pinchDist: real, zoom: real)
      returns (intent: Option<Intent>)
      modifies this
      ensures active && |touches| == 2 && old(lastPinchDist).Some? ==>
                && intent == Some(SetZoom(ZoomBy(zoom, (pinchDist - old(lastPinchDist).value) * zoomSpeed, zoomMin, zoomMax)))
                && lastPinchDist == Some(pinchDist)
                && isTouchPanning == old(isTouchPanning) && lastPanX == old(lastPanX)
      ensures active && !(|touches| == 2 && old(lastPinchDist).Some?) && |touches| == 1 && old(isTouchPanning) ==>
                && intent == DragYaw(touches[0].clientX - old(lastPanX), deadzone, panSens)
                && lastPanX == touches[0].clientX
                && isTouchPanning && lastPinchDist == old(lastPinchDist)
      ensures !active || (!(|touches| == 2 && old(lastPinchDist).Some?) && !(|touches| == 1 && old(isTouchPanning))) ==>
                && intent == None
                && isTouchPanning == old(isTouchPanning) && lastPanX == old(lastPanX)
                && lastPinchDist == old(lastPinchDist)
      ensures isMouseDown == old(isMouseDown) && lastMouseX == old(lastMouseX)
      // a pinch in progress never turns the camera, and any zoom it sets is in range
      ensures |touches| == 2 && old(lastPinchDist).Some? ==> intent.None? || intent.value.SetZoom?
      ensures intent.Some? && intent.value.SetZoom? && zoomMin <= zoomMax ==>
                zoomMin <= intent.value.zoom <= zoomMax
    {
      intent := None;
      if !active {
        return;
      }

      // pinch zoom
      if |touches| == 2 && lastPinchDist != None {
        var d := pinchDist;
        var delta := (d - lastPinchDist.value) * zoomSpeed;
        var newZoom := ZoomBy(zoom, delta, zoomMin, zoomMax);
        intent := Some(SetZoom(newZoom));
        lastPinchDist := Some(d);
        return;
      }

      // single finger rotate
      if |touches| == 1 && isTouchPanning {
        var dx := touches[0].clientX - lastPanX;
        lastPanX := touches[0].clientX;
        intent := DragYaw(dx, deadzone, panSens);
      }
    }

    /** `touchend`: any drag and any pinch are over, whatever the controller's activity. */
    method TouchEnd()
      modifies this
      ensures !isTouchPanning && lastPinchDist == None
      ensures lastPanX == old(lastPanX)
      ensures isMouseDown == old(isMouseDown) && lastMouseX == old(lastMouseX)
    {
      isTouchPanning := false;
      lastPinchDist := None;
    }

    /** `mousedown`: an active controller starts a mouse drag from `clientX`. */
    method MouseDown(active: bool, clientX: real)
      modifies this
      ensures active ==> isMouseDown && lastMouseX == clientX
      ensures !active ==> isMouseDown == old(isMouseDown) && lastMouseX == old(lastMouseX)
      ensures isTouchPanning == old(isTouchPanning) && lastPanX == old(lastPanX)
      ensures lastPinchDist == old(lastPinchDist)
    {
      if !active {
        return;
      }
      isMouseDown := true;
      lastMouseX := clientX;
    }

    /**
     * `mousemove`: during a drag of an active controller, remembers the X and
     * turns the camera if the step is beyond the deadzone; otherwise nothing.
     */
    method MouseMove(active: bool, clientX: real) returns (intent: Option<Intent>)
      modifies this
      ensures active && old(isMouseDown) ==>
                intent == DragYaw(clientX - old(lastMouseX), deadzone, panSens) && lastMouseX == clientX
      ensures !(active && old(isMouseDown)) ==> intent == None && lastMouseX == old(lastMouseX)
      ensures isMouseDown == old(isMouseDown)
      ensures isTouchPanning == old(isTouchPanning) && lastPanX == old(lastPanX)
      ensures lastPinchDist == old(lastPinchDist)
    {
      intent := None;
      if !active || !isMouseDown {
        return;
      }
      var dx := clientX - lastMouseX;
      lastMouseX := clientX;
      intent := DragYaw(dx, deadzone, panSens);
    }

    /** `mouseup`: the mouse drag is over. */
    method MouseUp()
      modifies this
      ensures !isMouseDown && lastMouseX == old(lastMouseX)
      ensures isTouchPanning == old(isTouchPanning) && lastPanX == old(lastPanX)
      ensures lastPinchDist == old(lastPinchDist)
    {
      isMouseDown := false;
    }

    /** `mouseleave`: leaving the window also ends the mouse drag. */
    method MouseLeave()
      modifies this
      ensures !isMouseDown && lastMouseX == old(lastMouseX)
      ensures isTouchPanning == old(isTouchPanning) && lastPanX == old(lastPanX)
      ensures lastPinchDist == old(lastPinchDist)
    {
      isMouseDown := false;
    }

    /**
     * `wheel`: an active controller zooms by `-deltaY` times the zoom speed,
     * clamped to the range; the controller's own state does not change.
     */
    method Wheel(active: bool, deltaY: real, zoom: real) returns (intent: Option<Intent>)
      ensures active ==> intent == Some(SetZoom(ZoomBy(zoom, -deltaY * zoomSpeed, zoomMin, zoomMax)))
      ensures !active ==> intent == None
      ensures intent.Some? && zoomMin <= zoomMax ==> zoomMin <= intent.value.zoom <= zoomMax
    {
      if !active {
        return None;
      }
      var delta := -deltaY * zoomSpeed;
      var newZoom := ZoomBy(zoom, delta, zoomMin, zoomMax);
      intent := Some(SetZoom(newZoom));
    }
  }
}
