/**
 * The free-roam controller (src/controls/freeController.ts): WASD keys move
 * the camera focus, a mouse drag turns it, one finger pans it, and two fingers
 * far enough apart turn it (fingers moving in opposite vertical directions) or
 * tilt it (fingers moving the same way). Each touch move classifies afresh.
 *
 * As for the gesture controller, `isActive()` and `getPosition()` are handler
 * parameters and the call made to `setPosition`, `addYaw` or `addPitch` is the
 * handler's result. Key names arrive through an abstract `lower` standing for
 * `String.prototype.toLowerCase`.
 */
module FreeController {
  import opened Wrappers
  import opened Maths

  datatype Touch = Touch(identifier: int, clientX: real, clientY: real)

  /** A remembered finger position. */
  datatype Point = Point(x: real, y: real)

  /** The camera focus as `getPosition()` reports it. */
  datatype Position = Position(x: real, z: real)

  /** A call the controller makes into its owner. */
  datatype Intent = SetPosition(x: real, z: real) | AddYaw(delta: real) | AddPitch(delta: real)

  datatype GestureMode = NoGesture | Single | Multi

  const HORIZONTAL_GAP_FRACTION: real := 0.4
  const MIN_VERTICAL_MOVE: real := 2.0

  function PointOf(t: Touch): Point {
    Point(t.clientX, t.clientY)
  }

  /** The identifiers of a list of touches. */
  function Ids(touches: seq<Touch>): (ids: set<int>)
    ensures forall i :: 0 <= i < |touches| ==> touches[i].identifier in ids
    ensures forall id :: id in ids ==> exists i :: 0 <= i < |touches| && touches[i].identifier == id
  {
    set t | t in touches :: t.identifier
  }

  /** The touch map after recording each touch of the list in turn. */
  function Recorded(last: map<int, Point>, touches: seq<Touch>): (r: map<int, Point>)
    ensures touches == [] ==> r == last
    ensures last.Keys <= r.Keys
    ensures touches != [] ==> var t := touches[|touches| - 1];
      t.identifier in r && r[t.identifier] == PointOf(t)
    decreases |touches|
  {
    if touches == [] then last
    else
      var t := touches[|touches| - 1];
      Recorded(last, touches[..|touches| - 1])[t.identifier := PointOf(t)]
  }

  /** No touch after position `i` has the identifier of touch `i`. */
  predicate LastWithId(touches: seq<Touch>, i: int)
    requires 0 <= i < |touches|
  {
    forall j :: i < j < |touches| ==> touches[j].identifier != touches[i].identifier
  }

  /** The identifiers of a list ending in `t` are those of the front and `t`'s. */
  lemma IdsSnoc(touches: seq<Touch>)
    requires touches != []
    ensures Ids(touches) == Ids(touches[..|touches| - 1]) + {touches[|touches| - 1].identifier}
  {
    assert touches == touches[..|touches| - 1] + [touches[|touches| - 1]];
  }

  /** Recording adds exactly the identifiers of the touches to the map. */
  lemma {:induction false} RecordedKeys(last: map<int, Point>, touches: seq<Touch>)
    ensures Recorded(last, touches).Keys == last.Keys + Ids(touches)
    decreases |touches|
  {
    if touches != [] {
      RecordedKeys(last, touches[..|touches| - 1]);
      IdsSnoc(touches);
    }
  }

  /** Entries of fingers not in the list keep their old positions. */
  lemma {:induction false} RecordedKeepsOthers(last: map<int, Point>, touches: seq<Touch>, id: int)
    requires id in last && id !in Ids(touches)
    ensures id in Recorded(last, touches) && Recorded(last, touches)[id] == last[id]
    decreases |touches|
  {
    if touches != [] {
      IdsSnoc(touches);
      RecordedKeepsOthers(last, touches[..|touches| - 1], id);
    }
  }

  /** A finger's entry is the position of its last touch in the list. */
  lemma {:induction false} RecordedLast(last: map<int, Point>, touches: seq<Touch>, i: int)
    requires 0 <= i < |touches| && LastWithId(touches, i)
    ensures touches[i].identifier in Recorded(last, touches)
    ensures Recorded(last, touches)[touches[i].identifier] == PointOf(touches[i])
    decreases |touches|
  {
    var n := |touches| - 1;
    if i < n {
      var front := touches[..n];
      assert touches[n].identifier != touches[i].identifier;
      assert LastWithId(front, i);
      RecordedLast(last, front, i);
    }
  }

  /** Whether key `k` is held: `keys[k]`, where a key never pressed reads as not held. */
  predicate Held(keys: map<string, bool>, k: string)
    ensures k !in keys ==> !Held(keys, k)
    ensures k in keys ==> (Held(keys, k) <==> keys[k])
  {
    k in keys && keys[k]
  }

  /** The movement along one axis, in units of the move speed: +1, 0 or -1. */
  function Axis(keys: map<string, bool>, minus: string, plus: string): (a: real)
    ensures a == 0.0 <==> Held(keys, minus) == Held(keys, plus)
    ensures a == 1.0 <==> Held(keys, plus) && !Held(keys, minus)
    ensures a == -1.0 <==> Held(keys, minus) && !Held(keys, plus)
  {
    (if Held(keys, plus) then 1.0 else 0.0) - (if Held(keys, minus) then 1.0 else 0.0)
  }

  /** Sign rules for a product of two reals. */
  lemma ProductSign(a: real, b: real)
    ensures a * b < 0.0 <==> (a < 0.0 < b || b < 0.0 < a)
    ensures a * b > 0.0 <==> ((a < 0.0 && b < 0.0) || (0.0 < a && 0.0 < b))
    ensures a * b == 0.0 <==> (a == 0.0 || b == 0.0)
  {
    if 0.0 < a && 0.0 < b {
      assert 0.0 < a * b;
    } else if a < 0.0 && b < 0.0 {
      assert 0.0 < (-a) * (-b);
    } else if a < 0.0 < b {
      assert 0.0 < (-a) * b;
    } else if b < 0.0 < a {
      assert 0.0 < a * (-b);
    }
  }

  /**
   * The one-finger pan: the camera moves against the finger's step from
   * `from` to `t`, scaled by the move speed, so a finger that did not move
   * leaves the position alone and, with a positive speed, a finger moving to
   * the right or down moves the camera towards smaller X or Z.
   */
  function Pan(pos: Position, from: Point, t: Touch, speed: real): (r: Intent)
    ensures r.SetPosition?
    ensures t.clientX == from.x && t.clientY == from.y ==> r == SetPosition(pos.x, pos.z)
    ensures 0.0 < speed ==> (r.x < pos.x <==> from.x < t.clientX) && (r.z < pos.z <==> from.y < t.clientY)
    ensures (pos.x - r.x) * (t.clientY - from.y) == (pos.z - r.z) * (t.clientX - from.x)
  {
    var dx := t.clientX - from.x;
    var dy := t.clientY - from.y;
    ProductSign(dx, speed);
    ProductSign(dy, speed);
    assert (dx * speed) * dy == (dy * speed) * dx;
    SetPosition(pos.x - dx * speed, pos.z - dy * speed)
  }

  /**
   * The two-finger classification on the vertical moves `dy1`, `dy2`: fingers
   * moving in opposite directions turn the camera by `(dy1 - dy2) * rotateSens`,
   * fingers moving the same way tilt it by minus their mean times
   * `rotateSens`, and a finger that did not move vertically gives neither.
   */
  function TwoFingerTurn(dy1: real, dy2: real, rotateSens: real): (r: Option<Intent>)
    ensures (r.Some? && r.value.AddYaw?) <==> (dy1 < 0.0 < dy2 || dy2 < 0.0 < dy1)
    ensures (r.Some? && r.value.AddPitch?) <==> ((dy1 < 0.0 && dy2 < 0.0) || (0.0 < dy1 && 0.0 < dy2))
    ensures r.None? <==> (dy1 == 0.0 || dy2 == 0.0)
    ensures r.Some? && r.value.AddYaw? ==> r.value.delta == (dy1 - dy2) * rotateSens
    ensures r.Some? && r.value.AddPitch? ==> r.value.delta == -((dy1 + dy2) / 2.0) * rotateSens
    ensures r.Some? ==> !r.value.SetPosition?
  {
    ProductSign(dy1, dy2);
    if dy1 * dy2 < 0.0 then Some(AddYaw((dy1 - dy2) * rotateSens))
    else if dy1 * dy2 > 0.0 then
      var avg := (dy1 + dy2) / 2.0;
      Some(AddPitch(-avg * rotateSens))
    else None
  }

  /** `bindFreeController`: the closure state of the handlers and the options they read. */
  class Free {
    const moveSpeed: real
    const rotateSens: real
    const minHorizontalGap: real

    var keys: map<string, bool>
    var gestureMode: GestureMode
    var lastTouches: map<int, Point>
    var isMouseDown: bool
    var lastX: real

    /** Binding the handlers for a window `innerWidth` pixels wide: no key, finger or button is down. */
    constructor (moveSpeed: real, rotateSens: real, innerWidth: real)
      ensures this.moveSpeed == moveSpeed && this.rotateSens == rotateSens
      ensures minHorizontalGap == innerWidth * HORIZONTAL_GAP_FRACTION
      ensures keys == map[] && gestureMode == NoGesture && lastTouches == map[]
      ensures !isMouseDown && lastX == 0.0
    {
      this.moveSpeed, this.rotateSens := moveSpeed, rotateSens;
      minHorizontalGap := innerWidth * HORIZONTAL_GAP_FRACTION;
      keys, gestureMode, lastTouches := map[], NoGesture, map[];
      isMouseDown, lastX := false, 0.0;
    }

    /** `keydown`: an active controller marks the (lower-cased) key as held. */
    method KeyDown(active: bool, key: string, lower: string -> string)
      modifies this
      ensures keys == if active then old(keys)[lower(key) := true] else old(keys)
      ensures gestureMode == old(gestureMode) && lastTouches == old(lastTouches)
      ensures isMouseDown == old(isMouseDown) && lastX == old(lastX)
    {
      if !active {
        return;
      }
      keys := keys[lower(key) := true];
    }

    /** `keyup`: the key is released, whether or not the controller is active. */
    method KeyUp(key: string, lower: string -> string)
      modifies this
      ensures keys == old(keys)[lower(key) := false]
      ensures !Held(keys, lower(key))
      ensures gestureMode == old(gestureMode) && lastTouches == old(lastTouches)
      ensures isMouseDown == old(isMouseDown) && lastX == old(lastX)
    {
      keys := keys[lower(key) := false];
    }

    /** `mousedown`: an active controller starts a drag from `clientX`. */
    method MouseDown(active: bool, clientX: real)
      modifies this
      ensures active ==> isMouseDown && lastX == clientX
      ensures !active ==> isMouseDown == old(isMouseDown) && lastX == old(lastX)
      ensures keys == old(keys) && gestureMode == old(gestureMode) && lastTouches == old(lastTouches)
    {
      if !active {
        return;
      }
      isMouseDown := true;
      lastX := clientX;
    }

    /** `mousemove`: during a drag, turns the camera by `-dx * rotateSens` (no deadzone here). */
    method MouseMove(active: bool, clientX: real) returns (intent: Option<Intent>)
      modifies this
      ensures active && old(isMouseDown) ==>
                intent == Some(AddYaw(-(clientX - old(lastX)) * rotateSens)) && lastX == clientX
      ensures !(active && old(isMouseDown)) ==> intent == None && lastX == old(lastX)
      ensures isMouseDown == old(isMouseDown)
      ensures keys == old(keys) && gestureMode == old(gestureMode) && lastTouches == old(lastTouches)
    {
      if !active || !isMouseDown {
        return None;
      }
      var dx := clientX - lastX;
      lastX := clientX;
      intent := Some(AddYaw(-dx * rotateSens));
      assert intent.value.delta == -(clientX - old(lastX)) * rotateSens;
    }

    /** `mouseup`: the drag is over. */
    method MouseUp()
      modifies this
      ensures !isMouseDown && lastX == old(lastX)
      ensures keys == old(keys) && gestureMode == old(gestureMode) && lastTouches == old(lastTouches)
    {
      isMouseDown := false;
    }

    /**
     * `touchstart`: one finger makes it a single-finger gesture, two or more a
     * multi-finger one, and every touch's position is recorded. Entries of
     * fingers not in the list stay in the map.
     */
    method TouchStart(active: bool, touches: seq<Touch>)
      modifies this
      ensures !active ==> gestureMode == old(gestureMode) && lastTouches == old(lastTouches)
      ensures active ==> lastTouches == Recorded(old(lastTouches), touches)
      ensures active && |touches| == 1 ==> gestureMode == Single
      ensures active && |touches| >= 2 ==> gestureMode == Multi
      ensures active && |touches| == 0 ==> gestureMode == old(gestureMode)
      ensures keys == old(keys) && isMouseDown == old(isMouseDown) && lastX == old(lastX)
    {
      if !active {
        return;
      }
      if |touches| == 1 {
        gestureMode := Single;
      }
      if |touches| >= 2 {
        gestureMode := Multi;
      }
      for i := 0 to |touches|
        invariant lastTouches == Recorded(old(lastTouches), touches[..i])
        invariant gestureMode == (if |touches| == 1 then Single else if |touches| >= 2 then Multi else old(gestureMode))
        invariant keys == old(keys) && isMouseDown == old(isMouseDown) && lastX == old(lastX)
      {
        var t := touches[i];
        assert touches[..i + 1][..i] == touches[..i];
        lastTouches := lastTouches[t.identifier := PointOf(t)];
      }
      assert touches[..|touches|] == touches;
    }

    /**
     * `touchmove`. A single-finger gesture with one finger pans by minus the
     * finger's step times the move speed and records the finger. A
     * multi-finger gesture uses the first two fingers: unless one of them was
     * never recorded, they are closer than the minimum horizontal gap, or
     * neither moved vertically by the minimum, it applies the two-finger
     * classification and records both fingers. Every early return leaves
     * the map as it was.
     */
    method TouchMove(active: bool, touches: seq<Touch>, pos: Position) returns (intent: Option<Intent>)
      modifies this
      ensures !active ==> intent == None && lastTouches == old(lastTouches)
      // single-finger pan
      ensures active && old(gestureMode) == Single && |touches| == 1 ==>
                var t := touches[0];
                if t.identifier !in old(lastTouches) then
                  intent == None && lastTouches == old(lastTouches)
                else
                  var last := old(lastTouches)[t.identifier];
                  && intent == Some(Pan(pos, last, t, moveSpeed))
                  && lastTouches == old(lastTouches)[t.identifier := PointOf(t)]
      // two-finger turn or tilt
      ensures active && old(gestureMode) == Multi && |touches| >= 2 ==>
                var t1, t2 := touches[0], touches[1];
                if t1.identifier !in old(lastTouches) || t2.identifier !in old(lastTouches) then
                  intent == None && lastTouches == old(lastTouches)
                else
                  var dy1 := t1.clientY - old(lastTouches)[t1.identifier].y;
                  var dy2 := t2.clientY - old(lastTouches)[t2.identifier].y;
                  if Abs(t1.clientX - t2.clientX) < minHorizontalGap
                     || (Abs(dy1) < MIN_VERTICAL_MOVE && Abs(dy2) < MIN_VERTICAL_MOVE) then
                    intent == None && lastTouches == old(lastTouches)
                  else
                    && intent == TwoFingerTurn(dy1, dy2, rotateSens)
                    && lastTouches == old(lastTouches)[t1.identifier := PointOf(t1)][t2.identifier := PointOf(t2)]
      // any other finger count or mode does nothing
      ensures !(old(gestureMode) == Single && |touches| == 1) && !(old(gestureMode) == Multi && |touches| >= 2) ==>
                intent == None && lastTouches == old(lastTouches)
      ensures gestureMode == old(gestureMode)
      ensures keys == old(keys) && isMouseDown == old(isMouseDown) && lastX == old(lastX)
    {
      intent := None;
      if !active {
        return;
      }

      /* single pan */
      if gestureMode == Single && |touches| == 1 {
        var t := touches[0];
        if t.identifier !in lastTouches {
          return;
        }
        var last := lastTouches[t.identifier];
        intent := Some(Pan(pos, last, t, moveSpeed));
        lastTouches := lastTouches[t.identifier := PointOf(t)];
        return;
      }

      /* multi rotate / pitch */
      if gestureMode == Multi && |touches| >= 2 {
        var t1, t2 := touches[0], touches[1];
        if t1.identifier !in lastTouches || t2.identifier !in lastTouches {
          return;
        }
        var last1, last2 := lastTouches[t1.identifier], lastTouches[t2.identifier];
        var horizontalGap := Abs(t1.clientX - t2.clientX);
        if horizontalGap < minHorizontalGap {
          return;
        }
        var dy1 := t1.clientY - last1.y;
        var dy2 := t2.clientY - last2.y;
        if Abs(dy1) < MIN_VERTICAL_MOVE && Abs(dy2) < MIN_VERTICAL_MOVE {
          return;
        }
        intent := TwoFingerTurn(dy1, dy2, rotateSens);
        lastTouches := lastTouches[t1.identifier := PointOf(t1)];
        lastTouches := lastTouches[t2.identifier := PointOf(t2)];
      }
    }

    /**
     * `touchend`: forgets exactly the lifted fingers, and ends the gesture
     * when no finger is left; it runs whether or not the controller is active.
     */
    method TouchEnd(changedTouches: seq<Touch>, touches: seq<Touch>)
      modifies this
      ensures lastTouches == old(lastTouches) - Ids(changedTouches)
      ensures gestureMode == if |touches| == 0 then NoGesture else old(gestureMode)
      ensures keys == old(keys) && isMouseDown == old(isMouseDown) && lastX == old(lastX)
    {
      for i := 0 to |changedTouches|
        invariant lastTouches == old(lastTouches) - Ids(changedTouches[..i])
        invariant gestureMode == old(gestureMode)
        invariant keys == old(keys) && isMouseDown == old(isMouseDown) && lastX == old(lastX)
      {
        assert Ids(changedTouches[..i + 1]) == Ids(changedTouches[..i]) + {changedTouches[i].identifier} by {
          assert changedTouches[..i + 1] == changedTouches[..i] + [changedTouches[i]];
        }
        lastTouches := lastTouches - {changedTouches[i].identifier};
      }
      assert changedTouches[..|changedTouches|] == changedTouches;
      if |touches| == 0 {
        gestureMode := NoGesture;
      }
    }

    /**
     * `update`, once per frame: an active controller moves the focus one step
     * of the move speed per held key (W: -Z, S: +Z, A: -X, D: +X), so that
     * opposite keys cancel. The X and Z are accumulated step by step.
     */
    method Update(active: bool, pos: Position) returns (intent: Option<Intent>)
      ensures !active ==> intent == None
      ensures active ==> intent == Some(SetPosition(pos.x + Axis(keys, "a", "d") * moveSpeed,
                                                    pos.z + Axis(keys, "w", "s") * moveSpeed))
      ensures active && Held(keys, "w") == Held(keys, "s") ==> intent.value.z == pos.z
      ensures active && Held(keys, "a") == Held(keys, "d") ==> intent.value.x == pos.x
    {
      if !active {
        return None;
      }
      var newX := pos.x;
      var newZ := pos.z;
      if Held(keys, "w") {
        newZ := newZ - moveSpeed;
      }
      if Held(keys, "s") {
        newZ := newZ + moveSpeed;
      }
      if Held(keys, "a") {
        newX := newX - moveSpeed;
      }
      if Held(keys, "d") {
        newX := newX + moveSpeed;
      }
      intent := Some(SetPosition(newX, newZ));
    }
  }
}
