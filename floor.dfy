/**
 * The floor selection kept by the UI (src/ui/floormanage.ts): the current
 * floor, `null` until the first selection, and a setter that reports whether
 * the floor actually changed. A change is logged with the previous floor.
 */
module FloorManager {
  import opened Wrappers

  /** One console line: the floor before (none at first) and the floor after. */
  datatype FloorChange = FloorChange(previous: Option<int>, floor: int)

  class Floors {
    var currentFloor: Option<int>
    var log: seq<FloorChange>

    /** No floor is selected at start. */
    constructor ()
      ensures currentFloor == None && log == []
    {
      currentFloor := None;
      log := [];
    }

    /**
     * `setFloor(floor)`: afterwards the floor is `floor`; the result says
     * whether it was a different floor before, and only then is a line logged.
     */
    method SetFloor(floor: int) returns (changed: bool)
      modifies this
      ensures currentFloor == Some(floor)
      ensures changed <==> old(currentFloor) != Some(floor)
      ensures !changed ==> log == old(log)
      ensures changed ==> log == old(log) + [FloorChange(old(currentFloor), floor)]
    {
      if currentFloor == Some(floor) {
        return false;
      }
      var previous := currentFloor;
      currentFloor := Some(floor);
      log := log + [FloorChange(previous, floor)];
      return true;
    }

    /** `getCurrentFloor`. */
    function GetCurrentFloor(): (f: Option<int>)
      reads this
      ensures f == currentFloor
    {
      currentFloor
    }
  }

  /** Selecting the same floor twice in a row: the second selection is no change. */
  method SetFloorTwice(floors: Floors, floor: int) returns (first: bool, second: bool)
    modifies floors
    ensures first <==> old(floors.currentFloor) != Some(floor)
    ensures !second
    ensures floors.GetCurrentFloor() == Some(floor)
  {
    first := floors.SetFloor(floor);
    second := floors.SetFloor(floor);
  }
}
