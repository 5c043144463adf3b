/**
 * The fixed linear map from database (map) coordinates to world coordinates
 * (src/core/world.ts): X and Y shrink by the map scale, the floor number sets
 * the height.
 */
module World {

  const MAP_SCALE: real := 2.18399076503
  const FLOOR_HEIGHT: real := 3.0

  /** A point in world space. */
  datatype WorldPoint = WorldPoint(x: real, y: real, z: real)

  /**
   * `mapToWorld(dbX, dbY, floor)`. Scaling the world X and Z back by the map
   * scale gives the database coordinates, and the height is a whole number of
   * storeys.
   */
  function MapToWorld(dbX: real, dbY: real, floor: int): (p: WorldPoint)
    ensures p.x * MAP_SCALE == dbX
    ensures p.z * MAP_SCALE == dbY
    ensures p.y == floor as real * FLOOR_HEIGHT
  {
    WorldPoint(dbX / MAP_SCALE, floor as real * FLOOR_HEIGHT, dbY / MAP_SCALE)
  }

  /** The reverse map, from a world point back to database X and Y. */
  function WorldToMap(p: WorldPoint): (db: (real, real))
    ensures db.0 / MAP_SCALE == p.x && db.1 / MAP_SCALE == p.z
  {
    (p.x * MAP_SCALE, p.z * MAP_SCALE)
  }

  /** The map inverts exactly: database coordinates survive a round trip. */
  lemma RoundTrip(dbX: real, dbY: real, floor: int)
    ensures WorldToMap(MapToWorld(dbX, dbY, floor)) == (dbX, dbY)
  {
  }

  /** Two database points that map to the same world point are the same point. */
  lemma Injective(dbX: real, dbY: real, floor: int, dbX': real, dbY': real, floor': int)
    requires MapToWorld(dbX, dbY, floor) == MapToWorld(dbX', dbY', floor')
    ensures dbX == dbX' && dbY == dbY' && floor == floor'
  {
    RoundTrip(dbX, dbY, floor);
    RoundTrip(dbX', dbY', floor');
  }

  /** The map is linear: the origin goes to the origin and sums go to sums. */
  lemma Linear(dbX: real, dbY: real, dbX': real, dbY': real, floor: int, floor': int)
    ensures MapToWorld(0.0, 0.0, 0) == WorldPoint(0.0, 0.0, 0.0)
    ensures MapToWorld(dbX + dbX', dbY + dbY', floor + floor').x
         == MapToWorld(dbX, dbY, floor).x + MapToWorld(dbX', dbY', floor').x
    ensures MapToWorld(dbX + dbX', dbY + dbY', floor + floor').y
         == MapToWorld(dbX, dbY, floor).y + MapToWorld(dbX', dbY', floor').y
    ensures MapToWorld(dbX + dbX', dbY + dbY', floor + floor').z
         == MapToWorld(dbX, dbY, floor).z + MapToWorld(dbX', dbY', floor').z
  {
  }

  /** The map scale is positive, so world X grows strictly with database X (and Z with Y). */
  lemma StrictlyIncreasing(dbX: real, dbY: real, dbX': real, dbY': real, floor: int)
    ensures dbX < dbX' ==> MapToWorld(dbX, dbY, floor).x < MapToWorld(dbX', dbY, floor).x
    ensures dbY < dbY' ==> MapToWorld(dbX, dbY, floor).z < MapToWorld(dbX, dbY', floor).z
  {
    var p, q := MapToWorld(dbX, dbY, floor), MapToWorld(dbX', dbY, floor);
    var r := MapToWorld(dbX, dbY', floor);
    assert (q.x - p.x) * MAP_SCALE == dbX' - dbX;
    assert (r.z - p.z) * MAP_SCALE == dbY' - dbY;
  }
}
