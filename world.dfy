/** Shared vocabulary of the game world: ground-plane points, rectangles,
    the closed set of scenery categories and the anchor (the tank) that
    drives both managers. */
module World {

  datatype Option<T> = None | Some(value: T)

  /** A position on the ground plane: Unity's Vector3 with y == 0, kept as (x, z). */
  datatype Point = Point(x: real, z: real)

  /** Unity's Vector2 as the persistence layer stores it (x, y). */
  datatype Vec2 = Vec2(x: real, y: real)

  /** `new Vector3()`. */
  const Origin := Point(0.0, 0.0)

  function Abs(v: real): real
  {
    if v < 0.0 then -v else v
  }

  function Sub(a: Point, b: Point): Point
  {
    Point(a.x - b.x, a.z - b.z)
  }

  /** Squared Euclidean distance; it orders points as `magnitude` does. */
  function SqDist(a: Point, b: Point): real
  {
    (a.x - b.x) * (a.x - b.x) + (a.z - b.z) * (a.z - b.z)
  }

  /** An axis-aligned rectangle, given by its min and max corners. */
  datatype Rect = Rect(minX: real, maxX: real, minZ: real, maxZ: real)

  /** The rectangle of half-extents (hx, hz) around `c`. */
  function RectAround(c: Point, hx: real, hz: real): Rect
  {
    Rect(c.x - hx, c.x + hx, c.z - hz, c.z + hz)
  }

  /** The open-rectangle test the managers use: every comparison is strict. */
  predicate StrictlyInside(p: Point, r: Rect)
  {
    r.minX < p.x && p.x < r.maxX && r.minZ < p.z && p.z < r.maxZ
  }

  predicate InClosed(p: Point, r: Rect)
  {
    r.minX <= p.x <= r.maxX && r.minZ <= p.z <= r.maxZ
  }

  /** ObstaclesManager.MapObjectType, in declaration order. */
  datatype MapObjectType = Tree | Bush | Puddle | Stone

  /** The tank's transform. Its motion comes from input handling outside this model. */
  class Anchor {
    var position: Point
    var heading: real

    constructor (position: Point, heading: real)
      ensures this.position == position && this.heading == heading
    {
      this.position := position;
      this.heading := heading;
    }
  }
}
