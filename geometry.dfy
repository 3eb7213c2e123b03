/**
 * The small part of the rendering engine's vector and box arithmetic that the
 * character controller relies on: three-component vectors and axis-aligned
 * bounding boxes with the engine's centre/size constructor, translation and
 * overlap test. Coordinates are exact reals.
 */
module Geometry {

  datatype Vec3 = Vec3(x: real, y: real, z: real)

  const Zero: Vec3 := Vec3(0.0, 0.0, 0.0)

  function Add(a: Vec3, b: Vec3): Vec3 {
    Vec3(a.x + b.x, a.y + b.y, a.z + b.z)
  }

  function Scale(a: Vec3, k: real): Vec3 {
    Vec3(a.x * k, a.y * k, a.z * k)
  }

  /** Squared Euclidean length. */
  function LengthSq(a: Vec3): (r: real)
    ensures r >= 0.0
  {
    a.x * a.x + a.y * a.y + a.z * a.z
  }

  function Abs(r: real): real {
    if r < 0.0 then -r else r
  }

  /** An axis-aligned box given by its minimum and maximum corners. */
  datatype Box = Box(min: Vec3, max: Vec3)

  /** The box with the given centre and extent (the engine's setFromCenterAndSize). */
  function FromCenterAndSize(center: Vec3, size: Vec3): (b: Box)
    ensures b.max.x - b.min.x == size.x && b.max.y - b.min.y == size.y && b.max.z - b.min.z == size.z
    ensures (b.min.x + b.max.x) / 2.0 == center.x
    ensures (b.min.y + b.max.y) / 2.0 == center.y
    ensures (b.min.z + b.max.z) / 2.0 == center.z
  {
    var half := Scale(size, 0.5);
    Box(Add(center, Scale(half, -1.0)), Add(center, half))
  }

  /** The box moved by `offset`: both corners shift, the extent is kept. */
  function Translate(b: Box, offset: Vec3): (r: Box)
    ensures r.max.x - r.min.x == b.max.x - b.min.x
    ensures r.max.y - r.min.y == b.max.y - b.min.y
    ensures r.max.z - r.min.z == b.max.z - b.min.z
    ensures r.min.x == b.min.x + offset.x && r.min.y == b.min.y + offset.y && r.min.z == b.min.z + offset.z
  {
    Box(Add(b.min, offset), Add(b.max, offset))
  }

  /**
   * The engine's intersectsBox: two boxes overlap unless they are separated
   * on some axis. Touching faces count as overlapping.
   */
  predicate Intersects(a: Box, b: Box): (r: bool)
    ensures r ==> a.min.x <= b.max.x && b.min.x <= a.max.x
    ensures r ==> a.min.y <= b.max.y && b.min.y <= a.max.y
    ensures r ==> a.min.z <= b.max.z && b.min.z <= a.max.z
  {
    !(b.max.x < a.min.x || b.min.x > a.max.x ||
      b.max.y < a.min.y || b.min.y > a.max.y ||
      b.max.z < a.min.z || b.min.z > a.max.z)
  }

  /** Overlap is interval overlap on every axis, and so does not depend on the order of the boxes. */
  lemma IntersectsIsIntervalOverlap(a: Box, b: Box)
    ensures Intersects(a, b) <==>
      (a.min.x <= b.max.x && b.min.x <= a.max.x) &&
      (a.min.y <= b.max.y && b.min.y <= a.max.y) &&
      (a.min.z <= b.max.z && b.min.z <= a.max.z)
    ensures Intersects(a, b) == Intersects(b, a)
  {
  }
}
