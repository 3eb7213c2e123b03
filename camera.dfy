/**
 * The wall-clearance part of the third-person camera: the ray cast from the
 * ideal follow target toward the camera, its fallback when the camera sits
 * on the target, and how far along that ray the camera is put back when the
 * ray meets a wall. The hit distances are what the engine's ray cast reports.
 */
module CameraRig {
  import opened Wrappers

  /** How far the camera keeps from a wall. */
  const CameraCollisionOffset: real := 5.0
  /** Below this target-to-camera distance the direction is treated as unusable. */
  const DegenerateDistance: real := 0.001

  /** The ray's direction: toward the camera, or the default camera offset when the two coincide. */
  datatype RayDirection = TowardCamera | DefaultOffset

  datatype Ray = Ray(direction: RayDirection, far: real)

  /**
   * The ray cast for a camera at `distance` from the ideal target: a usable
   * distance is kept with its own direction; a degenerate one is replaced
   * by the clearance distance along the default offset.
   */
  function WallRay(distance: real): (r: Ray)
    ensures r.far >= DegenerateDistance
    ensures r.direction == TowardCamera <==> distance >= DegenerateDistance
    ensures r.direction == TowardCamera ==> r.far == distance
    ensures r.direction == DefaultOffset ==> r.far == CameraCollisionOffset
  {
    if distance < DegenerateDistance then Ray(DefaultOffset, CameraCollisionOffset)
    else Ray(TowardCamera, distance)
  }

  /**
   * Where along the ray the camera goes when the nearest wall is `hit` away:
   * half the clearance in front of the wall, but never nearer the target
   * than the full clearance.
   */
  function ClearanceDistance(hit: real): (d: real)
    ensures d >= CameraCollisionOffset
    ensures d >= hit - CameraCollisionOffset * 0.5
    ensures d == CameraCollisionOffset || d == hit - CameraCollisionOffset * 0.5
  {
    if CameraCollisionOffset > hit - CameraCollisionOffset * 0.5 then CameraCollisionOffset
    else hit - CameraCollisionOffset * 0.5
  }

  /** A farther wall never pulls the camera nearer. */
  lemma ClearanceMonotone(h1: real, h2: real)
    requires h1 <= h2
    ensures ClearanceDistance(h1) <= ClearanceDistance(h2)
  {
  }

  /**
   * A wall at least one and a half clearances away leaves the camera in
   * front of it, exactly half a clearance short; a wall nearer than one
   * clearance leaves the camera beyond the wall, since the floor wins.
   */
  lemma ClearanceAgainstWall(hit: real)
    ensures hit >= CameraCollisionOffset * 1.5 ==>
      ClearanceDistance(hit) == hit - CameraCollisionOffset * 0.5 && ClearanceDistance(hit) < hit
    ensures hit < CameraCollisionOffset ==> ClearanceDistance(hit) > hit
  {
  }

  /** The ray cast reports hits nearest first. */
  predicate NearestFirst(hits: seq<real>) {
    forall i, j :: 0 <= i < j < |hits| ==> hits[i] <= hits[j]
  }

  /**
   * The wall-corrected distance of the camera from the ideal target, or
   * None when the ray met no wall (then the distance-corrected position is
   * used as it is).
   */
  function CameraGoal(hits: seq<real>): (r: Option<real>)
    requires NearestFirst(hits)
    ensures r.Some? <==> |hits| > 0
    ensures r.Some? ==> r.value == ClearanceDistance(hits[0])
    ensures r.Some? ==> r.value >= CameraCollisionOffset
    ensures r.Some? ==> forall i :: 0 <= i < |hits| ==> r.value <= ClearanceDistance(hits[i])
  {
    if |hits| == 0 then None
    else
      assert forall i :: 0 <= i < |hits| ==> ClearanceDistance(hits[0]) <= ClearanceDistance(hits[i]) by {
        forall i | 0 <= i < |hits| ensures ClearanceDistance(hits[0]) <= ClearanceDistance(hits[i]) {
          ClearanceMonotone(hits[0], hits[i]);
        }
      }
      Some(ClearanceDistance(hits[0]))
  }
}
