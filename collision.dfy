/**
 * Axis-separated wall collision for the character (checkCollisions).
 * The character's box is rebuilt from its position on every call; the
 * proposed displacement's X part and Z part are each tried on their own
 * against every wall box, and a blocked part is dropped. Y is never tested.
 */
module Collision {
  import opened Geometry

  /** The character model's scale and its base measures before scaling. */
  const CharacterScale: real := 30.0
  const CharacterHeight: real := 1.8 * CharacterScale
  const CharacterRadius: real := 0.4 * CharacterScale
  const CollisionPadding: real := 0.1 * CharacterScale

  /**
   * The character's box: centred half a height above the position,
   * (2R - 2P) wide on both horizontal axes and (H - P) tall.
   */
  function CharacterBox(position: Vec3): (b: Box)
    ensures (b.min.x + b.max.x) / 2.0 == position.x && (b.min.z + b.max.z) / 2.0 == position.z
    ensures b.max.x - b.min.x == 2.0 * CharacterRadius - 2.0 * CollisionPadding
    ensures b.max.z - b.min.z == 2.0 * CharacterRadius - 2.0 * CollisionPadding
    ensures b.min.y == position.y + CollisionPadding / 2.0
    ensures b.max.y == position.y + CharacterHeight - CollisionPadding / 2.0
  {
    FromCenterAndSize(
      Add(position, Vec3(0.0, CharacterHeight / 2.0, 0.0)),
      Vec3(CharacterRadius * 2.0 - CollisionPadding * 2.0,
           CharacterHeight - CollisionPadding,
           CharacterRadius * 2.0 - CollisionPadding * 2.0))
  }

  /** Some wall box overlaps `box`. */
  predicate HitsWall(box: Box, walls: seq<Box>): (r: bool)
    ensures r <==> exists w :: w in walls && Intersects(box, w)
    ensures |walls| == 0 ==> !r
  {
    exists i :: 0 <= i < |walls| && Intersects(box, walls[i])
  }

  /** The character's box moved by (dx, 0, 0). */
  function ShiftedX(position: Vec3, dx: real): Box {
    Translate(CharacterBox(position), Vec3(dx, 0.0, 0.0))
  }

  /** The character's box moved by (0, 0, dz). */
  function ShiftedZ(position: Vec3, dz: real): Box {
    Translate(CharacterBox(position), Vec3(0.0, 0.0, dz))
  }

  /**
   * The displacement checkCollisions lets through. `hasModel` is false when
   * the character model is absent; `walls` are the world boxes of the collidables.
   */
  function Allowed(hasModel: bool, position: Vec3, movement: Vec3, walls: seq<Box>): (r: Vec3)
    ensures r.y == movement.y
    ensures r.x == movement.x || r.x == 0.0
    ensures r.z == movement.z || r.z == 0.0
    ensures Abs(r.x) <= Abs(movement.x) && Abs(r.z) <= Abs(movement.z)
    ensures !hasModel || |walls| == 0 ==> r == movement
  {
    if !hasModel || |walls| == 0 then movement
    else
      Vec3(if HitsWall(ShiftedX(position, movement.x), walls) then 0.0 else movement.x,
           movement.y,
           if HitsWall(ShiftedZ(position, movement.z), walls) then 0.0 else movement.z)
  }

  /** One pass over the walls, stopping at the first box that overlaps `box`. */
  method AnyWallHit(box: Box, walls: seq<Box>) returns (hit: bool)
    ensures hit == HitsWall(box, walls)
  {
    hit := false;
    var i := 0;
    while i < |walls|
      invariant 0 <= i <= |walls|
      invariant forall j :: 0 <= j < i ==> !Intersects(box, walls[j])
    {
      if Intersects(box, walls[i]) {
        hit := true;
        break;
      }
      i := i + 1;
    }
  }

  method CheckCollisions(hasModel: bool, position: Vec3, movement: Vec3, walls: seq<Box>)
    returns (allowed: Vec3)
    ensures allowed == Allowed(hasModel, position, movement, walls)
    ensures allowed.x == 0.0 || allowed.x == movement.x
    ensures allowed.z == 0.0 || allowed.z == movement.z
    ensures allowed.y == movement.y
  {
    if !hasModel || |walls| == 0 {
      return movement;
    }
    var box := CharacterBox(position);
    var collisionX := AnyWallHit(Translate(box, Vec3(movement.x, 0.0, 0.0)), walls);
    var collisionZ := AnyWallHit(Translate(box, Vec3(0.0, 0.0, movement.z)), walls);
    allowed := movement;
    if collisionX {
      allowed := allowed.(x := 0.0);
    }
    if collisionZ {
      allowed := allowed.(z := 0.0);
    }
  }

  /** An axis is dropped exactly when the box moved along that axis alone meets a wall. */
  lemma BlockedAxisIsZeroed(position: Vec3, movement: Vec3, walls: seq<Box>)
    ensures HitsWall(ShiftedX(position, movement.x), walls) ==> Allowed(true, position, movement, walls).x == 0.0
    ensures !HitsWall(ShiftedX(position, movement.x), walls) ==> Allowed(true, position, movement, walls).x == movement.x
    ensures HitsWall(ShiftedZ(position, movement.z), walls) ==> Allowed(true, position, movement, walls).z == 0.0
    ensures !HitsWall(ShiftedZ(position, movement.z), walls) ==> Allowed(true, position, movement, walls).z == movement.z
  {
  }

  /**
   * The X decision looks only at the X part of the displacement, and the Z
   * decision only at the Z part, which is what lets the character slide
   * along a wall.
   */
  lemma AxesDecidedIndependently(hasModel: bool, position: Vec3, m1: Vec3, m2: Vec3, walls: seq<Box>)
    ensures m1.x == m2.x ==> Allowed(hasModel, position, m1, walls).x == Allowed(hasModel, position, m2, walls).x
    ensures m1.z == m2.z ==> Allowed(hasModel, position, m1, walls).z == Allowed(hasModel, position, m2, walls).z
  {
  }

  /** A part that is let through never brings the box, moved along that axis alone, into a wall. */
  lemma AllowedAxisIsClear(position: Vec3, movement: Vec3, walls: seq<Box>, i: int)
    requires 0 <= i < |walls|
    ensures Allowed(true, position, movement, walls).x != 0.0 ==>
      !Intersects(ShiftedX(position, Allowed(true, position, movement, walls).x), walls[i])
    ensures Allowed(true, position, movement, walls).z != 0.0 ==>
      !Intersects(ShiftedZ(position, Allowed(true, position, movement, walls).z), walls[i])
  {
  }

  /**
   * Testing the axes apart does not test the diagonal: a wall at the corner
   * ahead of the character blocks neither single-axis move, yet the box
   * moved by the whole allowed displacement overlaps it.
   */
  lemma DiagonalCanCutACorner()
    ensures var wall := Box(Vec3(10.0, 0.0, 10.0), Vec3(20.0, 100.0, 20.0));
            var step := Vec3(5.0, 0.0, 5.0);
            var r := Allowed(true, Zero, step, [wall]);
            r == step && Intersects(Translate(CharacterBox(Zero), r), wall)
  {
    var wall := Box(Vec3(10.0, 0.0, 10.0), Vec3(20.0, 100.0, 20.0));
    assert !Intersects(ShiftedX(Zero, 5.0), wall);
    assert !Intersects(ShiftedZ(Zero, 5.0), wall);
  }
}
