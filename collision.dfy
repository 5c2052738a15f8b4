/** Collision and event geometry (src/game/CollisionDetection.js): axis-aligned box overlap
    for trees and gate poles, a planar circle test for logs with a jump-over exception, and
    the interval test for passing a gate. Everything here only reads. */
module Collision {
  import opened Core
  import opened Course

  /** An axis-aligned box. */
  datatype Box = Box(minX: real, maxX: real, minY: real, maxY: real, minZ: real, maxZ: real)

  /** The scale of a pose, [1, 1, 1] when it has none. */
  function ScaleOf(p: Pose): (s: Vec3) {
    match p.scale
    case Some(s) => s
    case None => One
  }

  /** getBoundingBox: the box centred on the translation whose half-extents are scale / 2. */
  function GetBoundingBox(p: Pose): (b: Box)
    ensures b.minX + b.maxX == 2.0 * p.translation.x && b.maxX - b.minX == ScaleOf(p).x
    ensures b.minY + b.maxY == 2.0 * p.translation.y && b.maxY - b.minY == ScaleOf(p).y
    ensures b.minZ + b.maxZ == 2.0 * p.translation.z && b.maxZ - b.minZ == ScaleOf(p).z
  {
    var t := p.translation;
    var s := ScaleOf(p);
    var halfX, halfY, halfZ := s.x / 2.0, s.y / 2.0, s.z / 2.0;
    Box(t.x - halfX, t.x + halfX, t.y - halfY, t.y + halfY, t.z - halfZ, t.z + halfZ)
  }

  /** With a non-negative scale (or none) every axis of the box has min <= max. */
  lemma BoxWellFormed(p: Pose)
    requires ScaleOf(p).x >= 0.0 && ScaleOf(p).y >= 0.0 && ScaleOf(p).z >= 0.0
    ensures var b := GetBoundingBox(p); b.minX <= b.maxX && b.minY <= b.maxY && b.minZ <= b.maxZ
  {
  }

  /** Inclusive overlap on all three axes. */
  predicate Overlap(b1: Box, b2: Box) {
    && b1.minX <= b2.maxX && b1.maxX >= b2.minX
    && b1.minY <= b2.maxY && b1.maxY >= b2.minY
    && b1.minZ <= b2.maxZ && b1.maxZ >= b2.minZ
  }

  /** checkCollision: false when either entity lacks a Transform, otherwise box overlap. */
  function CheckCollision(e1: Entity, e2: Entity): (hit: bool)
    ensures hit ==> e1.transform.Some? && e2.transform.Some?
  {
    match (e1.transform, e2.transform)
    case (Some(t1), Some(t2)) => Overlap(GetBoundingBox(t1), GetBoundingBox(t2))
    case _ => false
  }

  /** The centre-distance form of the test: two boxes collide exactly when, on every axis,
      their centres are no further apart than the sum of their half-extents. */
  lemma CollisionByCentres(p1: Pose, p2: Pose)
    ensures CheckCollision(Entity(Some(p1)), Entity(Some(p2))) <==>
      && Abs(p1.translation.x - p2.translation.x) <= (ScaleOf(p1).x + ScaleOf(p2).x) / 2.0
      && Abs(p1.translation.y - p2.translation.y) <= (ScaleOf(p1).y + ScaleOf(p2).y) / 2.0
      && Abs(p1.translation.z - p2.translation.z) <= (ScaleOf(p1).z + ScaleOf(p2).z) / 2.0
  {
  }

  /** The test is symmetric. */
  lemma CollisionSymmetric(e1: Entity, e2: Entity)
    ensures CheckCollision(e1, e2) == CheckCollision(e2, e1)
  {
  }

  /** The comparisons are inclusive: boxes that only touch at a face collide. */
  lemma TouchingFacesCollide(p1: Pose, p2: Pose)
    requires ScaleOf(p1).x >= 0.0 && ScaleOf(p1).y >= 0.0 && ScaleOf(p1).z >= 0.0
    requires p2.translation.y == p1.translation.y && p2.translation.z == p1.translation.z
    requires ScaleOf(p2) == ScaleOf(p1)
    requires GetBoundingBox(p1).maxX == GetBoundingBox(p2).minX
    ensures CheckCollision(Entity(Some(p1)), Entity(Some(p2)))
  {
  }

  /** A first-match index shifted past the head of the list. */
  function Shift(r: Option<nat>): (s: Option<nat>) {
    match r
    case Some(k) => Some(k + 1)
    case None => None
  }

  /** checkTreeCollisions: the first tree, in list order, that collides with the skier. */
  function CheckTreeCollisions(skier: Entity, trees: seq<Entity>): (r: Option<nat>)
    ensures r.Some? ==> r.value < |trees| && CheckCollision(skier, trees[r.value])
    ensures r.Some? ==> forall j :: 0 <= j < r.value ==> !CheckCollision(skier, trees[j])
    ensures r.None? <==> forall j :: 0 <= j < |trees| ==> !CheckCollision(skier, trees[j])
    decreases |trees|
  {
    if trees == [] then None
    else if CheckCollision(skier, trees[0]) then Some(0)
    else
      var rest := CheckTreeCollisions(skier, trees[1..]);
      assert forall j :: 1 <= j < |trees| ==> trees[j] == trees[1..][j - 1];
      Shift(rest)
  }

  /** checkGatePassing: the skier's x lies in [centerX - halfWidth, centerX + halfWidth]. */
  predicate CheckGatePassing(skier: Entity, gatePair: GatePair) {
    match skier.transform
    case None => false
    case Some(t) =>
      var skierX := t.translation.x;
      skierX >= gatePair.centerX - gatePair.halfWidth && skierX <= gatePair.centerX + gatePair.halfWidth
  }

  /** Gate passing looks only at x: moving the skier in y or z, or changing its scale,
      never changes the verdict. */
  lemma GatePassingIgnoresYZ(p: Pose, q: Pose, g: GatePair)
    requires p.translation.x == q.translation.x
    ensures CheckGatePassing(Entity(Some(p)), g) == CheckGatePassing(Entity(Some(q)), g)
    ensures !CheckGatePassing(Entity(None), g)
  {
  }

  /** A gate centred at 5 with half-width 1.8 is passed exactly from x in [3.2, 6.8];
      from x = 0 it is missed. */
  lemma GatePassingExample(p: Pose, g: GatePair)
    requires g.centerX == 5.0 && g.halfWidth == 1.8
    ensures CheckGatePassing(Entity(Some(p)), g) <==> 3.2 <= p.translation.x <= 6.8
    ensures p.translation.x == 0.0 ==> !CheckGatePassing(Entity(Some(p)), g)
  {
  }

  /** The jump-over height: above it a skier clears every log. */
  const JumpOverHeight: real := 1.0
  /** The skier's approximate radius in the log test. */
  const SkierRadius: real := 0.5
  /** The hitbox radius used when a log has none, or has 0. */
  const DefaultHitboxRadius: real := 1.2

  /** `obstacle.hitboxRadius || 1.2`: a missing or zero radius falls back to 1.2. */
  function EffectiveRadius(o: Obstacle): (r: real)
    ensures o.hitboxRadius.None? ==> r == DefaultHitboxRadius
    ensures o.hitboxRadius.Some? ==> r == (if o.hitboxRadius.value == 0.0 then DefaultHitboxRadius else o.hitboxRadius.value)
  {
    match o.hitboxRadius
    case Some(h) => if h != 0.0 then h else DefaultHitboxRadius
    case None => DefaultHitboxRadius
  }

  /** The planar (x, z) test `sqrt(dx^2 + dz^2) < radius + 0.5`, written without the root. */
  predicate InReach(skier: Pose, obstacle: Pose, radius: real) {
    var dx := skier.translation.x - obstacle.translation.x;
    var dz := skier.translation.z - obstacle.translation.z;
    var limit := radius + SkierRadius;
    limit > 0.0 && dx * dx + dz * dz < limit * limit
  }

  /** The root-free form is exact: for any non-negative root d of dx^2 + dz^2,
      d < limit holds exactly when InReach does. */
  lemma InReachIsDistanceTest(skier: Pose, obstacle: Pose, radius: real, d: real)
    requires d >= 0.0
    requires var dx := skier.translation.x - obstacle.translation.x;
             var dz := skier.translation.z - obstacle.translation.z;
             d * d == dx * dx + dz * dz
    ensures InReach(skier, obstacle, radius) <==> d < radius + SkierRadius
  {
    var limit := radius + SkierRadius;
    if d < limit {
      SquareStrictlyMonotone(d, limit);
    } else if limit > 0.0 {
      if limit < d {
        SquareStrictlyMonotone(limit, d);
      }
    }
  }

  /** Squaring is strictly monotone on the non-negative reals. */
  lemma SquareStrictlyMonotone(a: real, b: real)
    requires 0.0 <= a < b
    ensures a * a < b * b
  {
    MulPositive(b - a, b + a);
    assert b * b - a * a == (b - a) * (b + a);
  }

  /** Whether a log with a transform is within the skier's reach in the (x, z) plane. */
  predicate HitsObstacle(skier: Pose, o: Obstacle) {
    o.entity.transform.Some? && InReach(skier, o.entity.transform.value, EffectiveRadius(o))
  }

  /** The loop of checkObstacleCollisions: logs without a transform are skipped; a log in
      reach is returned unless the skier is jumping high, in which case the scan goes on. */
  function ScanObstacles(skier: Pose, isJumpingHigh: bool, obstacles: seq<Obstacle>): (r: Option<nat>)
    ensures isJumpingHigh ==> r.None?
    ensures r.Some? ==> r.value < |obstacles| && HitsObstacle(skier, obstacles[r.value])
    ensures r.Some? ==> forall j :: 0 <= j < r.value ==> !HitsObstacle(skier, obstacles[j])
    ensures !isJumpingHigh && r.None? ==> forall j :: 0 <= j < |obstacles| ==> !HitsObstacle(skier, obstacles[j])
    decreases |obstacles|
  {
    if obstacles == [] then None
    else
      assert forall j :: 1 <= j < |obstacles| ==> obstacles[j] == obstacles[1..][j - 1];
      var o := obstacles[0];
      match o.entity.transform
      case None => Shift(ScanObstacles(skier, isJumpingHigh, obstacles[1..]))
      case Some(ot) =>
        if InReach(skier, ot, EffectiveRadius(o)) then
          if isJumpingHigh then Shift(ScanObstacles(skier, isJumpingHigh, obstacles[1..]))
          else Some(0)
        else Shift(ScanObstacles(skier, isJumpingHigh, obstacles[1..]))
  }

  /** checkObstacleCollisions: nothing without a skier transform or with the skier higher
      than 1.0; otherwise the first log in reach. */
  function CheckObstacleCollisions(skier: Entity, obstacles: seq<Obstacle>): (r: Option<nat>)
    ensures skier.transform.None? ==> r.None?
    ensures skier.transform.Some? && skier.transform.value.translation.y > JumpOverHeight ==> r.None?
    ensures r.Some? ==> r.value < |obstacles| && HitsObstacle(skier.transform.value, obstacles[r.value])
    ensures r.Some? ==> forall j :: 0 <= j < r.value ==> !HitsObstacle(skier.transform.value, obstacles[j])
    ensures skier.transform.Some? && skier.transform.value.translation.y <= JumpOverHeight && r.None? ==>
              forall j :: 0 <= j < |obstacles| ==> !HitsObstacle(skier.transform.value, obstacles[j])
  {
    match skier.transform
    case None => None
    case Some(t) =>
      var isJumpingHigh := t.translation.y > JumpOverHeight;
      ScanObstacles(t, isJumpingHigh, obstacles)
  }

  /** A skier at the very (x, z) of a log with hitbox 1.2: airborne at y = 1.5 it jumps
      over; on the ground at y = 0.15 it hits the log. */
  lemma ObstacleJumpExample(skier: Pose, o: Obstacle)
    requires o.entity.transform.Some? && o.hitboxRadius == Some(1.2)
    requires skier.translation.x == o.entity.transform.value.translation.x
    requires skier.translation.z == o.entity.transform.value.translation.z
    ensures skier.translation.y == 1.5 ==> CheckObstacleCollisions(Entity(Some(skier)), [o]).None?
    ensures skier.translation.y == 0.15 ==> CheckObstacleCollisions(Entity(Some(skier)), [o]) == Some(0)
  {
    assert HitsObstacle(skier, o);
  }

  /** checkGateCollision: the skier's box overlaps the left or the right pole. */
  predicate CheckGateCollision(skier: Entity, gatePair: GatePair) {
    CheckCollision(skier, gatePair.leftGate) || CheckCollision(skier, gatePair.rightGate)
  }

  /** Against a generated gate, a unit-scaled skier touches a pole exactly when it is within
      0.56 of that pole's centre in x and in z, and within 1.6 of y = -0.4. */
  lemma PoleContact(skier: Pose, zPos: real, centerX: real, isRed: bool)
    requires ScaleOf(skier) == One
    ensures var g := CreateGatePair(zPos, centerX, isRed);
            var t := skier.translation;
            CheckGateCollision(Entity(Some(skier)), g) <==>
              && Abs(t.z - zPos) <= 0.56 && Abs(t.y + 0.4) <= 1.6
              && (Abs(t.x - (centerX - 1.8)) <= 0.56 || Abs(t.x - (centerX + 1.8)) <= 0.56)
  {
    var g := CreateGatePair(zPos, centerX, isRed);
    CollisionByCentres(skier, g.leftGate.transform.value);
    CollisionByCentres(skier, g.rightGate.transform.value);
  }
}
