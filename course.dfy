/** The course of the game (src/game/main.js): its constants, the entity factories for
    trees, logs, gate pairs and coins, and the random placement loops that lay them out.
    Every Math.random() call is a numbered draw of a `rnd` stream. */
module Course {
  import opened Quat
  import opened Core

  // ---------------------------------------------------------------- constants

  const GateCount: nat := 22
  const FirstGateZ: real := -40.0
  const GateStepZ: real := -32.0
  const LastGateZ: real := FirstGateZ + (GateCount - 1) as real * GateStepZ
  const FinishZ: real := LastGateZ - 70.0
  /** Length of the slope entity: the course plus a buffer. */
  const CourseLength: real := Abs(FinishZ) + 20.0

  const GateHalfWidth: real := 1.8
  const PoleHeight: real := 2.2
  const PoleThickness: real := 0.12
  const FlashDuration: real := 0.3
  const Red := Color(1.0, 0.1, 0.1, 1.0)
  const Blue := Color(0.1, 0.3, 1.0, 1.0)
  /** Gate centres are drawn from [-MaxHorizontalRange, MaxHorizontalRange). */
  const MaxHorizontalRange: real := 14.0
  /** Math.PI as a double. */
  const Pi: real := 3.141592653589793

  /** The z of gate i: gates are a fixed step apart, running toward negative z. */
  function GateZ(i: nat): (z: real) {
    FirstGateZ + i as real * GateStepZ
  }

  /** The finish line lies 70 units past the last gate. */
  lemma FinishLayout()
    ensures FinishZ == FirstGateZ + (GateCount - 1) as real * GateStepZ - 70.0
    ensures FinishZ == -782.0 && CourseLength == 802.0
  {
  }

  /** Gate z strictly decreases with the index, and every gate lies before the finish line. */
  lemma GateZOrder(i: nat, j: nat)
    requires i < j < GateCount
    ensures GateZ(j) < GateZ(i)
    ensures FinishZ < GateZ(j)
  {
  }

  // ---------------------------------------------------------------- entities

  /** A gate: two poles of one colour, with the state the game loop updates. */
  datatype GatePair = GatePair(
    leftGate: Entity, rightGate: Entity,
    z: real, centerX: real, halfWidth: real, isRedGate: bool,
    passed: bool, originalColor: Color, flashTime: real, flashDuration: real)

  /** A log on the slope: its entity and the hitbox radius the game attaches to it
      (None when the property is absent). */
  datatype Obstacle = Obstacle(entity: Entity, hitboxRadius: Option<real>)

  /** A coin; `id` stands for the identity of its entity object. */
  datatype Coin = Coin(id: nat, translation: Vec3, collected: bool)

  function PolePose(x: real, z: real): (pose: Pose) {
    Pose(Vec3(x, -0.4, z), Identity, Some(Vec3(PoleThickness, PoleHeight, PoleThickness)))
  }

  /** createGatePair: poles at centerX -/+ 1.8, red or blue, not yet passed, no flash. */
  function CreateGatePair(zPos: real, centerX: real, isRedGate: bool): (g: GatePair)
    ensures g.z == zPos && g.centerX == centerX && g.isRedGate == isRedGate
    ensures g.halfWidth == 1.8 && !g.passed && g.flashTime == 0.0 && g.flashDuration == 0.3
    ensures g.leftGate.transform.Some? && g.rightGate.transform.Some?
    // the passing interval ends exactly at the two pole centres
    ensures g.leftGate.transform.value.translation.x == centerX - g.halfWidth
    ensures g.rightGate.transform.value.translation.x == centerX + g.halfWidth
    ensures g.leftGate.transform.value.translation.z == zPos == g.rightGate.transform.value.translation.z
    ensures g.originalColor == (if isRedGate then Red else Blue)
  {
    GatePair(
      Entity(Some(PolePose(centerX - GateHalfWidth, zPos))),
      Entity(Some(PolePose(centerX + GateHalfWidth, zPos))),
      zPos, centerX, GateHalfWidth, isRedGate,
      false, if isRedGate then Red else Blue, 0.0, FlashDuration)
  }

  /** createTree: a tree at (x, -0.2, z), standing up, scaled uniformly by height / 4. */
  function CreateTree(x: real, z: real, height: real): (e: Entity) {
    var s := height / 4.0;
    Entity(Some(Pose(Vec3(x, -0.2, z), Quat4(-0.707, 0.0, 0.0, 0.707), Some(Vec3(s, s, s)))))
  }

  /** createObstacle with its two draws: scale in [0.8, 1.4) from `rs`, a random yaw from `ry`.
      The hitbox radius is 1.2 times the scale. */
  function CreateObstacle(x: real, z: real, rs: real, ry: real,
                          sin: real -> real, cos: real -> real): (ob: Obstacle)
  {
    var scale := 0.8 + rs * 0.6;
    var yRotation := ry * Pi * 2.0;
    Obstacle(
      Entity(Some(Pose(Vec3(x, -1.4, z), FromAxisAngle(0.0, 1.0, 0.0, yRotation, sin, cos),
                       Some(Vec3(scale, scale, scale))))),
      Some(scale * 1.2))
  }

  /** The log's yaw is a rotation about Y only, and its hitbox is 1.2 times its scale,
      which lies in [0.8, 1.4) for a draw in [0, 1). */
  lemma ObstacleShape(x: real, z: real, rs: real, ry: real, sin: real -> real, cos: real -> real)
    requires 0.0 <= rs < 1.0
    ensures var o := CreateObstacle(x, z, rs, ry, sin, cos);
            && o.entity.transform.Some?
            && IsYRotation(o.entity.transform.value.rotation)
            && o.entity.transform.value.translation == Vec3(x, -1.4, z)
            && o.hitboxRadius.Some?
            && 0.96 <= o.hitboxRadius.value < 1.68
            && o.entity.transform.value.scale.Some?
            && o.hitboxRadius.value == 1.2 * o.entity.transform.value.scale.value.x
  {
    FromYAxisIsYRotation(ry * Pi * 2.0, sin, cos);
  }

  /** createCoin: an uncollected coin at (x, 0.2, z). */
  function CreateCoin(id: nat, x: real, z: real): (c: Coin)
    ensures c.id == id && !c.collected && c.translation.x == x && c.translation.z == z
  {
    Coin(id, Vec3(x, 0.2, z), false)
  }

  // ---------------------------------------------------------------- scattering

  /** The z of item i of a scatter loop that starts at z0 and, before placing each item,
      steps back by base + span * draw; the step draw of item i is rnd(stride * i). */
  function ScatterZ(z0: real, base: real, span: real, rnd: nat -> real, stride: nat, i: nat): (z: real)
    decreases i
  {
    var prev := if i == 0 then z0 else ScatterZ(z0, base, span, rnd, stride, i - 1);
    prev - (base + rnd(stride * i) * span)
  }

  /** Each step of a scatter loop lies in [base, base + span). */
  lemma ScatterStep(z0: real, base: real, span: real, rnd: nat -> real, stride: nat, i: nat)
    requires ValidDraws(rnd) && span > 0.0
    ensures var prev := if i == 0 then z0 else ScatterZ(z0, base, span, rnd, stride, i - 1);
            prev - base - span < ScatterZ(z0, base, span, rnd, stride, i) <= prev - base
  {
    var prev := if i == 0 then z0 else ScatterZ(z0, base, span, rnd, stride, i - 1);
    var d := rnd(stride * i);
    assert ScatterZ(z0, base, span, rnd, stride, i) == prev - (base + d * span);
    assert 0.0 <= d < 1.0;
    MulNonNegative(d, span);
    MulPositive(1.0 - d, span);
    assert (1.0 - d) * span == span - d * span;
  }

  /** With a positive base step, scatter positions strictly decrease. */
  lemma {:induction false} ScatterDecreasing(z0: real, base: real, span: real, rnd: nat -> real,
                                             stride: nat, i: nat, j: nat)
    requires ValidDraws(rnd) && span > 0.0 && base > 0.0
    requires i < j
    ensures ScatterZ(z0, base, span, rnd, stride, j) <= ScatterZ(z0, base, span, rnd, stride, i) - base
    decreases j
  {
    ScatterStep(z0, base, span, rnd, stride, j);
    if i < j - 1 {
      ScatterDecreasing(z0, base, span, rnd, stride, i, j - 1);
    }
  }

  /** A step back of at least one unit lowers the loops' termination measure. */
  lemma FloorDrops(z: real, next: real, limit: real)
    requires next <= z - 1.0
    ensures (next - limit).Floor < (z - limit).Floor
  {
  }

  // ---------------------------------------------------------------- trees

  /** Tree i: step rnd(4i), side rnd(4i+1), distance from the centre rnd(4i+2), height rnd(4i+3). */
  function TreeZ(rnd: nat -> real, i: nat): (z: real) {
    ScatterZ(-20.0, 8.0, 8.0, rnd, 4, i)
  }

  function TreeX(rnd: nat -> real, i: nat): (x: real) {
    var side := if rnd(4 * i + 1) < 0.5 then -1.0 else 1.0;
    side * (15.0 + rnd(4 * i + 2) * 13.0)
  }

  function TreeHeight(rnd: nat -> real, i: nat): (h: real) {
    2.5 + rnd(4 * i + 3) * 4.5
  }

  /** Trees stand 15 to 28 units from the centre line, 8 to 16 units apart, 2.5 to 7 units tall. */
  lemma TreeLayout(rnd: nat -> real, i: nat)
    requires ValidDraws(rnd)
    ensures 15.0 <= Abs(TreeX(rnd, i)) < 28.0
    ensures 2.5 <= TreeHeight(rnd, i) < 7.0
    ensures var prev := if i == 0 then -20.0 else TreeZ(rnd, i - 1);
            prev - 16.0 < TreeZ(rnd, i) <= prev - 8.0
  {
    ScatterStep(-20.0, 8.0, 8.0, rnd, 4, i);
    assert 0.0 <= rnd(4 * i + 2) < 1.0 && 0.0 <= rnd(4 * i + 3) < 1.0;
  }

  /** The tree loop: from z = -20, step back and place a tree until z passes finishZ - 30. */
  method GenerateTrees(rnd: nat -> real) returns (trees: seq<Entity>)
    requires ValidDraws(rnd)
    ensures |trees| >= 1
    ensures forall i :: 0 <= i < |trees| ==> trees[i] == CreateTree(TreeX(rnd, i), TreeZ(rnd, i), TreeHeight(rnd, i))
    ensures forall i :: 0 <= i < |trees| - 1 ==> TreeZ(rnd, i) > FinishZ - 30.0
    ensures TreeZ(rnd, |trees| - 1) <= FinishZ - 30.0
  {
    trees := [];
    var z := -20.0;
    while z > FinishZ - 30.0
      invariant z == if |trees| == 0 then -20.0 else TreeZ(rnd, |trees| - 1)
      invariant forall i :: 0 <= i < |trees| ==> trees[i] == CreateTree(TreeX(rnd, i), TreeZ(rnd, i), TreeHeight(rnd, i))
      invariant forall i :: 0 <= i < |trees| - 1 ==> TreeZ(rnd, i) > FinishZ - 30.0
      decreases (z - (FinishZ - 30.0)).Floor
    {
      var i := |trees|;
      ScatterStep(-20.0, 8.0, 8.0, rnd, 4, i);
      var spacing := 8.0 + rnd(4 * i) * 8.0;
      FloorDrops(z, z - spacing, FinishZ - 30.0);
      z := z - spacing;
      assert z == TreeZ(rnd, i);
      var side := if rnd(4 * i + 1) < 0.5 then -1.0 else 1.0;
      var xBase := 15.0 + rnd(4 * i + 2) * 13.0;
      var height := 2.5 + rnd(4 * i + 3) * 4.5;
      assert side * xBase == TreeX(rnd, i) && height == TreeHeight(rnd, i);
      trees := trees + [CreateTree(side * xBase, z, height)];
    }
  }

  // ---------------------------------------------------------------- logs

  /** Log i: step rnd(4i), x rnd(4i+1), scale rnd(4i+2), yaw rnd(4i+3). */
  function ObstacleZ(rnd: nat -> real, i: nat): (z: real) {
    ScatterZ(-30.0, 20.0, 30.0, rnd, 4, i)
  }

  function ObstacleX(rnd: nat -> real, i: nat): (x: real) {
    (rnd(4 * i + 1) - 0.5) * 20.0
  }

  /** Logs sit in the central band [-10, 10), 20 to 50 units apart. */
  lemma ObstacleLayout(rnd: nat -> real, i: nat)
    requires ValidDraws(rnd)
    ensures -10.0 <= ObstacleX(rnd, i) < 10.0
    ensures var prev := if i == 0 then -30.0 else ObstacleZ(rnd, i - 1);
            prev - 50.0 < ObstacleZ(rnd, i) <= prev - 20.0
  {
    ScatterStep(-30.0, 20.0, 30.0, rnd, 4, i);
    assert 0.0 <= rnd(4 * i + 1) < 1.0;
  }

  /** Log i as the loop creates it. */
  function ObstacleAt(rnd: nat -> real, i: nat, sin: real -> real, cos: real -> real): (ob: Obstacle) {
    CreateObstacle(ObstacleX(rnd, i), ObstacleZ(rnd, i), rnd(4 * i + 2), rnd(4 * i + 3), sin, cos)
  }

  /** The log loop's guard held at every log placed so far. */
  lemma LogsAbove(rnd: nat -> real, n: nat, limit: real)
    requires forall i :: 0 <= i < n - 1 ==> ObstacleZ(rnd, i) > limit
    requires n > 0 ==> ObstacleZ(rnd, n - 1) > limit
    ensures forall i :: 0 <= i < n ==> ObstacleZ(rnd, i) > limit
  {
  }

  /** Appending log n to the first n logs gives the first n + 1. */
  lemma LogsExtend(rnd: nat -> real, sin: real -> real, cos: real -> real, obstacles: seq<Obstacle>, next: Obstacle)
    requires forall i :: 0 <= i < |obstacles| ==> obstacles[i] == ObstacleAt(rnd, i, sin, cos)
    requires next == ObstacleAt(rnd, |obstacles|, sin, cos)
    ensures forall i :: 0 <= i < |obstacles| + 1 ==> (obstacles + [next])[i] == ObstacleAt(rnd, i, sin, cos)
  {
  }

  /** One pass of the log loop's body: step back from `z` and create log i there. */
  method PlaceObstacle(rnd: nat -> real, i: nat, z: real, sin: real -> real, cos: real -> real)
    returns (next: real, obstacle: Obstacle)
    requires ValidDraws(rnd) && z == if i == 0 then -30.0 else ObstacleZ(rnd, i - 1)
    ensures next == ObstacleZ(rnd, i) && next <= z - 20.0
    ensures obstacle == ObstacleAt(rnd, i, sin, cos)
  {
    ScatterStep(-30.0, 20.0, 30.0, rnd, 4, i);
    var spacing := 20.0 + rnd(4 * i) * 30.0;
    next := z - spacing;
    var x := (rnd(4 * i + 1) - 0.5) * 20.0;
    obstacle := CreateObstacle(x, next, rnd(4 * i + 2), rnd(4 * i + 3), sin, cos);
  }

  /** The log loop: from z = -30, step back and place a log until z passes finishZ - 20. */
  method GenerateObstacles(rnd: nat -> real, sin: real -> real, cos: real -> real)
    returns (obstacles: seq<Obstacle>)
    requires ValidDraws(rnd)
    ensures |obstacles| >= 1
    ensures forall i :: 0 <= i < |obstacles| ==> obstacles[i] == ObstacleAt(rnd, i, sin, cos)
    ensures forall i :: 0 <= i < |obstacles| - 1 ==> ObstacleZ(rnd, i) > FinishZ - 20.0
    ensures ObstacleZ(rnd, |obstacles| - 1) <= FinishZ - 20.0
  {
    obstacles := [];
    var z := -30.0;
    while z > FinishZ - 20.0
      invariant z == if |obstacles| == 0 then -30.0 else ObstacleZ(rnd, |obstacles| - 1)
      invariant forall i :: 0 <= i < |obstacles| ==> obstacles[i] == ObstacleAt(rnd, i, sin, cos)
      invariant forall i :: 0 <= i < |obstacles| - 1 ==> ObstacleZ(rnd, i) > FinishZ - 20.0
      decreases (z - (FinishZ - 20.0)).Floor
    {
      var next, obstacle := PlaceObstacle(rnd, |obstacles|, z, sin, cos);
      FloorDrops(z, next, FinishZ - 20.0);
      LogsAbove(rnd, |obstacles|, FinishZ - 20.0);
      LogsExtend(rnd, sin, cos, obstacles, obstacle);
      z := next;
      obstacles := obstacles + [obstacle];
    }
  }

  // ---------------------------------------------------------------- gates

  /** Gate i's centre from its draw rnd(i). */
  function GateCenterX(rnd: nat -> real, i: nat): (x: real) {
    (rnd(i) - 0.5) * 2.0 * MaxHorizontalRange
  }

  /** The gate loop: GateCount gates at fixed z steps, alternating red and blue. */
  method GenerateGates(rnd: nat -> real) returns (gatePairs: seq<GatePair>)
    ensures |gatePairs| == GateCount
    ensures forall i :: 0 <= i < GateCount ==> gatePairs[i] == CreateGatePair(GateZ(i), GateCenterX(rnd, i), i % 2 == 0)
  {
    gatePairs := [];
    for i := 0 to GateCount
      invariant |gatePairs| == i
      invariant forall k :: 0 <= k < i ==> gatePairs[k] == CreateGatePair(GateZ(k), GateCenterX(rnd, k), k % 2 == 0)
    {
      var z := FirstGateZ + i as real * GateStepZ;
      var centerX := (rnd(i) - 0.5) * 2.0 * MaxHorizontalRange;
      var isRedGate := i % 2 == 0;
      gatePairs := gatePairs + [CreateGatePair(z, centerX, isRedGate)];
    }
  }

  /** A generated gate: centre in [-14, 14), red exactly at even indices, not passed,
      and ahead of the gate after it. */
  lemma GateLayout(rnd: nat -> real, i: nat)
    requires ValidDraws(rnd) && i < GateCount
    ensures var g := CreateGatePair(GateZ(i), GateCenterX(rnd, i), i % 2 == 0);
            && -14.0 <= g.centerX < 14.0
            && (g.isRedGate <==> i % 2 == 0)
            && !g.passed && g.flashTime == 0.0
            && FinishZ < g.z
            && (i + 1 < GateCount ==> GateZ(i + 1) < g.z)
  {
    assert 0.0 <= rnd(i) < 1.0;
    if i + 1 < GateCount {
      GateZOrder(i, i + 1);
    } else {
      assert GateZ(i) == LastGateZ;
    }
  }

  // ---------------------------------------------------------------- coins

  /** Coin i: step rnd(2i), x rnd(2i+1). */
  function CoinZ(rnd: nat -> real, i: nat): (z: real) {
    ScatterZ(-20.0, 20.0, 20.0, rnd, 2, i)
  }

  function CoinX(rnd: nat -> real, i: nat): (x: real) {
    (rnd(2 * i + 1) - 0.5) * 12.0
  }

  /** Coins lie in [-6, 6), 20 to 40 units apart. */
  lemma CoinLayout(rnd: nat -> real, i: nat)
    requires ValidDraws(rnd)
    ensures -6.0 <= CoinX(rnd, i) < 6.0
    ensures var prev := if i == 0 then -20.0 else CoinZ(rnd, i - 1);
            prev - 40.0 < CoinZ(rnd, i) <= prev - 20.0
  {
    ScatterStep(-20.0, 20.0, 20.0, rnd, 2, i);
    assert 0.0 <= rnd(2 * i + 1) < 1.0;
  }

  /** spawnCoins: the coin list starts empty; from z = -20 step back and place a coin
      until z passes finishZ + 20. Coins get the identities firstId, firstId + 1, ... */
  method SpawnCoins(firstId: nat, rnd: nat -> real) returns (coins: seq<Coin>)
    requires ValidDraws(rnd)
    ensures |coins| >= 1
    ensures forall i :: 0 <= i < |coins| ==> coins[i] == CreateCoin(firstId + i, CoinX(rnd, i), CoinZ(rnd, i))
    ensures forall i :: 0 <= i < |coins| - 1 ==> CoinZ(rnd, i) > FinishZ + 20.0
    ensures CoinZ(rnd, |coins| - 1) <= FinishZ + 20.0
  {
    coins := [];
    var z := -20.0;
    while z > FinishZ + 20.0
      invariant z == if |coins| == 0 then -20.0 else CoinZ(rnd, |coins| - 1)
      invariant forall i :: 0 <= i < |coins| ==> coins[i] == CreateCoin(firstId + i, CoinX(rnd, i), CoinZ(rnd, i))
      invariant forall i :: 0 <= i < |coins| - 1 ==> CoinZ(rnd, i) > FinishZ + 20.0
      decreases (z - (FinishZ + 20.0)).Floor
    {
      var i := |coins|;
      ScatterStep(-20.0, 20.0, 20.0, rnd, 2, i);
      FloorDrops(z, z - (20.0 + rnd(2 * i) * 20.0), FinishZ + 20.0);
      z := z - (20.0 + rnd(2 * i) * 20.0);
      assert z == CoinZ(rnd, i);
      var x := (rnd(2 * i + 1) - 0.5) * 12.0;
      coins := coins + [CreateCoin(firstId + i, x, z)];
    }
  }
}
