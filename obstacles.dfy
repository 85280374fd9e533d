/** Obstacles: drifting, spinning shapes and ribbons made of spheres, the difficulty ramp, and
    the read-only collision checks against the kite and its string. */
module Obstacles {
  import opened Vectors
  import Kite

  const SpinSpeed: real := 1.0
  const DriftSpeed: real := 0.5
  /** Seconds of game time until the difficulty reaches 1. */
  const DifficultyRampTime: real := 120.0

  /** One obstacle. `position` is both the mesh group's and the static body's position (the
      update copies one onto the other); `spin` is the total angle turned about its fixed spin
      axis, since successive turns about one axis add up. */
  datatype Obstacle = Obstacle(
    position: Vec3, size: real, spin: real,
    driftCenter: Vec3, driftRadius: real, driftSpeed: real, driftPhase: real)

  /** One sphere body of a ribbon. */
  datatype RibbonBody = RibbonBody(position: Vec3, radius: real)

  datatype Ribbon = Ribbon(bodies: seq<RibbonBody>)

  /** `Math.min(gameTime / 120, 1)`. */
  function Difficulty(gameTime: real): real {
    Min(gameTime / DifficultyRampTime, 1.0)
  }

  /** The difficulty never exceeds 1, is exactly 1 from two minutes on, is not negative for a
      non-negative game time, and never drops as time goes on. */
  lemma DifficultyProperties(gameTime: real, later: real)
    ensures Difficulty(gameTime) <= 1.0
    ensures Difficulty(gameTime) == 1.0 <==> gameTime >= DifficultyRampTime
    ensures gameTime >= 0.0 ==> Difficulty(gameTime) >= 0.0
    ensures gameTime <= later ==> Difficulty(gameTime) <= Difficulty(later)
  {
  }

  /** The drifted position of `updateObstacle`: a circle of radius `driftRadius` about the
      drift centre, at the centre's height. */
  function DriftPosition(m: MathLib, o: Obstacle, time: real): Vec3 {
    Vec3(o.driftCenter.x + m.cos(DriftAngle(o, time)) * o.driftRadius, o.driftCenter.y,
         o.driftCenter.z + m.sin(DriftAngle(o, time)) * o.driftRadius)
  }

  function DriftAngle(o: Obstacle, time: real): real {
    time * o.driftSpeed + o.driftPhase
  }

  /** `updateObstacle`: turn by `deltaTime` times the difficulty-scaled spin speed, then move
      to the drift position. */
  function UpdatedObstacle(m: MathLib, o: Obstacle, deltaTime: real, time: real, difficulty: real): Obstacle {
    o.(spin := o.spin + deltaTime * (SpinSpeed * (1.0 + difficulty)), position := DriftPosition(m, o, time))
  }

  /** The update keeps the obstacle at its drift centre's height and within its drift radius
      of the centre on each horizontal axis, and changes nothing else but its spin. */
  lemma UpdatedObstacleStaysInDriftBox(m: MathLib, o: Obstacle, deltaTime: real, time: real, difficulty: real)
    requires Lawful(m) && o.driftRadius >= 0.0
    ensures var u := UpdatedObstacle(m, o, deltaTime, time, difficulty);
      && u.position.y == o.driftCenter.y
      && Abs(u.position.x - o.driftCenter.x) <= o.driftRadius
      && Abs(u.position.z - o.driftCenter.z) <= o.driftRadius
      && u.size == o.size && u.driftCenter == o.driftCenter && u.driftRadius == o.driftRadius
      && u.driftSpeed == o.driftSpeed && u.driftPhase == o.driftPhase
  {
    var u := UpdatedObstacle(m, o, deltaTime, time, difficulty);
    OffsetWithinRadius(u.position.x - o.driftCenter.x, m.cos(DriftAngle(o, time)), o.driftRadius);
    OffsetWithinRadius(u.position.z - o.driftCenter.z, m.sin(DriftAngle(o, time)), o.driftRadius);
  }

  lemma OffsetWithinRadius(offset: real, unit: real, radius: real)
    requires -1.0 <= unit <= 1.0 && radius >= 0.0 && offset == unit * radius
    ensures Abs(offset) <= radius
  {
    ScaledUnitBounded(unit, radius);
  }

  /** A positive step at a non-negative difficulty always turns the obstacle further, by at
      least the step itself. */
  lemma UpdatedObstacleSpins(m: MathLib, o: Obstacle, deltaTime: real, time: real, difficulty: real)
    requires deltaTime > 0.0 && difficulty >= 0.0
    ensures UpdatedObstacle(m, o, deltaTime, time, difficulty).spin >= o.spin + deltaTime
  {
    var rate := SpinSpeed * (1.0 + difficulty);
    assert rate == 1.0 + difficulty;
    NonNegativeProduct(deltaTime, difficulty);
    assert deltaTime * rate == deltaTime + deltaTime * difficulty;
  }

  // ---------------------------------------------------------------------------------------
  // Collision predicates

  /** `distance < (kite.size + size) * 0.5`, where `None` stands for an undefined kite size:
      the sum is then NaN, and every comparison with NaN is false. */
  predicate WithinReach(distance: real, kiteSize: Option<real>, size: real) {
    kiteSize.Some? && distance < (kiteSize.value + size) * 0.5
  }

  predicate ObstacleHit(m: MathLib, kitePosition: Vec3, kiteSize: Option<real>, obstacles: seq<Obstacle>) {
    exists i :: 0 <= i < |obstacles| &&
      WithinReach(Distance(m, kitePosition, obstacles[i].position), kiteSize, obstacles[i].size)
  }

  predicate RibbonHit(m: MathLib, kitePosition: Vec3, kiteSize: Option<real>, ribbons: seq<Ribbon>) {
    exists i, j :: 0 <= i < |ribbons| && 0 <= j < |ribbons[i].bodies| &&
      WithinReach(Distance(m, kitePosition, ribbons[i].bodies[j].position), kiteSize, ribbons[i].bodies[j].radius)
  }

  /** `lineIntersectsSphere`: project the centre onto the segment's direction; outside the
      segment, test the two end points, otherwise the point at the projection. */
  predicate LineIntersectsSphere(m: MathLib, start: Vec3, end: Vec3, center: Vec3, radius: real) {
    var line := Sub(end, start);
    var lineLength := m.length(line);
    var direction := Normalize(m, line);
    var projection := Dot(Sub(center, start), direction);
    if projection < 0.0 || projection > lineLength then
      Distance(m, start, center) < radius || Distance(m, end, center) < radius
    else
      Distance(m, Add(start, Scale(direction, projection)), center) < radius
  }

  /** A segment of zero length meets a sphere exactly when its point lies strictly inside. */
  lemma DegenerateSegment(m: MathLib, p: Vec3, center: Vec3, radius: real)
    requires Lawful(m)
    ensures LineIntersectsSphere(m, p, p, center, radius) <==> Distance(m, p, center) < radius
  {
    assert Sub(p, p) == Zero;
    assert Normalize(m, Sub(p, p)) == Zero;
    assert Dot(Sub(center, p), Zero) == 0.0;
    assert Add(p, Scale(Zero, 0.0)) == p;
  }

  /** No segment meets a sphere whose radius is not positive, and every segment meets a sphere
      of positive radius centred on its start point. */
  lemma SphereRadiusCases(m: MathLib, start: Vec3, end: Vec3, radius: real)
    requires Lawful(m)
    ensures radius <= 0.0 ==> !LineIntersectsSphere(m, start, end, start, radius)
    ensures radius > 0.0 ==> LineIntersectsSphere(m, start, end, start, radius)
  {
    assert Sub(start, start) == Zero;
    var direction := Normalize(m, Sub(end, start));
    assert Dot(Sub(start, start), direction) == 0.0;
    assert Add(start, Scale(direction, 0.0)) == start;
  }

  lemma NoSphereOfNonPositiveRadiusIsHit(m: MathLib, start: Vec3, end: Vec3, center: Vec3, radius: real)
    requires Lawful(m) && radius <= 0.0
    ensures !LineIntersectsSphere(m, start, end, center, radius)
  {
    var line := Sub(end, start);
    var direction := Normalize(m, line);
    var projection := Dot(Sub(center, start), direction);
    assert Distance(m, start, center) >= 0.0;
    assert Distance(m, end, center) >= 0.0;
    assert Distance(m, Add(start, Scale(direction, projection)), center) >= 0.0;
  }

  predicate SegmentHits(m: MathLib, start: Vec3, end: Vec3, obstacles: seq<Obstacle>, ribbons: seq<Ribbon>) {
    || (exists j :: 0 <= j < |obstacles| &&
          LineIntersectsSphere(m, start, end, obstacles[j].position, obstacles[j].size * 0.5))
    || (exists j, k :: 0 <= j < |ribbons| && 0 <= k < |ribbons[j].bodies| &&
          LineIntersectsSphere(m, start, end, ribbons[j].bodies[k].position, ribbons[j].bodies[k].radius))
  }

  /** Finding: the kite object carries no `size`, so the source's test never fires. A kite
      sitting exactly on an obstacle's centre goes unnoticed with the size undefined, and is
      caught once the kite's own size of 2 is used. */
  lemma KiteOnObstacleCentre(m: MathLib, o: Obstacle, kiteSize: real)
    requires Lawful(m) && o.size > 0.0 && kiteSize >= 0.0
    ensures Distance(m, o.position, o.position) == 0.0
    ensures !ObstacleHit(m, o.position, None, [o])
    ensures ObstacleHit(m, o.position, Some(kiteSize), [o])
    ensures ObstacleHit(m, o.position, Some(Kite.KiteSize), [o])
  {
    assert Sub(o.position, o.position) == Zero;
    assert [o][0] == o;
  }

  /** With the kite size undefined no obstacle and no ribbon body is ever within reach. */
  lemma UndefinedKiteSizeNeverCollides(m: MathLib, kitePosition: Vec3, obstacles: seq<Obstacle>, ribbons: seq<Ribbon>)
    ensures !ObstacleHit(m, kitePosition, None, obstacles)
    ensures !RibbonHit(m, kitePosition, None, ribbons)
  {
  }

  // ---------------------------------------------------------------------------------------
  // The obstacle system

  class ObstacleSystem {
    var obstacles: seq<Obstacle>
    var ribbons: seq<Ribbon>
    var time: real
    var difficulty: real

    /** `initObstacles`, given the obstacles and ribbons its random placement created. */
    constructor (created: seq<Obstacle>, createdRibbons: seq<Ribbon>)
      ensures obstacles == created && ribbons == createdRibbons
      ensures time == 0.0 && difficulty == 0.0
    {
      obstacles := created;
      ribbons := createdRibbons;
      time := 0.0;
      difficulty := 0.0;
    }

    /** `updateObstacles`: advance the clock, set the difficulty from the game time, then
        update every obstacle with the new clock and difficulty. */
    method UpdateObstacles(m: MathLib, deltaTime: real, gameTime: real)
      modifies this`time, this`difficulty, this`obstacles
      ensures time == old(time) + deltaTime
      ensures difficulty == Difficulty(gameTime)
      ensures |obstacles| == |old(obstacles)|
      ensures forall i :: 0 <= i < |obstacles| ==>
        obstacles[i] == UpdatedObstacle(m, old(obstacles)[i], deltaTime, time, difficulty)
    {
      time := time + deltaTime;
      difficulty := Difficulty(gameTime);
      var updated := obstacles;
      for i := 0 to |updated|
        invariant |updated| == |old(obstacles)|
        invariant forall k :: 0 <= k < i ==> updated[k] == UpdatedObstacle(m, old(obstacles)[k], deltaTime, time, difficulty)
        invariant forall k :: i <= k < |updated| ==> updated[k] == old(obstacles)[k]
      {
        updated := updated[i := UpdatedObstacle(m, updated[i], deltaTime, time, difficulty)];
      }
      obstacles := updated;
    }

    /** `checkObstacleCollisions`: is the kite within reach of an obstacle or a ribbon body?
        The source reads the kite's size from a field its kite object does not have, which
        is `None` here. */
    method CheckObstacleCollisions(m: MathLib, kitePosition: Vec3, kiteSize: Option<real>) returns (hit: bool)
      ensures hit <==> ObstacleHit(m, kitePosition, kiteSize, obstacles) || RibbonHit(m, kitePosition, kiteSize, ribbons)
    {
      for i := 0 to |obstacles|
        invariant forall k :: 0 <= k < i ==>
          !WithinReach(Distance(m, kitePosition, obstacles[k].position), kiteSize, obstacles[k].size)
      {
        if WithinReach(Distance(m, kitePosition, obstacles[i].position), kiteSize, obstacles[i].size) {
          return true;
        }
      }
      for i := 0 to |ribbons|
        invariant forall k, l :: 0 <= k < i && 0 <= l < |ribbons[k].bodies| ==>
          !WithinReach(Distance(m, kitePosition, ribbons[k].bodies[l].position), kiteSize, ribbons[k].bodies[l].radius)
      {
        var bodies := ribbons[i].bodies;
        for j := 0 to |bodies|
          invariant forall l :: 0 <= l < j ==>
            !WithinReach(Distance(m, kitePosition, bodies[l].position), kiteSize, bodies[l].radius)
        {
          if WithinReach(Distance(m, kitePosition, bodies[j].position), kiteSize, bodies[j].radius) {
            return true;
          }
        }
      }
      return false;
    }

    /** The collision check as the source calls it, with the kite's size undefined: it can
        never report a collision. */
    method CheckObstacleCollisionsAsWritten(m: MathLib, kitePosition: Vec3) returns (hit: bool)
      ensures !hit
    {
      hit := CheckObstacleCollisions(m, kitePosition, None);
      UndefinedKiteSizeNeverCollides(m, kitePosition, obstacles, ribbons);
    }

    /** The collision check with the kite's own size, `KITE_SIZE` = 2. */
    method CheckKiteCollisions(m: MathLib, kitePosition: Vec3) returns (hit: bool)
      ensures hit <==> ObstacleHit(m, kitePosition, Some(Kite.KiteSize), obstacles) ||
                       RibbonHit(m, kitePosition, Some(Kite.KiteSize), ribbons)
    {
      hit := CheckObstacleCollisions(m, kitePosition, Some(Kite.KiteSize));
    }

    /** One segment of `checkStringIntersections`: does it meet an obstacle sphere of radius
        half its size, or a ribbon body? */
    method CheckSegment(m: MathLib, start: Vec3, end: Vec3) returns (hit: bool)
      ensures hit <==> SegmentHits(m, start, end, obstacles, ribbons)
    {
      for j := 0 to |obstacles|
        invariant forall k :: 0 <= k < j ==>
          !LineIntersectsSphere(m, start, end, obstacles[k].position, obstacles[k].size * 0.5)
      {
        if LineIntersectsSphere(m, start, end, obstacles[j].position, obstacles[j].size * 0.5) {
          return true;
        }
      }
      for j := 0 to |ribbons|
        invariant forall k, l :: 0 <= k < j && 0 <= l < |ribbons[k].bodies| ==>
          !LineIntersectsSphere(m, start, end, ribbons[k].bodies[l].position, ribbons[k].bodies[l].radius)
      {
        var bodies := ribbons[j].bodies;
        for k := 0 to |bodies|
          invariant forall l :: 0 <= l < k ==>
            !LineIntersectsSphere(m, start, end, bodies[l].position, bodies[l].radius)
        {
          if LineIntersectsSphere(m, start, end, bodies[k].position, bodies[k].radius) {
            return true;
          }
        }
      }
      return false;
    }

    /** `checkStringIntersections`: does any segment between consecutive string points meet
        an obstacle or a ribbon body? A string of fewer than two points has no segment. */
    method CheckStringIntersections(m: MathLib, stringPoints: seq<Vec3>) returns (hit: bool)
      ensures hit <==> (exists i :: 0 <= i < |stringPoints| - 1 &&
                               SegmentHits(m, stringPoints[i], stringPoints[i + 1], obstacles, ribbons))
      ensures |stringPoints| < 2 ==> !hit
    {
      var i := 0;
      while i < |stringPoints| - 1
        invariant 0 <= i <= if |stringPoints| == 0 then 0 else |stringPoints| - 1
        invariant forall k :: 0 <= k < i ==> !SegmentHits(m, stringPoints[k], stringPoints[k + 1], obstacles, ribbons)
      {
        hit := CheckSegment(m, stringPoints[i], stringPoints[i + 1]);
        if hit {
          return;
        }
        i := i + 1;
      }
      return false;
    }
  }
}
