/** The kite: its rigid body, the mesh that follows it, its tail, and the aerodynamic
    forces the wind puts on it. */
module Kite {
  import opened Vectors
  import opened Physics

  const KiteSize: real := 2.0
  const KiteMass: real := 0.5
  const TailSegments: nat := 15
  const TailLength: real := 10.0
  const KiteLinearDamping: real := 0.3
  const KiteAngularDamping: real := 0.8
  const LiftCoefficient: real := 2.0
  const DragCoefficient: real := 0.3

  /** The kite's surface normal, local +z, in world space. */
  function KiteNormal(m: MathLib, q: Quat): Vec3 {
    m.rotate(q, Vec3(0.0, 0.0, 1.0))
  }

  /** The kite's horizontal edge, local +x, in world space. */
  function KiteEdge(m: MathLib, q: Quat): Vec3 {
    m.rotate(q, Vec3(1.0, 0.0, 0.0))
  }

  /** wind × normalize(wind × edge), normalised. */
  function LiftDirection(m: MathLib, q: Quat, wind: Vec3): Vec3 {
    var planeNormal := Normalize(m, Cross(wind, KiteEdge(m, q)));
    Normalize(m, Cross(wind, planeNormal))
  }

  /** The lift force: the lift direction scaled by |wind|·|dot|·2.0. */
  function LiftForce(m: MathLib, q: Quat, wind: Vec3): Vec3 {
    var dot := Dot(KiteNormal(m, q), wind);
    Scale(LiftDirection(m, q, wind), m.length(wind) * Abs(dot) * LiftCoefficient)
  }

  /** The drag force: the (unnormalised) wind vector scaled by |wind|·|dot|·0.3. */
  function DragForce(m: MathLib, q: Quat, wind: Vec3): Vec3 {
    var dot := Dot(KiteNormal(m, q), wind);
    Scale(wind, m.length(wind) * Abs(dot) * DragCoefficient)
  }

  /** The forces `applyWindForce` issues, in order: lift, then drag. */
  function WindForces(m: MathLib, q: Quat, position: Vec3, wind: Vec3): (r: seq<ForceCall>)
    ensures r == [] <==> Dot(KiteNormal(m, q), wind) >= 0.0
    ensures r != [] ==> |r| == 2
  {
    if Dot(KiteNormal(m, q), wind) < 0.0 then
      [ForceCall(LiftForce(m, q, wind), position), ForceCall(DragForce(m, q, wind), position)]
    else
      []
  }

  /** Wind hitting the back face (dot >= 0) produces no force at all. */
  lemma NoForceFromBehind(m: MathLib, q: Quat, position: Vec3, wind: Vec3)
    requires Dot(KiteNormal(m, q), wind) >= 0.0
    ensures WindForces(m, q, position, wind) == []
  {
  }

  /** Every wind force acts at the body's centre, so its torque about the centre is zero. */
  lemma {:induction false} WindForcesHaveNoTorque(m: MathLib, q: Quat, position: Vec3, wind: Vec3)
    ensures forall f :: f in WindForces(m, q, position, wind) ==>
      f.point == position && Cross(Sub(f.point, position), f.force) == Zero
  {
    var r := WindForces(m, q, position, wind);
    forall f | f in r
      ensures f.point == position && Cross(Sub(f.point, position), f.force) == Zero
    {
      assert Sub(f.point, position) == Zero;
    }
  }

  /** The drag force is the wind vector scaled by |wind|·|dot|·0.3, hence parallel to it. */
  lemma DragIsParallelToWind(m: MathLib, q: Quat, position: Vec3, wind: Vec3)
    requires Dot(KiteNormal(m, q), wind) < 0.0
    ensures WindForces(m, q, position, wind)[1].force
         == Scale(wind, m.length(wind) * Abs(Dot(KiteNormal(m, q), wind)) * DragCoefficient)
    ensures Cross(WindForces(m, q, position, wind)[1].force, wind) == Zero
  {
    var k := m.length(wind) * Abs(Dot(KiteNormal(m, q), wind)) * DragCoefficient;
    assert WindForces(m, q, position, wind)[1].force == DragForce(m, q, wind) == Scale(wind, k);
    ScaledCrossSelf(wind, k);
  }

  /** The lift force is the lift direction scaled by |wind|·|dot|·2.0, and that direction is
      perpendicular to the wind. */
  lemma LiftIsPerpendicularToWind(m: MathLib, q: Quat, position: Vec3, wind: Vec3)
    requires Dot(KiteNormal(m, q), wind) < 0.0
    ensures WindForces(m, q, position, wind)[0].force
         == Scale(LiftDirection(m, q, wind), m.length(wind) * Abs(Dot(KiteNormal(m, q), wind)) * LiftCoefficient)
    ensures Dot(wind, LiftDirection(m, q, wind)) == 0.0
  {
    var pn := Normalize(m, Cross(wind, KiteEdge(m, q)));
    var c := Cross(wind, pn);
    CrossIsPerpendicular(wind, pn);
    var n := m.length(c);
    if n != 0.0 {
      DotScale(wind, c, 1.0 / n);
    }
  }

  /** With a lawful length, the lift has magnitude |wind|·|dot|·2.0 whenever wind × planeNormal
      is non-zero, and vanishes when the wind lies along that normal. */
  lemma LiftMagnitude(m: MathLib, q: Quat, position: Vec3, wind: Vec3)
    requires Lawful(m) && Dot(KiteNormal(m, q), wind) < 0.0
    ensures var axis := Cross(wind, Normalize(m, Cross(wind, KiteEdge(m, q))));
      var lift := WindForces(m, q, position, wind)[0].force;
      && (m.length(axis) != 0.0 ==>
            m.length(lift) == m.length(wind) * Abs(Dot(KiteNormal(m, q), wind)) * LiftCoefficient)
      && (m.length(axis) == 0.0 ==> m.length(lift) == 0.0)
  {
    var axis := Cross(wind, Normalize(m, Cross(wind, KiteEdge(m, q))));
    var w := m.length(wind);
    var d := Abs(Dot(KiteNormal(m, q), wind));
    NonNegativeProduct(w, d);
    var k := w * d * LiftCoefficient;
    assert WindForces(m, q, position, wind)[0].force == LiftForce(m, q, wind);
    assert LiftDirection(m, q, wind) == Normalize(m, axis);
    ScaledNormalLength(m, axis, k);
  }

  lemma ScaledCrossSelf(w: Vec3, k: real)
    ensures Cross(Scale(w, k), w) == Zero
  {
    assert w.y * k * w.z == w.z * k * w.y;
    assert w.z * k * w.x == w.x * k * w.z;
    assert w.x * k * w.y == w.y * k * w.x;
  }

  lemma CrossIsPerpendicular(a: Vec3, b: Vec3)
    ensures Dot(a, Cross(a, b)) == 0.0
  {
  }

  lemma DotScale(a: Vec3, b: Vec3, k: real)
    ensures Dot(a, Scale(b, k)) == Dot(a, b) * k
  {
  }

  /** Point i of the tail line as `createKiteTail` lays it out. */
  function InitialTailPoint(i: int): Vec3 {
    var t := (i as real) / ((TailSegments - 1) as real);
    Vec3(0.0, -KiteSize - t * TailLength, 0.0)
  }

  function InitialTail(): (r: seq<Vec3>)
    ensures |r| == TailSegments
  {
    seq(TailSegments, i => InitialTailPoint(i))
  }

  /** The initial tail hangs straight down the local y axis from -2 to -12, each point
      below the previous one. */
  lemma InitialTailHangsDown()
    ensures InitialTail()[0] == Vec3(0.0, -2.0, 0.0)
    ensures InitialTail()[TailSegments - 1] == Vec3(0.0, -12.0, 0.0)
    ensures forall i :: 0 <= i < TailSegments ==>
      InitialTail()[i].x == 0.0 && InitialTail()[i].z == 0.0 && -12.0 <= InitialTail()[i].y <= -2.0
    ensures forall i, j :: 0 <= i < j < TailSegments ==> InitialTail()[j].y < InitialTail()[i].y
  {
  }

  /** Where the tail attaches: the kite position plus the rotated (0, -2, 0). */
  function TailStart(m: MathLib, position: Vec3, q: Quat): Vec3 {
    Add(position, m.rotate(q, Vec3(0.0, -KiteSize, 0.0)))
  }

  /** The point t·10 along the rotated -y axis from the tail start, before the wave. */
  function TailAxisPoint(m: MathLib, position: Vec3, q: Quat, i: nat): Vec3 {
    var t := (i as real) / ((TailSegments - 1) as real);
    Add(TailStart(m, position, q), Scale(m.rotate(q, Vec3(0.0, -1.0, 0.0)), t * TailLength))
  }

  /** The sideways wave offset `v * 0.5 * t` of a tail point at parameter t. */
  function WaveOffset(v: real, t: real): real {
    v * (0.5 * t)
  }

  lemma WaveOffsetBounded(v: real, t: real)
    requires -1.0 <= v <= 1.0 && 0.0 <= t
    ensures Abs(WaveOffset(v, t)) <= 0.5 * t
  {
    var k := 0.5 * t;
    ScaledUnitBounded(v, k);
    var w := v * k;
    assert -k <= w <= k;
    assert WaveOffset(v, t) == w;
  }

  /** Tail point i of `updateKiteTail` at time `time` (seconds). */
  function TailPoint(m: MathLib, position: Vec3, q: Quat, time: real, i: nat): Vec3 {
    var t := (i as real) / ((TailSegments - 1) as real);
    var p := TailAxisPoint(m, position, q, i);
    Vec3(p.x + WaveOffset(m.sin(time * 3.0 + t * 10.0), t), p.y,
         p.z + WaveOffset(m.cos(time * 2.0 + t * 8.0), t))
  }

  /** Tail point 0 carries no wave and sits exactly at the tail start. */
  lemma TailBeginsAtKiteBottom(m: MathLib, position: Vec3, q: Quat, time: real)
    ensures TailPoint(m, position, q, time, 0) == TailStart(m, position, q)
  {
    var d := m.rotate(q, Vec3(0.0, -1.0, 0.0));
    assert Scale(d, 0.0 * TailLength) == Zero;
  }

  /** Every tail point keeps the axis point's y, and its wave moves x and z by at most
      0.5·t, where t = i/14. */
  lemma TailWaveIsBounded(m: MathLib, position: Vec3, q: Quat, time: real, i: nat)
    requires Lawful(m) && i < TailSegments
    ensures var p := TailPoint(m, position, q, time, i);
            var a := TailAxisPoint(m, position, q, i);
            var t := (i as real) / 14.0;
            p.y == a.y && Abs(p.x - a.x) <= 0.5 * t && Abs(p.z - a.z) <= 0.5 * t
  {
    var t := (i as real) / 14.0;
    WaveOffsetBounded(m.sin(time * 3.0 + t * 10.0), t);
    WaveOffsetBounded(m.cos(time * 2.0 + t * 8.0), t);
  }

  class Kite {
    const body: Body
    var meshPosition: Vec3
    var meshQuaternion: Quat
    /** `kite.tailPositions`, rewritten in place every tick. */
    const tailPositions: array<Vec3>
    /** The points last given to the tail line's geometry. */
    var tailGeometry: seq<Vec3>

    ghost predicate Valid()
      reads this
    {
      tailPositions.Length == TailSegments
    }

    /** `createKite(position)`, with `createKiteBody` and `createKiteTail`. */
    constructor (position: Vec3)
      ensures Valid() && fresh(body) && fresh(tailPositions)
      ensures body.position == position && body.mass == KiteMass
      ensures body.linearDamping == KiteLinearDamping && body.angularDamping == KiteAngularDamping
      ensures body.applied == []
      ensures meshPosition == Zero && meshQuaternion == Quat(0.0, 0.0, 0.0, 1.0)
      ensures tailPositions[..] == seq(TailSegments, _ => Zero)
      ensures tailGeometry == InitialTail()
    {
      body := new Body(position, KiteMass, KiteLinearDamping, KiteAngularDamping);
      meshPosition := Zero;
      meshQuaternion := Quat(0.0, 0.0, 0.0, 1.0);
      tailPositions := new Vec3[TailSegments](_ => Zero);
      tailGeometry := InitialTail();
    }

    /** `applyWindForce(kite, wind)`. */
    method ApplyWindForce(m: MathLib, wind: Vec3)
      modifies body`applied
      ensures body.applied == old(body.applied) + WindForces(m, body.quaternion, body.position, wind)
    {
      var dot := Dot(KiteNormal(m, body.quaternion), wind);
      if dot < 0.0 {
        body.ApplyForce(LiftForce(m, body.quaternion, wind), body.position);
        body.ApplyForce(DragForce(m, body.quaternion, wind), body.position);
        assert body.applied == old(body.applied)
          + [ForceCall(LiftForce(m, body.quaternion, wind), body.position),
             ForceCall(DragForce(m, body.quaternion, wind), body.position)];
      }
    }

    /** `updateKiteTail(kite, dt)`: `nowMs` is the page clock, `performance.now()`. */
    method UpdateKiteTail(m: MathLib, nowMs: real)
      requires Valid()
      modifies tailPositions, this`tailGeometry
      ensures Valid()
      ensures forall i :: 0 <= i < TailSegments ==>
        tailPositions[i] == TailPoint(m, meshPosition, meshQuaternion, nowMs * 0.001, i)
      ensures tailGeometry == tailPositions[..]
    {
      var time := nowMs * 0.001;
      var positions: seq<Vec3> := [];
      var i := 0;
      while i < TailSegments
        invariant 0 <= i <= TailSegments
        invariant |positions| == i
        invariant forall k :: 0 <= k < i ==>
          tailPositions[k] == TailPoint(m, meshPosition, meshQuaternion, time, k) && positions[k] == tailPositions[k]
      {
        var p := TailPoint(m, meshPosition, meshQuaternion, time, i);
        positions := positions + [p];
        tailPositions[i] := p;
        i := i + 1;
      }
      tailGeometry := positions;
    }

    /** `updateKite(kite, dt)`: the mesh copies the body, then the tail follows. */
    method UpdateKite(m: MathLib, nowMs: real)
      requires Valid()
      modifies this`meshPosition, this`meshQuaternion, tailPositions, this`tailGeometry
      ensures Valid()
      ensures meshPosition == body.position && meshQuaternion == body.quaternion
      ensures forall i :: 0 <= i < TailSegments ==>
        tailPositions[i] == TailPoint(m, body.position, body.quaternion, nowMs * 0.001, i)
      ensures tailGeometry == tailPositions[..]
    {
      meshPosition := body.position;
      meshQuaternion := body.quaternion;
      UpdateKiteTail(m, nowMs);
    }
  }
}
