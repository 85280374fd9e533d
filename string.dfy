/** The kite string: a length kept between two one-sided clamps, a tension made of a slack
    term and the player's tug, the tug force applied to the kite, damage requested above a
    threshold, and a 10-point sagging curve drawn from anchor to kite. */
module KiteString {
  import opened Vectors
  import opened Physics
  import opened Health

  const StringSegments: nat := 10
  const MaxStringLength: real := 30.0
  const MinStringLength: real := 5.0
  const BaseStringLength: real := 15.0
  const StringTensionThreshold: real := 20.0

  // ---------------------------------------------------------------------------------------
  // Length

  /** A request to change the string's length. */
  datatype LengthOp = Extend(amount: real) | Shorten(amount: real)

  /** The length `extendString` / `shortenString` store (and return). Each clamps one side only. */
  function StepLength(length: real, op: LengthOp): real {
    match op
    case Extend(a) => Min(MaxStringLength, length + a)
    case Shorten(a) => Max(MinStringLength, length - a)
  }

  /** Extending never goes above the maximum; shortening never goes below the minimum. */
  lemma StepLengthClamps(length: real, op: LengthOp)
    ensures op.Extend? ==> StepLength(length, op) <= MaxStringLength
    ensures op.Extend? && length + op.amount <= MaxStringLength ==> StepLength(length, op) == length + op.amount
    ensures op.Shorten? ==> StepLength(length, op) >= MinStringLength
    ensures op.Shorten? && length - op.amount >= MinStringLength ==> StepLength(length, op) == length - op.amount
  {
  }

  function RunLength(length: real, ops: seq<LengthOp>): real
    decreases |ops|
  {
    if ops == [] then length else RunLength(StepLength(length, ops[0]), ops[1..])
  }

  /** Starting in [5, 30], a sequence of extensions and shortenings by non-negative amounts
      stays in [5, 30]. */
  lemma {:induction false} LengthStaysInRange(length: real, ops: seq<LengthOp>)
    requires MinStringLength <= length <= MaxStringLength
    requires forall i :: 0 <= i < |ops| ==> ops[i].amount >= 0.0
    ensures MinStringLength <= RunLength(length, ops) <= MaxStringLength
    decreases |ops|
  {
    if ops != [] {
      var next := StepLength(length, ops[0]);
      assert MinStringLength <= next <= MaxStringLength;
      LengthStaysInRange(next, ops[1..]);
    }
  }

  /** Negative amounts escape the range: extend has no lower clamp, shorten no upper one. */
  lemma NegativeAmountsEscape()
    ensures StepLength(MinStringLength, Extend(-1.0)) < MinStringLength
    ensures StepLength(MaxStringLength, Shorten(-1.0)) > MaxStringLength
  {
  }

  // ---------------------------------------------------------------------------------------
  // Tension and damage

  /** `calculateStringTension`: 10 per unit stretched beyond the string length, plus the tug magnitude. */
  function Tension(distance: real, length: real, tugMagnitude: real): real {
    Max(0.0, (distance - length) * 10.0) + tugMagnitude
  }

  /** Tension is non-negative; it is the tug alone while the string is slack and grows by 10
      per unit of stretch otherwise. */
  lemma TensionCases(distance: real, length: real, tugMagnitude: real)
    requires tugMagnitude >= 0.0
    ensures Tension(distance, length, tugMagnitude) >= 0.0
    ensures distance <= length ==> Tension(distance, length, tugMagnitude) == tugMagnitude
    ensures distance > length ==>
      Tension(distance, length, tugMagnitude) == (distance - length) * 10.0 + tugMagnitude
  {
  }

  /** The `damageString` request `updateString` makes for a tension, if any. */
  function DamageRequest(tension: real): (r: Option<real>)
    ensures r.Some? <==> tension > StringTensionThreshold
    ensures r.Some? ==> r.value > 0.0 && tension == StringTensionThreshold + r.value * 10.0
  {
    if tension > StringTensionThreshold then Some((tension - StringTensionThreshold) * 0.1) else None
  }

  // ---------------------------------------------------------------------------------------
  // Tug force

  /** The `applyForce` calls `applyTugForce` makes: none without a tug, otherwise one force of
      the tug's magnitude along `anchor - kite`, at the kite's position. */
  function TugForceCalls(m: MathLib, anchor: Vec3, kite: Vec3, tug: Vec3): (r: seq<ForceCall>)
    ensures r == [] <==> !(m.length(tug) > 0.0)
    ensures |r| <= 1
  {
    if m.length(tug) > 0.0 then
      [ForceCall(Scale(Normalize(m, Sub(anchor, kite)), m.length(tug)), kite)]
    else
      []
  }

  /** The tug pulls the kite towards the anchor (not away from it), with exactly the tug's
      magnitude, and acts at the kite's position. */
  lemma TugPullsTowardAnchor(m: MathLib, anchor: Vec3, kite: Vec3, tug: Vec3)
    requires Lawful(m)
    requires m.length(tug) > 0.0 && m.length(Sub(anchor, kite)) > 0.0
    ensures |TugForceCalls(m, anchor, kite, tug)| == 1
    ensures TugForceCalls(m, anchor, kite, tug)[0].point == kite
    ensures TugForceCalls(m, anchor, kite, tug)[0].force
      == Scale(Sub(anchor, kite), m.length(tug) / m.length(Sub(anchor, kite)))
    ensures m.length(TugForceCalls(m, anchor, kite, tug)[0].force) == m.length(tug)
  {
    var d := Sub(anchor, kite);
    var n := m.length(d);
    var g := m.length(tug);
    var u := Scale(d, 1.0 / n);
    assert Normalize(m, d) == u;
    var f := Scale(u, g);
    assert f == Scale(d, g / n) by {
      assert f.x == d.x * (1.0 / n) * g;
      assert f.y == d.y * (1.0 / n) * g;
      assert f.z == d.z * (1.0 / n) * g;
    }
    assert m.length(u) == 1.0 by {
      assert m.length(u) == Abs(1.0 / n) * n;
    }
    assert m.length(f) == Abs(g) * m.length(u);
  }

  // ---------------------------------------------------------------------------------------
  // Sample curve

  /** The point a fraction t of the way from a to b. */
  function Lerp(a: Vec3, b: Vec3, t: real): Vec3 {
    Vec3(a.x + t * (b.x - a.x), a.y + t * (b.y - a.y), a.z + t * (b.z - a.z))
  }

  /** The sag at the middle of the curve: 2 when slack, 0 once the tension reaches 5. */
  function Sag(tension: real): real {
    (1.0 - Min(1.0, tension / 5.0)) * 2.0
  }

  /** The curve parameter of sample i. */
  function SampleParam(i: int): real {
    i as real / (StringSegments - 1) as real
  }

  /** Sample i of `updateStringVisual`: the straight-line point, lowered by t(1 - t) times the sag. */
  function SamplePoint(anchor: Vec3, kite: Vec3, tension: real, i: int): Vec3 {
    var t := SampleParam(i);
    var p := Lerp(anchor, kite, t);
    Vec3(p.x, p.y - t * (1.0 - t) * Sag(tension), p.z)
  }

  /** The curve starts at the anchor and ends at the kite. */
  lemma SampleEndpoints(anchor: Vec3, kite: Vec3, tension: real)
    ensures SamplePoint(anchor, kite, tension, 0) == anchor
    ensures SamplePoint(anchor, kite, tension, StringSegments - 1) == kite
  {
  }

  lemma SagFactorNonNegative(t: real)
    requires 0.0 <= t <= 1.0
    ensures t * (1.0 - t) >= 0.0
  {
    NonNegativeProduct(t, 1.0 - t);
  }

  /** Every sample lies on or below the straight anchor-kite line, directly beneath its
      straight-line point. */
  lemma SampleHangsBelowLine(anchor: Vec3, kite: Vec3, tension: real, i: int)
    requires 0 <= i < StringSegments
    ensures SamplePoint(anchor, kite, tension, i).x == Lerp(anchor, kite, SampleParam(i)).x
    ensures SamplePoint(anchor, kite, tension, i).z == Lerp(anchor, kite, SampleParam(i)).z
    ensures SamplePoint(anchor, kite, tension, i).y <= Lerp(anchor, kite, SampleParam(i)).y
  {
    var t := SampleParam(i);
    var s := Sag(tension);
    SagFactorNonNegative(t);
    var f := t * (1.0 - t);
    assert s >= 0.0;
    assert f * s >= 0.0;
  }

  /** A string with tension >= 5 is drawn straight: every sample is on the segment. */
  lemma TautStringIsStraight(anchor: Vec3, kite: Vec3, tension: real, i: int)
    requires tension >= 5.0
    ensures SamplePoint(anchor, kite, tension, i) == Lerp(anchor, kite, SampleParam(i))
  {
    assert Sag(tension) == 0.0;
  }

  // ---------------------------------------------------------------------------------------
  // The string object

  class StringState {
    /** The position of the static anchor body. */
    const anchor: Vec3
    var length: real
    var tension: real
    var tugForce: Vec3
    /** The distance of the physics constraint between kite and anchor. */
    var constraintDistance: real
    /** The points of the drawn line. */
    const points: array<Vec3>

    ghost predicate Valid()
      reads this
    {
      points.Length == StringSegments
    }

    /** `createString`. */
    constructor (anchor: Vec3)
      ensures Valid() && fresh(points)
      ensures this.anchor == anchor && length == BaseStringLength && tension == 0.0
      ensures tugForce == Zero && constraintDistance == BaseStringLength
      ensures forall i :: 0 <= i < points.Length ==> points[i] == Zero
    {
      this.anchor := anchor;
      length := BaseStringLength;
      tension := 0.0;
      tugForce := Zero;
      constraintDistance := BaseStringLength;
      points := new Vec3[StringSegments](_ => Zero);
    }

    /** `extendString`. */
    method ExtendString(amount: real) returns (newLength: real)
      modifies this`length
      ensures length == StepLength(old(length), Extend(amount)) && newLength == length
      ensures length <= MaxStringLength
    {
      length := Min(MaxStringLength, length + amount);
      newLength := length;
    }

    /** `shortenString`. */
    method ShortenString(amount: real) returns (newLength: real)
      modifies this`length
      ensures length == StepLength(old(length), Shorten(amount)) && newLength == length
      ensures length >= MinStringLength
    {
      length := Max(MinStringLength, length - amount);
      newLength := length;
    }

    /** `setStringTugForce`. */
    method SetStringTugForce(tug: Vec3)
      modifies this`tugForce
      ensures tugForce == tug
    {
      tugForce := tug;
    }

    /** `updateConstraintLength`. */
    method UpdateConstraintLength()
      modifies this`constraintDistance
      ensures constraintDistance == length
    {
      if constraintDistance != length {
        constraintDistance := length;
      }
    }

    /** `applyTugForce`. */
    method ApplyTugForce(m: MathLib, kite: Body)
      modifies kite`applied
      ensures kite.applied == old(kite.applied) + TugForceCalls(m, anchor, kite.position, tugForce)
    {
      if m.length(tugForce) > 0.0 {
        var direction := Normalize(m, Sub(anchor, kite.position));
        kite.ApplyForce(Scale(direction, m.length(tugForce)), kite.position);
      }
    }

    /** The point loop of `updateStringVisual`, which writes `points` in place. */
    method UpdateStringVisual(kitePosition: Vec3)
      requires Valid()
      modifies points
      ensures forall i :: 0 <= i < points.Length ==>
        points[i] == SamplePoint(anchor, kitePosition, tension, i)
    {
      var i := 0;
      while i < StringSegments
        invariant 0 <= i <= StringSegments
        invariant forall j :: 0 <= j < i ==> points[j] == SamplePoint(anchor, kitePosition, tension, j)
      {
        var t := i as real / (StringSegments - 1) as real;
        var x := anchor.x + t * (kitePosition.x - anchor.x);
        var z := anchor.z + t * (kitePosition.z - anchor.z);
        var stringTightness := Min(1.0, tension / 5.0);
        var sag := (1.0 - stringTightness) * 2.0;
        var linearY := anchor.y + t * (kitePosition.y - anchor.y);
        var sagFactor := t * (1.0 - t);
        var y := linearY - sagFactor * sag;
        points[i] := Vec3(x, y, z);
        i := i + 1;
      }
    }

    /** `updateString`: constraint length, tension, tug force, drawing, then damage if the
        tension is above the threshold. */
    method UpdateString(m: MathLib, kite: Body, health: HealthBar)
      requires Valid()
      modifies this`constraintDistance, this`tension, points, kite`applied, health
      ensures constraintDistance == length
      ensures tension == Tension(Distance(m, kite.position, anchor), length, m.length(tugForce))
      ensures kite.applied == old(kite.applied) + TugForceCalls(m, anchor, kite.position, tugForce)
      ensures forall i :: 0 <= i < points.Length ==>
        points[i] == SamplePoint(anchor, kite.position, tension, i)
      ensures DamageRequest(tension).None? ==> unchanged(health)
      ensures DamageRequest(tension).Some? ==>
        && health.currentHealth == StepHealth(old(health.currentHealth), Damage(DamageRequest(tension).value))
        && health.band == BandOf(health.currentHealth)
        && (health.warningShown <==> health.currentHealth <= CriticalHealthThreshold)
        && health.gameOverCalls == old(health.gameOverCalls)
          + (if CallsGameOver(old(health.currentHealth), Damage(DamageRequest(tension).value)) then 1 else 0)
        && health.Valid()
    {
      UpdateConstraintLength();
      tension := Max(0.0, (Distance(m, kite.position, anchor) - length) * 10.0) + m.length(tugForce);
      ApplyTugForce(m, kite);
      UpdateStringVisual(kite.position);
      if tension > StringTensionThreshold {
        var damageAmount := (tension - StringTensionThreshold) * 0.1;
        var _ := health.DamageString(damageAmount);
      }
    }
  }
}
