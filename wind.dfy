/** The procedural wind: a base vector, noise-like variations of it, gusts that ramp in and
    out, and a current wind that moves 10% of the way towards the target on every update. */
module Wind {
  import opened Vectors

  const BaseWindStrength: real := 5.0
  const WindVariationSpeed: real := 0.5
  const GustProbability: real := 0.005
  const GustDurationMin: real := 1.0
  const GustDurationMax: real := 3.0
  const GustStrengthMin: real := 2.0
  const GustStrengthMax: real := 8.0
  const GustTransitionIn: real := 0.5
  const GustTransitionOut: real := 0.8
  const LerpFactor: real := 0.1

  // ---------------------------------------------------------------------------------------
  // Gust factor and target

  /** The ramp `updateWindTarget` applies to an active gust: rising over the first
      `GustTransitionIn` seconds, falling over the last `GustTransitionOut`, 1 in between. */
  function GustFactor(duration: real, timeRemaining: real): real {
    if timeRemaining > duration - GustTransitionIn then
      Min(1.0, (duration - timeRemaining) / GustTransitionIn)
    else if timeRemaining < GustTransitionOut then
      timeRemaining / GustTransitionOut
    else
      1.0
  }

  /** While a gust runs (0 < timeRemaining <= duration), the factor lies in [0, 1]. */
  lemma GustFactorInUnitRange(duration: real, timeRemaining: real)
    requires 0.0 < timeRemaining <= duration
    ensures 0.0 <= GustFactor(duration, timeRemaining) <= 1.0
  {
    if timeRemaining > duration - GustTransitionIn {
      var p := (duration - timeRemaining) / GustTransitionIn;
      assert p >= 0.0 by {
        assert duration - timeRemaining >= 0.0;
      }
    } else if timeRemaining < GustTransitionOut {
      var p := timeRemaining / GustTransitionOut;
      assert p <= 1.0 by {
        assert timeRemaining <= GustTransitionOut;
      }
    }
  }

  /** A gust that has just started contributes nothing; one between the two ramps
      contributes fully; in the last `GustTransitionOut` seconds the factor falls linearly. */
  lemma GustFactorEnds(duration: real, timeRemaining: real)
    ensures GustFactor(duration, duration) == 0.0
    ensures GustTransitionOut <= timeRemaining <= duration - GustTransitionIn ==>
      GustFactor(duration, timeRemaining) == 1.0
    ensures timeRemaining <= duration - GustTransitionIn && timeRemaining < GustTransitionOut ==>
      GustFactor(duration, timeRemaining) == timeRemaining / GustTransitionOut
  {
  }

  function BaseVector(direction: Vec3, strength: real): Vec3 {
    Scale(direction, strength)
  }

  /** The target `updateWindTarget` computes: the base vector, plus the gust scaled by its
      strength and factor while a gust is active. */
  function WindTarget(baseDirection: Vec3, baseStrength: real, gustActive: bool, gustDirection: Vec3,
                      gustStrength: real, gustDuration: real, gustTimeRemaining: real): Vec3
  {
    var b := BaseVector(baseDirection, baseStrength);
    if gustActive then
      var f := GustFactor(gustDuration, gustTimeRemaining);
      Vec3(b.x + gustDirection.x * gustStrength * f,
           b.y + gustDirection.y * gustStrength * f,
           b.z + gustDirection.z * gustStrength * f)
    else
      b
  }

  /** With no gust, and at the very start of one, the target is exactly the base vector. */
  lemma TargetIsBaseWithoutGust(baseDirection: Vec3, baseStrength: real, gustActive: bool,
                                gustDirection: Vec3, gustStrength: real, gustDuration: real,
                                gustTimeRemaining: real)
    requires !gustActive || gustTimeRemaining == gustDuration
    ensures WindTarget(baseDirection, baseStrength, gustActive, gustDirection, gustStrength,
                       gustDuration, gustTimeRemaining) == BaseVector(baseDirection, baseStrength)
  {
    if gustActive {
      GustFactorEnds(gustDuration, gustTimeRemaining);
    }
  }

  // ---------------------------------------------------------------------------------------
  // Variations

  /** The sine-product offsets of `updateWindVariations`, before scaling by difficulty. */
  function Variation(m: MathLib, time: real, offsetX: real, offsetY: real, offsetZ: real): Vec3 {
    Vec3(m.sin(time * 0.3 + offsetX) * m.cos(time * 0.7 + offsetY) * 0.5,
         m.sin(time * 0.4 + offsetY) * m.cos(time * 0.6 + offsetZ) * 0.3,
         m.sin(time * 0.5 + offsetZ) * m.cos(time * 0.5 + offsetX) * 0.4)
  }

  function VariationStrength(difficulty: real): real {
    1.0 + difficulty * 0.5
  }

  /** The target `updateWindVariations` writes when no gust is active. */
  function VariedTarget(m: MathLib, baseDirection: Vec3, baseStrength: real, time: real,
                        offsetX: real, offsetY: real, offsetZ: real, difficulty: real): Vec3
  {
    var v := Variation(m, time, offsetX, offsetY, offsetZ);
    var s := VariationStrength(difficulty);
    var b := BaseVector(baseDirection, baseStrength);
    Vec3(b.x + v.x * s, b.y + v.y * s, b.z + v.z * s)
  }

  /** One axis of the variation: an offset (sin * cos * amplitude) * strength is at most
      amplitude * strength in size. */
  lemma AxisVariationBounded(offset: real, sn: real, cs: real, amplitude: real, strength: real)
    requires -1.0 <= sn <= 1.0 && -1.0 <= cs <= 1.0 && amplitude >= 0.0 && strength >= 0.0
    requires offset == (sn * cs * amplitude) * strength
    ensures Abs(offset) <= amplitude * strength
  {
    var k := amplitude * strength;
    NonNegativeProduct(amplitude, strength);
    ProductOfUnitsBounded(sn, cs);
    ScaledUnitBounded(sn * cs, k);
    assert offset == (sn * cs) * k;
  }

  /** The offsets of the varied target from the base vector, axis by axis. */
  lemma VariedTargetOffsets(m: MathLib, baseDirection: Vec3, baseStrength: real, time: real,
                            offsetX: real, offsetY: real, offsetZ: real, difficulty: real)
    ensures var t := VariedTarget(m, baseDirection, baseStrength, time, offsetX, offsetY, offsetZ, difficulty);
      var b := BaseVector(baseDirection, baseStrength);
      var s := VariationStrength(difficulty);
      && t.x - b.x == (m.sin(time * 0.3 + offsetX) * m.cos(time * 0.7 + offsetY) * 0.5) * s
      && t.y - b.y == (m.sin(time * 0.4 + offsetY) * m.cos(time * 0.6 + offsetZ) * 0.3) * s
      && t.z - b.z == (m.sin(time * 0.5 + offsetZ) * m.cos(time * 0.5 + offsetX) * 0.4) * s
  {
  }

  /** The varied target stays within 0.5, 0.3 and 0.4 times (1 + 0.5 difficulty) of the base
      vector on the x, y and z axes. */
  lemma VariationBounded(m: MathLib, baseDirection: Vec3, baseStrength: real, time: real,
                         offsetX: real, offsetY: real, offsetZ: real, difficulty: real)
    requires Lawful(m) && difficulty >= 0.0
    ensures var t := VariedTarget(m, baseDirection, baseStrength, time, offsetX, offsetY, offsetZ, difficulty);
      var b := BaseVector(baseDirection, baseStrength);
      var s := VariationStrength(difficulty);
      && Abs(t.x - b.x) <= 0.5 * s
      && Abs(t.y - b.y) <= 0.3 * s
      && Abs(t.z - b.z) <= 0.4 * s
  {
    var s := VariationStrength(difficulty);
    var b := BaseVector(baseDirection, baseStrength);
    var t := VariedTarget(m, baseDirection, baseStrength, time, offsetX, offsetY, offsetZ, difficulty);
    VariedTargetOffsets(m, baseDirection, baseStrength, time, offsetX, offsetY, offsetZ, difficulty);
    AxisVariationBounded(t.x - b.x, m.sin(time * 0.3 + offsetX), m.cos(time * 0.7 + offsetY), 0.5, s);
    AxisVariationBounded(t.y - b.y, m.sin(time * 0.4 + offsetY), m.cos(time * 0.6 + offsetZ), 0.3, s);
    AxisVariationBounded(t.z - b.z, m.sin(time * 0.5 + offsetZ), m.cos(time * 0.5 + offsetX), 0.4, s);
  }

  // ---------------------------------------------------------------------------------------
  // Smoothing

  /** One component of the smoothing step of `updateWind`. */
  function SmoothStep(current: real, target: real): real {
    current + (target - current) * LerpFactor
  }

  function SmoothVec(current: Vec3, target: Vec3): Vec3 {
    Vec3(SmoothStep(current.x, target.x), SmoothStep(current.y, target.y), SmoothStep(current.z, target.z))
  }

  /** A step closes 10% of the gap to the target, so it never overshoots, and a current that
      equals the target stays put. */
  lemma SmoothStepClosesGap(current: real, target: real)
    ensures target - SmoothStep(current, target) == 0.9 * (target - current)
    ensures Min(current, target) <= SmoothStep(current, target) <= Max(current, target)
    ensures current == target ==> SmoothStep(current, target) == current
  {
  }

  function Pow(b: real, n: nat): real {
    if n == 0 then 1.0 else b * Pow(b, n - 1)
  }

  /** n steps towards a fixed target. */
  function SmoothSteps(current: real, target: real, n: nat): real
    decreases n
  {
    if n == 0 then current else SmoothSteps(SmoothStep(current, target), target, n - 1)
  }

  /** After n steps towards a fixed target the gap is 0.9^n of the original one. */
  lemma {:induction false} SmoothStepsGap(current: real, target: real, n: nat)
    ensures target - SmoothSteps(current, target, n) == Pow(0.9, n) * (target - current)
    decreases n
  {
    if n > 0 {
      var next := SmoothStep(current, target);
      SmoothStepsGap(next, target, n - 1);
      SmoothStepClosesGap(current, target);
      ScaleTwice(Pow(0.9, n - 1), 0.9, target - current);
    }
  }

  lemma ScaleTwice(p: real, f: real, g: real)
    ensures p * (f * g) == (f * p) * g
  {
  }

  lemma {:induction false} PowInUnitRange(b: real, n: nat)
    requires 0.0 <= b <= 1.0
    ensures 0.0 <= Pow(b, n) <= 1.0
    decreases n
  {
    if n > 0 {
      var p := Pow(b, n - 1);
      PowInUnitRange(b, n - 1);
      NonNegativeProduct(b, p);
      ScaledUnitBounded(b, p);
      assert Pow(b, n) == b * p;
    }
  }

  /** A value whose gap to t is a fraction p in [0, 1] of c's gap lies between c and t. */
  lemma BetweenByFraction(c: real, t: real, p: real, r: real)
    requires 0.0 <= p <= 1.0 && t - r == p * (t - c)
    ensures c <= t ==> c <= r <= t
    ensures t <= c ==> t <= r <= c
  {
    var g := t - c;
    assert t - r == p * g;
    if g >= 0.0 {
      ScaledUnitBounded(p, g);
      assert 0.0 <= p * g <= g;
    } else {
      ScaledUnitBounded(p, -g);
      assert p * -g == -(p * g);
      assert 0.0 <= -(p * g) <= -g;
      assert r == t - p * g;
    }
  }

  /** Towards a fixed target, the current wind approaches monotonically and never passes it. */
  lemma SmoothStepsNeverOvershoot(current: real, target: real, n: nat)
    ensures current <= target ==> current <= SmoothSteps(current, target, n) <= target
    ensures target <= current ==> target <= SmoothSteps(current, target, n) <= current
  {
    SmoothStepsGap(current, target, n);
    PowInUnitRange(0.9, n);
    BetweenByFraction(current, target, Pow(0.9, n), SmoothSteps(current, target, n));
  }

  // ---------------------------------------------------------------------------------------
  // Gusts

  /** The `Math.random()` draws one gust update may consume, in the order the source draws them:
      the start test, then duration, strength and three direction jitters. */
  datatype GustDraws = GustDraws(trigger: real, duration: real, strength: real, dx: real, dy: real, dz: real)

  /** Each draw in [0, 1), as `Math.random()` returns. */
  predicate DrawsInRange(d: GustDraws) {
    && 0.0 <= d.trigger < 1.0 && 0.0 <= d.duration < 1.0 && 0.0 <= d.strength < 1.0
    && 0.0 <= d.dx < 1.0 && 0.0 <= d.dy < 1.0 && 0.0 <= d.dz < 1.0
  }

  function GustDuration(draw: real): real {
    GustDurationMin + draw * (GustDurationMax - GustDurationMin)
  }

  function GustStrength(difficulty: real, draw: real): real {
    var lo := GustStrengthMin * (1.0 + difficulty * 0.5);
    var hi := GustStrengthMax * (1.0 + difficulty * 0.5);
    lo + draw * (hi - lo)
  }

  /** The gust direction: the base direction jittered by up to 0.3 + 0.2 difficulty per axis,
      normalised. */
  function GustDirection(m: MathLib, baseDirection: Vec3, difficulty: real, draws: GustDraws): Vec3 {
    var variation := 0.3 + difficulty * 0.2;
    Normalize(m, Vec3(baseDirection.x + (draws.dx * 2.0 - 1.0) * variation,
                      baseDirection.y + (draws.dy * 2.0 - 1.0) * variation,
                      baseDirection.z + (draws.dz * 2.0 - 1.0) * variation))
  }

  /** Whether an idle gust starts on this update. */
  predicate GustStarts(difficulty: real, draw: real) {
    draw < GustProbability * (1.0 + difficulty)
  }

  /** With draws in [0, 1), a new gust lasts between 1 and 3 seconds and has a strength between
      2 and 8 times (1 + 0.5 difficulty). */
  lemma GustDrawBounds(difficulty: real, draws: GustDraws)
    requires DrawsInRange(draws) && difficulty >= 0.0
    ensures GustDurationMin <= GustDuration(draws.duration) < GustDurationMax
    ensures var k := 1.0 + difficulty * 0.5;
      GustStrengthMin * k <= GustStrength(difficulty, draws.strength) <= GustStrengthMax * k
  {
    var k := 1.0 + difficulty * 0.5;
    var w := GustStrengthMax * k - GustStrengthMin * k;
    assert w >= 0.0;
    NonNegativeProduct(draws.strength, w);
    ScaledUnitBounded(draws.strength, w);
    assert GustStrength(difficulty, draws.strength) == GustStrengthMin * k + draws.strength * w;
  }

  // ---------------------------------------------------------------------------------------
  // The wind state

  class WindSystem {
    var current: Vec3
    var target: Vec3
    var baseStrength: real
    var baseDirection: Vec3
    var variationTime: real
    const noiseOffsetX: real
    const noiseOffsetY: real
    const noiseOffsetZ: real
    var gustActive: bool
    var gustStrength: real
    var gustDirection: Vec3
    var gustTimeRemaining: real
    /** Unset until the first gust starts; it is read only while a gust is active. */
    var gustDuration: real
    var difficulty: real

    /** The gust target of the current state. */
    function CurrentTarget(): Vec3
      reads this
    {
      WindTarget(baseDirection, baseStrength, gustActive, gustDirection, gustStrength,
                 gustDuration, gustTimeRemaining)
    }

    /** The initial `windSystem`; the noise offsets are three `Math.random()` draws times 1000. */
    constructor (drawX: real, drawY: real, drawZ: real)
      ensures current == Vec3(0.0, 0.0, -BaseWindStrength) && target == current
      ensures baseStrength == BaseWindStrength && baseDirection == Vec3(0.0, 0.0, -1.0)
      ensures variationTime == 0.0
      ensures noiseOffsetX == drawX * 1000.0 && noiseOffsetY == drawY * 1000.0 && noiseOffsetZ == drawZ * 1000.0
      ensures !gustActive && gustStrength == 0.0 && gustDirection == Zero && gustTimeRemaining == 0.0
      ensures difficulty == 0.0
    {
      current := Vec3(0.0, 0.0, -BaseWindStrength);
      target := Vec3(0.0, 0.0, -BaseWindStrength);
      baseStrength := BaseWindStrength;
      baseDirection := Vec3(0.0, 0.0, -1.0);
      variationTime := 0.0;
      noiseOffsetX, noiseOffsetY, noiseOffsetZ := drawX * 1000.0, drawY * 1000.0, drawZ * 1000.0;
      gustActive := false;
      gustStrength := 0.0;
      gustDirection := Zero;
      gustTimeRemaining := 0.0;
      gustDuration := 0.0;
      difficulty := 0.0;
    }

    /** `updateWindTarget`. */
    method UpdateWindTarget()
      modifies this`target
      ensures target == CurrentTarget()
    {
      var b := Vec3(baseDirection.x * baseStrength, baseDirection.y * baseStrength, baseDirection.z * baseStrength);
      if gustActive {
        var gustFactor := 1.0;
        if gustTimeRemaining > gustDuration - GustTransitionIn {
          var progress := (gustDuration - gustTimeRemaining) / GustTransitionIn;
          gustFactor := Min(1.0, progress);
        } else if gustTimeRemaining < GustTransitionOut {
          gustFactor := gustTimeRemaining / GustTransitionOut;
        }
        b := Vec3(b.x + gustDirection.x * gustStrength * gustFactor,
                  b.y + gustDirection.y * gustStrength * gustFactor,
                  b.z + gustDirection.z * gustStrength * gustFactor);
      }
      target := b;
    }

    /** `updateWindVariations`: the varied base vector becomes the target unless a gust is active. */
    method UpdateWindVariations(m: MathLib)
      modifies this`target
      ensures gustActive ==> target == old(target)
      ensures !gustActive ==> target == VariedTarget(m, baseDirection, baseStrength, variationTime,
                                                      noiseOffsetX, noiseOffsetY, noiseOffsetZ, difficulty)
    {
      var v := Variation(m, variationTime, noiseOffsetX, noiseOffsetY, noiseOffsetZ);
      var s := 1.0 + difficulty * 0.5;
      var b := Vec3(baseDirection.x * baseStrength + v.x * s,
                    baseDirection.y * baseStrength + v.y * s,
                    baseDirection.z * baseStrength + v.z * s);
      if !gustActive {
        target := b;
      }
    }

    /** `startNewGust`. */
    method StartNewGust(m: MathLib, difficulty: real, draws: GustDraws)
      modifies this`gustActive, this`gustDuration, this`gustTimeRemaining, this`gustStrength,
               this`gustDirection, this`target
      ensures gustActive && gustDuration == GustDuration(draws.duration)
      ensures gustTimeRemaining == gustDuration
      ensures gustStrength == GustStrength(difficulty, draws.strength)
      ensures gustDirection == GustDirection(m, baseDirection, difficulty, draws)
      ensures target == CurrentTarget() && target == BaseVector(baseDirection, baseStrength)
    {
      gustActive := true;
      gustDuration := GustDurationMin + draws.duration * (GustDurationMax - GustDurationMin);
      gustTimeRemaining := gustDuration;
      var minStrength := GustStrengthMin * (1.0 + difficulty * 0.5);
      var maxStrength := GustStrengthMax * (1.0 + difficulty * 0.5);
      gustStrength := minStrength + draws.strength * (maxStrength - minStrength);
      gustDirection := GustDirection(m, baseDirection, difficulty, draws);
      UpdateWindTarget();
      TargetIsBaseWithoutGust(baseDirection, baseStrength, gustActive, gustDirection, gustStrength,
                              gustDuration, gustTimeRemaining);
    }

    /** `updateWindGusts`: an active gust counts down and ends once its time is up; an idle one
        may start. */
    method UpdateWindGusts(m: MathLib, deltaTime: real, difficulty: real, draws: GustDraws)
      modifies this`gustActive, this`gustDuration, this`gustTimeRemaining, this`gustStrength,
               this`gustDirection, this`target
      ensures old(gustActive) ==>
        && gustTimeRemaining == old(gustTimeRemaining) - deltaTime
        && (gustActive <==> gustTimeRemaining > 0.0)
        && gustDuration == old(gustDuration) && gustStrength == old(gustStrength)
        && gustDirection == old(gustDirection)
        && target == CurrentTarget()
      ensures !old(gustActive) && !GustStarts(difficulty, draws.trigger) ==>
        && !gustActive && gustTimeRemaining == old(gustTimeRemaining)
        && gustDuration == old(gustDuration) && gustStrength == old(gustStrength)
        && gustDirection == old(gustDirection) && target == old(target)
      ensures !old(gustActive) && GustStarts(difficulty, draws.trigger) ==>
        && gustActive && gustDuration == GustDuration(draws.duration)
        && gustTimeRemaining == gustDuration
        && gustStrength == GustStrength(difficulty, draws.strength)
        && gustDirection == GustDirection(m, baseDirection, difficulty, draws)
        && target == BaseVector(baseDirection, baseStrength)
    {
      if gustActive {
        gustTimeRemaining := gustTimeRemaining - deltaTime;
        if gustTimeRemaining <= 0.0 {
          gustActive := false;
          UpdateWindTarget();
        } else {
          UpdateWindTarget();
        }
      } else {
        var gustProbability := GustProbability * (1.0 + difficulty);
        if draws.trigger < gustProbability {
          StartNewGust(m, difficulty, draws);
        }
      }
    }

    /** `updateWind`: advance the variation clock, store the difficulty, vary the target,
        update gusts, then move the current wind 10% of the way towards the target. */
    method UpdateWind(m: MathLib, deltaTime: real, gameTime: real, difficulty: real, draws: GustDraws)
      modifies this`variationTime, this`difficulty, this`target, this`current, this`gustActive,
               this`gustDuration, this`gustTimeRemaining, this`gustStrength, this`gustDirection
      ensures variationTime == old(variationTime) + deltaTime * WindVariationSpeed
      ensures this.difficulty == difficulty
      ensures current == SmoothVec(old(current), target)
      ensures baseDirection == old(baseDirection) && baseStrength == old(baseStrength)
      ensures old(gustActive) ==>
        && gustTimeRemaining == old(gustTimeRemaining) - deltaTime
        && (gustActive <==> gustTimeRemaining > 0.0)
        && gustDuration == old(gustDuration) && gustStrength == old(gustStrength)
        && gustDirection == old(gustDirection)
        && target == CurrentTarget()
      ensures !old(gustActive) && !GustStarts(difficulty, draws.trigger) ==>
        && !gustActive && gustTimeRemaining == old(gustTimeRemaining)
        && gustDuration == old(gustDuration) && gustStrength == old(gustStrength)
        && gustDirection == old(gustDirection)
        && target == VariedTarget(m, baseDirection, baseStrength, variationTime,
                                  noiseOffsetX, noiseOffsetY, noiseOffsetZ, difficulty)
      ensures !old(gustActive) && GustStarts(difficulty, draws.trigger) ==>
        && gustActive && gustDuration == GustDuration(draws.duration)
        && gustTimeRemaining == gustDuration
        && gustStrength == GustStrength(difficulty, draws.strength)
        && gustDirection == GustDirection(m, baseDirection, difficulty, draws)
        && target == BaseVector(baseDirection, baseStrength)
    {
      variationTime := variationTime + deltaTime * WindVariationSpeed;
      this.difficulty := difficulty;
      UpdateWindVariations(m);
      UpdateWindGusts(m, deltaTime, difficulty, draws);
      current := Vec3(current.x + (target.x - current.x) * LerpFactor,
                      current.y + (target.y - current.y) * LerpFactor,
                      current.z + (target.z - current.z) * LerpFactor);
    }

    /** `getCurrentWind`: a copy of the current wind. */
    method GetCurrentWind() returns (wind: Vec3)
      ensures wind == current
    {
      wind := Vec3(current.x, current.y, current.z);
    }
  }
}
