/** String health: a value kept in [0, 100], damaged by string tension and repaired by
    sparks, with a low-health warning, a colour band and the game-over call. */
module Health {
  import opened Vectors

  const MaxHealth: real := 100.0
  const CriticalHealthThreshold: real := 30.0

  /** The three colour gradients of the health bar. */
  datatype HealthBand = Critical | Caution | Good

  /** `updateHealthColor` banding. */
  function BandOf(health: real): (b: HealthBand)
    ensures b == Critical <==> health <= 20.0
    ensures b == Caution <==> 20.0 < health <= 50.0
    ensures b == Good <==> 50.0 < health
  {
    if health <= 20.0 then Critical
    else if health <= 50.0 then Caution
    else Good
  }

  /** The bands are ordered: more health never gives a worse band. */
  lemma BandIsMonotone(h1: real, h2: real)
    requires h1 <= h2
    ensures BandOf(h1) == Good ==> BandOf(h2) == Good
    ensures BandOf(h2) == Critical ==> BandOf(h1) == Critical
  {
  }

  /** One call into the health module, as the rest of the game makes them. */
  datatype HealthOp = Update(health: real) | Damage(amount: real) | Repair(amount: real)

  /** The value `updateHealthBar` stores. */
  function ClampHealth(health: real): (r: real)
    ensures 0.0 <= r <= MaxHealth
    ensures 0.0 <= health <= MaxHealth ==> r == health
  {
    Max(0.0, Min(MaxHealth, health))
  }

  /** The value passed on to `updateHealthBar` (and returned) by each operation. */
  function Requested(current: real, op: HealthOp): real {
    match op
    case Update(h) => h
    case Damage(d) => Max(0.0, current - d)
    case Repair(a) => Min(MaxHealth, current + a)
  }

  /** `currentHealth` after one operation. */
  function StepHealth(current: real, op: HealthOp): (r: real)
    ensures 0.0 <= r <= MaxHealth
  {
    ClampHealth(Requested(current, op))
  }

  /** Whether the operation ends with a call to `gameOver()`. */
  predicate CallsGameOver(current: real, op: HealthOp) {
    StepHealth(current, op) <= 0.0
  }

  /** `currentHealth` after a sequence of operations, applied left to right. */
  function RunHealth(current: real, ops: seq<HealthOp>): real
    decreases |ops|
  {
    if ops == [] then current else RunHealth(StepHealth(current, ops[0]), ops[1..])
  }

  /** Starting in [0, 100], no sequence of damage, repair and update calls leaves the range. */
  lemma {:induction false} HealthStaysInRange(current: real, ops: seq<HealthOp>)
    requires 0.0 <= current <= MaxHealth
    ensures 0.0 <= RunHealth(current, ops) <= MaxHealth
    decreases |ops|
  {
    if ops != [] {
      HealthStaysInRange(StepHealth(current, ops[0]), ops[1..]);
    }
  }

  /** Damage by a non-negative amount never raises health; its result is max(0, h - d). */
  lemma DamageNeverHeals(current: real, d: real)
    requires 0.0 <= current <= MaxHealth && 0.0 <= d
    ensures StepHealth(current, Damage(d)) == Max(0.0, current - d)
    ensures StepHealth(current, Damage(d)) <= current
  {
  }

  /** Repair by a non-negative amount never lowers health; its result is min(100, h + a). */
  lemma RepairNeverHurts(current: real, a: real)
    requires 0.0 <= current <= MaxHealth && 0.0 <= a
    ensures StepHealth(current, Repair(a)) == Min(MaxHealth, current + a)
    ensures StepHealth(current, Repair(a)) >= current
  {
  }

  /** The game-over call is not one-shot: once health is 0, every further damage call
      (and every update to a value <= 0) calls `gameOver()` again. */
  lemma {:induction false} GameOverRepeats(ds: seq<real>)
    requires forall i :: 0 <= i < |ds| ==> ds[i] >= 0.0
    ensures RunHealth(0.0, seq(|ds|, i requires 0 <= i < |ds| => Damage(ds[i]))) == 0.0
    ensures forall i :: 0 <= i < |ds| ==> CallsGameOver(0.0, Damage(ds[i]))
    decreases |ds|
  {
    if ds != [] {
      var ops := seq(|ds|, i requires 0 <= i < |ds| => Damage(ds[i]));
      var rest := seq(|ds| - 1, i requires 0 <= i < |ds| - 1 => Damage(ds[1..][i]));
      assert ops[1..] == rest;
      assert StepHealth(0.0, ops[0]) == 0.0;
      GameOverRepeats(ds[1..]);
    }
  }

  class HealthBar {
    var currentHealth: real
    /** Whether the container carries the pulsing `warning` class. */
    var warningShown: bool
    /** The gradient last given to the fill element. */
    var band: HealthBand
    /** How many times `gameOver()` has been called from here. */
    var gameOverCalls: nat

    ghost predicate Valid()
      reads this
    {
      0.0 <= currentHealth <= MaxHealth
    }

    constructor ()
      ensures Valid() && currentHealth == MaxHealth
      ensures !warningShown && band == Good && gameOverCalls == 0
    {
      currentHealth := MaxHealth;
      warningShown := false;
      band := Good;
      gameOverCalls := 0;
    }

    /** `updateHealthBar(health)`. */
    method UpdateHealthBar(health: real)
      modifies this
      ensures Valid()
      ensures currentHealth == ClampHealth(health)
      ensures band == BandOf(currentHealth)
      ensures warningShown <==> currentHealth <= CriticalHealthThreshold
      ensures gameOverCalls == old(gameOverCalls) + (if currentHealth <= 0.0 then 1 else 0)
    {
      currentHealth := Max(0.0, Min(MaxHealth, health));
      band := BandOf(currentHealth);
      if currentHealth <= CriticalHealthThreshold {
        warningShown := true;
      } else {
        warningShown := false;
      }
      if currentHealth <= 0.0 {
        gameOverCalls := gameOverCalls + 1;
      }
    }

    /** `damageString(amount)`: returns max(0, health - amount), then stores it clamped. */
    method DamageString(amount: real) returns (newHealth: real)
      modifies this
      ensures Valid()
      ensures newHealth == Requested(old(currentHealth), Damage(amount))
      ensures currentHealth == StepHealth(old(currentHealth), Damage(amount))
      ensures band == BandOf(currentHealth)
      ensures warningShown <==> currentHealth <= CriticalHealthThreshold
      ensures gameOverCalls == old(gameOverCalls)
        + (if CallsGameOver(old(currentHealth), Damage(amount)) then 1 else 0)
    {
      newHealth := Max(0.0, currentHealth - amount);
      UpdateHealthBar(newHealth);
    }

    /** `repairString(amount)`: returns min(100, health + amount), then stores it clamped. */
    method RepairString(amount: real) returns (newHealth: real)
      modifies this
      ensures Valid()
      ensures newHealth == Requested(old(currentHealth), Repair(amount))
      ensures currentHealth == StepHealth(old(currentHealth), Repair(amount))
      ensures band == BandOf(currentHealth)
      ensures warningShown <==> currentHealth <= CriticalHealthThreshold
      ensures gameOverCalls == old(gameOverCalls)
        + (if CallsGameOver(old(currentHealth), Repair(amount)) then 1 else 0)
    {
      newHealth := Min(MaxHealth, currentHealth + amount);
      UpdateHealthBar(newHealth);
    }
  }
}
