/** Experience and levelling (hooks/useGameEngine.ts, gainXp). */
module Progression {
  import opened Types

  /** b raised to the natural power n. */
  function Pow(b: real, n: nat): real {
    if n == 0 then 1.0 else b * Pow(b, n - 1)
  }

  lemma {:induction false} PowAtLeastOne(b: real, n: nat)
    requires b >= 1.0
    ensures Pow(b, n) >= 1.0
  {
    if n > 0 {
      PowAtLeastOne(b, n - 1);
    }
  }

  lemma {:induction false} PowNonNegative(b: real, n: nat)
    requires b >= 0.0
    ensures Pow(b, n) >= 0.0
  {
    if n > 0 {
      PowNonNegative(b, n - 1);
    }
  }

  lemma {:induction false} PowAdd(b: real, m: nat, n: nat)
    ensures Pow(b, m + n) == Pow(b, m) * Pow(b, n)
  {
    if m > 0 {
      PowAdd(b, m - 1, n);
      assert Pow(b, m + n) == b * Pow(b, m - 1 + n);
    }
  }

  /** Experience an ant of the given level needs to reach the next level. */
  function Threshold(level: int): real
    requires level >= 1
  {
    10.0 * Pow(1.5, level - 1)
  }

  /** The threshold rises by half with every level, so a higher level always needs more experience. */
  lemma ThresholdGrowth(level: int)
    requires level >= 1
    ensures Threshold(level) >= 10.0
    ensures Threshold(level + 1) == 1.5 * Threshold(level)
    ensures Threshold(level + 1) > Threshold(level)
  {
    PowAtLeastOne(1.5, level - 1);
  }

  lemma {:induction false} ThresholdMonotone(lo: int, hi: int)
    requires 1 <= lo <= hi
    ensures Threshold(lo) <= Threshold(hi)
  {
    if lo < hi {
      ThresholdMonotone(lo, hi - 1);
      ThresholdGrowth(hi - 1);
    }
  }

  /**
   * Adds amount to the ant's experience; when the experience reaches the
   * threshold of its level, the ant levels up exactly once: the threshold is
   * subtracted, maxHealth grows by 15 times the new level, health is restored
   * to it, speed grows by 0.05 and strength by 0.5.
   */
  function GainXp(a: Ant, amount: real): (r: Ant)
    requires a.level >= 1
    ensures r.level == a.level || r.level == a.level + 1
    ensures r.level >= 1
    ensures r.kind == a.kind && r.x == a.x && r.y == a.y && r.job == a.job
    ensures r.carrying == a.carrying && r.energy == a.energy && r.kills == a.kills
    ensures r.level == a.level + 1 <==> a.xp + amount >= Threshold(a.level)
    ensures r.level == a.level ==> r == a.(xp := a.xp + amount)
    ensures r.level == a.level + 1 ==>
      && r.xp == a.xp + amount - Threshold(a.level)
      && r.maxHealth == a.maxHealth + 15.0 * r.level as real
      && r.health == r.maxHealth
      && r.speed == a.speed + 0.05
      && r.strength == a.strength + 0.5
  {
    var xp := a.xp + amount;
    var threshold := Threshold(a.level);
    if xp >= threshold then
      var level := a.level + 1;
      var maxHealth := a.maxHealth + 15.0 * level as real;
      a.(xp := xp - threshold, level := level, maxHealth := maxHealth, health := maxHealth,
         speed := a.speed + 0.05, strength := a.strength + 0.5)
    else
      a.(xp := xp)
  }

  /**
   * Levelling is monotone: no stat that levelling touches ever decreases, a
   * level-up leaves the ant at full health, and a non-negative experience
   * total stays non-negative for non-negative gains.
   */
  lemma GainXpMonotone(a: Ant, amount: real)
    requires a.level >= 1
    ensures GainXp(a, amount).level >= a.level
    ensures GainXp(a, amount).maxHealth >= a.maxHealth
    ensures GainXp(a, amount).speed >= a.speed
    ensures GainXp(a, amount).strength >= a.strength
    ensures a.xp >= 0.0 && amount >= 0.0 ==> GainXp(a, amount).xp >= 0.0
    ensures a.health <= a.maxHealth ==> GainXp(a, amount).health <= GainXp(a, amount).maxHealth
  {
  }

  /** Repeated gains starting from level l never bring the ant below level l. */
  function GainAll(a: Ant, amounts: seq<real>): (r: Ant)
    requires a.level >= 1
    ensures r.level >= a.level
    ensures r.level <= a.level + |amounts|
    decreases |amounts|
  {
    if amounts == [] then a else GainAll(GainXp(a, amounts[0]), amounts[1..])
  }
}
