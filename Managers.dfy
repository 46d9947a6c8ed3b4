/** The health counter: a maximum set in the inspector (3 by default) and a
    current value that Start fills, Damage lowers and Heal raises up to the
    maximum. */
module Managers {

  const DefaultMaxHealth: int := 3

  /** Health after Damage(amount): a positive counter loses exactly `amount`,
      with no floor at zero; a counter at or below zero ignores damage. */
  function DamageResult(health: int, amount: int): (r: int)
    ensures health <= 0 ==> r == health
    ensures health > 0 ==> health - r == amount
    ensures amount >= 0 ==> r <= health
  {
    if health > 0 then health - amount else health
  }

  /** Health after Heal(amount): below the maximum it rises by `amount` but
      stops at the maximum; at or above the maximum nothing happens. */
  function HealResult(health: int, maxHealth: int, amount: int): (r: int)
    ensures health >= maxHealth ==> r == health
    ensures health < maxHealth ==> r <= maxHealth
    ensures health < maxHealth ==> (r == maxHealth <==> amount >= maxHealth - health)
    ensures health < maxHealth && amount < maxHealth - health ==> r == health + amount
    ensures amount >= 0 ==> health <= r
  {
    if health < maxHealth then Min(health + amount, maxHealth) else health
  }

  function Min(a: int, b: int): int
  {
    if a < b then a else b
  }

  datatype HealthEvent = Damaged(amount: int) | Healed(amount: int)

  /** Health after a sequence of Damage and Heal calls, first to last. */
  function HealthAfter(health: int, maxHealth: int, events: seq<HealthEvent>): int
    decreases |events|
  {
    if events == [] then health
    else
      var next := match events[0]
        case Damaged(a) => DamageResult(health, a)
        case Healed(a) => HealResult(health, maxHealth, a);
      HealthAfter(next, maxHealth, events[1..])
  }

  /** Starting at or below the maximum, no run of Damage calls with
      non-negative amounts and Heal calls of any amount takes health above
      the maximum. */
  lemma {:induction false} HealthNeverExceedsMax(health: int, maxHealth: int, events: seq<HealthEvent>)
    requires health <= maxHealth
    requires forall i :: 0 <= i < |events| && events[i].Damaged? ==> events[i].amount >= 0
    ensures HealthAfter(health, maxHealth, events) <= maxHealth
    decreases |events|
  {
    if events != [] {
      var next := match events[0]
        case Damaged(a) => DamageResult(health, a)
        case Healed(a) => HealResult(health, maxHealth, a);
      var rest := events[1..];
      assert forall i :: 0 <= i < |rest| ==> rest[i] == events[i + 1];
      HealthNeverExceedsMax(next, maxHealth, rest);
    }
  }

  /** Once health is at or below zero, further damage of any amount leaves it
      where it is; only a heal can change it. */
  lemma {:induction false} DepletedHealthIgnoresDamage(health: int, maxHealth: int, events: seq<HealthEvent>)
    requires health <= 0
    requires forall i :: 0 <= i < |events| ==> events[i].Damaged?
    ensures HealthAfter(health, maxHealth, events) == health
    decreases |events|
  {
    if events != [] {
      var rest := events[1..];
      assert forall i :: 0 <= i < |rest| ==> rest[i] == events[i + 1];
      DepletedHealthIgnoresDamage(health, maxHealth, rest);
    }
  }

  class HealthManager {
    var maxHealth: int
    var currentHealth: int

    /** A fresh component: the inspector default maximum, health 0 until Start. */
    constructor ()
      ensures maxHealth == DefaultMaxHealth && currentHealth == 0
    {
      maxHealth := DefaultMaxHealth;
      currentHealth := 0;
    }

    /** A component whose maximum was set in the inspector. */
    constructor WithMaxHealth(maxHealth: int)
      ensures this.maxHealth == maxHealth && currentHealth == 0
    {
      this.maxHealth := maxHealth;
      currentHealth := 0;
    }

    method Start()
      modifies this`currentHealth
      ensures currentHealth == maxHealth
    {
      currentHealth := maxHealth;
    }

    /** Leaves the maximum alone (it is not in the frame). */
    method Damage(damageAmount: int)
      modifies this`currentHealth
      ensures currentHealth == DamageResult(old(currentHealth), damageAmount)
    {
      if currentHealth > 0 {
        currentHealth := currentHealth - damageAmount;
      }
    }

    /** Leaves the maximum alone (it is not in the frame). */
    method Heal(healAmount: int)
      modifies this`currentHealth
      ensures currentHealth == HealResult(old(currentHealth), maxHealth, healAmount)
    {
      if currentHealth < maxHealth {
        currentHealth := Min(currentHealth + healAmount, maxHealth);
      }
    }
  }
}
