/**
 * The replicated combat health component (Combat/HealthComponent): the server applies
 * damage while the owner is alive and broadcasts OnDeath when health reaches zero;
 * clients rebroadcast from OnRep_Health when the replicated value arrives.
 */
module CombatHealth {
  import opened Common

  datatype Event =
    /** OnHealthChanged(NewHealth, Delta) */
    | HealthChanged(newHealth: real, delta: real)
    /** OnDeath */
    | Death

  datatype Step = Step(health: real, events: seq<Event>)

  /**
   * HandleTakeAnyDamage on the server: damage is ignored unless it is positive and the
   * owner is alive; otherwise health is clamped into [0, MaxHealth] (FMath::Clamp, so a
   * non-positive maximum wins over the lower bound) and OnDeath follows when it reaches 0.
   */
  function DamageStep(health: real, maxHealth: real, damage: real): (r: Step)
    ensures damage <= 0.0 || health <= 0.0 ==> r == Step(health, [])
    ensures damage > 0.0 && health > 0.0 ==>
              r.events == [HealthChanged(r.health, r.health - health)] + (if r.health <= 0.0 then [Death] else [])
    ensures damage > 0.0 && 0.0 < health <= maxHealth ==>
              0.0 <= r.health < health && r.health == Max(0.0, health - damage)
  {
    if damage <= 0.0 || health <= 0.0 then Step(health, [])
    else
      var next := Clamp(health - damage, 0.0, maxHealth);
      Step(next, [HealthChanged(next, next - health)] + (if next <= 0.0 then [Death] else []))
  }

  /** The server's state and broadcasts after a sequence of damage events. */
  function DamageRun(health: real, maxHealth: real, damages: seq<real>): (r: Step)
    ensures damages == [] ==> r == Step(health, [])
    ensures 0.0 <= health <= maxHealth ==> 0.0 <= r.health <= health
    ensures |r.events| <= 2 * |damages|
    decreases |damages|
  {
    if damages == [] then Step(health, [])
    else
      var first := DamageStep(health, maxHealth, damages[0]);
      var rest := DamageRun(first.health, maxHealth, damages[1..]);
      Step(rest.health, first.events + rest.events)
  }

  function CountDeaths(events: seq<Event>): (n: nat)
    ensures n <= |events|
    ensures n == 0 <==> Death !in events
  {
    if events == [] then 0
    else (if events[0] == Death then 1 else 0) + CountDeaths(events[1..])
  }

  lemma {:induction false} CountDeathsAppend(a: seq<Event>, b: seq<Event>)
    ensures CountDeaths(a + b) == CountDeaths(a) + CountDeaths(b)
  {
    if a != [] {
      assert (a + b)[0] == a[0] && (a + b)[1..] == a[1..] + b;
      CountDeathsAppend(a[1..], b);
    } else {
      assert a + b == b;
    }
  }

  /**
   * However much damage arrives, the server broadcasts OnDeath at most once, and
   * exactly once when the owner started alive and ended at zero health.
   */
  lemma {:induction false} DeathAtMostOnce(health: real, maxHealth: real, damages: seq<real>)
    ensures var r := DamageRun(health, maxHealth, damages);
            CountDeaths(r.events) == (if health > 0.0 && r.health <= 0.0 then 1 else 0)
            && (health <= 0.0 ==> r.health == health)
    decreases |damages|
  {
    if damages != [] {
      var first := DamageStep(health, maxHealth, damages[0]);
      var rest := DamageRun(first.health, maxHealth, damages[1..]);
      DeathAtMostOnce(first.health, maxHealth, damages[1..]);
      CountDeathsAppend(first.events, rest.events);
      if health <= 0.0 || damages[0] <= 0.0 {
        assert first.events == [];
      } else if first.health <= 0.0 {
        assert CountDeaths(first.events) == 1 by {
          assert first.events == [HealthChanged(first.health, first.health - health), Death];
        }
      } else {
        assert CountDeaths(first.events) == 0 by {
          assert first.events == [HealthChanged(first.health, first.health - health)];
        }
      }
    }
  }

  /** OnRep_Health(PreviousHealth): what a client broadcasts when the replicated health arrives. */
  function RepNotifyEvents(previousHealth: real, health: real): (r: seq<Event>)
    ensures |r| >= 1 && r[0] == HealthChanged(health, health - previousHealth)
    ensures (Death in r) <==> previousHealth > 0.0 && health <= 0.0
  {
    [HealthChanged(health, health - previousHealth)]
    + (if previousHealth > 0.0 && health <= 0.0 then [Death] else [])
  }

  /** The health values the server's damage run replicates, one per accepted hit. */
  function HealthTrace(health: real, maxHealth: real, damages: seq<real>): (r: seq<real>)
    decreases |damages|
  {
    if damages == [] then []
    else
      var first := DamageStep(health, maxHealth, damages[0]);
      (if damages[0] > 0.0 && health > 0.0 then [first.health] else [])
      + HealthTrace(first.health, maxHealth, damages[1..])
  }

  /** A client's broadcasts when it receives the replicated values in order. */
  function ClientRun(health: real, values: seq<real>): (r: seq<Event>)
    decreases |values|
  {
    if values == [] then []
    else RepNotifyEvents(health, values[0]) + ClientRun(values[0], values[1..])
  }

  /**
   * A client that receives every replicated health value broadcasts exactly the events
   * the server broadcast, OnDeath included, as long as health starts within its maximum.
   */
  lemma {:induction false} ClientSeesServerBroadcasts(health: real, maxHealth: real, damages: seq<real>)
    requires health <= maxHealth
    ensures DamageRun(health, maxHealth, damages).events
            == ClientRun(health, HealthTrace(health, maxHealth, damages))
    decreases |damages|
  {
    if damages != [] {
      var first := DamageStep(health, maxHealth, damages[0]);
      assert first.health <= maxHealth;
      ClientSeesServerBroadcasts(first.health, maxHealth, damages[1..]);
      var tail := HealthTrace(first.health, maxHealth, damages[1..]);
      if damages[0] > 0.0 && health > 0.0 {
        assert HealthTrace(health, maxHealth, damages) == [first.health] + tail;
        assert ([first.health] + tail)[1..] == tail;
        assert first.events == RepNotifyEvents(health, first.health);
      } else {
        assert HealthTrace(health, maxHealth, damages) == tail;
        assert first.events == [];
      }
    }
  }

  class HealthComponent {
    /** MaxHealth (EditDefaultsOnly, default 100) */
    const maxHealth: real
    /** Health, replicated with OnRep_Health (default 0) */
    var health: real
    /** HandleTakeAnyDamage has been bound to the owner's OnTakeAnyDamage. */
    var damageHandlerBound: bool
    var events: seq<Event>

    constructor (maxHealth: real)
      ensures this.maxHealth == maxHealth && health == 0.0
      ensures !damageHandlerBound && events == []
    {
      this.maxHealth := maxHealth;
      health := 0.0;
      damageHandlerBound := false;
      events := [];
    }

    /** IsAlive */
    predicate IsAlive()
      reads this
    {
      health > 0.0
    }

    /** BeginPlay: full health, and the damage handler bound only on the authority. */
    method BeginPlay(hasOwner: bool, ownerHasAuthority: bool)
      modifies this
      ensures health == maxHealth && events == old(events)
      ensures damageHandlerBound == (old(damageHandlerBound) || (hasOwner && ownerHasAuthority))
    {
      health := maxHealth;
      if hasOwner && ownerHasAuthority {
        damageHandlerBound := true;
      }
    }

    /** HandleTakeAnyDamage(Damage) on the server (see DamageStep). */
    method HandleTakeAnyDamage(damage: real)
      modifies this
      ensures health == DamageStep(old(health), maxHealth, damage).health
      ensures events == old(events) + DamageStep(old(health), maxHealth, damage).events
      ensures damageHandlerBound == old(damageHandlerBound)
    {
      if damage <= 0.0 || !IsAlive() {
        return;
      }
      var previousHealth := health;
      health := Clamp(health - damage, 0.0, maxHealth);
      events := events + [HealthChanged(health, health - previousHealth)];
      if health <= 0.0 {
        events := events + [Death];
      }
    }

    /** OnRep_Health(PreviousHealth): the replicated Health has already been written. */
    method OnRepHealth(previousHealth: real)
      modifies this
      ensures health == old(health) && damageHandlerBound == old(damageHandlerBound)
      ensures events == old(events) + RepNotifyEvents(previousHealth, health)
    {
      events := events + [HealthChanged(health, health - previousHealth)];
      if previousHealth > 0.0 && health <= 0.0 {
        events := events + [Death];
      }
    }
  }
}
