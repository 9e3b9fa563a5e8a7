/**
 * The character health container (Character/HealthComponent): clamped health in
 * [0, MaxHealth], damage and healing that report the amount actually applied, a
 * one-shot "out of health" latch, and a currency reward for whoever killed the owner.
 */
module CharacterHealth {
  import opened Common
  import Currency

  datatype Event =
    /** OnHealthChanged(this, CurrentHealth, MaxHealth, DeltaHealth) */
    | HealthChanged(currentHealth: real, maxHealth: real, deltaHealth: real)
    /** OnOutOfHealth(this) */
    | OutOfHealth
    /** HandleDeath ran with an owner: the owner is made undamageable (hiding and destroying are not modelled). */
    | Died

  /**
   * ApplyDamage's return value, computed as the source does (through SetHealth's clamp):
   * on a valid component it is 0 for a non-positive amount or a dead owner, and
   * otherwise the smaller of the amount and the remaining health.
   */
  function AppliedDamage(current: real, maxHealth: real, amount: real): (r: real)
    ensures r >= 0.0
    ensures 0.0 <= current <= maxHealth ==>
              r == (if amount <= 0.0 || current <= 0.0 then 0.0 else Min(amount, current))
  {
    if amount <= 0.0 || current <= 0.0 then 0.0
    else Max(0.0, -(Clamp(current - amount, 0.0, maxHealth) - current))
  }

  /**
   * ApplyHealing's return value: on a valid component it is 0 for a non-positive amount
   * or full health, and otherwise the smaller of the amount and the missing health.
   */
  function AppliedHealing(current: real, maxHealth: real, amount: real): (r: real)
    ensures r >= 0.0
    ensures 0.0 <= current <= maxHealth ==>
              r == (if amount <= 0.0 || current >= maxHealth then 0.0 else Min(amount, maxHealth - current))
  {
    if amount <= 0.0 || current >= maxHealth then 0.0
    else Max(0.0, Clamp(current + amount, 0.0, maxHealth) - current)
  }

  /** GetHealthPercent: 0 for a (nearly) zero maximum, otherwise the fraction left, in [0, 1]. */
  function HealthPercent(current: real, maxHealth: real): (r: real)
    ensures maxHealth <= KindaSmallNumber ==> r == 0.0
    ensures maxHealth > KindaSmallNumber ==> r * maxHealth == current
    ensures 0.0 <= current <= maxHealth ==> 0.0 <= r <= 1.0
  {
    if maxHealth <= KindaSmallNumber then 0.0 else current / maxHealth
  }

  /**
   * The actor GrantDeathCurrencyReward pays: the instigating controller's pawn, or, when
   * there is none, the damage causer's instigator; never the owner itself.
   */
  function RewardReceiver(instigatorPawn: Option<ObjectId>, causerInstigator: Option<ObjectId>,
                          owner: Option<ObjectId>): (r: Option<ObjectId>)
    ensures r.Some? ==> r != owner
    ensures r.Some? ==> r == instigatorPawn || (instigatorPawn.None? && r == causerInstigator)
    ensures instigatorPawn.Some? && instigatorPawn != owner ==> r == instigatorPawn
    ensures instigatorPawn.None? && causerInstigator != owner ==> r == causerInstigator
  {
    var candidate := if instigatorPawn.Some? then instigatorPawn else causerInstigator;
    if candidate.None? || candidate == owner then None else candidate
  }

  /**
   * The actor whose wallet GrantDeathCurrencyReward credits: the RewardReceiver, when
   * rewards are enabled with a positive amount and that actor has a wallet.
   */
  function RewardPayee(grant: bool, reward: int, instigatorPawn: Option<ObjectId>,
                       causerInstigator: Option<ObjectId>, owner: Option<ObjectId>,
                       walletOwners: set<ObjectId>): (r: Option<ObjectId>)
    ensures r.Some? <==> grant && reward > 0
                         && RewardReceiver(instigatorPawn, causerInstigator, owner).Some?
                         && RewardReceiver(instigatorPawn, causerInstigator, owner).value in walletOwners
    ensures r.Some? ==> r.value in walletOwners && r != owner
  {
    var receiver := RewardReceiver(instigatorPawn, causerInstigator, owner);
    if grant && reward > 0 && receiver.Some? && receiver.value in walletOwners then receiver else None
  }

  /**
   * The broadcasts of SetHealth moving health from `previous` to `next`: a change event
   * unless the delta is nearly zero, then OnOutOfHealth and death once, when health
   * reaches zero with the latch still clear.
   */
  function SetHealthEvents(previous: real, next: real, maxHealth: real, notified: bool,
                           hasOwner: bool): (r: seq<Event>)
    ensures (HealthChanged(next, maxHealth, next - previous) in r) <==> !IsNearlyZero(next - previous)
    ensures (OutOfHealth in r) <==> next <= 0.0 && !notified
    ensures (Died in r) <==> next <= 0.0 && !notified && hasOwner
    ensures |r| <= 3
  {
    (if !IsNearlyZero(next - previous) then [HealthChanged(next, maxHealth, next - previous)] else [])
    + (if next <= 0.0 && !notified then [OutOfHealth] + (if hasOwner then [Died] else []) else [])
  }

  /**
   * On a component whose latch mirrors "health <= 0", OnOutOfHealth fires exactly on an
   * alive-to-dead transition, and the latch afterwards again mirrors the new health.
   */
  lemma OutOfHealthExactlyOnTransition(previous: real, next: real, maxHealth: real,
                                       notified: bool, hasOwner: bool)
    requires notified == (previous <= 0.0)
    ensures (OutOfHealth in SetHealthEvents(previous, next, maxHealth, notified, hasOwner))
            <==> previous > 0.0 && next <= 0.0
  {
  }

  class HealthComponent {
    var maxHealth: real
    var currentHealth: real
    /** bOutOfHealthNotified */
    var outOfHealthNotified: bool
    /** bInitializeFromMaxHealthOnBeginPlay */
    const initializeFromMaxHealth: bool
    /** bGrantCurrencyOnDeath and CurrencyRewardOnDeath */
    const grantCurrencyOnDeath: bool
    const currencyRewardOnDeath: Int32
    /** GetOwner(), if any */
    const owner: Option<ObjectId>
    /** The owner's CanBeDamaged() flag, which HandleDeath clears. */
    var ownerCanBeDamaged: bool
    /** HandleOwnerTakeAnyDamage has been bound to the owner's OnTakeAnyDamage. */
    var damageHandlerBound: bool
    var events: seq<Event>

    /** The state BeginPlay establishes and every operation keeps. */
    ghost predicate Valid()
      reads this
    {
      1.0 <= maxHealth && 0.0 <= currentHealth <= maxHealth
      && outOfHealthNotified == (currentHealth <= 0.0)
    }

    /** The authored component before BeginPlay. */
    constructor (maxHealth: real, currentHealth: real, initializeFromMaxHealth: bool,
                 grantCurrencyOnDeath: bool, currencyRewardOnDeath: Int32,
                 owner: Option<ObjectId>, ownerCanBeDamaged: bool)
      ensures this.maxHealth == maxHealth && this.currentHealth == currentHealth
      ensures this.initializeFromMaxHealth == initializeFromMaxHealth
      ensures this.grantCurrencyOnDeath == grantCurrencyOnDeath
      ensures this.currencyRewardOnDeath == currencyRewardOnDeath
      ensures this.owner == owner && this.ownerCanBeDamaged == ownerCanBeDamaged
      ensures !outOfHealthNotified && !damageHandlerBound && events == []
    {
      this.maxHealth := maxHealth;
      this.currentHealth := currentHealth;
      this.initializeFromMaxHealth := initializeFromMaxHealth;
      this.grantCurrencyOnDeath := grantCurrencyOnDeath;
      this.currencyRewardOnDeath := currencyRewardOnDeath;
      this.owner := owner;
      this.ownerCanBeDamaged := ownerCanBeDamaged;
      outOfHealthNotified := false;
      damageHandlerBound := false;
      events := [];
    }

    /** IsAlive */
    predicate IsAlive()
      reads this
    {
      currentHealth > 0.0
    }

    /** GetHealthPercent */
    function GetHealthPercent(): (r: real)
      reads this
      ensures maxHealth <= KindaSmallNumber ==> r == 0.0
      ensures maxHealth > KindaSmallNumber ==> r * maxHealth == currentHealth
      ensures 0.0 <= currentHealth <= maxHealth ==> 0.0 <= r <= 1.0
    {
      HealthPercent(currentHealth, maxHealth)
    }

    /** BeginPlay: clamps the authored values, sets the latch, binds the damage handler. */
    method BeginPlay()
      modifies this
      ensures Valid()
      ensures maxHealth == Max(old(maxHealth), 1.0)
      ensures currentHealth == if initializeFromMaxHealth then maxHealth
                               else Clamp(old(currentHealth), 0.0, maxHealth)
      ensures outOfHealthNotified == (currentHealth <= 0.0)
      ensures damageHandlerBound == (owner.Some? || old(damageHandlerBound))
      ensures ownerCanBeDamaged == old(ownerCanBeDamaged)
      ensures events == old(events) + [HealthChanged(currentHealth, maxHealth, 0.0)]
    {
      maxHealth := Max(maxHealth, 1.0);
      if initializeFromMaxHealth {
        currentHealth := maxHealth;
      } else {
        currentHealth := Clamp(currentHealth, 0.0, maxHealth);
      }
      outOfHealthNotified := currentHealth <= 0.0;
      if owner.Some? {
        damageHandlerBound := true;
      }
      events := events + [HealthChanged(currentHealth, maxHealth, 0.0)];
    }

    /** HandleDeath: the owner can no longer be damaged. */
    method HandleDeath()
      modifies this
      ensures ownerCanBeDamaged == (old(ownerCanBeDamaged) && owner.None?)
      ensures events == old(events) + (if owner.Some? then [Died] else [])
      ensures maxHealth == old(maxHealth) && currentHealth == old(currentHealth)
      ensures outOfHealthNotified == old(outOfHealthNotified)
      ensures damageHandlerBound == old(damageHandlerBound)
    {
      if owner.None? {
        return;
      }
      ownerCanBeDamaged := false;
      events := events + [Died];
    }

    /** SetHealth(NewHealth): clamps, broadcasts, latches death; returns new - old. */
    method SetHealth(newHealth: real) returns (delta: real)
      modifies this
      ensures old(Valid()) ==> Valid()
      ensures currentHealth == Clamp(newHealth, 0.0, maxHealth) && maxHealth == old(maxHealth)
      ensures delta == currentHealth - old(currentHealth)
      ensures outOfHealthNotified == (currentHealth <= 0.0)
      ensures events == old(events) + SetHealthEvents(old(currentHealth), currentHealth, maxHealth,
                                                      old(outOfHealthNotified), owner.Some?)
      ensures ownerCanBeDamaged == (old(ownerCanBeDamaged)
                                    && !(currentHealth <= 0.0 && !old(outOfHealthNotified) && owner.Some?))
      ensures damageHandlerBound == old(damageHandlerBound)
    {
      var previousHealth := currentHealth;
      currentHealth := Clamp(newHealth, 0.0, maxHealth);
      delta := currentHealth - previousHealth;
      if !IsNearlyZero(delta) {
        events := events + [HealthChanged(currentHealth, maxHealth, delta)];
      }
      var isOutOfHealth := currentHealth <= 0.0;
      if isOutOfHealth && !outOfHealthNotified {
        outOfHealthNotified := true;
        events := events + [OutOfHealth];
        HandleDeath();
      } else if !isOutOfHealth {
        outOfHealthNotified := false;
      }
    }

    /** ApplyDamage(DamageAmount): returns the damage actually applied. */
    method ApplyDamage(amount: real) returns (applied: real)
      modifies this
      ensures old(Valid()) ==> Valid()
      ensures applied == AppliedDamage(old(currentHealth), old(maxHealth), amount)
      ensures maxHealth == old(maxHealth) && damageHandlerBound == old(damageHandlerBound)
      ensures amount <= 0.0 || old(currentHealth) <= 0.0 ==>
                currentHealth == old(currentHealth) && events == old(events)
                && outOfHealthNotified == old(outOfHealthNotified)
                && ownerCanBeDamaged == old(ownerCanBeDamaged)
      ensures amount > 0.0 && old(currentHealth) > 0.0 ==>
                currentHealth == Clamp(old(currentHealth) - amount, 0.0, maxHealth)
                && outOfHealthNotified == (currentHealth <= 0.0)
                && events == old(events) + SetHealthEvents(old(currentHealth), currentHealth, maxHealth,
                                                           old(outOfHealthNotified), owner.Some?)
                && ownerCanBeDamaged == (old(ownerCanBeDamaged)
                                         && !(currentHealth <= 0.0 && !old(outOfHealthNotified) && owner.Some?))
    {
      if amount <= 0.0 || currentHealth <= 0.0 {
        return 0.0;
      }
      var delta := SetHealth(currentHealth - amount);
      applied := Max(0.0, -delta);
    }

    /** ApplyHealing(HealAmount): returns the health actually restored. */
    method ApplyHealing(amount: real) returns (restored: real)
      modifies this
      ensures old(Valid()) ==> Valid()
      ensures restored == AppliedHealing(old(currentHealth), old(maxHealth), amount)
      ensures maxHealth == old(maxHealth) && damageHandlerBound == old(damageHandlerBound)
      ensures amount <= 0.0 || old(currentHealth) >= old(maxHealth) ==>
                currentHealth == old(currentHealth) && events == old(events)
                && outOfHealthNotified == old(outOfHealthNotified)
                && ownerCanBeDamaged == old(ownerCanBeDamaged)
      ensures amount > 0.0 && old(currentHealth) < old(maxHealth) ==>
                currentHealth == Clamp(old(currentHealth) + amount, 0.0, maxHealth)
                && outOfHealthNotified == (currentHealth <= 0.0)
                && events == old(events) + SetHealthEvents(old(currentHealth), currentHealth, maxHealth,
                                                           old(outOfHealthNotified), owner.Some?)
                && ownerCanBeDamaged == (old(ownerCanBeDamaged)
                                         && !(currentHealth <= 0.0 && !old(outOfHealthNotified) && owner.Some?))
    {
      if amount <= 0.0 || currentHealth >= maxHealth {
        return 0.0;
      }
      var delta := SetHealth(currentHealth + amount);
      restored := Max(0.0, delta);
    }

    /** RestoreFullHealth: SetHealth(MaxHealth). */
    method RestoreFullHealth()
      modifies this
      ensures old(Valid()) ==> Valid()
      ensures maxHealth == old(maxHealth) && damageHandlerBound == old(damageHandlerBound)
      ensures currentHealth == Clamp(maxHealth, 0.0, maxHealth)
      ensures maxHealth >= 0.0 ==> currentHealth == maxHealth
      ensures outOfHealthNotified == (currentHealth <= 0.0)
      ensures events == old(events) + SetHealthEvents(old(currentHealth), currentHealth, maxHealth,
                                                      old(outOfHealthNotified), owner.Some?)
      ensures ownerCanBeDamaged == (old(ownerCanBeDamaged)
                                    && !(currentHealth <= 0.0 && !old(outOfHealthNotified) && owner.Some?))
      ensures old(Valid()) ==> ownerCanBeDamaged == old(ownerCanBeDamaged)
    {
      var _ := SetHealth(maxHealth);
    }

    /**
     * GrantDeathCurrencyReward: pays CurrencyRewardOnDeath into the wallet of the
     * RewardPayee; every other wallet keeps its balance.
     */
    method GrantDeathCurrencyReward(instigatorPawn: Option<ObjectId>, causerInstigator: Option<ObjectId>,
                                    wallets: map<ObjectId, Currency.Wallet>)
      requires forall a | a in wallets :: wallets[a].Valid()
      modifies set a | a in wallets :: wallets[a]
      ensures forall a | a in wallets :: wallets[a].Valid()
      ensures forall a | a in wallets :: 0 <= old(wallets[a].currentCurrency) <= MaxInt32
      ensures var payee := RewardPayee(grantCurrencyOnDeath, currencyRewardOnDeath, instigatorPawn,
                                       causerInstigator, owner, wallets.Keys);
              payee.Some? ==>
                wallets[payee.value].currentCurrency
                  == Currency.AddOutcome(old(wallets[payee.value].currentCurrency), currencyRewardOnDeath).balance
      ensures var payee := RewardPayee(grantCurrencyOnDeath, currencyRewardOnDeath, instigatorPawn,
                                       causerInstigator, owner, wallets.Keys);
              forall a | a in wallets && (payee.None? || wallets[a] != wallets[payee.value]) ::
                wallets[a].currentCurrency == old(wallets[a].currentCurrency)
                && wallets[a].events == old(wallets[a].events)
    {
      if !grantCurrencyOnDeath || currencyRewardOnDeath <= 0 {
        return;
      }
      var receiver := RewardReceiver(instigatorPawn, causerInstigator, owner);
      if receiver.None? {
        return;
      }
      if receiver.value !in wallets {
        return;
      }
      var _ := wallets[receiver.value].AddCurrency(currencyRewardOnDeath);
    }

    /**
     * HandleOwnerTakeAnyDamage: damage to the owner (while it can be damaged) goes
     * through ApplyDamage; the hit that takes the owner from alive to dead pays the
     * death reward.
     */
    method HandleOwnerTakeAnyDamage(damagedActor: Option<ObjectId>, damage: real,
                                    instigatorPawn: Option<ObjectId>, causerInstigator: Option<ObjectId>,
                                    wallets: map<ObjectId, Currency.Wallet>)
      requires forall a | a in wallets :: wallets[a].Valid()
      modifies this, set a | a in wallets :: wallets[a]
      ensures old(Valid()) ==> Valid()
      ensures forall a | a in wallets :: wallets[a].Valid()
      ensures forall a | a in wallets :: 0 <= old(wallets[a].currentCurrency) <= MaxInt32
      ensures maxHealth == old(maxHealth) && damageHandlerBound == old(damageHandlerBound)
      ensures !Accepts(damagedActor, damage, old(ownerCanBeDamaged)) || old(currentHealth) <= 0.0 ==>
                currentHealth == old(currentHealth) && events == old(events)
                && outOfHealthNotified == old(outOfHealthNotified)
                && ownerCanBeDamaged == old(ownerCanBeDamaged)
      ensures Accepts(damagedActor, damage, old(ownerCanBeDamaged)) && old(currentHealth) > 0.0 ==>
                currentHealth == Clamp(old(currentHealth) - damage, 0.0, maxHealth)
                && outOfHealthNotified == (currentHealth <= 0.0)
                && events == old(events) + SetHealthEvents(old(currentHealth), currentHealth, maxHealth,
                                                           old(outOfHealthNotified), owner.Some?)
                && ownerCanBeDamaged == (old(ownerCanBeDamaged)
                                         && !(currentHealth <= 0.0 && !old(outOfHealthNotified) && owner.Some?))
      ensures var payee := if Accepts(damagedActor, damage, old(ownerCanBeDamaged))
                              && old(currentHealth) > 0.0 && currentHealth <= 0.0
                           then RewardPayee(grantCurrencyOnDeath, currencyRewardOnDeath, instigatorPawn,
                                            causerInstigator, owner, wallets.Keys)
                           else None;
              (payee.Some? ==>
                 wallets[payee.value].currentCurrency
                   == Currency.AddOutcome(old(wallets[payee.value].currentCurrency), currencyRewardOnDeath).balance)
              && (forall a | a in wallets && (payee.None? || wallets[a] != wallets[payee.value]) ::
                    wallets[a].currentCurrency == old(wallets[a].currentCurrency)
                    && wallets[a].events == old(wallets[a].events))
    {
      if damagedActor.None? || damagedActor != owner || damage <= 0.0 {
        return;
      }
      if !ownerCanBeDamaged {
        return;
      }
      var wasAliveBeforeDamage := IsAlive();
      var applied := ApplyDamage(damage);
      if applied > 0.0 {
        if wasAliveBeforeDamage && !IsAlive() {
          GrantDeathCurrencyReward(instigatorPawn, causerInstigator, wallets);
        }
      }
    }

    /** The guards of HandleOwnerTakeAnyDamage: real damage to the owner while it can be damaged. */
    predicate Accepts(damagedActor: Option<ObjectId>, damage: real, canBeDamaged: bool)
      reads this
    {
      damagedActor.Some? && damagedActor == owner && damage > 0.0 && canBeDamaged
    }
  }
}
