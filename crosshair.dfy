/**
 * UCrosshairWidgetBase: the HUD widget's getters read the owning pawn's combat, currency
 * and health components through weak-pointer caches that every getter refreshes first.
 */
module Crosshair {
  import opened Common
  import Combat
  import CharacterHealth

  /** CachedOwningPawn, CachedCombatComponent, CachedCurrencyComponent, CachedHealthComponent (weak pointers). */
  datatype Cache = Cache(pawn: Option<ObjectId>, combat: Option<ObjectId>, currency: Option<ObjectId>,
                         health: Option<ObjectId>)

  /** What a health component reports: GetCurrentHealth and GetMaxHealth. */
  datatype HealthView = HealthView(current: real, maxHealth: real)

  /**
   * The world the widget looks at: the owning player's pawn, the objects still alive,
   * FindComponentByClass for each component class, and what each component reports.
   */
  datatype World = World(
    owningPawn: Option<ObjectId>,
    live: set<ObjectId>,
    combatOf: ObjectId -> Option<ObjectId>,
    currencyOf: ObjectId -> Option<ObjectId>,
    healthOf: ObjectId -> Option<ObjectId>,
    combatState: ObjectId -> Combat.State,
    magazineOf: ObjectId -> int,
    reserveOf: ObjectId -> int,
    healthView: ObjectId -> HealthView,
    balanceOf: ObjectId -> int)

  /** The engine hands out live objects: the owning pawn and the components found on it. */
  predicate WellFormed(w: World)
  {
    w.owningPawn.Some? ==>
      var p := w.owningPawn.value;
      && p in w.live
      && (w.combatOf(p).Some? ==> w.combatOf(p).value in w.live)
      && (w.currencyOf(p).Some? ==> w.currencyOf(p).value in w.live)
      && (w.healthOf(p).Some? ==> w.healthOf(p).value in w.live)
  }

  /** One cached component: kept while valid, re-resolved on the pawn otherwise. */
  function Recache(cached: Option<ObjectId>, live: set<ObjectId>, found: Option<ObjectId>): Option<ObjectId>
  {
    if IsValidRef(cached, live) then cached else found
  }

  /** RefreshCachedComponents */
  function Refresh(w: World, c: Cache): (r: Cache)
    ensures w.owningPawn.None? ==> r == Cache(None, None, None, None)
    ensures w.owningPawn.Some? ==> r.pawn == w.owningPawn || (r.pawn == c.pawn && GetRef(c.pawn, w.live) == w.owningPawn)
    ensures w.owningPawn.Some? ==>
              var p := w.owningPawn.value;
              && (r.combat == w.combatOf(p) || (r.combat == c.combat && IsValidRef(c.combat, w.live)))
              && (r.currency == w.currencyOf(p) || (r.currency == c.currency && IsValidRef(c.currency, w.live)))
              && (r.health == w.healthOf(p) || (r.health == c.health && IsValidRef(c.health, w.live)))
  {
    if w.owningPawn.None? then Cache(None, None, None, None)
    else
      var p := w.owningPawn.value;
      if GetRef(c.pawn, w.live) != w.owningPawn then
        Cache(w.owningPawn, w.combatOf(p), w.currencyOf(p), w.healthOf(p))
      else
        Cache(c.pawn, Recache(c.combat, w.live, w.combatOf(p)), Recache(c.currency, w.live, w.currencyOf(p)),
              Recache(c.health, w.live, w.healthOf(p)))
  }

  /**
   * The three cases of a refresh: no pawn resets all four caches; a pawn other than the
   * cached one (or a cached one that died) is cached and all three components are
   * resolved on it; the same pawn keeps each valid component and re-resolves the others.
   */
  lemma RefreshRules(w: World, c: Cache)
    ensures w.owningPawn.None? ==> Refresh(w, c) == Cache(None, None, None, None)
    ensures w.owningPawn.Some? && GetRef(c.pawn, w.live) != w.owningPawn ==>
              var p := w.owningPawn.value;
              Refresh(w, c) == Cache(w.owningPawn, w.combatOf(p), w.currencyOf(p), w.healthOf(p))
    ensures w.owningPawn.Some? && GetRef(c.pawn, w.live) == w.owningPawn ==>
              var p := w.owningPawn.value;
              var r := Refresh(w, c);
              && r.pawn == c.pawn
              && (IsValidRef(c.combat, w.live) ==> r.combat == c.combat)
              && (!IsValidRef(c.combat, w.live) ==> r.combat == w.combatOf(p))
              && (IsValidRef(c.currency, w.live) ==> r.currency == c.currency)
              && (!IsValidRef(c.currency, w.live) ==> r.currency == w.currencyOf(p))
              && (IsValidRef(c.health, w.live) ==> r.health == c.health)
              && (!IsValidRef(c.health, w.live) ==> r.health == w.healthOf(p))
  {
  }

  /** After a refresh the cache names the owning pawn, and a second refresh changes nothing. */
  lemma RefreshIdempotent(w: World, c: Cache)
    requires WellFormed(w)
    ensures GetRef(Refresh(w, c).pawn, w.live) == w.owningPawn
    ensures Refresh(w, Refresh(w, c)) == Refresh(w, c)
  {
  }

  /**
   * A component cached for an earlier pawn is never served for a new one: whenever the
   * cached pawn is not the owning pawn, every component comes from the owning pawn.
   */
  lemma NoStaleComponents(w: World, c: Cache)
    requires w.owningPawn.Some? && GetRef(c.pawn, w.live) != w.owningPawn
    ensures var p := w.owningPawn.value;
            var r := Refresh(w, c);
            r.combat == w.combatOf(p) && r.currency == w.currencyOf(p) && r.health == w.healthOf(p)
  {
  }

  /** ResolveCombatComponent: refresh, then the cached combat component if alive. */
  function ResolvedCombat(w: World, c: Cache): (r: Option<ObjectId>)
    ensures r.Some? ==> r.value in w.live && r == Refresh(w, c).combat
  {
    GetRef(Refresh(w, c).combat, w.live)
  }

  /** ResolveCurrencyComponent */
  function ResolvedCurrency(w: World, c: Cache): (r: Option<ObjectId>)
    ensures r.Some? ==> r.value in w.live && r == Refresh(w, c).currency
  {
    GetRef(Refresh(w, c).currency, w.live)
  }

  /** ResolveHealthComponent */
  function ResolvedHealth(w: World, c: Cache): (r: Option<ObjectId>)
    ensures r.Some? ==> r.value in w.live && r == Refresh(w, c).health
  {
    GetRef(Refresh(w, c).health, w.live)
  }

  /** GetAmmoMagazine */
  function AmmoMagazine(w: World, c: Cache): (r: int)
    ensures ResolvedCombat(w, c).None? || w.combatState(ResolvedCombat(w, c).value).current.None? ==> r == 0
  {
    match ResolvedCombat(w, c)
    case None => 0
    case Some(cc) => Combat.AmmoInMagazine(w.combatState(cc), w.magazineOf)
  }

  /** GetAmmoReserve */
  function AmmoReserve(w: World, c: Cache): (r: int)
    ensures ResolvedCombat(w, c).None? || w.combatState(ResolvedCombat(w, c).value).current.None? ==> r == 0
  {
    match ResolvedCombat(w, c)
    case None => 0
    case Some(cc) => Combat.AmmoInReserve(w.combatState(cc), w.reserveOf)
  }

  /** GetCurrentHealth */
  function CurrentHealth(w: World, c: Cache): (r: real)
    ensures ResolvedHealth(w, c).None? ==> r == 0.0
  {
    match ResolvedHealth(w, c)
    case None => 0.0
    case Some(h) => w.healthView(h).current
  }

  /** GetMaxHealth */
  function MaxHealth(w: World, c: Cache): (r: real)
    ensures ResolvedHealth(w, c).None? ==> r == 0.0
  {
    match ResolvedHealth(w, c)
    case None => 0.0
    case Some(h) => w.healthView(h).maxHealth
  }

  /** GetHealthPercent */
  function HealthPercent(w: World, c: Cache): (r: real)
    ensures r == CharacterHealth.HealthPercent(CurrentHealth(w, c), MaxHealth(w, c))
  {
    match ResolvedHealth(w, c)
    case None => 0.0
    case Some(h) => CharacterHealth.HealthPercent(w.healthView(h).current, w.healthView(h).maxHealth)
  }

  /** IsAlive */
  predicate Alive(w: World, c: Cache)
    ensures Alive(w, c) <==> ResolvedHealth(w, c).Some? && CurrentHealth(w, c) > 0.0
  {
    match ResolvedHealth(w, c)
    case None => false
    case Some(h) => w.healthView(h).current > 0.0
  }

  /** IsScoping */
  predicate Scoping(w: World, c: Cache)
    ensures Scoping(w, c) ==> ResolvedCombat(w, c).Some?
  {
    match ResolvedCombat(w, c)
    case None => false
    case Some(cc) => w.combatState(cc).scoping
  }

  /** ShouldShowCrosshair */
  predicate ShowCrosshair(w: World, c: Cache)
    ensures ShowCrosshair(w, c) ==> ResolvedCombat(w, c).Some? && !Scoping(w, c) && AmmoMagazine(w, c) == Combat.AmmoInMagazine(w.combatState(ResolvedCombat(w, c).value), w.magazineOf)
    ensures ResolvedCombat(w, c).None? ==> !ShowCrosshair(w, c)
  {
    match ResolvedCombat(w, c)
    case None => false
    case Some(cc) => w.combatState(cc).current.Some? && !w.combatState(cc).scoping
  }

  /** GetMoney */
  function Money(w: World, c: Cache): (r: int)
    ensures ResolvedCurrency(w, c).None? ==> r == 0
  {
    match ResolvedCurrency(w, c)
    case None => 0
    case Some(cur) => w.balanceOf(cur)
  }

  /** Every getter falls back to 0, 0.0 or false when the component it needs is missing. */
  lemma GettersDefault(w: World, c: Cache)
    ensures ResolvedCombat(w, c).None? ==>
              AmmoMagazine(w, c) == 0 && AmmoReserve(w, c) == 0 && !Scoping(w, c) && !ShowCrosshair(w, c)
    ensures ResolvedHealth(w, c).None? ==>
              CurrentHealth(w, c) == 0.0 && MaxHealth(w, c) == 0.0 && HealthPercent(w, c) == 0.0 && !Alive(w, c)
    ensures ResolvedCurrency(w, c).None? ==> Money(w, c) == 0
  {
  }

  /** With no owning pawn nothing resolves, so every getter reports its default. */
  lemma NoPawnNoComponents(w: World, c: Cache)
    requires w.owningPawn.None?
    ensures ResolvedCombat(w, c).None? && ResolvedCurrency(w, c).None? && ResolvedHealth(w, c).None?
    ensures AmmoMagazine(w, c) == 0 && Money(w, c) == 0 && HealthPercent(w, c) == 0.0 && !ShowCrosshair(w, c)
  {
    GettersDefault(w, c);
  }

  /**
   * The crosshair shows exactly when a combat component resolves, it holds a current
   * weapon and it is not scoping; a shown crosshair is never reported as scoping by the
   * next getter call.
   */
  lemma ShowCrosshairIff(w: World, c: Cache)
    requires WellFormed(w)
    ensures ShowCrosshair(w, c) <==>
              ResolvedCombat(w, c).Some?
              && w.combatState(ResolvedCombat(w, c).value).current.Some?
              && !w.combatState(ResolvedCombat(w, c).value).scoping
    ensures ShowCrosshair(w, c) ==> !Scoping(w, Refresh(w, c))
    ensures ShowCrosshair(w, c) ==> Combat.AmmoInMagazine(w.combatState(ResolvedCombat(w, c).value), w.magazineOf)
                                    == AmmoMagazine(w, Refresh(w, c))
  {
    RefreshIdempotent(w, c);
  }

  class CrosshairWidgetBase {
    /** CachedOwningPawn */
    var cachedOwningPawn: Option<ObjectId>
    /** CachedCombatComponent */
    var cachedCombatComponent: Option<ObjectId>
    /** CachedCurrencyComponent */
    var cachedCurrencyComponent: Option<ObjectId>
    /** CachedHealthComponent */
    var cachedHealthComponent: Option<ObjectId>

    function Snapshot(): Cache
      reads this
    {
      Cache(cachedOwningPawn, cachedCombatComponent, cachedCurrencyComponent, cachedHealthComponent)
    }

    constructor ()
      ensures Snapshot() == Cache(None, None, None, None)
    {
      cachedOwningPawn := None;
      cachedCombatComponent := None;
      cachedCurrencyComponent := None;
      cachedHealthComponent := None;
    }

    /** RefreshCachedComponents */
    method RefreshCachedComponents(w: World)
      modifies this
      ensures Snapshot() == Refresh(w, old(Snapshot()))
    {
      var owningPawn := w.owningPawn;
      if owningPawn.None? {
        cachedOwningPawn := None;
        cachedCombatComponent := None;
        cachedCurrencyComponent := None;
        cachedHealthComponent := None;
        return;
      }
      var p := owningPawn.value;
      if GetRef(cachedOwningPawn, w.live) != owningPawn {
        cachedOwningPawn := owningPawn;
        cachedCombatComponent := w.combatOf(p);
        cachedCurrencyComponent := w.currencyOf(p);
        cachedHealthComponent := w.healthOf(p);
        return;
      }
      if !IsValidRef(cachedCombatComponent, w.live) {
        cachedCombatComponent := w.combatOf(p);
      }
      if !IsValidRef(cachedCurrencyComponent, w.live) {
        cachedCurrencyComponent := w.currencyOf(p);
      }
      if !IsValidRef(cachedHealthComponent, w.live) {
        cachedHealthComponent := w.healthOf(p);
      }
    }

    /** ResolveCombatComponent */
    method ResolveCombatComponent(w: World) returns (r: Option<ObjectId>)
      modifies this
      ensures Snapshot() == Refresh(w, old(Snapshot()))
      ensures r == ResolvedCombat(w, old(Snapshot()))
    {
      RefreshCachedComponents(w);
      r := GetRef(cachedCombatComponent, w.live);
    }

    /** ResolveCurrencyComponent */
    method ResolveCurrencyComponent(w: World) returns (r: Option<ObjectId>)
      modifies this
      ensures Snapshot() == Refresh(w, old(Snapshot()))
      ensures r == ResolvedCurrency(w, old(Snapshot()))
    {
      RefreshCachedComponents(w);
      r := GetRef(cachedCurrencyComponent, w.live);
    }

    /** ResolveHealthComponent */
    method ResolveHealthComponent(w: World) returns (r: Option<ObjectId>)
      modifies this
      ensures Snapshot() == Refresh(w, old(Snapshot()))
      ensures r == ResolvedHealth(w, old(Snapshot()))
    {
      RefreshCachedComponents(w);
      r := GetRef(cachedHealthComponent, w.live);
    }

    /** GetAmmoMagazine */
    method GetAmmoMagazine(w: World) returns (r: int)
      modifies this
      ensures Snapshot() == Refresh(w, old(Snapshot()))
      ensures r == AmmoMagazine(w, old(Snapshot()))
    {
      var combatComp := ResolveCombatComponent(w);
      if combatComp.Some? {
        return Combat.AmmoInMagazine(w.combatState(combatComp.value), w.magazineOf);
      }
      return 0;
    }

    /** GetAmmoReserve */
    method GetAmmoReserve(w: World) returns (r: int)
      modifies this
      ensures Snapshot() == Refresh(w, old(Snapshot()))
      ensures r == AmmoReserve(w, old(Snapshot()))
    {
      var combatComp := ResolveCombatComponent(w);
      if combatComp.Some? {
        return Combat.AmmoInReserve(w.combatState(combatComp.value), w.reserveOf);
      }
      return 0;
    }

    /** GetCurrentHealth */
    method GetCurrentHealth(w: World) returns (r: real)
      modifies this
      ensures Snapshot() == Refresh(w, old(Snapshot()))
      ensures r == CurrentHealth(w, old(Snapshot()))
    {
      var healthComp := ResolveHealthComponent(w);
      if healthComp.Some? {
        return w.healthView(healthComp.value).current;
      }
      return 0.0;
    }

    /** GetMaxHealth */
    method GetMaxHealth(w: World) returns (r: real)
      modifies this
      ensures Snapshot() == Refresh(w, old(Snapshot()))
      ensures r == MaxHealth(w, old(Snapshot()))
    {
      var healthComp := ResolveHealthComponent(w);
      if healthComp.Some? {
        return w.healthView(healthComp.value).maxHealth;
      }
      return 0.0;
    }

    /** GetHealthPercent */
    method GetHealthPercent(w: World) returns (r: real)
      modifies this
      ensures Snapshot() == Refresh(w, old(Snapshot()))
      ensures r == HealthPercent(w, old(Snapshot()))
    {
      var healthComp := ResolveHealthComponent(w);
      if healthComp.Some? {
        var view := w.healthView(healthComp.value);
        return CharacterHealth.HealthPercent(view.current, view.maxHealth);
      }
      return 0.0;
    }

    /** IsAlive */
    method IsAlive(w: World) returns (r: bool)
      modifies this
      ensures Snapshot() == Refresh(w, old(Snapshot()))
      ensures r == Alive(w, old(Snapshot()))
    {
      var healthComp := ResolveHealthComponent(w);
      if healthComp.Some? {
        return w.healthView(healthComp.value).current > 0.0;
      }
      return false;
    }

    /** IsScoping */
    method IsScoping(w: World) returns (r: bool)
      modifies this
      ensures Snapshot() == Refresh(w, old(Snapshot()))
      ensures r == Scoping(w, old(Snapshot()))
    {
      var combatComp := ResolveCombatComponent(w);
      if combatComp.Some? {
        return w.combatState(combatComp.value).scoping;
      }
      return false;
    }

    /** ShouldShowCrosshair */
    method ShouldShowCrosshair(w: World) returns (r: bool)
      modifies this
      ensures Snapshot() == Refresh(w, old(Snapshot()))
      ensures r == ShowCrosshair(w, old(Snapshot()))
    {
      var combatComp := ResolveCombatComponent(w);
      if combatComp.None? {
        return false;
      }
      var state := w.combatState(combatComp.value);
      return state.current.Some? && !state.scoping;
    }

    /** GetMoney */
    method GetMoney(w: World) returns (r: int)
      modifies this
      ensures Snapshot() == Refresh(w, old(Snapshot()))
      ensures r == Money(w, old(Snapshot()))
    {
      var currencyComp := ResolveCurrencyComponent(w);
      if currencyComp.Some? {
        return w.balanceOf(currencyComp.value);
      }
      return 0;
    }
  }
}
