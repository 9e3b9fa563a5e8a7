# Gameplay components of a first-person Unreal Engine project, modelled in Dafny

This project models the gameplay state machines of a first-person shooter built on
Unreal Engine. The engine itself is not modelled. Each component whose methods update its
fields is a Dafny `class` with those fields. Each method is specified against a pure
function of a snapshot of the old state, and the properties the components promise are
proved as lemmas about those functions.

- **Wallet** (`currency.dfy`, `UCurrencyComponent`): an int32 balance with guarded add and
  spend and an `OnCurrencyChanged` broadcast.
- **Character health** (`character_health.dfy`, `Character/UHealthComponent`):
  - health clamped to [0, MaxHealth];
  - damage and healing that return the amount actually applied;
  - the one-shot "out of health" latch and death handling;
  - the currency reward paid to the killer.
- **Replicated combat health** (`combat_health.dfy`, `Combat/UHealthComponent`):
  server-side damage with a single death broadcast, and the client's `OnRep_Health`.
- **Hit zones** (`hit_zone.dfy`, `UHitZoneComponent`): the first rule that lists the
  struck bone decides the zone.
- **Loadout and equip state machine** (`combat.dfy`, `UCombatComponent`):
  - loadout initialization;
  - equipping by slot and next/previous cycling;
  - replacing and unequipping weapons;
  - fire routing to widgets or the weapon;
  - scoping with a saved camera field of view;
  - ammo getters.
- **Weapon fire gating** (`weapon.dfy`, `AWeaponBase`):
  - the trigger-held flag and the looping fire timer;
  - the server's rate guard;
  - shot results assembled from two traces;
  - multicast effects.
- **Interaction focus** (`interaction.dfy`, `UInteractionComponent`):
  - the throttled focus check and the focus begin/end calls;
  - `TryInteract`'s guards;
  - widget press and release;
  - the focused actor's name and action.
- **Interactable actor** (`interactable.dfy`, `AInteractableActor`): the choice of
  montage, playing it, and the branch that defers the Blueprint interaction until the
  montage completes.
- **Input binding** (`controller.dfy`, `AMainPlayerController`):
  - choosing the mapping contexts for the platform;
  - classifying each input action by name;
  - binding each action to its handlers once;
  - the mouse cursor mode.
- **HUD crosshair** (`crosshair.dfy`, `UCrosshairWidgetBase`): the weak-pointer cache of
  the pawn's components, and the getters that read them.

`common.dfy` holds:
- the engine constants (`KINDA_SMALL_NUMBER` = 1e-4, `SMALL_NUMBER` = 1e-8,
  `INDEX_NONE` = -1, the int32 range);
- `FMath::Clamp`, `Max` and `Min`;
- weak-pointer validity;
- filtering out null entries.

`text.dfy` holds the case-insensitive name comparison and the substring test used for
`FName` and `FString::Contains`.

How the engine is represented:
- Actor and component references are `Option<ObjectId>`.
- A weak or `IsValid` reference is valid while its object is in a `live` set passed by
  the caller.
- Engine calls, Blueprint events and delegate broadcasts are appended to an event log
  (`events`).
- Everything the engine answers is an oracle: a field or parameter of an environment
  value. This covers traces, `SpawnActor` results, the animation instance, montage
  lengths, `FindComponentByClass`, an action's object name, world time and the
  touch-interface query.
- Floats are reals and int32 is an explicit subtype.

Behaviour worth knowing that the model makes precise:
- `EquipSpawnedWeapon` clears the current weapon before it equips slot 0. Its
  `OnCurrentWeaponChanged` broadcast therefore never names the weapon that was equipped
  before (`Combat.EquipSpawnedBroadcasts`).
- `BindInputActions` tests each keyword both plainly and as `"IA_" + keyword`. The
  prefixed tests can never change the outcome, because a name containing `IA_Move`
  already contains `Move` (`Controller.ClassifyIgnoresPrefixedTests`).
- `ResolveDamageMultiplier` ignores the authored per-zone multipliers and always
  returns 1.

Facts about the code that the model is built on:
- The weapon code has no fire modes, magazine, dry fire or recoil. `StartFire` only sets
  the trigger flag and arms one looping timer, and the interval is 60 / max(RPM, 1)
  (`Weapon.FireInterval`).
- `CrosshairWidgetBase.cpp` uses `GetMoney`, `ResolveCurrencyComponent` and
  `CachedCurrencyComponent`, which `CrosshairWidgetBase.h` does not declare. They are
  modelled from the .cpp.
- `WeaponBase.h:107` declares `CanServerAcceptShot()` non-const, while `WeaponBase.cpp:215` defines it
  `const` and still records `LastServerFireTime`. The model follows the body: an accepted shot
  records the time.
- `CombatComponent.cpp` uses `SpawnedLoadoutWeapons`, `CurrentWeaponSlotIndex`,
  `InitialEquippedSlotIndex`, `LoadoutWeaponClasses` and `OnCurrentWeaponChanged`, which
  `CombatComponent.h` does not declare. They are also modelled from the .cpp.

## Model

| member | source | states |
|---|---|---|
| Common.Clamp | Source/Project/Character/HealthComponent.cpp:159 | FMath::Clamp: lo below the range, x inside it, hi above it, so the result lies in [lo, hi] whenever lo <= hi. |
| Common.GetRef | Source/Project/UI/HUD/CrosshairWidgetBase.cpp:114-130 | `TWeakObjectPtr::Get`: a reference is returned exactly when it is valid, and then it is unchanged. |
| Common.NonNull | Source/Project/Combat/CombatComponent.cpp:112-118 | The non-null entries of a list, in order: never longer than the list, and empty exactly when every entry is null. |
| Common.NonNullMembers | Source/Project/Combat/CombatComponent.cpp:112-118 | An id is among the non-null entries exactly when some entry of the list holds it. |
| Common.NonNullSnoc | Source/Project/Combat/CombatComponent.cpp:140-154 | Filtering one more entry appends its value when it is non-null and nothing otherwise. |
| Text.ContainsTransitive | Source/Project/Controllers/MainPlayerController.cpp:164-220 | Case-insensitive containment is transitive: a name containing a word contains everything that word contains. |
| Text.ContainsSuffix | Source/Project/Controllers/MainPlayerController.cpp:164-220 | "IA_" + word contains word, so the prefixed keyword tests imply the plain ones. |
| Text.ContainsIgnoreCase | Source/Project/Controllers/MainPlayerController.cpp:164-220 | FString::Contains ignoring case: a contained word is never longer than the name. |
| Text.NameEquals | Source/Project/Combat/CombatComponent.cpp:428-439 | FName equality: reflexive, NAME_None equals only NAME_None, and two other names are equal only when they agree up to case. |
| Currency.WrapInt32 | Source/Project/Character/CurrencyComponent.cpp:13 | int32 two's-complement truncation: identity inside the int32 range; subtracts 2^32 just above it. |
| Currency.AddAsWritten | Source/Project/Character/CurrencyComponent.cpp:7-20 | AddCurrency with the source's wrapping int32 sum: a non-positive amount changes nothing and returns 0; without overflow the balance rises by exactly the amount. |
| Currency.AddOverflowDropsBalance | Source/Project/Character/CurrencyComponent.cpp:12-14 | As written, adding 1 to a balance of 2147483647 empties the wallet and reports a delta of -2147483647. |
| Currency.AddOutcome | Source/Project/Character/CurrencyComponent.cpp:7-20 | Corrected AddCurrency, with the sum saturating: the balance stays in [0, int32 max]. A non-positive amount changes nothing. Otherwise the delta is new - old, in [0, amount], and exactly the amount when it fits. |
| Currency.AddOutcomeMatchesSourceWithoutOverflow | Source/Project/Character/CurrencyComponent.cpp:7-20 | When the sum fits in int32, the corrected and as-written AddCurrency agree. |
| Currency.SpendOutcome | Source/Project/Character/CurrencyComponent.cpp:22-35 | SpendCurrency lowers the balance by exactly Amount iff 0 < Amount <= balance. Otherwise nothing changes. The balance never goes negative. |
| Currency.SpendThenAddRestores | Source/Project/Character/CurrencyComponent.cpp:7-35 | Adding back what a successful spend took restores the balance. |
| Currency.ChangeEvents | Source/Project/Character/CurrencyComponent.cpp:15-17 | OnCurrencyChanged is broadcast exactly when the delta is non-zero, carrying the new balance and the delta. |
| Currency.Wallet.constructor | Source/Project/Character/CurrencyComponent.h:41 | A wallet starts at its authored, non-negative balance with no broadcasts. |
| Currency.Wallet.GetCurrency | Source/Project/Character/CurrencyComponent.h:36 | The balance read is a non-negative int32. |
| Currency.Wallet.AddCurrency | Source/Project/Character/CurrencyComponent.cpp:7-20 | The new balance and returned delta are AddOutcome's. The broadcast is ChangeEvents of that outcome. The balance stays a non-negative int32. |
| Currency.Wallet.SpendCurrency | Source/Project/Character/CurrencyComponent.cpp:22-35 | Returns true iff 0 < Amount <= balance. The new balance and the broadcast are SpendOutcome's. |
| CharacterHealth.AppliedDamage | Source/Project/Character/HealthComponent.cpp:36-43 | ApplyDamage returns 0 for a non-positive amount or a dead owner. Otherwise it returns min(amount, current health), never negative. |
| CharacterHealth.AppliedHealing | Source/Project/Character/HealthComponent.cpp:45-52 | ApplyHealing returns 0 for a non-positive amount or full health. Otherwise it returns min(amount, MaxHealth - current), never negative. |
| CharacterHealth.HealthPercent | Source/Project/Character/HealthComponent.cpp:56-62 | 0 when MaxHealth <= KINDA_SMALL_NUMBER. Otherwise the ratio with percent * Max == Current, in [0, 1] for valid health. |
| CharacterHealth.RewardReceiver | Source/Project/Character/HealthComponent.cpp:100-122 | The instigating controller's pawn, or else the causer's instigator. Never the owner. Any non-owner candidate is chosen, in that order. |
| CharacterHealth.RewardPayee | Source/Project/Character/HealthComponent.cpp:98-129 | A reward is paid iff rewards are enabled, the amount is positive and the receiver exists and has a wallet. The payee is never the owner. |
| CharacterHealth.SetHealthEvents | Source/Project/Character/HealthComponent.cpp:162-173 | OnHealthChanged fires iff the delta is not nearly zero. OnOutOfHealth fires iff health reaches 0 with the latch clear, and death is handled then too when there is an owner. |
| CharacterHealth.OutOfHealthExactlyOnTransition | Source/Project/Character/HealthComponent.cpp:166-173 | While the latch mirrors "health <= 0", OnOutOfHealth fires exactly on an alive-to-dead transition. |
| CharacterHealth.HealthComponent.constructor | Source/Project/Character/HealthComponent.h:71-106 | The authored MaxHealth, CurrentHealth, init and reward settings, with the latch clear, no handler bound and no broadcasts. |
| CharacterHealth.HealthComponent.GetHealthPercent | Source/Project/Character/HealthComponent.cpp:56-62 | CurrentHealth / MaxHealth, and 0 when MaxHealth <= KINDA_SMALL_NUMBER. The percent lies in [0, 1] whenever health lies in [0, MaxHealth]. |
| CharacterHealth.HealthComponent.BeginPlay | Source/Project/Character/HealthComponent.cpp:15-34 | MaxHealth becomes max(MaxHealth, 1). Health is MaxHealth when the init flag is set and is clamped otherwise. The latch is set iff health <= 0. The damage handler is bound when there is an owner, and one OnHealthChanged with delta 0 is broadcast. |
| CharacterHealth.HealthComponent.HandleDeath | Source/Project/Character/HealthComponent.cpp:131-155 | With an owner, the owner can no longer be damaged and death is logged. Health is untouched. |
| CharacterHealth.HealthComponent.SetHealth | Source/Project/Character/HealthComponent.cpp:157-176 | Health becomes Clamp(NewHealth, 0, MaxHealth) and new - old is returned. The latch is set iff health <= 0, and the broadcasts are SetHealthEvents'. |
| CharacterHealth.HealthComponent.ApplyDamage | Source/Project/Character/HealthComponent.cpp:36-43 | Returns AppliedDamage. Nothing changes for a non-positive amount or a dead owner; otherwise health drops by exactly the returned amount. |
| CharacterHealth.HealthComponent.ApplyHealing | Source/Project/Character/HealthComponent.cpp:45-52 | Returns AppliedHealing. Nothing changes for a non-positive amount or full health; otherwise health rises by exactly the returned amount. |
| CharacterHealth.HealthComponent.RestoreFullHealth | Source/Project/Character/HealthComponent.cpp:54 | SetHealth(MaxHealth) on any component: health becomes Clamp(MaxHealth, 0, MaxHealth), which is MaxHealth when MaxHealth >= 0. MaxHealth and the handler are kept. The latch is set iff health <= 0, the broadcasts are SetHealthEvents' and the undamageable flag follows death handling. A valid component stays valid and keeps its flag. |
| CharacterHealth.HealthComponent.GrantDeathCurrencyReward | Source/Project/Character/HealthComponent.cpp:98-129 | Exactly the RewardPayee's wallet gains the reward, through the saturating AddCurrency. Every other wallet is unchanged. |
| CharacterHealth.HealthComponent.HandleOwnerTakeAnyDamage | Source/Project/Character/HealthComponent.cpp:64-96 | Damage to another actor, non-positive damage, an undamageable owner or a dead owner changes neither health, the latch, the broadcasts nor the flag. Otherwise health becomes Clamp(health - damage, 0, MaxHealth) with the latch set iff it is <= 0, SetHealthEvents' broadcasts and the flag cleared on death. The reward is paid only on an alive-to-dead transition. |
| CombatHealth.DamageStep | Source/Project/Combat/HealthComponent.cpp:24-41 | Non-positive damage or a dead owner is ignored. Otherwise health becomes max(0, health - damage) within [0, MaxHealth], OnHealthChanged carries the new health and the delta, and OnDeath follows at 0. |
| CombatHealth.CountDeaths | Source/Project/Combat/HealthComponent.cpp:37-40 | The number of OnDeath broadcasts in a log: 0 exactly when there is none. |
| CombatHealth.CountDeathsAppend | Source/Project/Combat/HealthComponent.cpp:37-40 | Death counts add up over concatenated logs. |
| CombatHealth.DeathAtMostOnce | Source/Project/Combat/HealthComponent.cpp:24-41 | Over any damage sequence OnDeath is broadcast exactly once if the owner started alive and ends at 0, and never otherwise. A dead owner's health is unchanged. |
| CombatHealth.DamageRun | Source/Project/Combat/HealthComponent.cpp:24-41 | No damage changes nothing. From health in [0, MaxHealth] health never rises or goes negative, and each damage event broadcasts at most twice. |
| CombatHealth.RepNotifyEvents | Source/Project/Combat/HealthComponent.cpp:43-51 | OnRep_Health broadcasts OnHealthChanged(new, new - previous), then OnDeath iff previous > 0 and new <= 0. |
| CombatHealth.ClientSeesServerBroadcasts | Source/Project/Combat/HealthComponent.cpp:24-51 | A client receiving every replicated health value broadcasts exactly what the server broadcast, OnDeath included. |
| CombatHealth.HealthComponent.constructor | Source/Project/Combat/HealthComponent.h:38-42 | A component with its MaxHealth, zero health and no handler bound. |
| CombatHealth.HealthComponent.BeginPlay | Source/Project/Combat/HealthComponent.cpp:12-22 | Health becomes MaxHealth. The damage handler is bound only for an owner with authority. |
| CombatHealth.HealthComponent.HandleTakeAnyDamage | Source/Project/Combat/HealthComponent.cpp:24-41 | The new health and broadcasts are DamageStep's. |
| CombatHealth.HealthComponent.OnRepHealth | Source/Project/Combat/HealthComponent.cpp:43-51 | Health is untouched and the broadcasts are RepNotifyEvents'. |
| HitZone.FirstMatchFrom | Source/Project/Combat/HitZoneComponent.cpp:14-19 | The first rule at or after an index that lists the bone, or none exactly when no later rule lists it. |
| HitZone.ResolvedZone | Source/Project/Combat/HitZoneComponent.cpp:8-24 | A None bone gives Unknown. Otherwise the zone is that of the first rule listing the bone, or Unknown when none does. The zone is always Unknown or some rule's zone. |
| HitZone.ResolveHitZone | Source/Project/Combat/HitZoneComponent.cpp:8-24 | The loop returns ResolvedZone and does not change the rules. |
| HitZone.LaterRulesIrrelevant | Source/Project/Combat/HitZoneComponent.cpp:14-19 | Rules after the first match never matter: appending rules keeps the match. |
| HitZone.ResolveDamageMultiplier | Source/Project/Combat/HitZoneComponent.cpp:26-33 | Always 1, whatever the hit, the rules and the default multiplier. |
| Combat.EffectiveLoadout | Source/Project/Combat/CombatComponent.cpp:112-130 | The non-null loadout classes in order, or the starter class alone when there are none. It is empty exactly when both give nothing. |
| Combat.ActiveStateEvents | Source/Project/Combat/CombatComponent.cpp:499-517 | No call for an invalid weapon. Otherwise exactly one activation or deactivation. |
| Combat.ChangedEvent | Source/Project/Combat/CombatComponent.cpp:519-526 | OnCurrentWeaponChanged carries previous, new and slot, and the invalid tag when there is no new weapon. |
| Combat.Broadcasts | Source/Project/Combat/CombatComponent.cpp:519-526 | The OnCurrentWeaponChanged broadcasts of a log: every entry of the result is such a broadcast. |
| Combat.BroadcastsWithin | Source/Project/Combat/CombatComponent.cpp:519-526 | The broadcasts of a log are no more than its entries, and each of them occurs in the log. |
| Combat.BroadcastsAppend | Source/Project/Combat/CombatComponent.cpp:519-526 | Broadcasts of concatenated logs concatenate. |
| Combat.BroadcastsNone | Source/Project/Combat/CombatComponent.cpp:519-526 | A log with no change broadcast contributes none. |
| Combat.BroadcastsSnoc | Source/Project/Combat/CombatComponent.cpp:519-526 | One more event adds a broadcast exactly when it is one. |
| Combat.ScopeInFov | Source/Project/Combat/CombatComponent.cpp:398-402 | The camera takes the scoped FOV. The default is saved from the camera only while none is stored (<= KINDA_SMALL_NUMBER). |
| Combat.ScopeOutFov | Source/Project/Combat/CombatComponent.cpp:423-425 | A stored default is restored to the camera. Without one nothing changes. |
| Combat.ScopeRoundTrip | Source/Project/Combat/CombatComponent.cpp:380-426 | With a camera FOV above KINDA_SMALL_NUMBER and either no stored default or one equal to the camera FOV, scoping in one or more times and then out restores the camera's original FOV. |
| Combat.AimingEvents | Source/Project/Combat/CombatComponent.cpp:383-385 | SetAiming is called on the current weapon only when there is one. |
| Combat.StartScopeState | Source/Project/Combat/CombatComponent.cpp:380-403 | Scoping turns on and the weapon aims. The FOV changes (ScopeInFov) only with scope FOV enabled and a camera. Nothing else changes. |
| Combat.StopScopeState | Source/Project/Combat/CombatComponent.cpp:405-426 | Scoping turns off and the weapon stops aiming. The FOV is restored only with scope FOV enabled and a camera. The default is kept. |
| Combat.ScopeOverlayActive | Source/Project/Combat/CombatComponent.cpp:428-439 | True iff scoping with a current weapon whose type tag exactly matches the valid overlay tag. |
| Combat.DestroyRunEffect | Source/Project/Combat/CombatComponent.cpp:528-538 | Exactly the listed weapons other than the kept one become invalid, and every destroy call is for a valid listed weapon. |
| Combat.DestroyRunBroadcasts | Source/Project/Combat/CombatComponent.cpp:287-291 | Destroying weapons adds no OnCurrentWeaponChanged broadcast. |
| Combat.DestroyAllState | Source/Project/Combat/CombatComponent.cpp:528-538 | The list empties. There is no current weapon and the slot is INDEX_NONE. Exactly the listed weapons become invalid, and only destroy calls are logged. |
| Combat.SwitchTo | Source/Project/Combat/CombatComponent.cpp:190-207 | The slot's weapon becomes current, scoping stops, and the list, the valid set and the default FOV are kept. |
| Combat.SwitchToBroadcasts | Source/Project/Combat/CombatComponent.cpp:194-206 | Switching broadcasts exactly once: (previous current, new weapon, slot). |
| Combat.EquipSlot | Source/Project/Combat/CombatComponent.cpp:168-208 | Succeeds iff the index is in range, its weapon is valid and the owner is a character. A failure changes nothing. Success makes that weapon current in that slot, and re-equipping the current slot only re-activates it. |
| Combat.EquipSlotValid | Source/Project/Combat/CombatComponent.cpp:168-208 | EquipWeaponSlot keeps the invariant: distinct weapons, with a current weapon iff the slot is set, and then the weapon in that slot. |
| Combat.EquipSlotBroadcasts | Source/Project/Combat/CombatComponent.cpp:185-207 | A success broadcasts exactly once with (previous, new, slot), except that re-equipping the current slot broadcasts nothing. |
| Combat.NextSlot | Source/Project/Combat/CombatComponent.cpp:210-220 | (base + 1) mod n, with base 0 for INDEX_NONE, always in [0, n). |
| Combat.PreviousSlot | Source/Project/Combat/CombatComponent.cpp:222-232 | (base - 1 + n) mod n, with base 0 for INDEX_NONE, always in [0, n). |
| Combat.NextPreviousInverse | Source/Project/Combat/CombatComponent.cpp:210-232 | Cycling forward then back, or back then forward, returns to the same slot. |
| Combat.EquipNext | Source/Project/Combat/CombatComponent.cpp:210-220 | False with at most one weapon. Otherwise EquipWeaponSlot(NextSlot), and a success leaves the slot in range. |
| Combat.EquipPrevious | Source/Project/Combat/CombatComponent.cpp:222-232 | False with at most one weapon. Otherwise EquipWeaponSlot(PreviousSlot), and a success leaves the slot in range. |
| Combat.ReplaceLoadout | Source/Project/Combat/CombatComponent.cpp:283-300 | Scoping stops, every other listed weapon is destroyed, and the list becomes exactly [NewWeapon] with nothing current. |
| Combat.EquipSpawned | Source/Project/Combat/CombatComponent.cpp:267-302 | Succeeds iff the weapon is non-null and valid and the owner is a character. A failure, or the weapon already current, changes nothing. Otherwise the list becomes [NewWeapon] and slot 0 is equipped. The invariant is kept. |
| Combat.EquipSpawnedBroadcasts | Source/Project/Combat/CombatComponent.cpp:299-301 | Replacing the loadout broadcasts once, naming no previous weapon, the new weapon and slot 0. |
| Combat.ReplaceLoadoutBroadcasts | Source/Project/Combat/CombatComponent.cpp:283-298 | Stopping the scope, destroying the other weapons and deactivating the new one broadcast nothing. |
| Combat.IndexOf | Source/Project/Combat/CombatComponent.cpp:315 | TArray::IndexOfByKey: the first index of the element, or INDEX_NONE exactly when it is absent. |
| Combat.Unequip | Source/Project/Combat/CombatComponent.cpp:304-330 | A no-op without a current weapon. Otherwise the weapon leaves the list with the rest in order. The camera and default FOV are StopScope's. The log is StopScope's calls, then StopFire and SetAiming(false) on the weapon, then its destroy, or its detach and deactivation, and then the broadcast (previous, null, INDEX_NONE). Nothing is current and the slot is INDEX_NONE. |
| Combat.Deactivations | Source/Project/Combat/CombatComponent.cpp:140-154 | One deactivation per spawned weapon, in order. |
| Combat.LoadSpawned | Source/Project/Combat/CombatComponent.cpp:140-154 | The spawned weapons become the list, valid and deactivated, in order. Distinct spawns keep the invariant. |
| Combat.LoadSpawnedSnoc | Source/Project/Combat/CombatComponent.cpp:140-154 | Loading one more weapon appends it, validates it and deactivates it. |
| Combat.InitialSlot | Source/Project/Combat/CombatComponent.cpp:163-164 | clamp(InitialEquippedSlotIndex, 0, n - 1), in [0, n) for n >= 1. |
| Combat.InitializeLoadoutState | Source/Project/Combat/CombatComponent.cpp:94-166 | Fails without a character owner or a world, changing nothing. Otherwise scoping stops and the old loadout is destroyed. An empty effective loadout leaves nothing equipped. Otherwise the successfully spawned weapons become the list, never more than the effective loadout, and the clamped initial slot is equipped. Success iff at least one weapon spawned. |
| Combat.LoadAndEquip | Source/Project/Combat/CombatComponent.cpp:140-166 | The spawned list is loaded, and the initial slot is equipped iff the list is non-empty. |
| Combat.InitializeLoadoutValid | Source/Project/Combat/CombatComponent.cpp:94-166 | InitializeLoadout keeps the invariant when the spawned actors are distinct. |
| Combat.CacheFovState | Source/Project/Combat/CombatComponent.cpp:546-548 | The camera FOV becomes the default only when a camera exists and no default is stored. |
| Combat.StartFireEvents | Source/Project/Combat/CombatComponent.cpp:332-348 | While a widget is hovered (with fire routed to widgets) the press goes to the widget and the weapon does not fire. Otherwise the current weapon, if any, starts firing. |
| Combat.StopFireEvents | Source/Project/Combat/CombatComponent.cpp:350-358 | The widget press is released iff there is an interaction component. The current weapon, if any, stops firing. |
| Combat.AmmoTotalAvailable | Source/Project/Combat/CombatComponent.cpp:364-378 | The magazine plus the reserve of the current weapon, and 0 without one. |
| Combat.CombatComponent.constructor | Source/Project/Combat/CombatComponent.cpp:69-73 | No weapons, nothing current, slot INDEX_NONE, no default FOV. |
| Combat.CombatComponent.SetWeaponActiveState | Source/Project/Combat/CombatComponent.cpp:499-517 | Only the ActiveStateEvents are logged. |
| Combat.CombatComponent.BroadcastCurrentWeaponChanged | Source/Project/Combat/CombatComponent.cpp:519-526 | Only the ChangedEvent is logged. |
| Combat.CombatComponent.StartScope | Source/Project/Combat/CombatComponent.cpp:380-403 | The new state is StartScopeState. |
| Combat.CombatComponent.StopScope | Source/Project/Combat/CombatComponent.cpp:405-426 | The new state is StopScopeState. |
| Combat.CombatComponent.IsScopeOverlayActive | Source/Project/Combat/CombatComponent.cpp:437-439 | The result is ScopeOverlayActive. |
| Combat.CombatComponent.GetAmmoTotalAvailable | Source/Project/Combat/CombatComponent.cpp:372-378 | The result is AmmoTotalAvailable. |
| Combat.CombatComponent.EquipWeaponSlot | Source/Project/Combat/CombatComponent.cpp:168-208 | The result and new state are EquipSlot's. |
| Combat.CombatComponent.EquipNextWeapon | Source/Project/Combat/CombatComponent.cpp:210-220 | The result and new state are EquipNext's. |
| Combat.CombatComponent.EquipPreviousWeapon | Source/Project/Combat/CombatComponent.cpp:222-232 | The result and new state are EquipPrevious's. |
| Combat.CombatComponent.DestroyAllLoadoutWeapons | Source/Project/Combat/CombatComponent.cpp:528-538 | The loop's new state is DestroyAllState. |
| Combat.CombatComponent.EquipSpawnedWeapon | Source/Project/Combat/CombatComponent.cpp:267-302 | The result and new state are EquipSpawned's. |
| Combat.CombatComponent.DestroyOtherWeapons | Source/Project/Combat/CombatComponent.cpp:287-291 | The loop leaves exactly DestroyRun's valid set and destroy calls, keeping the new weapon, and changes nothing else. |
| Combat.CombatComponent.EquipWeapon | Source/Project/Combat/CombatComponent.cpp:234-265 | A null class or a missing owner or world fails with no change. Otherwise the spawned weapon goes through EquipSpawned. |
| Combat.CombatComponent.UnequipCurrentWeapon | Source/Project/Combat/CombatComponent.cpp:304-330 | The new state is Unequip's. |
| Combat.CombatComponent.InitializeLoadout | Source/Project/Combat/CombatComponent.cpp:94-166 | The result and new state are InitializeLoadoutState's. |
| Combat.CombatComponent.AddSpawnedWeapon | Source/Project/Combat/CombatComponent.cpp:150-153 | One spawned weapon is appended, made valid and deactivated. |
| Combat.CombatComponent.CollectLoadoutClasses | Source/Project/Combat/CombatComponent.cpp:112-130 | The loop collects EffectiveLoadout. |
| Combat.CombatComponent.SpawnLoadout | Source/Project/Combat/CombatComponent.cpp:140-154 | The spawn loop leaves LoadSpawned of the non-null spawns. |
| Combat.CombatComponent.BeginPlay | Source/Project/Combat/CombatComponent.cpp:75-92 | The FOV is cached. The loadout is initialized iff configured to and nothing is equipped. |
| Combat.CombatComponent.StartFire | Source/Project/Combat/CombatComponent.cpp:332-348 | Only StartFireEvents are logged. |
| Combat.CombatComponent.StopFire | Source/Project/Combat/CombatComponent.cpp:350-358 | Only StopFireEvents are logged. |
| Weapon.FireInterval | Source/Project/Combat/WeaponBase.cpp:74 | 60 / max(RPM, 1): positive, at most 60, and interval * RPM == 60 for RPM >= 1. |
| Weapon.MinShotGap | Source/Project/Combat/WeaponBase.cpp:222-225 | The guard's gap, 90% of the interval: positive and below the interval. |
| Weapon.SetTimerState | Source/Project/Combat/WeaponBase.cpp:61-80 | No world means no change. False clears the timer. True arms a looping timer at FireInterval unless one is active, and never re-arms an active one. |
| Weapon.StartFireState | Source/Project/Combat/WeaponBase.cpp:34-48 | No change unless the owner is a controlled pawn. Otherwise the trigger is held, the timer is armed, and a client sends ServerStartFire. |
| Weapon.StopFireState | Source/Project/Combat/WeaponBase.cpp:50-59 | The trigger is released and the timer cleared, always. A client sends ServerStopFire. |
| Weapon.StartFireIdempotent | Source/Project/Combat/WeaponBase.cpp:74-79 | A second StartFire leaves the trigger, the timer and the guard as the first left them; a client only sends ServerStartFire again. |
| Weapon.ServerStartFireState | Source/Project/Combat/WeaponBase.cpp:166-175 | Nothing changes unless the owner can fire. Otherwise the trigger is held and, with a world, the timer runs; a timer it arms gets the interval 60 / max(RPM, 1), and a running timer or no world keeps everything else. The log and the last server fire time are never touched. |
| Weapon.CanLocalFire | Source/Project/Combat/WeaponBase.cpp:209-213 | An owner pawn with a controller. Its use is stated by ServerStartFireState and StartFireIsServerStartFirePlusRpc. |
| Weapon.StartFireIsServerStartFirePlusRpc | Source/Project/Combat/WeaponBase.cpp:34-48 | StartFire on any copy is ServerStartFire's state with one ServerStartFire RPC logged, exactly when the owner can fire and the copy lacks authority. |
| Weapon.ServerStopFireState | Source/Project/Combat/WeaponBase.cpp:177-181 | The trigger is released and the timer cleared, with no RPC. |
| Weapon.AcceptShot | Source/Project/Combat/WeaponBase.cpp:215-232 | Accepted iff authority, a world, and now - LastServerFireTime >= 0.9 * interval. Acceptance records now. A refusal changes nothing. |
| Weapon.AcceptedShotsSpaced | Source/Project/Combat/WeaponBase.cpp:215-232 | Whatever times shots arrive at, accepted shots are at least 0.9 * interval apart, and each was requested. |
| Weapon.SimulateShot | Source/Project/Combat/WeaponBase.cpp:117-164 | Without a world or a pawn owner, the default result. Otherwise the result starts at the muzzle, ends at the impact on a blocking hit or at full range, and has impact data only on a hit. Damage equal to Damage is applied only when asked to, with authority and a blocking hit. |
| Weapon.ShotFX | Source/Project/Combat/WeaponBase.cpp:95-99 | The fire FX always, and the impact FX only on a blocking hit. |
| Weapon.ServerShotEvents | Source/Project/Combat/WeaponBase.cpp:111-115 | One or two calls: at most one PointDamage of the weapon's damage by the owner's controller, present iff it is the server and the simulated shot hit, and last the multicast of that same shot result. |
| Weapon.FireOnceEvents | Source/Project/Combat/WeaponBase.cpp:82-109 | Nothing unless the trigger is held and the owner can fire. Otherwise the predicted shot applies no damage and plays local FX, then the server processes the shot or a client sends it. |
| Weapon.ServerFireOnceState | Source/Project/Combat/WeaponBase.cpp:183-192 | Nothing unless the trigger is held and the guard accepts. Then the shot is processed with the guard's new record. |
| Weapon.NoShotAfterStop | Source/Project/Combat/WeaponBase.cpp:84-192 | After StopFire no timer tick fires. After ServerStopFire a late ServerFireOnce changes nothing, not even the guard's record. |
| Weapon.MulticastEvents | Source/Project/Combat/WeaponBase.cpp:194-207 | The locally controlled owner plays nothing. Every other copy plays the server's shot FX, never marked predicted. |
| Weapon.WeaponBase.constructor | Source/Project/Combat/WeaponBase.h:80-87 | The trigger is released, there is no timer and LastServerFireTime is -1000. |
| Weapon.WeaponBase.IsFiring | Source/Project/Combat/WeaponBase.h:47 | Reports the trigger-held flag. |
| Weapon.WeaponBase.SetFireTimerActive | Source/Project/Combat/WeaponBase.cpp:61-80 | The new state is SetTimerState. |
| Weapon.WeaponBase.StartFire | Source/Project/Combat/WeaponBase.cpp:34-48 | The new state is StartFireState. |
| Weapon.WeaponBase.StopFire | Source/Project/Combat/WeaponBase.cpp:50-59 | The new state is StopFireState. |
| Weapon.WeaponBase.ServerStartFire | Source/Project/Combat/WeaponBase.cpp:166-175 | The new state is ServerStartFireState. |
| Weapon.WeaponBase.ServerStopFire | Source/Project/Combat/WeaponBase.cpp:177-181 | The new state is ServerStopFireState. |
| Weapon.WeaponBase.CanServerAcceptShot | Source/Project/Combat/WeaponBase.cpp:215-232 | The result and new record are AcceptShot's. |
| Weapon.WeaponBase.ProcessServerShot | Source/Project/Combat/WeaponBase.cpp:111-115 | Only ServerShotEvents are logged. |
| Weapon.WeaponBase.FireOnceLocalOrServer | Source/Project/Combat/WeaponBase.cpp:82-109 | Only FireOnceEvents are logged. |
| Weapon.WeaponBase.ServerFireOnce | Source/Project/Combat/WeaponBase.cpp:183-192 | The new state is ServerFireOnceState. |
| Weapon.WeaponBase.MulticastPlayFireFX | Source/Project/Combat/WeaponBase.cpp:194-207 | Only MulticastEvents are logged. |
| Interaction.IsHoveringWidget | Source/Project/Interaction/InteractionComponent.cpp:226-232 | False without a widget interaction component or with widget interaction disabled. Otherwise whether the pointer is over a widget. |
| Interaction.UpdateFocus | Source/Project/Interaction/InteractionComponent.cpp:163-186 | The new actor becomes the focus. FocusEnd goes to the old actor only if it is valid, different and interactable, then FocusBegin to the new one if it is valid and interactable. |
| Interaction.TraceStep | Source/Project/Interaction/InteractionComponent.cpp:121-161 | No trace without an owning character or a camera; the camera cache is refilled first. A reported hit is the trace's. |
| Interaction.Tick | Source/Project/Interaction/InteractionComponent.cpp:72-119 | The timer runs down, and a check runs only at <= 0, resetting the timer to the check frequency. Hovering a widget drops the focus. A new focus always qualifies (interactable and CanInteract). |
| Interaction.TrackAppend | Source/Project/Interaction/InteractionComponent.cpp:163-186 | Tracking focus through a concatenated log tracks through each part in turn. |
| Interaction.TickTracked | Source/Project/Interaction/InteractionComponent.cpp:98-118 | One frame's focus calls form a well-formed log from the old focus to the new: no FocusBegin while something is focused, no FocusEnd for another actor. |
| Interaction.TickRunTracked | Source/Project/Interaction/InteractionComponent.cpp:72-119 | Over any number of frames the focus calls stay well-formed and end on the final focus, so focus never begins twice on an actor without ending. |
| Interaction.TickRun | Source/Project/Interaction/InteractionComponent.cpp:72-119 | No frames change nothing. The final focus is the starting one or an actor that qualifies as interactable. |
| Interaction.TryInteractResult | Source/Project/Interaction/InteractionComponent.cpp:188-209 | True iff the focus is valid, there is an owner, the focus is interactable and allows it, and its OnInteract returns true. |
| Interaction.CanInteractWithFocused | Source/Project/Interaction/InteractionComponent.cpp:262-274 | The same guards without OnInteract, and implied by every successful TryInteract. |
| Interaction.FocusedName | Source/Project/Interaction/InteractionComponent.cpp:234-246 | Empty without a valid interactable focus. Otherwise the focus's name. |
| Interaction.FocusedAction | Source/Project/Interaction/InteractionComponent.cpp:248-260 | Empty without a valid interactable focus. Otherwise the focus's action text. |
| Interaction.InteractionComponent.constructor | Source/Project/Interaction/InteractionComponent.cpp:11-61 | After BeginPlay: timer 0, no focus, and the camera cached when the owner has one. |
| Interaction.InteractionComponent.UpdateFocusedActor | Source/Project/Interaction/InteractionComponent.cpp:163-186 | The new state is UpdateFocus. |
| Interaction.InteractionComponent.PerformInteractionTrace | Source/Project/Interaction/InteractionComponent.cpp:121-161 | The result and new state are TraceStep's. |
| Interaction.InteractionComponent.TickComponent | Source/Project/Interaction/InteractionComponent.cpp:72-119 | The new state is Tick. |
| Interaction.InteractionComponent.TryInteract | Source/Project/Interaction/InteractionComponent.cpp:188-209 | The result is TryInteractResult. |
| Interaction.InteractionComponent.PressWidgetInteraction | Source/Project/Interaction/InteractionComponent.cpp:212-217 | The left mouse press reaches the widget interaction only while hovering a widget. |
| Interaction.InteractionComponent.ReleaseWidgetInteraction | Source/Project/Interaction/InteractionComponent.cpp:219-224 | The release reaches the widget interaction whenever it exists. |
| Interactable.Montage | Source/EpochRails/Interaction/InteractableActor.cpp:180-210 | A custom montage overrides the type. Otherwise the type's montage, and none for the None and Custom types. |
| Interactable.TypeMontage | Source/EpochRails/Interaction/InteractableActor.cpp:186-208 | The montage authored for each interaction type, none for the None type. Its meaning is stated through Montage's contract. |
| Interactable.AnimationCalls | Source/EpochRails/Interaction/InteractableActor.cpp:96-178 | No call for a null character, no montage or no animation instance. A successful play includes the start event, and none of the calls is an interaction. |
| Interactable.PlaySucceeds | Source/EpochRails/Interaction/InteractableActor.cpp:96-137 | A character, a montage, an animation instance and a positive montage length. PlayAnimation's contract states that a play succeeds exactly then. |
| Interactable.PlayAnimation | Source/EpochRails/Interaction/InteractableActor.cpp:96-178 | Succeeds iff the montage plays with a positive length. Success records the character and, when waiting, arms completion after length / play rate. Failure changes neither. |
| Interactable.CompletionDelayBounds | Source/EpochRails/Interaction/InteractableActor.cpp:156-166 | After a successful play that waits for completion, the pending completion is for the playing character and its delay length / play rate is positive and between length / 5 and 10 * length. |
| Interactable.QuotientByPlayRate | Source/Project/Interaction/InteractableActor.h:207-210 | Dividing a positive length by a play rate in its authored range [0.1, 5] gives a value in [length / 5, 10 * length]. |
| Interactable.Interact | Source/EpochRails/Interaction/InteractableActor.cpp:47-75 | Enabled, started and waited for: success at once, with BP_OnInteract deferred. Otherwise BP_OnInteract's result, and the animating character and pending completion are the ones the optional play left. |
| Interactable.Complete | Source/EpochRails/Interaction/InteractableActor.cpp:212-231 | The animating character and timer are cleared. Completion is reported, then BP_OnInteract runs once for a non-null character. |
| Interactable.CountInteract | Source/EpochRails/Interaction/InteractableActor.cpp:212-231 | The number of BP_OnInteract calls in a log, no more than its length. |
| Interactable.CountInteractAppend | Source/EpochRails/Interaction/InteractableActor.cpp:212-231 | Counts add up over concatenated logs. |
| Interactable.CountInteractNone | Source/EpochRails/Interaction/InteractableActor.cpp:96-178 | A log without BP_OnInteract counts zero. |
| Interactable.InteractRunsBlueprintOnce | Source/EpochRails/Interaction/InteractableActor.cpp:47-75 | Either branch runs BP_OnInteract exactly once: at once, or when the armed completion fires for the animating character. |
| Interactable.CountWithTail | Source/EpochRails/Interaction/InteractableActor.cpp:212-231 | A log extended by calls without BP_OnInteract and a tail ending in its only one counts one more. |
| Interactable.InteractableActor.constructor | Source/EpochRails/Interaction/InteractableActor.cpp:10-21 | Nothing animating, no timer, no calls. |
| Interactable.InteractableActor.GetInteractionAnimationMontage | Source/EpochRails/Interaction/InteractableActor.cpp:180-210 | The result is Montage. |
| Interactable.InteractableActor.GetInteractionName | Source/EpochRails/Interaction/InteractableActor.cpp:77-79 | The authored interaction name. |
| Interactable.InteractableActor.GetInteractionAction | Source/EpochRails/Interaction/InteractableActor.cpp:81-83 | The authored action text. |
| Interactable.InteractableActor.CanInteract | Source/EpochRails/Interaction/InteractableActor.cpp:85-88 | bCanInteract, whoever the character is. |
| Interactable.InteractableActor.GetInteractionDistance | Source/EpochRails/Interaction/InteractableActor.cpp:90-92 | MaxInteractionDistance. |
| Interactable.InteractableActor.PlayInteractionAnimation | Source/EpochRails/Interaction/InteractableActor.cpp:96-178 | The result and new state are PlayAnimation's. |
| Interactable.InteractableActor.OnInteract | Source/EpochRails/Interaction/InteractableActor.cpp:47-75 | The result and new state are Interact's. |
| Interactable.InteractableActor.OnInteractionAnimationComplete | Source/EpochRails/Interaction/InteractableActor.cpp:212-231 | The new state is Complete's. |
| Controller.AllContexts | Source/Project/Controllers/MainPlayerController.cpp:133-137 | The default contexts, followed by the mobile-excluded ones only when touch controls are not used. |
| Controller.PrefixedImpliesPlain | Source/Project/Controllers/MainPlayerController.cpp:164-220 | A name containing "IA_" + keyword contains the keyword. |
| Controller.ClassifyIgnoresPrefixedTests | Source/Project/Controllers/MainPlayerController.cpp:164-220 | The classifier as written equals the one with only the plain keyword tests. |
| Controller.ClassifyFirstMatch | Source/Project/Controllers/MainPlayerController.cpp:164-224 | The kind is the first, in the order Move, Look, Jump, Sprint, Interact, Fire, whose keyword the name contains case-insensitively. None iff it contains none. |
| Controller.FirstKind | Source/Project/Controllers/MainPlayerController.cpp:164-220 | The lowest-ranked kind satisfying a test, or none exactly when no kind does. |
| Controller.ActionBindings | Source/Project/Controllers/MainPlayerController.cpp:166-217 | Move and Look bind Triggered. Jump, Sprint and Fire bind Started then Completed. Interact binds Started only. Every binding is for the action and a handler of its kind. |
| Controller.Classify | Source/Project/Controllers/MainPlayerController.cpp:164-220 | The first of Move, Look, Jump, Sprint, Interact and Fire whose keyword or "IA_" + keyword the name contains. What it returns is stated by ClassifyFirstMatch and ClassifyIgnoresPrefixedTests. |
| Controller.BindMapping | Source/Project/Controllers/MainPlayerController.cpp:154-224 | One mapping: a null or bound action is skipped, an unclassified one is only reported, a classified one is bound with its kind's bindings. Stated by BindMappingEffect and BindMappingConsistent. |
| Controller.BindMappingEffect | Source/Project/Controllers/MainPlayerController.cpp:154-224 | An action joins BoundActions exactly when it is non-null and classified. The earlier bindings are kept and at most two are appended, and an already bound action changes nothing. |
| Controller.BindMappings | Source/Project/Controllers/MainPlayerController.cpp:146-226 | The mappings of one context folded through BindMapping in order. Stated by BindMappingsBound and BindMappingsConsistent. |
| Controller.MappingContextsAdded | Source/Project/Controllers/MainPlayerController.cpp:64-109 | Nothing without local control or a subsystem. Otherwise the non-null contexts of AllContexts. |
| Controller.SetupState | Source/Project/Controllers/MainPlayerController.cpp:52-117 | Nothing for a remote controller. Otherwise only the contexts and the bindings change, each by appending to what was there. No contexts are added without a subsystem and no bindings without an Enhanced Input component. |
| Controller.CursorState | Source/Project/Controllers/MainPlayerController.cpp:386-406 | Both flags equal bVisible. The mode is GameAndUI (unlocked, cursor kept) iff visible, else GameOnly. Nothing else changes. |
| Controller.BindingsOfAppend | Source/Project/Controllers/MainPlayerController.cpp:171-220 | An action's bindings in concatenated lists concatenate. |
| Controller.BindingsOfActionBindings | Source/Project/Controllers/MainPlayerController.cpp:171-220 | One action's bindings hold no binding for another action. |
| Controller.BindMappingConsistent | Source/Project/Controllers/MainPlayerController.cpp:155-224 | Handling one mapping keeps the invariant: bound actions were classified and have exactly their kind's bindings, and others have none. |
| Controller.BindMappingsConsistent | Source/Project/Controllers/MainPlayerController.cpp:146-226 | One context's mappings keep the invariant. |
| Controller.BindContextsConsistent | Source/Project/Controllers/MainPlayerController.cpp:139-228 | All contexts keep the invariant. |
| Controller.BindMappingsBound | Source/Project/Controllers/MainPlayerController.cpp:140-158 | BoundActions only grows, the earlier bindings are kept, and an action is bound iff it was, or some mapping names it and it classifies. |
| Controller.BindContextsBound | Source/Project/Controllers/MainPlayerController.cpp:139-158 | Across contexts, null contexts are skipped, and an action is bound iff it was or some context maps it and it classifies. |
| Controller.EachActionBoundOnce | Source/Project/Controllers/MainPlayerController.cpp:119-230 | An action is bound iff a walked context maps it and its name classifies. It then gets its kind's bindings exactly once, and no other action gets any. |
| Controller.AtMostTwoBindingsPerAction | Source/Project/Controllers/MainPlayerController.cpp:140-220 | No action is bound more than twice, however many mappings name it. |
| Controller.TouchSkipsMobileExcluded | Source/Project/Controllers/MainPlayerController.cpp:64-137 | A remote controller gets nothing. With touch controls the mobile-excluded contexts are not added. Forcing touch turns touch controls on. |
| Controller.MainPlayerController.constructor | Source/Project/Controllers/MainPlayerController.cpp:16-23 | The cursor hidden, the engine's default input mode, no contexts, no bindings and no mobile controls on screen. |
| Controller.MainPlayerController.UsesTouchControls | Source/Project/Controllers/MainPlayerController.cpp:260-263 | True iff the touch interface is shown or touch is forced. |
| Controller.MainPlayerController.BeginPlay | Source/Project/Controllers/MainPlayerController.cpp:25-50 | The mobile controls widget is shown only for a local controller using touch with a widget class. |
| Controller.MainPlayerController.AddMappingContexts | Source/Project/Controllers/MainPlayerController.cpp:73-105 | The loop adds exactly the non-null contexts, in order. |
| Controller.MainPlayerController.SetupInputComponent | Source/Project/Controllers/MainPlayerController.cpp:52-117 | The new state is SetupState: contexts for a local controller with a subsystem, then the bindings. |
| Controller.MainPlayerController.AddSubsystemContexts | Source/Project/Controllers/MainPlayerController.cpp:65-108 | Nothing without a subsystem; otherwise the non-null default contexts, then the non-null mobile-excluded ones unless touch controls are in use. |
| Controller.MainPlayerController.BindInputActions | Source/Project/Controllers/MainPlayerController.cpp:119-230 | The loops append exactly NewBindings' bindings. |
| Controller.MainPlayerController.BindContextMappings | Source/Project/Controllers/MainPlayerController.cpp:146-226 | One context's loop appends BindMappings' bindings and returns its BoundActions. |
| Controller.MainPlayerController.BindMappingStep | Source/Project/Controllers/MainPlayerController.cpp:154-224 | A null or already bound action changes nothing; any other one appends BindMapping's bindings and joins BoundActions exactly when it classifies. |
| Controller.MainPlayerController.BindAction | Source/Project/Controllers/MainPlayerController.cpp:164-224 | Matches iff the name classifies, and then appends that kind's bindings. |
| Controller.MainPlayerController.SetMouseCursorVisible | Source/Project/Controllers/MainPlayerController.cpp:386-406 | The new state is CursorState. |
| Crosshair.RefreshRules | Source/Project/UI/HUD/CrosshairWidgetBase.cpp:82-112 | No pawn resets all four caches. A changed (or dead) pawn is cached and all three components are re-resolved on it. The same pawn keeps each valid component and re-resolves the others. |
| Crosshair.RefreshIdempotent | Source/Project/UI/HUD/CrosshairWidgetBase.cpp:82-112 | After a refresh the cache names the owning pawn, and a second refresh changes nothing. |
| Crosshair.NoStaleComponents | Source/Project/UI/HUD/CrosshairWidgetBase.cpp:92-99 | A component cached for an earlier pawn is never served for a new one. |
| Crosshair.GettersDefault | Source/Project/UI/HUD/CrosshairWidgetBase.cpp:9-80 | Each getter returns 0, 0.0 or false when its component is missing. |
| Crosshair.NoPawnNoComponents | Source/Project/UI/HUD/CrosshairWidgetBase.cpp:83-90 | With no owning pawn nothing resolves and every getter reports its default. |
| Crosshair.Refresh | Source/Project/UI/HUD/CrosshairWidgetBase.cpp:82-112 | No pawn resets all four caches. Otherwise the pawn is the owning pawn, or the cached one still valid and equal to it; each component is the one found on the pawn, or the cached one while it is valid. |
| Crosshair.ResolvedCombat | Source/Project/UI/HUD/CrosshairWidgetBase.cpp:114-118 | A refresh, then the cached combat component only while it is valid. |
| Crosshair.ResolvedCurrency | Source/Project/UI/HUD/CrosshairWidgetBase.cpp:120-124 | A refresh, then the cached wallet only while it is valid. |
| Crosshair.ResolvedHealth | Source/Project/UI/HUD/CrosshairWidgetBase.cpp:126-130 | A refresh, then the cached health component only while it is valid. |
| Crosshair.AmmoMagazine | Source/Project/UI/HUD/CrosshairWidgetBase.cpp:9-15 | 0 without a resolved combat component or without a current weapon; otherwise the current weapon's magazine ammo. |
| Crosshair.AmmoReserve | Source/Project/UI/HUD/CrosshairWidgetBase.cpp:17-23 | 0 without a resolved combat component or without a current weapon; otherwise the current weapon's reserve ammo. |
| Crosshair.CurrentHealth | Source/Project/UI/HUD/CrosshairWidgetBase.cpp:25-31 | 0 without a resolved health component; otherwise its current health. |
| Crosshair.MaxHealth | Source/Project/UI/HUD/CrosshairWidgetBase.cpp:33-39 | 0 without a resolved health component; otherwise its maximum. |
| Crosshair.HealthPercent | Source/Project/UI/HUD/CrosshairWidgetBase.cpp:41-47 | The health component's percent formula applied to CurrentHealth and MaxHealth, so 0 without a component. |
| Crosshair.Alive | Source/Project/UI/HUD/CrosshairWidgetBase.cpp:49-55 | True iff a health component resolves and its current health is positive. |
| Crosshair.Scoping | Source/Project/UI/HUD/CrosshairWidgetBase.cpp:57-63 | Scoping is reported only through a resolved combat component. |
| Crosshair.ShowCrosshair | Source/Project/UI/HUD/CrosshairWidgetBase.cpp:65-72 | Never without a resolved combat component. A shown crosshair means not scoping, with the magazine getter reading the current weapon's ammo. |
| Crosshair.Money | Source/Project/UI/HUD/CrosshairWidgetBase.cpp:74-80 | 0 without a resolved wallet; otherwise its balance. |
| Crosshair.ShowCrosshairIff | Source/Project/UI/HUD/CrosshairWidgetBase.cpp:65-72 | Shown iff a combat component resolves with a current weapon and no scoping. A shown crosshair is not reported as scoping next, and its ammo is the component's. |
| Crosshair.CrosshairWidgetBase.constructor | Source/Project/UI/HUD/CrosshairWidgetBase.h:54-60 | All four caches are empty. |
| Crosshair.CrosshairWidgetBase.RefreshCachedComponents | Source/Project/UI/HUD/CrosshairWidgetBase.cpp:82-112 | The new cache is Refresh's. |
| Crosshair.CrosshairWidgetBase.ResolveCombatComponent | Source/Project/UI/HUD/CrosshairWidgetBase.cpp:114-118 | A refresh, then the cached combat component if it is valid. |
| Crosshair.CrosshairWidgetBase.ResolveCurrencyComponent | Source/Project/UI/HUD/CrosshairWidgetBase.cpp:120-124 | A refresh, then the cached wallet if it is valid. |
| Crosshair.CrosshairWidgetBase.ResolveHealthComponent | Source/Project/UI/HUD/CrosshairWidgetBase.cpp:126-130 | A refresh, then the cached health component if it is valid. |
| Crosshair.CrosshairWidgetBase.GetAmmoMagazine | Source/Project/UI/HUD/CrosshairWidgetBase.cpp:9-15 | Refreshes, then returns the combat component's magazine ammo or 0. |
| Crosshair.CrosshairWidgetBase.GetAmmoReserve | Source/Project/UI/HUD/CrosshairWidgetBase.cpp:17-23 | Refreshes, then returns the combat component's reserve ammo or 0. |
| Crosshair.CrosshairWidgetBase.GetCurrentHealth | Source/Project/UI/HUD/CrosshairWidgetBase.cpp:25-31 | Refreshes, then returns the health component's current health or 0. |
| Crosshair.CrosshairWidgetBase.GetMaxHealth | Source/Project/UI/HUD/CrosshairWidgetBase.cpp:33-39 | Refreshes, then returns the health component's maximum or 0. |
| Crosshair.CrosshairWidgetBase.GetHealthPercent | Source/Project/UI/HUD/CrosshairWidgetBase.cpp:41-47 | Refreshes, then returns the health component's percent or 0. |
| Crosshair.CrosshairWidgetBase.IsAlive | Source/Project/UI/HUD/CrosshairWidgetBase.cpp:49-55 | Refreshes, then reports whether the health component reports alive (false without one). |
| Crosshair.CrosshairWidgetBase.IsScoping | Source/Project/UI/HUD/CrosshairWidgetBase.cpp:57-63 | Refreshes, then reports the combat component's scoping flag (false without one). |
| Crosshair.CrosshairWidgetBase.ShouldShowCrosshair | Source/Project/UI/HUD/CrosshairWidgetBase.cpp:65-72 | Refreshes, then returns ShowCrosshair. |
| Crosshair.CrosshairWidgetBase.GetMoney | Source/Project/UI/HUD/CrosshairWidgetBase.cpp:74-80 | Refreshes, then returns the wallet's balance or 0. |

## Left out

- Engine geometry: line traces, the spread cone (`ApplySpread`), the camera and muzzle points (`GetCameraLocation`, `GetCameraDirection`, `GetMuzzleLocation`) and vector normalisation. They are oracles in the weapon's environment, and the trace results are uninterpreted.
- The controller's pawn-forwarding handlers (`HandleMove` … `HandleFireCompleted`) and their vector math. Only which handler is bound to which trigger is modelled. `OnPossess` only logs.
- The `HandleReload`, `HandleScope` and `HandleWeaponCycle` handlers declared in `MainPlayerController.h`. They have no definition, and no action is ever bound to them.
- Replication and RPCs: `GetLifetimeReplicatedProps`, the Server/NetMulticast transport and `HasAuthority`. Authority and local control are booleans. An RPC is an entry in the caller's log, and its effect is the receiving method run on the receiving copy.
- Logging and on-screen debug messages.
- HandleDeath's hiding, collision, lifespan and destroy calls: only the undamageable flag and a death entry are kept.
- Spawning, attaching, the mesh lookup (`ResolveAttachMesh`, `AttachWeaponToOwner`) and the copied render settings in CombatComponent.cpp: a spawn is an oracle result and the rest is presentation.
- `Reload`, `GetCurrentWeaponTypeTag` and `GetCurrentWeaponIcon`: the weapon code does not implement reload, ammo counts, aiming or type tags, so those are abstract per-weapon values.
- EndPlay of every component and actor, and `UInteractionComponent::BeginPlay`'s lookup of the owner and widget interaction component. The interaction component's constructor takes the state BeginPlay leaves.
- `AInteractableActor::OnInteractionFocusBegin` and `OnInteractionFocusEnd`: they only forward to Blueprint events, which appear as focus calls in the interaction component's log.
- The timer manager: the fire timer is a flag plus its interval, and the zero first delay of the looping fire timer is not modelled. The completion timer is a pending callback with its delay.
- A montage's actual playback: Montage_Play's length and whether a montage is playing are oracles.
- `FName` number suffixes and non-ASCII case folding: names are compared with ASCII case folding only.
- The mobile controls widget's creation: it is reduced to whether a widget class is set.
- The constructor's click and touch event flags in `MainPlayerController.cpp:16-23`: nothing in the core reads them.
- Combat.AmmoTotalAvailable: the int32 sum of magazine and reserve is taken as a mathematical sum, because the weapon's ammo counters are abstract.
- Interactable.QuotientByPlayRate: takes the play rate within its authored range [0.1, 5], because the editor clamp is the only bound in the code and a Blueprint could write another value at run time.
- Combat.DestroyAllState: the full list of destroy calls is stated through `Combat.DestroyRunEffect` as sets of weapons rather than their order.
- Currency.Wallet.AddCurrency: models the corrected saturating int32 sum, not the wrap-around of the code as written. That wrap-around is kept in `Currency.AddAsWritten` (see Findings).
- CharacterHealth.HealthComponent.GrantDeathCurrencyReward: pays through the corrected `Currency.Wallet.AddCurrency`.
- FPSWeaponComponent, WeaponRifle, DamageTestCube, ProjectCheatManager, the interface-only headers and the build files are not part of this model.

## Findings

| source | as written | input that shows it | evidently intended | confidence | as-written member | corrected member |
|---|---|---|---|---|---|---|
| Source/Project/Character/CurrencyComponent.cpp:13 | `CurrentCurrency + Amount` is an int32 sum that wraps around before `FMath::Max(0, …)` | balance 2147483647, Amount 1: the balance becomes 0 and the returned delta is -2147483647 | adding a positive amount never lowers the balance (the sum saturates at the int32 maximum) | not executed | Currency.AddOverflowDropsBalance | Currency.AddOutcome |
