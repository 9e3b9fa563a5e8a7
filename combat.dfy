/**
 * The loadout and equip state machine of UCombatComponent: the spawned weapon list,
 * the current weapon and its slot, next/previous cycling, replacing and unequipping
 * weapons, fire routing, and scoping with a saved camera field of view.
 *
 * Every method is specified by a pure function on a snapshot of the component's
 * mutable fields (State), and the properties are proved about those functions.
 */
module Combat {
  import opened Common
  import Text

  datatype Event =
    /** SetWeaponActiveState(Weapon, true): shown. */
    | WeaponActivated(weapon: ObjectId)
    /** SetWeaponActiveState(Weapon, false): StopFire, SetAiming(false), tick off, hidden. */
    | WeaponDeactivated(weapon: ObjectId)
    /** Weapon->SetAiming(bAiming) */
    | WeaponAimingChanged(weapon: ObjectId, aiming: bool)
    /** Weapon->StartFire() */
    | WeaponStartFire(weapon: ObjectId)
    /** Weapon->StopFire() */
    | WeaponStopFire(weapon: ObjectId)
    /** Weapon->Destroy() */
    | WeaponDestroyed(weapon: ObjectId)
    /** Weapon->DetachFromActor(KeepWorldTransform) */
    | WeaponDetached(weapon: ObjectId)
    /** OnCurrentWeaponChanged(Previous, New, NewSlotIndex, NewWeaponTypeTag) */
    | CurrentWeaponChanged(previous: Option<ObjectId>, next: Option<ObjectId>, slotIndex: int, typeTag: string)
    /** InteractionComponent->PressWidgetInteraction() */
    | PressWidgetInteraction
    /** InteractionComponent->ReleaseWidgetInteraction() */
    | ReleaseWidgetInteraction

  /**
   * What the component reads but never writes: its authored properties, what its
   * owner provides once references are cached, and each weapon's type tag.
   * A gameplay tag is its name; the empty name is the invalid tag.
   */
  datatype Config = Config(
    loadoutWeaponClasses: seq<Option<ObjectId>>,
    starterWeaponClass: Option<ObjectId>,
    spawnStarterWeaponOnBeginPlay: bool,
    initialEquippedSlotIndex: Int32,
    fireInteractsWithWidgets: bool,
    enableScopeFov: bool,
    scopedFieldOfView: real,
    scopeOverlayWeaponTypeTag: string,
    /** OwningCharacter is non-null: the owner is a Character. */
    ownerIsCharacter: bool,
    /** The owning character has a camera component. */
    hasCamera: bool,
    /** The owning character has an interaction component. */
    hasInteraction: bool,
    /** GetWorld() is non-null. */
    hasWorld: bool,
    weaponTypeTag: ObjectId -> string)

  /**
   * The component's mutable fields, plus the set of weapon actors that are still valid
   * (IsValid) and the log of engine calls and broadcasts.
   */
  datatype State = State(
    weapons: seq<ObjectId>,
    current: Option<ObjectId>,
    slot: int,
    scoping: bool,
    defaultFov: real,
    cameraFov: real,
    live: set<ObjectId>,
    events: seq<Event>)

  datatype Outcome = Outcome(state: State, ok: bool)

  predicate Distinct(s: seq<ObjectId>)
  {
    forall i, j | 0 <= i < j < |s| :: s[i] != s[j]
  }

  /**
   * The invariant every operation keeps: no weapon twice in the list, a current weapon
   * exactly when the slot is not INDEX_NONE, and then it is the weapon in that slot.
   */
  predicate ValidState(s: State)
  {
    Distinct(s.weapons)
    && (s.current.None? <==> s.slot == IndexNone)
    && (s.current.Some? ==> 0 <= s.slot < |s.weapons| && s.weapons[s.slot] == s.current.value)
  }

  /**
   * The classes InitializeLoadout spawns: the non-null loadout classes in order, or the
   * starter class alone when there are none.
   */
  function EffectiveLoadout(cfg: Config): (r: seq<ObjectId>)
    ensures NonNull(cfg.loadoutWeaponClasses) != [] ==> r == NonNull(cfg.loadoutWeaponClasses)
    ensures NonNull(cfg.loadoutWeaponClasses) == [] ==>
              r == (if cfg.starterWeaponClass.Some? then [cfg.starterWeaponClass.value] else [])
    ensures r == [] <==> (forall i | 0 <= i < |cfg.loadoutWeaponClasses| :: cfg.loadoutWeaponClasses[i].None?)
                         && cfg.starterWeaponClass.None?
  {
    var classes := NonNull(cfg.loadoutWeaponClasses);
    if classes == [] && cfg.starterWeaponClass.Some? then [cfg.starterWeaponClass.value] else classes
  }

  /** SetWeaponActiveState(Weapon, bShouldBeActive): nothing for an invalid weapon. */
  function ActiveStateEvents(weapon: ObjectId, active: bool, live: set<ObjectId>): (r: seq<Event>)
    ensures weapon !in live ==> r == []
    ensures weapon in live ==> r == [if active then WeaponActivated(weapon) else WeaponDeactivated(weapon)]
  {
    if weapon !in live then []
    else if active then [WeaponActivated(weapon)]
    else [WeaponDeactivated(weapon)]
  }

  /** BroadcastCurrentWeaponChanged: the tag is the new weapon's, or the invalid tag. */
  function ChangedEvent(cfg: Config, previous: Option<ObjectId>, next: Option<ObjectId>, slot: int,
                        live: set<ObjectId>): (r: Event)
    ensures r.CurrentWeaponChanged? && r.previous == previous && r.next == next && r.slotIndex == slot
    ensures next.None? ==> r.typeTag == ""
  {
    CurrentWeaponChanged(previous, next, slot,
                         if next.Some? && next.value in live then cfg.weaponTypeTag(next.value) else "")
  }

  /** The OnCurrentWeaponChanged broadcasts in a log, in order. */
  function Broadcasts(events: seq<Event>): (r: seq<Event>)
    ensures forall e | e in r :: e.CurrentWeaponChanged?
    decreases |events|
  {
    if events == [] then []
    else
      var last := events[|events| - 1];
      Broadcasts(events[..|events| - 1]) + (if last.CurrentWeaponChanged? then [last] else [])
  }

  /** The broadcasts are a sub-log: no longer than the log, and each is an event of the log. */
  lemma {:induction false} BroadcastsWithin(events: seq<Event>)
    ensures |Broadcasts(events)| <= |events|
    ensures forall e | e in Broadcasts(events) :: e in events
    decreases |events|
  {
    if events != [] {
      var init := events[..|events| - 1];
      BroadcastsWithin(init);
      assert forall e | e in init :: e in events;
    }
  }

  lemma {:induction false} BroadcastsAppend(a: seq<Event>, b: seq<Event>)
    ensures Broadcasts(a + b) == Broadcasts(a) + Broadcasts(b)
    decreases |b|
  {
    if b == [] {
      assert a + b == a;
    } else {
      assert (a + b)[..|a + b| - 1] == a + b[..|b| - 1];
      BroadcastsAppend(a, b[..|b| - 1]);
    }
  }

  /** A log with no OnCurrentWeaponChanged in it adds no broadcast. */
  lemma {:induction false} BroadcastsNone(events: seq<Event>)
    requires forall e | e in events :: !e.CurrentWeaponChanged?
    ensures Broadcasts(events) == []
    decreases |events|
  {
    if events != [] {
      assert events[|events| - 1] in events;
      BroadcastsNone(events[..|events| - 1]);
    }
  }

  // ---------------------------------------------------------------- scope

  datatype Fov = Fov(default: real, camera: real)

  /**
   * StartScope's camera update: the camera's field of view is remembered as the default
   * only while no default is stored yet (<= KINDA_SMALL_NUMBER), then the scoped FOV is applied.
   */
  function ScopeInFov(fov: Fov, scopedFov: real): (r: Fov)
    ensures r.camera == scopedFov
    ensures fov.default > KindaSmallNumber ==> r.default == fov.default
    ensures fov.default <= KindaSmallNumber ==> r.default == fov.camera
  {
    Fov(if fov.default <= KindaSmallNumber then fov.camera else fov.default, scopedFov)
  }

  /** StopScope's camera update: the stored default is restored only when there is one. */
  function ScopeOutFov(fov: Fov): (r: Fov)
    ensures r.default == fov.default
    ensures fov.default > KindaSmallNumber ==> r.camera == fov.default
    ensures fov.default <= KindaSmallNumber ==> r == fov
  {
    if fov.default > KindaSmallNumber then Fov(fov.default, fov.default) else fov
  }

  /**
   * Scoping in any number of times and then out restores the camera's original field of
   * view, provided the camera's FOV is above KINDA_SMALL_NUMBER and either no default is
   * stored yet or the stored default is that FOV (as BeginPlay's caching leaves it).
   */
  lemma {:induction false} ScopeRoundTrip(fov: Fov, scopedFov: real, times: nat)
    requires KindaSmallNumber < fov.camera && (fov.default <= KindaSmallNumber || fov.default == fov.camera)
    requires times >= 1
    ensures ScopeOutFov(ScopeInTimes(fov, scopedFov, times)).camera == fov.camera
    ensures ScopeInTimes(fov, scopedFov, times).default == fov.camera
    decreases times
  {
    if times > 1 {
      ScopeRoundTrip(fov, scopedFov, times - 1);
    }
  }

  function ScopeInTimes(fov: Fov, scopedFov: real, times: nat): (r: Fov)
    decreases times
  {
    if times == 0 then fov else ScopeInFov(ScopeInTimes(fov, scopedFov, times - 1), scopedFov)
  }

  /** The aiming call StartScope/StopScope makes on a non-null current weapon. */
  function AimingEvents(current: Option<ObjectId>, aiming: bool): (r: seq<Event>)
    ensures current.None? ==> r == []
    ensures current.Some? ==> r == [WeaponAimingChanged(current.value, aiming)]
  {
    if current.Some? then [WeaponAimingChanged(current.value, aiming)] else []
  }

  /** StartScope */
  function StartScopeState(cfg: Config, s: State): (r: State)
    ensures r.scoping
    ensures r.weapons == s.weapons && r.current == s.current && r.slot == s.slot && r.live == s.live
    ensures r.events == s.events + AimingEvents(s.current, true)
    ensures cfg.enableScopeFov && cfg.hasCamera ==>
              Fov(r.defaultFov, r.cameraFov) == ScopeInFov(Fov(s.defaultFov, s.cameraFov), cfg.scopedFieldOfView)
    ensures !(cfg.enableScopeFov && cfg.hasCamera) ==> r.defaultFov == s.defaultFov && r.cameraFov == s.cameraFov
  {
    var s1 := s.(scoping := true, events := s.events + AimingEvents(s.current, true));
    if !cfg.enableScopeFov || !cfg.hasCamera then s1
    else
      var fov := ScopeInFov(Fov(s1.defaultFov, s1.cameraFov), cfg.scopedFieldOfView);
      s1.(defaultFov := fov.default, cameraFov := fov.camera)
  }

  /** StopScope */
  function StopScopeState(cfg: Config, s: State): (r: State)
    ensures !r.scoping
    ensures r.weapons == s.weapons && r.current == s.current && r.slot == s.slot && r.live == s.live
    ensures r.defaultFov == s.defaultFov
    ensures r.events == s.events + AimingEvents(s.current, false)
    ensures cfg.enableScopeFov && cfg.hasCamera ==>
              r.cameraFov == ScopeOutFov(Fov(s.defaultFov, s.cameraFov)).camera
    ensures !(cfg.enableScopeFov && cfg.hasCamera) ==> r.cameraFov == s.cameraFov
  {
    var s1 := s.(scoping := false, events := s.events + AimingEvents(s.current, false));
    if !cfg.enableScopeFov || !cfg.hasCamera then s1
    else s1.(cameraFov := ScopeOutFov(Fov(s1.defaultFov, s1.cameraFov)).camera)
  }

  /** MatchesTagExact: both tags valid and the same name (FName comparison ignores case). */
  predicate MatchesTagExact(tag: string, other: string)
  {
    tag != "" && other != "" && Text.EqualsIgnoreCase(tag, other)
  }

  /** IsScopeOverlayActive: scoping with a current weapon whose type tag is the overlay tag. */
  function ScopeOverlayActive(cfg: Config, s: State): (r: bool)
    ensures r <==> s.scoping && s.current.Some? && cfg.scopeOverlayWeaponTypeTag != ""
                   && MatchesTagExact(cfg.weaponTypeTag(s.current.value), cfg.scopeOverlayWeaponTypeTag)
  {
    s.scoping && IsCurrentWeaponScopeType(cfg, s)
  }

  /** IsCurrentWeaponScopeType */
  predicate IsCurrentWeaponScopeType(cfg: Config, s: State)
  {
    if s.current.None? || cfg.scopeOverlayWeaponTypeTag == "" then false
    else MatchesTagExact(cfg.weaponTypeTag(s.current.value), cfg.scopeOverlayWeaponTypeTag)
  }

  // ---------------------------------------------------------------- destroying

  datatype Destruction = Destruction(events: seq<Event>, live: set<ObjectId>)

  /**
   * Destroying every still-valid weapon of a list except `keep`, in list order. Afterwards
   * exactly the listed weapons other than `keep` are gone, and every destroy call was for a
   * valid listed weapon.
   */
  function DestroyRun(ws: seq<ObjectId>, live: set<ObjectId>, keep: Option<ObjectId>): (r: Destruction)
    decreases |ws|
  {
    if ws == [] then Destruction([], live)
    else
      var prefix := DestroyRun(ws[..|ws| - 1], live, keep);
      var w := ws[|ws| - 1];
      if w in prefix.live && Some(w) != keep then Destruction(prefix.events + [WeaponDestroyed(w)], prefix.live - {w})
      else prefix
  }

  /** What DestroyRun leaves valid and which destroy calls it makes. */
  lemma {:induction false} DestroyRunEffect(ws: seq<ObjectId>, live: set<ObjectId>, keep: Option<ObjectId>)
    ensures DestroyRun(ws, live, keep).live == live - (set w | w in ws && Some(w) != keep)
    ensures forall e | e in DestroyRun(ws, live, keep).events ::
              e.WeaponDestroyed? && e.weapon in ws && e.weapon in live && Some(e.weapon) != keep
    ensures forall w | w in ws && w in live && Some(w) != keep :: WeaponDestroyed(w) in DestroyRun(ws, live, keep).events
    decreases |ws|
  {
    if ws != [] {
      var init := ws[..|ws| - 1];
      var w := ws[|ws| - 1];
      DestroyRunEffect(init, live, keep);
      assert forall x | x in ws :: x in init || x == w;
      assert forall x | x in init :: x in ws;
    }
  }

  /** DestroyAllLoadoutWeapons */
  function DestroyAllState(s: State): (r: State)
    ensures r.weapons == [] && r.current.None? && r.slot == IndexNone && ValidState(r)
    ensures r.live == s.live - (set w | w in s.weapons)
    ensures r.scoping == s.scoping && r.defaultFov == s.defaultFov && r.cameraFov == s.cameraFov
    ensures |r.events| >= |s.events| && r.events[..|s.events|] == s.events
    ensures forall e | e in r.events[|s.events|..] :: e.WeaponDestroyed? && e.weapon in s.weapons && e.weapon in s.live
  {
    var d := DestroyRun(s.weapons, s.live, None);
    DestroyRunEffect(s.weapons, s.live, None);
    assert (s.events + d.events)[|s.events|..] == d.events;
    assert (s.events + d.events)[..|s.events|] == s.events;
    s.(weapons := [], current := None, slot := IndexNone, live := d.live, events := s.events + d.events)
  }

  // ---------------------------------------------------------------- equipping

  /**
   * The switching branch of EquipWeaponSlot: scoping stops, the previous weapon is
   * deactivated, the slot's weapon becomes current and is activated, and the change is
   * broadcast.
   */
  function SwitchTo(cfg: Config, s: State, slotIndex: int): (r: State)
    requires 0 <= slotIndex < |s.weapons|
    ensures r.current == Some(s.weapons[slotIndex]) && r.slot == slotIndex && !r.scoping
    ensures r.weapons == s.weapons && r.live == s.live && r.defaultFov == s.defaultFov
  {
    var w := s.weapons[slotIndex];
    var s1 := if s.scoping then StopScopeState(cfg, s) else s;
    var previous := s1.current;
    var s2 := if previous.Some? && previous.value != w
              then s1.(events := s1.events + ActiveStateEvents(previous.value, false, s1.live)) else s1;
    var s3 := s2.(current := Some(w), slot := slotIndex);
    var s4 := s3.(events := s3.events + ActiveStateEvents(w, true, s3.live));
    s4.(events := s4.events + [ChangedEvent(cfg, previous, Some(w), slotIndex, s4.live)])
  }

  /** The calls SwitchTo logs before its broadcast: the scope stop, the deactivation and the activation. */
  function SwitchCalls(s: State, slotIndex: int): (r: seq<Event>)
    requires 0 <= slotIndex < |s.weapons|
    ensures forall e | e in r :: !e.CurrentWeaponChanged?
  {
    var w := s.weapons[slotIndex];
    (if s.scoping then AimingEvents(s.current, false) else [])
    + (if s.current.Some? && s.current.value != w then ActiveStateEvents(s.current.value, false, s.live) else [])
    + ActiveStateEvents(w, true, s.live)
  }

  /** SwitchTo's log: its calls, then one broadcast. */
  lemma SwitchToEvents(cfg: Config, s: State, slotIndex: int)
    requires 0 <= slotIndex < |s.weapons|
    ensures SwitchTo(cfg, s, slotIndex).events
            == s.events + SwitchCalls(s, slotIndex) + [ChangedEvent(cfg, s.current, Some(s.weapons[slotIndex]), slotIndex, s.live)]
  {
    var w := s.weapons[slotIndex];
    var scopeEvents := if s.scoping then AimingEvents(s.current, false) else [];
    var s1 := if s.scoping then StopScopeState(cfg, s) else s;
    assert s1.events == s.events + scopeEvents && s1.current == s.current && s1.live == s.live;
    var deactivate := if s.current.Some? && s.current.value != w then ActiveStateEvents(s.current.value, false, s.live) else [];
    var activate := ActiveStateEvents(w, true, s.live);
    var s2 := if s.current.Some? && s.current.value != w then s1.(events := s1.events + deactivate) else s1;
    assert s2.events == s.events + scopeEvents + deactivate && s2.live == s.live;
    var s4 := s2.(current := Some(w), slot := slotIndex, events := s2.events + activate);
    var change := ChangedEvent(cfg, s.current, Some(w), slotIndex, s.live);
    assert SwitchTo(cfg, s, slotIndex) == s4.(events := s4.events + [change]);
    assert SwitchCalls(s, slotIndex) == scopeEvents + deactivate + activate;
  }

  /** SwitchTo adds exactly one broadcast: (previous current, new weapon, slot). */
  lemma SwitchToBroadcasts(cfg: Config, s: State, slotIndex: int)
    requires 0 <= slotIndex < |s.weapons|
    ensures Broadcasts(SwitchTo(cfg, s, slotIndex).events)
            == Broadcasts(s.events) + [ChangedEvent(cfg, s.current, Some(s.weapons[slotIndex]), slotIndex, s.live)]
  {
    var change := ChangedEvent(cfg, s.current, Some(s.weapons[slotIndex]), slotIndex, s.live);
    var middle := SwitchCalls(s, slotIndex);
    var all := s.events + middle;
    SwitchToEvents(cfg, s, slotIndex);
    BroadcastsNone(middle);
    BroadcastsAppend(s.events, middle);
    BroadcastsSnoc(all, change);
  }

  /** Appending one event adds it to the broadcasts exactly when it is a broadcast. */
  lemma BroadcastsSnoc(events: seq<Event>, e: Event)
    ensures Broadcasts(events + [e]) == Broadcasts(events) + (if e.CurrentWeaponChanged? then [e] else [])
  {
    assert (events + [e])[..|events + [e]| - 1] == events;
  }

  /**
   * EquipWeaponSlot(SlotIndex): an invalid index, an invalid weapon or a missing owner
   * changes nothing and fails; the weapon already equipped in that slot is only
   * re-activated, with no broadcast; otherwise SwitchTo.
   */
  function EquipSlot(cfg: Config, s: State, slotIndex: int): (r: Outcome)
    ensures r.ok <==> 0 <= slotIndex < |s.weapons| && s.weapons[slotIndex] in s.live && cfg.ownerIsCharacter
    ensures !r.ok ==> r.state == s
    ensures r.ok ==> r.state.current == Some(s.weapons[slotIndex]) && r.state.slot == slotIndex
    ensures r.state.weapons == s.weapons && r.state.live == s.live && r.state.defaultFov == s.defaultFov
    ensures r.ok && s.current == Some(s.weapons[slotIndex]) && s.slot == slotIndex ==>
              r.state == s.(events := s.events + [WeaponActivated(s.weapons[slotIndex])])
    ensures r.ok && !(s.current == Some(s.weapons[slotIndex]) && s.slot == slotIndex) ==>
              r.state == SwitchTo(cfg, s, slotIndex)
  {
    if !(0 <= slotIndex < |s.weapons|) then Outcome(s, false)
    else
      var w := s.weapons[slotIndex];
      if w !in s.live || !cfg.ownerIsCharacter then Outcome(s, false)
      else if s.current == Some(w) && s.slot == slotIndex then
        Outcome(s.(events := s.events + ActiveStateEvents(w, true, s.live)), true)
      else Outcome(SwitchTo(cfg, s, slotIndex), true)
  }

  /** EquipWeaponSlot keeps the component invariant. */
  lemma EquipSlotValid(cfg: Config, s: State, slotIndex: int)
    requires ValidState(s)
    ensures ValidState(EquipSlot(cfg, s, slotIndex).state)
  {
  }

  /**
   * A successful EquipWeaponSlot broadcasts exactly once, (previous, new, slot), unless it
   * re-equipped the current weapon in its own slot, which broadcasts nothing.
   */
  lemma EquipSlotBroadcasts(cfg: Config, s: State, slotIndex: int)
    requires EquipSlot(cfg, s, slotIndex).ok
    ensures var r := EquipSlot(cfg, s, slotIndex).state;
            Broadcasts(r.events)
            == Broadcasts(s.events)
               + (if s.current == Some(s.weapons[slotIndex]) && s.slot == slotIndex then []
                  else [ChangedEvent(cfg, s.current, Some(s.weapons[slotIndex]), slotIndex, s.live)])
  {
    if s.current == Some(s.weapons[slotIndex]) && s.slot == slotIndex {
      BroadcastsNone([WeaponActivated(s.weapons[slotIndex])]);
      BroadcastsAppend(s.events, [WeaponActivated(s.weapons[slotIndex])]);
    } else {
      SwitchToBroadcasts(cfg, s, slotIndex);
    }
  }

  /**
   * The slot EquipNextWeapon targets among `count` > 1 weapons: one after the current
   * slot (slot 0 standing in for INDEX_NONE), wrapping to 0.
   */
  function NextSlot(slot: int, count: int): (r: int)
    requires count > 1 && (slot == IndexNone || 0 <= slot < count)
    ensures 0 <= r < count
    ensures slot == IndexNone ==> r == 1
    ensures 0 <= slot < count - 1 ==> r == slot + 1
    ensures slot == count - 1 ==> r == 0
  {
    var base := if slot == IndexNone then 0 else slot;
    (base + 1) % count
  }

  /** The slot EquipPreviousWeapon targets: one before the current slot, wrapping to the last. */
  function PreviousSlot(slot: int, count: int): (r: int)
    requires count > 1 && (slot == IndexNone || 0 <= slot < count)
    ensures 0 <= r < count
    ensures slot == IndexNone ==> r == count - 1
    ensures 0 < slot < count ==> r == slot - 1
    ensures slot == 0 ==> r == count - 1
  {
    var base := if slot == IndexNone then 0 else slot;
    (base - 1 + count) % count
  }

  /** Cycling forward then back, or back then forward, returns to the same slot. */
  lemma NextPreviousInverse(slot: int, count: int)
    requires count > 1 && 0 <= slot < count
    ensures PreviousSlot(NextSlot(slot, count), count) == slot
    ensures NextSlot(PreviousSlot(slot, count), count) == slot
  {
  }

  /** EquipNextWeapon: false with at most one weapon, else EquipWeaponSlot(NextSlot). */
  function EquipNext(cfg: Config, s: State): (r: Outcome)
    requires ValidState(s)
    ensures |s.weapons| <= 1 ==> r == Outcome(s, false)
    ensures |s.weapons| > 1 ==> r == EquipSlot(cfg, s, NextSlot(s.slot, |s.weapons|))
    ensures r.ok ==> 0 <= r.state.slot < |s.weapons|
  {
    if |s.weapons| <= 1 then Outcome(s, false)
    else EquipSlot(cfg, s, NextSlot(s.slot, |s.weapons|))
  }

  /** EquipPreviousWeapon */
  function EquipPrevious(cfg: Config, s: State): (r: Outcome)
    requires ValidState(s)
    ensures |s.weapons| <= 1 ==> r == Outcome(s, false)
    ensures |s.weapons| > 1 ==> r == EquipSlot(cfg, s, PreviousSlot(s.slot, |s.weapons|))
    ensures r.ok ==> 0 <= r.state.slot < |s.weapons|
  {
    if |s.weapons| <= 1 then Outcome(s, false)
    else EquipSlot(cfg, s, PreviousSlot(s.slot, |s.weapons|))
  }

  /**
   * The part of EquipSpawnedWeapon before it equips slot 0: scoping stops, every other
   * listed weapon is destroyed, and the list becomes exactly [weapon], with no current weapon.
   */
  function ReplaceLoadout(cfg: Config, s: State, weapon: ObjectId): (r: State)
    ensures r.weapons == [weapon] && r.current.None? && r.slot == IndexNone && !r.scoping
    ensures r.live == s.live - (set w | w in s.weapons && w != weapon)
    ensures ValidState(r)
  {
    var s1 := if s.scoping then StopScopeState(cfg, s) else s;
    var d := DestroyRun(s1.weapons, s1.live, Some(weapon));
    DestroyRunEffect(s1.weapons, s1.live, Some(weapon));
    var s2 := s1.(live := d.live, events := s1.events + d.events, weapons := []);
    var s3 := s2.(events := s2.events + ActiveStateEvents(weapon, false, s2.live), weapons := [weapon]);
    s3.(current := None, slot := IndexNone)
  }

  /**
   * EquipSpawnedWeapon(NewWeapon): a null or invalid weapon, or a missing owner, fails with
   * no change; the weapon already current succeeds with no change; otherwise every other
   * listed weapon is destroyed and the list becomes exactly [NewWeapon], equipped in slot 0.
   */
  function EquipSpawned(cfg: Config, s: State, newWeapon: Option<ObjectId>): (r: Outcome)
    requires ValidState(s)
    ensures r.ok <==> newWeapon.Some? && newWeapon.value in s.live && cfg.ownerIsCharacter
    ensures !r.ok || s.current == newWeapon ==> r.state == s
    ensures r.ok && s.current != newWeapon ==>
              r.state.weapons == [newWeapon.value] && r.state.current == newWeapon && r.state.slot == 0
              && r.state.live == s.live - (set w | w in s.weapons && Some(w) != newWeapon)
    ensures r.ok && s.current != newWeapon ==> r == EquipSlot(cfg, ReplaceLoadout(cfg, s, newWeapon.value), 0)
    ensures ValidState(r.state)
  {
    if newWeapon.None? || newWeapon.value !in s.live || !cfg.ownerIsCharacter then Outcome(s, false)
    else if s.current == newWeapon && s.slot != IndexNone then Outcome(s, true)
    else
      var s1 := ReplaceLoadout(cfg, s, newWeapon.value);
      EquipSlotValid(cfg, s1, 0);
      EquipSlot(cfg, s1, 0)
  }

  /**
   * Replacing the loadout broadcasts once, and the broadcast names no previous weapon even
   * when one was equipped: the old weapon is cleared before slot 0 is equipped.
   */
  lemma EquipSpawnedBroadcasts(cfg: Config, s: State, newWeapon: Option<ObjectId>)
    requires ValidState(s)
    requires EquipSpawned(cfg, s, newWeapon).ok && s.current != newWeapon
    ensures var r := EquipSpawned(cfg, s, newWeapon).state;
            Broadcasts(r.events) == Broadcasts(s.events) + [ChangedEvent(cfg, None, newWeapon, 0, r.live)]
  {
    var s3 := ReplaceLoadout(cfg, s, newWeapon.value);
    var r := EquipSlot(cfg, s3, 0);
    assert EquipSpawned(cfg, s, newWeapon) == r;
    ReplaceLoadoutBroadcasts(cfg, s, newWeapon.value);
    EquipSlotBroadcasts(cfg, s3, 0);
  }

  /** Replacing the loadout itself broadcasts nothing. */
  lemma ReplaceLoadoutBroadcasts(cfg: Config, s: State, w: ObjectId)
    ensures Broadcasts(ReplaceLoadout(cfg, s, w).events) == Broadcasts(s.events)
  {
    var s1 := if s.scoping then StopScopeState(cfg, s) else s;
    var d := DestroyRun(s1.weapons, s1.live, Some(w));
    var scopeEvents := if s.scoping then AimingEvents(s.current, false) else [];
    var deactivate := ActiveStateEvents(w, false, d.live);
    assert s1.events == s.events + scopeEvents;
    assert ReplaceLoadout(cfg, s, w).events == s1.events + d.events + deactivate;
    BroadcastsNone(scopeEvents);
    BroadcastsAppend(s.events, scopeEvents);
    DestroyRunBroadcasts(s1.weapons, s1.live, Some(w));
    BroadcastsAppend(s1.events, d.events);
    BroadcastsNone(deactivate);
    BroadcastsAppend(s1.events + d.events, deactivate);
  }

  /** Destroying weapons broadcasts nothing. */
  lemma {:induction false} DestroyRunBroadcasts(ws: seq<ObjectId>, live: set<ObjectId>, keep: Option<ObjectId>)
    ensures Broadcasts(DestroyRun(ws, live, keep).events) == []
    decreases |ws|
  {
    if ws != [] {
      var prefix := DestroyRun(ws[..|ws| - 1], live, keep);
      DestroyRunBroadcasts(ws[..|ws| - 1], live, keep);
      BroadcastsSnoc(prefix.events, WeaponDestroyed(ws[|ws| - 1]));
    }
  }

  /** TArray::IndexOfByKey: the first index holding `x`, or INDEX_NONE. */
  function IndexOf(ws: seq<ObjectId>, x: ObjectId): (r: int)
    ensures r == IndexNone <==> x !in ws
    ensures r != IndexNone ==> 0 <= r < |ws| && ws[r] == x && forall j | 0 <= j < r :: ws[j] != x
    decreases |ws|
  {
    if ws == [] then IndexNone
    else if ws[0] == x then 0
    else
      var rest := IndexOf(ws[1..], x);
      if rest == IndexNone then IndexNone else rest + 1
  }

  /**
   * UnequipCurrentWeapon(bDestroyWeapon): a no-op without a current weapon; otherwise the
   * weapon stops firing and aiming, leaves the list (the rest keep their order), is
   * destroyed or detached, and the component reports (previous, null, INDEX_NONE).
   */
  function Unequip(cfg: Config, s: State, destroyWeapon: bool): (r: State)
    requires ValidState(s)
    ensures s.current.None? ==> r == s
    ensures ValidState(r)
    ensures s.current.Some? ==>
              r.weapons == s.weapons[..s.slot] + s.weapons[s.slot + 1..]
              && r.current.None? && r.slot == IndexNone && !r.scoping
              && (destroyWeapon ==> r.live == s.live - {s.current.value})
              && (!destroyWeapon ==> r.live == s.live)
              && |r.events| > 0 && r.events[|r.events| - 1] == CurrentWeaponChanged(s.current, None, IndexNone, "")
    ensures s.current.Some? ==>
              var p := s.current.value;
              var stopped := StopScopeState(cfg, s);
              r.cameraFov == stopped.cameraFov && r.defaultFov == stopped.defaultFov
              && r.events == stopped.events + [WeaponStopFire(p), WeaponAimingChanged(p, false)]
                             + (if destroyWeapon then [WeaponDestroyed(p)]
                                else [WeaponDetached(p)] + ActiveStateEvents(p, false, s.live))
                             + [CurrentWeaponChanged(s.current, None, IndexNone, "")]
  {
    if s.current.None? then s
    else
      var s1 := StopScopeState(cfg, s);
      var previous := s1.current.value;
      var s2 := s1.(events := s1.events + [WeaponStopFire(previous), WeaponAimingChanged(previous, false)]);
      var index := IndexOf(s2.weapons, previous);
      assert index == s.slot;
      var s3 := if index != IndexNone then s2.(weapons := s2.weapons[..index] + s2.weapons[index + 1..]) else s2;
      RemoveAtDistinct(s.weapons, index);
      var s4 := if destroyWeapon then s3.(live := s3.live - {previous}, events := s3.events + [WeaponDestroyed(previous)])
                else s3.(events := s3.events + [WeaponDetached(previous)] + ActiveStateEvents(previous, false, s3.live));
      s4.(current := None, slot := IndexNone,
          events := s4.events + [ChangedEvent(cfg, Some(previous), None, IndexNone, s4.live)])
  }

  /** Removing one entry from a list without repeats leaves a list without repeats. */
  lemma RemoveAtDistinct(ws: seq<ObjectId>, k: int)
    requires Distinct(ws) && 0 <= k < |ws|
    ensures Distinct(ws[..k] + ws[k + 1..])
  {
    var rest := ws[..k] + ws[k + 1..];
    forall i, j | 0 <= i < j < |rest| ensures rest[i] != rest[j] {
      var i' := if i < k then i else i + 1;
      var j' := if j < k then j else j + 1;
      assert rest[i] == ws[i'] && rest[j] == ws[j'];
    }
  }

  /** SetWeaponActiveState(Weapon, false) for each freshly spawned weapon. */
  function Deactivations(ws: seq<ObjectId>): (r: seq<Event>)
    ensures |r| == |ws| && forall k | 0 <= k < |ws| :: r[k] == WeaponDeactivated(ws[k])
  {
    seq(|ws|, k requires 0 <= k < |ws| => WeaponDeactivated(ws[k]))
  }

  /**
   * The loadout InitializeLoadout builds before equipping: the spawned weapons, valid and
   * deactivated, in order.
   */
  function LoadSpawned(s: State, ws: seq<ObjectId>): (r: State)
    ensures r.weapons == ws && r.current == s.current && r.slot == s.slot && r.scoping == s.scoping
    ensures r.live == s.live + (set w | w in ws) && r.events == s.events + Deactivations(ws)
    ensures s.current.None? && s.slot == IndexNone && Distinct(ws) ==> ValidState(r)
  {
    s.(weapons := ws, live := s.live + (set w | w in ws), events := s.events + Deactivations(ws))
  }

  /** Loading one more spawned weapon appends it, makes it valid and deactivates it. */
  lemma LoadSpawnedSnoc(s: State, ws: seq<ObjectId>, w: ObjectId)
    ensures LoadSpawned(s, ws + [w])
            == LoadSpawned(s, ws).(weapons := ws + [w], live := LoadSpawned(s, ws).live + {w},
                                   events := LoadSpawned(s, ws).events + [WeaponDeactivated(w)])
  {
    assert Deactivations(ws + [w]) == Deactivations(ws) + [WeaponDeactivated(w)];
    assert (set x | x in ws + [w]) == (set x | x in ws) + {w};
  }

  /** The slot InitializeLoadout equips among `count` spawned weapons: InitialEquippedSlotIndex clamped to [0, count - 1]. */
  function InitialSlot(cfg: Config, count: int): (r: int)
    ensures count >= 1 ==> 0 <= r < count
    ensures 0 <= cfg.initialEquippedSlotIndex < count ==> r == cfg.initialEquippedSlotIndex
    ensures cfg.initialEquippedSlotIndex < 0 ==> r == 0
    ensures count >= 1 && cfg.initialEquippedSlotIndex >= count ==> r == count - 1
  {
    ClampInt(cfg.initialEquippedSlotIndex, 0, count - 1)
  }

  /**
   * InitializeLoadout with `spawned` the SpawnActor result for each effective class (None
   * for a failed spawn): fails without a character owner or a world; otherwise scoping
   * stops, all loadout weapons are destroyed, the successfully spawned weapons become the
   * list in order, and the slot clamp(InitialEquippedSlotIndex, 0, n - 1) is equipped.
   * It succeeds exactly when at least one weapon spawned.
   */
  function InitializeLoadoutState(cfg: Config, s: State, spawned: seq<Option<ObjectId>>): (r: Outcome)
    requires |spawned| == |EffectiveLoadout(cfg)|
    ensures r.ok <==> cfg.ownerIsCharacter && cfg.hasWorld && EffectiveLoadout(cfg) != [] && NonNull(spawned) != []
    ensures !(cfg.ownerIsCharacter && cfg.hasWorld) ==> r.state == s
    ensures cfg.ownerIsCharacter && cfg.hasWorld && EffectiveLoadout(cfg) == [] ==>
              r.state.weapons == [] && r.state.current.None? && r.state.slot == IndexNone
    ensures cfg.ownerIsCharacter && cfg.hasWorld && EffectiveLoadout(cfg) != [] ==>
              r.state.weapons == NonNull(spawned)
    ensures cfg.ownerIsCharacter && cfg.hasWorld ==> |r.state.weapons| <= |EffectiveLoadout(cfg)|
    ensures r.ok ==> r.state.slot == InitialSlot(cfg, |NonNull(spawned)|)
    ensures r.ok ==> 0 <= r.state.slot < |NonNull(spawned)|
                     && r.state.current == Some(NonNull(spawned)[r.state.slot])
  {
    if !cfg.ownerIsCharacter || !cfg.hasWorld then Outcome(s, false)
    else
      var s1 := DestroyAllState(StopScopeState(cfg, s));
      if EffectiveLoadout(cfg) == [] then Outcome(s1, false)
      else
        LoadAndEquip(cfg, s1, NonNull(spawned))
  }

  /**
   * The end of InitializeLoadout: the spawned weapons become the list, and the initial
   * slot is equipped when there is at least one.
   */
  function LoadAndEquip(cfg: Config, s: State, ws: seq<ObjectId>): (r: Outcome)
    requires cfg.ownerIsCharacter
    ensures r.ok <==> ws != []
    ensures r.state.weapons == ws
    ensures !r.ok ==> r.state == LoadSpawned(s, ws)
    ensures r.ok ==> r == EquipSlot(cfg, LoadSpawned(s, ws), InitialSlot(cfg, |ws|))
    ensures r.ok ==> r.state.slot == InitialSlot(cfg, |ws|) && r.state.current == Some(ws[r.state.slot])
  {
    var s2 := LoadSpawned(s, ws);
    if ws == [] then Outcome(s2, false)
    else
      var k := InitialSlot(cfg, |ws|);
      assert ws[k] in s2.live;
      EquipSlot(cfg, s2, k)
  }

  /** InitializeLoadout keeps the invariant when the spawned actors are distinct. */
  lemma InitializeLoadoutValid(cfg: Config, s: State, spawned: seq<Option<ObjectId>>)
    requires |spawned| == |EffectiveLoadout(cfg)| && ValidState(s) && Distinct(NonNull(spawned))
    ensures ValidState(InitializeLoadoutState(cfg, s, spawned).state)
  {
    if cfg.ownerIsCharacter && cfg.hasWorld && EffectiveLoadout(cfg) != [] && NonNull(spawned) != [] {
      var s1 := DestroyAllState(StopScopeState(cfg, s));
      EquipSlotValid(cfg, LoadSpawned(s1, NonNull(spawned)), InitialSlot(cfg, |NonNull(spawned)|));
    }
  }

  /**
   * CacheOwnerReferences' effect on the field of view: the camera's FOV becomes the
   * default if none is stored yet.
   */
  function CacheFovState(cfg: Config, s: State): (r: State)
    ensures cfg.hasCamera && s.defaultFov <= KindaSmallNumber ==> r == s.(defaultFov := s.cameraFov)
    ensures !(cfg.hasCamera && s.defaultFov <= KindaSmallNumber) ==> r == s
  {
    if cfg.hasCamera && s.defaultFov <= KindaSmallNumber then s.(defaultFov := s.cameraFov) else s
  }

  /**
   * StartFire: while the crosshair hovers a widget (and fire is routed to widgets) the
   * press clicks the widget and the weapon does not fire; otherwise the current weapon fires.
   */
  function StartFireEvents(cfg: Config, s: State, hoveringWidget: bool): (r: seq<Event>)
    ensures |r| <= 1
    ensures cfg.fireInteractsWithWidgets && cfg.hasInteraction && hoveringWidget ==> r == [PressWidgetInteraction]
    ensures forall e | e in r && e.WeaponStartFire? ::
              s.current == Some(e.weapon) && !(cfg.fireInteractsWithWidgets && cfg.hasInteraction && hoveringWidget)
    ensures !(cfg.fireInteractsWithWidgets && cfg.hasInteraction && hoveringWidget) && s.current.Some? ==>
              r == [WeaponStartFire(s.current.value)]
  {
    if cfg.fireInteractsWithWidgets && cfg.hasInteraction && hoveringWidget then [PressWidgetInteraction]
    else if s.current.Some? then [WeaponStartFire(s.current.value)]
    else []
  }

  /** StopFire: releases any widget press and stops the current weapon. */
  function StopFireEvents(cfg: Config, s: State): (r: seq<Event>)
    ensures (ReleaseWidgetInteraction in r) <==> cfg.hasInteraction
    ensures s.current.Some? ==> WeaponStopFire(s.current.value) in r
    ensures s.current.None? ==> forall e | e in r :: !e.WeaponStopFire?
  {
    (if cfg.hasInteraction then [ReleaseWidgetInteraction] else [])
    + (if s.current.Some? then [WeaponStopFire(s.current.value)] else [])
  }

  /**
   * GetAmmoTotalAvailable: the current weapon's magazine plus reserve, 0 without one; it
   * is always GetAmmoInMagazine + GetAmmoInReserve.
   */
  function AmmoTotalAvailable(s: State, magazineOf: ObjectId -> int, reserveOf: ObjectId -> int): (r: int)
    ensures r == AmmoInMagazine(s, magazineOf) + AmmoInReserve(s, reserveOf)
    ensures s.current.None? ==> r == 0
  {
    if s.current.None? then 0 else magazineOf(s.current.value) + reserveOf(s.current.value)
  }

  /** GetAmmoInMagazine */
  function AmmoInMagazine(s: State, magazineOf: ObjectId -> int): int
  {
    if s.current.None? then 0 else magazineOf(s.current.value)
  }

  /** GetAmmoInReserve */
  function AmmoInReserve(s: State, reserveOf: ObjectId -> int): int
  {
    if s.current.None? then 0 else reserveOf(s.current.value)
  }

  // ---------------------------------------------------------------- the component

  class CombatComponent {
    const config: Config
    /** SpawnedLoadoutWeapons */
    var spawnedLoadoutWeapons: seq<ObjectId>
    /** CurrentWeapon */
    var currentWeapon: Option<ObjectId>
    /** CurrentWeaponSlotIndex */
    var currentWeaponSlotIndex: int
    /** bIsScoping */
    var isScoping: bool
    /** DefaultFieldOfView */
    var defaultFieldOfView: real
    /** The cached camera's FieldOfView. */
    var cameraFieldOfView: real
    /** The weapon actors that are still valid. */
    var live: set<ObjectId>
    var events: seq<Event>

    function Snapshot(): State
      reads this
    {
      State(spawnedLoadoutWeapons, currentWeapon, currentWeaponSlotIndex, isScoping,
            defaultFieldOfView, cameraFieldOfView, live, events)
    }

    ghost predicate Valid()
      reads this
    {
      ValidState(Snapshot())
    }

    /** A component before BeginPlay: no weapons, FOV not yet captured. */
    constructor (config: Config, cameraFieldOfView: real)
      ensures this.config == config && Valid()
      ensures Snapshot() == State([], None, IndexNone, false, 0.0, cameraFieldOfView, {}, [])
    {
      this.config := config;
      spawnedLoadoutWeapons := [];
      currentWeapon := None;
      currentWeaponSlotIndex := IndexNone;
      isScoping := false;
      defaultFieldOfView := 0.0;
      this.cameraFieldOfView := cameraFieldOfView;
      live := {};
      events := [];
    }

    method SetWeaponActiveState(weapon: ObjectId, active: bool)
      modifies this
      ensures Snapshot() == old(Snapshot()).(events := old(events) + ActiveStateEvents(weapon, active, live))
    {
      if weapon !in live {
        return;
      }
      if active {
        events := events + [WeaponActivated(weapon)];
      } else {
        events := events + [WeaponDeactivated(weapon)];
      }
    }

    method BroadcastCurrentWeaponChanged(previous: Option<ObjectId>, next: Option<ObjectId>, slot: int)
      modifies this
      ensures Snapshot() == old(Snapshot()).(events := old(events) + [ChangedEvent(config, previous, next, slot, live)])
    {
      var tag := if next.Some? && next.value in live then config.weaponTypeTag(next.value) else "";
      events := events + [CurrentWeaponChanged(previous, next, slot, tag)];
    }

    /** StartScope */
    method StartScope()
      modifies this
      ensures Snapshot() == StartScopeState(config, old(Snapshot()))
    {
      isScoping := true;
      if currentWeapon.Some? {
        events := events + [WeaponAimingChanged(currentWeapon.value, true)];
      }
      if !config.enableScopeFov || !config.hasCamera {
        return;
      }
      if defaultFieldOfView <= KindaSmallNumber {
        defaultFieldOfView := cameraFieldOfView;
      }
      cameraFieldOfView := config.scopedFieldOfView;
    }

    /** StopScope */
    method StopScope()
      modifies this
      ensures Snapshot() == StopScopeState(config, old(Snapshot()))
    {
      isScoping := false;
      if currentWeapon.Some? {
        events := events + [WeaponAimingChanged(currentWeapon.value, false)];
      }
      if !config.enableScopeFov || !config.hasCamera {
        return;
      }
      if defaultFieldOfView > KindaSmallNumber {
        cameraFieldOfView := defaultFieldOfView;
      }
    }

    /** IsScopeOverlayActive */
    function IsScopeOverlayActive(): (r: bool)
      reads this
      ensures r == ScopeOverlayActive(config, Snapshot())
    {
      isScoping && currentWeapon.Some? && config.scopeOverlayWeaponTypeTag != ""
      && MatchesTagExact(config.weaponTypeTag(currentWeapon.value), config.scopeOverlayWeaponTypeTag)
    }

    /** GetAmmoTotalAvailable, given the weapons' ammo counters. */
    function GetAmmoTotalAvailable(magazineOf: ObjectId -> int, reserveOf: ObjectId -> int): (r: int)
      reads this
      ensures r == AmmoTotalAvailable(Snapshot(), magazineOf, reserveOf)
    {
      if currentWeapon.None? then 0 else magazineOf(currentWeapon.value) + reserveOf(currentWeapon.value)
    }

    /** EquipWeaponSlot(SlotIndex) */
    method EquipWeaponSlot(slotIndex: int) returns (ok: bool)
      modifies this
      ensures Outcome(Snapshot(), ok) == EquipSlot(config, old(Snapshot()), slotIndex)
    {
      if !(0 <= slotIndex < |spawnedLoadoutWeapons|) {
        return false;
      }
      var newWeapon := spawnedLoadoutWeapons[slotIndex];
      if newWeapon !in live || !config.ownerIsCharacter {
        return false;
      }
      if currentWeapon == Some(newWeapon) && currentWeaponSlotIndex == slotIndex {
        SetWeaponActiveState(newWeapon, true);
        return true;
      }
      if isScoping {
        StopScope();
      }
      var previousWeapon := currentWeapon;
      if previousWeapon.Some? && previousWeapon.value != newWeapon {
        SetWeaponActiveState(previousWeapon.value, false);
      }
      currentWeapon := Some(newWeapon);
      currentWeaponSlotIndex := slotIndex;
      SetWeaponActiveState(newWeapon, true);
      BroadcastCurrentWeaponChanged(previousWeapon, currentWeapon, currentWeaponSlotIndex);
      ok := true;
    }

    /** EquipNextWeapon */
    method EquipNextWeapon() returns (ok: bool)
      requires Valid()
      modifies this
      ensures Outcome(Snapshot(), ok) == EquipNext(config, old(Snapshot()))
    {
      var weaponCount := |spawnedLoadoutWeapons|;
      if weaponCount <= 1 {
        return false;
      }
      var baseIndex := if currentWeaponSlotIndex == IndexNone then 0 else currentWeaponSlotIndex;
      ok := EquipWeaponSlot((baseIndex + 1) % weaponCount);
    }

    /** EquipPreviousWeapon */
    method EquipPreviousWeapon() returns (ok: bool)
      requires Valid()
      modifies this
      ensures Outcome(Snapshot(), ok) == EquipPrevious(config, old(Snapshot()))
    {
      var weaponCount := |spawnedLoadoutWeapons|;
      if weaponCount <= 1 {
        return false;
      }
      var baseIndex := if currentWeaponSlotIndex == IndexNone then 0 else currentWeaponSlotIndex;
      ok := EquipWeaponSlot((baseIndex - 1 + weaponCount) % weaponCount);
    }

    /** DestroyAllLoadoutWeapons */
    method DestroyAllLoadoutWeapons()
      modifies this
      ensures Snapshot() == DestroyAllState(old(Snapshot()))
    {
      var i := 0;
      while i < |spawnedLoadoutWeapons|
        invariant 0 <= i <= |spawnedLoadoutWeapons|
        invariant spawnedLoadoutWeapons == old(spawnedLoadoutWeapons)
        invariant var d := DestroyRun(spawnedLoadoutWeapons[..i], old(live), None);
                  live == d.live && events == old(events) + d.events
        invariant currentWeapon == old(currentWeapon) && currentWeaponSlotIndex == old(currentWeaponSlotIndex)
        invariant isScoping == old(isScoping) && defaultFieldOfView == old(defaultFieldOfView)
        invariant cameraFieldOfView == old(cameraFieldOfView)
      {
        var weapon := spawnedLoadoutWeapons[i];
        assert spawnedLoadoutWeapons[..i + 1][..i] == spawnedLoadoutWeapons[..i];
        if weapon in live {
          live := live - {weapon};
          events := events + [WeaponDestroyed(weapon)];
        }
        i := i + 1;
      }
      assert spawnedLoadoutWeapons[..i] == spawnedLoadoutWeapons;
      spawnedLoadoutWeapons := [];
      currentWeapon := None;
      currentWeaponSlotIndex := IndexNone;
    }

    /** EquipSpawnedWeapon(NewWeapon) */
    method EquipSpawnedWeapon(newWeapon: Option<ObjectId>) returns (ok: bool)
      requires Valid()
      modifies this
      ensures Outcome(Snapshot(), ok) == EquipSpawned(config, old(Snapshot()), newWeapon)
    {
      if newWeapon.None? || newWeapon.value !in live || !config.ownerIsCharacter {
        return false;
      }
      if currentWeapon == newWeapon && currentWeaponSlotIndex != IndexNone {
        return true;
      }
      ghost var s0 := Snapshot();
      if isScoping {
        StopScope();
      }
      DestroyOtherWeapons(newWeapon);
      spawnedLoadoutWeapons := [];
      SetWeaponActiveState(newWeapon.value, false);
      spawnedLoadoutWeapons := [newWeapon.value];
      currentWeapon := None;
      currentWeaponSlotIndex := IndexNone;
      assert Snapshot() == ReplaceLoadout(config, s0, newWeapon.value);
      ok := EquipWeaponSlot(0);
    }

    /** The destroy loop of EquipSpawnedWeapon: every other listed weapon still valid is destroyed. */
    method DestroyOtherWeapons(keep: Option<ObjectId>)
      modifies this
      ensures var d := DestroyRun(old(spawnedLoadoutWeapons), old(live), keep);
              Snapshot() == old(Snapshot()).(live := d.live, events := old(events) + d.events)
    {
      var i := 0;
      while i < |spawnedLoadoutWeapons|
        invariant 0 <= i <= |spawnedLoadoutWeapons|
        invariant spawnedLoadoutWeapons == old(spawnedLoadoutWeapons)
        invariant var d := DestroyRun(spawnedLoadoutWeapons[..i], old(live), keep);
                  live == d.live && events == old(events) + d.events
        invariant currentWeapon == old(currentWeapon) && currentWeaponSlotIndex == old(currentWeaponSlotIndex)
        invariant isScoping == old(isScoping) && defaultFieldOfView == old(defaultFieldOfView)
        invariant cameraFieldOfView == old(cameraFieldOfView)
      {
        var existingWeapon := spawnedLoadoutWeapons[i];
        assert spawnedLoadoutWeapons[..i + 1][..i] == spawnedLoadoutWeapons[..i];
        if existingWeapon in live && Some(existingWeapon) != keep {
          live := live - {existingWeapon};
          events := events + [WeaponDestroyed(existingWeapon)];
        }
        i := i + 1;
      }
      assert spawnedLoadoutWeapons[..i] == spawnedLoadoutWeapons;
    }

    /**
     * EquipWeapon(WeaponClass) with `spawned` the SpawnActor result: a null class, a
     * missing owner or world fails; otherwise the spawned weapon (valid when non-null)
     * goes through EquipSpawnedWeapon.
     */
    method EquipWeapon(weaponClass: Option<ObjectId>, spawned: Option<ObjectId>) returns (ok: bool)
      requires Valid()
      modifies this
      ensures weaponClass.None? || !config.ownerIsCharacter || !config.hasWorld ==>
                !ok && Snapshot() == old(Snapshot())
      ensures weaponClass.Some? && config.ownerIsCharacter && config.hasWorld ==>
                Outcome(Snapshot(), ok)
                == EquipSpawned(config, old(Snapshot()).(live := old(live) + (if spawned.Some? then {spawned.value} else {})),
                                spawned)
    {
      if weaponClass.None? || !config.ownerIsCharacter || !config.hasWorld {
        return false;
      }
      if spawned.Some? {
        live := live + {spawned.value};
      }
      ok := EquipSpawnedWeapon(spawned);
    }

    /** UnequipCurrentWeapon(bDestroyWeapon) */
    method UnequipCurrentWeapon(destroyWeapon: bool)
      requires Valid()
      modifies this
      ensures Snapshot() == Unequip(config, old(Snapshot()), destroyWeapon)
    {
      if currentWeapon.None? {
        return;
      }
      ghost var s0 := Snapshot();
      StopScope();
      var previousWeapon := currentWeapon.value;
      events := events + [WeaponStopFire(previousWeapon), WeaponAimingChanged(previousWeapon, false)];
      ghost var s2 := Snapshot();
      assert s2 == StopScopeState(config, s0).(events := StopScopeState(config, s0).events
                                                 + [WeaponStopFire(previousWeapon), WeaponAimingChanged(previousWeapon, false)]);
      var existingIndex := IndexOf(spawnedLoadoutWeapons, previousWeapon);
      if existingIndex != IndexNone {
        spawnedLoadoutWeapons := spawnedLoadoutWeapons[..existingIndex] + spawnedLoadoutWeapons[existingIndex + 1..];
      }
      assert Snapshot() == (if existingIndex != IndexNone
                            then s2.(weapons := s2.weapons[..existingIndex] + s2.weapons[existingIndex + 1..]) else s2);
      if destroyWeapon {
        live := live - {previousWeapon};
        events := events + [WeaponDestroyed(previousWeapon)];
      } else {
        events := events + [WeaponDetached(previousWeapon)];
        SetWeaponActiveState(previousWeapon, false);
      }
      currentWeapon := None;
      currentWeaponSlotIndex := IndexNone;
      BroadcastCurrentWeaponChanged(Some(previousWeapon), None, IndexNone);
    }

    /**
     * InitializeLoadout with `spawned` the SpawnActor result for each effective class in
     * order (see InitializeLoadoutState).
     */
    method InitializeLoadout(spawned: seq<Option<ObjectId>>) returns (ok: bool)
      requires |spawned| == |EffectiveLoadout(config)|
      modifies this
      ensures Outcome(Snapshot(), ok) == InitializeLoadoutState(config, old(Snapshot()), spawned)
    {
      if !config.ownerIsCharacter || !config.hasWorld {
        return false;
      }
      ghost var s0 := Snapshot();
      StopScope();
      DestroyAllLoadoutWeapons();
      ghost var s1 := Snapshot();
      assert s1 == DestroyAllState(StopScopeState(config, s0));
      var effectiveLoadoutClasses := CollectLoadoutClasses();
      if effectiveLoadoutClasses == [] {
        currentWeapon := None;
        currentWeaponSlotIndex := IndexNone;
        assert Snapshot() == s1;
        return false;
      }
      assert InitializeLoadoutState(config, s0, spawned) == LoadAndEquip(config, s1, NonNull(spawned));
      SpawnLoadout(spawned);
      assert s1.(weapons := []) == s1;
      assert Snapshot() == LoadSpawned(s1, NonNull(spawned));
      if |spawnedLoadoutWeapons| == 0 {
        return false;
      }
      var equippedSlot := ClampInt(config.initialEquippedSlotIndex, 0, |spawnedLoadoutWeapons| - 1);
      assert equippedSlot == InitialSlot(config, |NonNull(spawned)|);
      ok := EquipWeaponSlot(equippedSlot);
    }

    /** One iteration of the spawn loop: the new weapon is valid, deactivated and appended. */
    method AddSpawnedWeapon(w: ObjectId)
      modifies this
      ensures Snapshot() == old(Snapshot()).(weapons := old(spawnedLoadoutWeapons) + [w], live := old(live) + {w},
                                             events := old(events) + [WeaponDeactivated(w)])
    {
      live := live + {w};
      SetWeaponActiveState(w, false);
      spawnedLoadoutWeapons := spawnedLoadoutWeapons + [w];
    }

    /**
     * The first part of InitializeLoadout's class collection: the non-null loadout
     * classes in order, or the starter class alone when there are none.
     */
    method CollectLoadoutClasses() returns (classes: seq<ObjectId>)
      ensures classes == EffectiveLoadout(config)
    {
      classes := [];
      var i := 0;
      while i < |config.loadoutWeaponClasses|
        invariant 0 <= i <= |config.loadoutWeaponClasses|
        invariant classes == NonNull(config.loadoutWeaponClasses[..i])
      {
        NonNullSnoc(config.loadoutWeaponClasses, i);
        if config.loadoutWeaponClasses[i].Some? {
          classes := classes + [config.loadoutWeaponClasses[i].value];
        }
        i := i + 1;
      }
      assert config.loadoutWeaponClasses[..i] == config.loadoutWeaponClasses;
      if classes == [] && config.starterWeaponClass.Some? {
        classes := classes + [config.starterWeaponClass.value];
      }
    }

    /**
     * InitializeLoadout's spawn loop on an emptied loadout: each successfully spawned
     * weapon becomes valid, is deactivated and joins the list, in order.
     */
    method SpawnLoadout(spawned: seq<Option<ObjectId>>)
      modifies this
      ensures Snapshot() == LoadSpawned(old(Snapshot()).(weapons := []), NonNull(spawned))
    {
      spawnedLoadoutWeapons := [];
      ghost var cleared := Snapshot();
      var k := 0;
      while k < |spawned|
        invariant 0 <= k <= |spawned|
        invariant Snapshot() == LoadSpawned(cleared, NonNull(spawned[..k]))
      {
        NonNullSnoc(spawned, k);
        var spawnedWeapon := spawned[k];
        if spawnedWeapon.Some? {
          LoadSpawnedSnoc(cleared, NonNull(spawned[..k]), spawnedWeapon.value);
          AddSpawnedWeapon(spawnedWeapon.value);
        }
        k := k + 1;
      }
      assert spawned[..k] == spawned;
    }

    /**
     * BeginPlay after CacheOwnerReferences: the camera FOV is captured as the default, and
     * the loadout is initialized when configured to and no weapon is equipped yet.
     */
    method BeginPlay(spawned: seq<Option<ObjectId>>) returns (ok: bool)
      requires |spawned| == |EffectiveLoadout(config)|
      modifies this
      ensures config.spawnStarterWeaponOnBeginPlay && old(currentWeapon).None? ==>
                Outcome(Snapshot(), ok) == InitializeLoadoutState(config, CacheFovState(config, old(Snapshot())), spawned)
      ensures !(config.spawnStarterWeaponOnBeginPlay && old(currentWeapon).None?) ==>
                !ok && Snapshot() == CacheFovState(config, old(Snapshot()))
    {
      if config.hasCamera && defaultFieldOfView <= KindaSmallNumber {
        defaultFieldOfView := cameraFieldOfView;
      }
      ok := false;
      if config.spawnStarterWeaponOnBeginPlay && currentWeapon.None? {
        ok := InitializeLoadout(spawned);
      }
    }

    /** StartFire, given whether the interaction component reports a hovered widget. */
    method StartFire(hoveringWidget: bool)
      modifies this
      ensures Snapshot() == old(Snapshot()).(events := old(events) + StartFireEvents(config, old(Snapshot()), hoveringWidget))
    {
      if config.fireInteractsWithWidgets {
        if config.hasInteraction && hoveringWidget {
          events := events + [PressWidgetInteraction];
          return;
        }
      }
      if currentWeapon.Some? {
        events := events + [WeaponStartFire(currentWeapon.value)];
      }
    }

    /** StopFire */
    method StopFire()
      modifies this
      ensures Snapshot() == old(Snapshot()).(events := old(events) + StopFireEvents(config, old(Snapshot())))
    {
      if config.hasInteraction {
        events := events + [ReleaseWidgetInteraction];
      }
      if currentWeapon.Some? {
        events := events + [WeaponStopFire(currentWeapon.value)];
      }
    }
  }
}
