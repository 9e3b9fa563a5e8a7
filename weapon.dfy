/**
 * Fire gating of AWeaponBase: the trigger-held flag, the looping fire timer, the
 * server's rate guard on shots, and how a shot result is assembled from two traces.
 *
 * Traces, the spread cone, the muzzle socket and vector normalisation are engine
 * geometry and are given as oracles in the weapon's environment; world time is a
 * parameter of the operations that read it.
 */
module Weapon {
  import opened Common

  datatype Vec = Vec(x: real, y: real, z: real)

  function Add(a: Vec, b: Vec): Vec
  {
    Vec(a.x + b.x, a.y + b.y, a.z + b.z)
  }

  function Sub(a: Vec, b: Vec): Vec
  {
    Vec(a.x - b.x, a.y - b.y, a.z - b.z)
  }

  function Scale(a: Vec, k: real): Vec
  {
    Vec(a.x * k, a.y * k, a.z * k)
  }

  const ZeroVector := Vec(0.0, 0.0, 0.0)
  const ForwardVector := Vec(1.0, 0.0, 0.0)

  /** What a line trace reports: FHitResult's bBlockingHit, ImpactPoint, ImpactNormal and actor. */
  datatype TraceHit = TraceHit(blockingHit: bool, impactPoint: Vec, impactNormal: Vec, actor: Option<ObjectId>)

  /** FShotResultData */
  datatype ShotResult = ShotResult(traceStart: Vec, traceEnd: Vec, impactPoint: Vec, impactNormal: Vec,
                                   blockingHit: bool)

  /** FShotResultData's defaults: zero vectors, the forward normal and no hit. */
  const DefaultShot := ShotResult(ZeroVector, ZeroVector, ZeroVector, ForwardVector, false)

  datatype Event =
    /** BP_PlayFireFX(ShotResult, bPredictedLocal) */
    | FireFX(shot: ShotResult, predictedLocal: bool)
    /** BP_PlayImpactFX(ShotResult, bPredictedLocal) */
    | ImpactFX(shot: ShotResult, predictedLocal: bool)
    /** UGameplayStatics::ApplyPointDamage(HitActor, Damage, ...) with the owner's controller as instigator. */
    | PointDamage(target: Option<ObjectId>, amount: real, instigator: Option<ObjectId>)
    /** The ServerStartFire RPC sent by a client. */
    | ServerStartFireCall
    /** The ServerStopFire RPC sent by a client. */
    | ServerStopFireCall
    /** The ServerFireOnce(CamLocation, CamDirection, SpreadSeed) RPC sent by a client. */
    | ServerFireOnceCall(camLocation: Vec, camDirection: Vec, spreadSeed: Int32)
    /** The MulticastPlayFireFX(ShotResult) RPC sent by the server. */
    | MulticastFireFXCall(shot: ShotResult)

  /**
   * What a weapon reads but never writes: its authored stats, its network role, its
   * owner, and the engine geometry it queries.
   */
  datatype Env = Env(
    damage: real,
    maxRange: real,
    roundsPerMinute: real,
    hasAuthority: bool,
    hasWorld: bool,
    /** GetOwner() is a Pawn. */
    ownerIsPawn: bool,
    /** The owning pawn's controller, if any. */
    ownerController: Option<ObjectId>,
    /** The owning pawn is locally controlled. */
    ownerLocallyControlled: bool,
    /** GetMuzzleLocation() */
    muzzleLocation: Vec,
    /** ApplySpread(Direction, SpreadSeed) */
    spread: (Vec, Int32) -> Vec,
    /** FVector::GetSafeNormal */
    safeNormal: Vec -> Vec,
    /** LineTraceSingleByChannel(Start, End) against the visibility channel, ignoring the weapon and owner. */
    trace: (Vec, Vec) -> TraceHit)

  /** The weapon's mutable fields, plus the log of engine calls and RPCs. */
  datatype State = State(
    wantsToFire: bool,
    fireTimerActive: bool,
    fireTimerInterval: real,
    lastServerFireTime: real,
    events: seq<Event>)

  datatype Outcome = Outcome(state: State, ok: bool)

  /** CanLocalFire: the owner is a pawn and has a controller. */
  predicate CanLocalFire(env: Env)
  {
    env.ownerIsPawn && env.ownerController.Some?
  }

  /** The fire timer's period and the server's minimum spacing: 60 / max(RoundsPerMinute, 1) seconds. */
  function FireInterval(rpm: real): (r: real)
    ensures 0.0 < r <= 60.0
    ensures rpm >= 1.0 ==> r * rpm == 60.0
    ensures rpm < 1.0 ==> r == 60.0
  {
    60.0 / Max(rpm, 1.0)
  }

  /** The smallest gap between shots the server accepts: 90% of the fire interval. */
  function MinShotGap(rpm: real): (r: real)
    ensures 0.0 < r < FireInterval(rpm)
  {
    FireInterval(rpm) * 0.9
  }

  /**
   * SetFireTimerActive(bShouldFire): without a world nothing happens; false clears the
   * timer; true arms a looping timer with the fire interval unless one is already active.
   */
  function SetTimerState(env: Env, s: State, shouldFire: bool): (r: State)
    ensures r.wantsToFire == s.wantsToFire && r.lastServerFireTime == s.lastServerFireTime && r.events == s.events
    ensures !env.hasWorld ==> r == s
    ensures env.hasWorld && !shouldFire ==> !r.fireTimerActive
    ensures env.hasWorld && shouldFire ==> r.fireTimerActive
    ensures env.hasWorld && shouldFire && !s.fireTimerActive ==> r.fireTimerInterval == FireInterval(env.roundsPerMinute)
    ensures s.fireTimerActive && (shouldFire || !env.hasWorld) ==> r == s
  {
    if !env.hasWorld then s
    else if !shouldFire then s.(fireTimerActive := false)
    else if !s.fireTimerActive then s.(fireTimerActive := true, fireTimerInterval := FireInterval(env.roundsPerMinute))
    else s
  }

  /** StartFire: only a pawn with a controller can fire; a client also tells the server. */
  function StartFireState(env: Env, s: State): (r: State)
    ensures !CanLocalFire(env) ==> r == s
    ensures CanLocalFire(env) ==> r.wantsToFire && (env.hasWorld ==> r.fireTimerActive)
    ensures CanLocalFire(env) ==>
              r.events == s.events + (if env.hasAuthority then [] else [ServerStartFireCall])
    ensures r.lastServerFireTime == s.lastServerFireTime
  {
    if !CanLocalFire(env) then s
    else
      var s1 := SetTimerState(env, s.(wantsToFire := true), true);
      if env.hasAuthority then s1 else s1.(events := s1.events + [ServerStartFireCall])
  }

  /** StopFire: always releases the trigger and clears the timer; a client also tells the server. */
  function StopFireState(env: Env, s: State): (r: State)
    ensures !r.wantsToFire && (env.hasWorld ==> !r.fireTimerActive)
    ensures r.lastServerFireTime == s.lastServerFireTime && r.fireTimerInterval == s.fireTimerInterval
    ensures r.events == s.events + (if env.hasAuthority then [] else [ServerStopFireCall])
  {
    var s1 := SetTimerState(env, s.(wantsToFire := false), false);
    if env.hasAuthority then s1 else s1.(events := s1.events + [ServerStopFireCall])
  }

  /** Holding the trigger is idempotent: a second StartFire changes no field, it only re-sends the RPC. */
  lemma StartFireIdempotent(env: Env, s: State)
    ensures var once := StartFireState(env, s);
            var twice := StartFireState(env, once);
            twice.(events := once.events) == once
            && twice.events == once.events + (if CanLocalFire(env) && !env.hasAuthority then [ServerStartFireCall] else [])
  {
  }

  /** ServerStartFire on the server: the same gate as StartFire, without an RPC. */
  function ServerStartFireState(env: Env, s: State): (r: State)
    ensures !CanLocalFire(env) ==> r == s
    ensures CanLocalFire(env) ==> r.wantsToFire && (env.hasWorld ==> r.fireTimerActive)
    ensures CanLocalFire(env) && env.hasWorld && !s.fireTimerActive ==>
              r.fireTimerInterval == FireInterval(env.roundsPerMinute)
    ensures CanLocalFire(env) && (!env.hasWorld || s.fireTimerActive) ==> r == s.(wantsToFire := true)
    ensures r.events == s.events && r.lastServerFireTime == s.lastServerFireTime
  {
    if !CanLocalFire(env) then s else SetTimerState(env, s.(wantsToFire := true), true)
  }

  /**
   * StartFire and ServerStartFire agree on the weapon's fields: the client's StartFire
   * differs from the server's only by the ServerStartFire RPC it sends.
   */
  lemma StartFireIsServerStartFirePlusRpc(env: Env, s: State)
    ensures StartFireState(env, s)
            == ServerStartFireState(env, s).(events := s.events
                 + (if CanLocalFire(env) && !env.hasAuthority then [ServerStartFireCall] else []))
  {
  }

  /** ServerStopFire on the server. */
  function ServerStopFireState(env: Env, s: State): (r: State)
    ensures !r.wantsToFire && (env.hasWorld ==> !r.fireTimerActive)
    ensures r.events == s.events && r.lastServerFireTime == s.lastServerFireTime
  {
    SetTimerState(env, s.(wantsToFire := false), false)
  }

  /**
   * CanServerAcceptShot at world time `now`: refused without authority or a world, or when
   * less than 90% of the fire interval has passed since the last accepted shot; an
   * accepted shot records `now` and a refused one leaves the record alone.
   */
  function AcceptShot(env: Env, s: State, now: real): (r: Outcome)
    ensures r.ok <==> env.hasAuthority && env.hasWorld && now - s.lastServerFireTime >= MinShotGap(env.roundsPerMinute)
    ensures r.ok ==> r.state == s.(lastServerFireTime := now)
    ensures !r.ok ==> r.state == s
  {
    if !env.hasAuthority || !env.hasWorld then Outcome(s, false)
    else if now - s.lastServerFireTime < FireInterval(env.roundsPerMinute) * 0.9 then Outcome(s, false)
    else Outcome(s.(lastServerFireTime := now), true)
  }

  /** The arrival times among `times` that the server accepts, starting from the recorded time `last`. */
  function AcceptedTimes(env: Env, last: real, times: seq<real>): (r: seq<real>)
    decreases |times|
  {
    if times == [] then []
    else
      var o := AcceptShot(env, State(false, false, 0.0, last, []), times[0]);
      if o.ok then [times[0]] + AcceptedTimes(env, times[0], times[1..])
      else AcceptedTimes(env, last, times[1..])
  }

  /** Every accepted shot is at least MinShotGap after the one before it (or after `last`). */
  predicate Spaced(last: real, gap: real, accepted: seq<real>)
  {
    (|accepted| > 0 ==> accepted[0] - last >= gap)
    && forall i | 0 <= i < |accepted| - 1 :: accepted[i + 1] - accepted[i] >= gap
  }

  /**
   * However shots arrive, the server never accepts two closer together than 90% of the
   * fire interval: the rate guard bounds the fire rate whatever a client sends.
   */
  lemma {:induction false} AcceptedShotsSpaced(env: Env, last: real, times: seq<real>)
    ensures Spaced(last, MinShotGap(env.roundsPerMinute), AcceptedTimes(env, last, times))
    ensures forall t | t in AcceptedTimes(env, last, times) :: t in times
    decreases |times|
  {
    if times != [] {
      var o := AcceptShot(env, State(false, false, 0.0, last, []), times[0]);
      if o.ok {
        AcceptedShotsSpaced(env, times[0], times[1..]);
        var rest := AcceptedTimes(env, times[0], times[1..]);
        assert AcceptedTimes(env, last, times) == [times[0]] + rest;
        assert forall t | t in rest :: t in times[1..];
      } else {
        AcceptedShotsSpaced(env, last, times[1..]);
        assert forall t | t in times[1..] :: t in times;
      }
    }
  }

  datatype ShotOutcome = ShotOutcome(shot: ShotResult, events: seq<Event>)

  /**
   * SimulateShot(CamLocation, CamDirection, SpreadSeed, bApplyDamage): without a world or
   * a pawn owner, the default result. Otherwise an aim trace from the camera along the
   * spread direction picks the aim point, and a second trace from the muzzle towards it
   * decides the result: it starts at the muzzle, ends at the impact on a blocking hit or
   * at full range otherwise, and carries impact data only on a hit. Damage is applied
   * only when asked to, with authority, on a blocking hit.
   */
  function SimulateShot(env: Env, camLocation: Vec, camDirection: Vec, spreadSeed: Int32, applyDamage: bool): (r: ShotOutcome)
    ensures !env.hasWorld || !env.ownerIsPawn ==> r == ShotOutcome(DefaultShot, [])
    ensures env.hasWorld && env.ownerIsPawn ==>
              var aimEnd := Add(camLocation, Scale(env.spread(camDirection, spreadSeed), env.maxRange));
              var aimHit := env.trace(camLocation, aimEnd);
              var aimPoint := if aimHit.blockingHit then aimHit.impactPoint else aimEnd;
              var muzzleEnd := Add(env.muzzleLocation,
                                   Scale(env.safeNormal(Sub(aimPoint, env.muzzleLocation)), env.maxRange));
              var hit := env.trace(env.muzzleLocation, muzzleEnd);
              r.shot.traceStart == env.muzzleLocation
              && r.shot.blockingHit == hit.blockingHit
              && r.shot.traceEnd == (if hit.blockingHit then hit.impactPoint else muzzleEnd)
              && (hit.blockingHit ==> r.shot.impactPoint == hit.impactPoint && r.shot.impactNormal == hit.impactNormal)
              && (!hit.blockingHit ==> r.shot.impactPoint == ZeroVector && r.shot.impactNormal == ForwardVector)
              && r.events == (if applyDamage && env.hasAuthority && hit.blockingHit
                              then [PointDamage(hit.actor, env.damage, env.ownerController)] else [])
    ensures forall e | e in r.events :: e.PointDamage? && e.amount == env.damage
    ensures r.events != [] ==> applyDamage && env.hasAuthority && r.shot.blockingHit
  {
    if !env.hasWorld || !env.ownerIsPawn then ShotOutcome(DefaultShot, [])
    else
      var spreadDirection := env.spread(camDirection, spreadSeed);
      var aimTraceEnd := Add(camLocation, Scale(spreadDirection, env.maxRange));
      var aimHit := env.trace(camLocation, aimTraceEnd);
      var aimPoint := if aimHit.blockingHit then aimHit.impactPoint else aimTraceEnd;
      var muzzleDirection := env.safeNormal(Sub(aimPoint, env.muzzleLocation));
      var muzzleTraceEnd := Add(env.muzzleLocation, Scale(muzzleDirection, env.maxRange));
      var hit := env.trace(env.muzzleLocation, muzzleTraceEnd);
      var base := DefaultShot.(traceStart := env.muzzleLocation,
                               traceEnd := if hit.blockingHit then hit.impactPoint else muzzleTraceEnd,
                               blockingHit := hit.blockingHit);
      if !hit.blockingHit then ShotOutcome(base, [])
      else
        var shot := base.(impactPoint := hit.impactPoint, impactNormal := hit.impactNormal);
        ShotOutcome(shot, if applyDamage && env.hasAuthority then [PointDamage(hit.actor, env.damage, env.ownerController)] else [])
  }

  /** The cosmetic calls for one shot: the fire FX, and the impact FX on a blocking hit. */
  function ShotFX(shot: ShotResult, predictedLocal: bool): (r: seq<Event>)
    ensures |r| == (if shot.blockingHit then 2 else 1) && r[0] == FireFX(shot, predictedLocal)
    ensures shot.blockingHit ==> r[1] == ImpactFX(shot, predictedLocal)
  {
    [FireFX(shot, predictedLocal)] + (if shot.blockingHit then [ImpactFX(shot, predictedLocal)] else [])
  }

  /** ProcessServerShot: the authoritative shot, damage included, and its multicast. */
  function ServerShotEvents(env: Env, camLocation: Vec, camDirection: Vec, spreadSeed: Int32): (r: seq<Event>)
    ensures 1 <= |r| <= 2
    ensures r[|r| - 1] == MulticastFireFXCall(SimulateShot(env, camLocation, camDirection, spreadSeed, true).shot)
    ensures forall i | 0 <= i < |r| - 1 :: r[i].PointDamage? && r[i].amount == env.damage
                                         && r[i].instigator == env.ownerController
    ensures |r| == 2 <==> env.hasAuthority
                          && SimulateShot(env, camLocation, camDirection, spreadSeed, true).shot.blockingHit
  {
    var o := SimulateShot(env, camLocation, camDirection, spreadSeed, true);
    o.events + [MulticastFireFXCall(o.shot)]
  }

  /**
   * FireOnce_LocalOrServer, one tick of the fire timer: nothing unless the trigger is held
   * and the owner can fire; otherwise a predicted shot that applies no damage plays its FX
   * locally, and the server processes the shot itself while a client sends it by RPC.
   */
  function FireOnceEvents(env: Env, s: State, camLocation: Vec, camDirection: Vec, spreadSeed: Int32): (r: seq<Event>)
    ensures !s.wantsToFire || !CanLocalFire(env) ==> r == []
    ensures s.wantsToFire && CanLocalFire(env) ==>
              var predicted := SimulateShot(env, camLocation, camDirection, spreadSeed, false);
              predicted.events == []
              && r == ShotFX(predicted.shot, true)
                      + (if env.hasAuthority then ServerShotEvents(env, camLocation, camDirection, spreadSeed)
                         else [ServerFireOnceCall(camLocation, camDirection, spreadSeed)])
  {
    if !s.wantsToFire || !CanLocalFire(env) then []
    else
      var predicted := SimulateShot(env, camLocation, camDirection, spreadSeed, false);
      ShotFX(predicted.shot, true)
      + (if env.hasAuthority then ServerShotEvents(env, camLocation, camDirection, spreadSeed)
         else [ServerFireOnceCall(camLocation, camDirection, spreadSeed)])
  }

  /**
   * ServerFireOnce on the server at world time `now`: a shot is processed only while the
   * trigger is held and the rate guard accepts it; the guard is not consulted otherwise.
   */
  function ServerFireOnceState(env: Env, s: State, camLocation: Vec, camDirection: Vec, spreadSeed: Int32,
                               now: real): (r: State)
    ensures !s.wantsToFire ==> r == s
    ensures s.wantsToFire && !AcceptShot(env, s, now).ok ==> r == s
    ensures s.wantsToFire && AcceptShot(env, s, now).ok ==>
              r == s.(lastServerFireTime := now,
                      events := s.events + ServerShotEvents(env, camLocation, camDirection, spreadSeed))
  {
    if !s.wantsToFire then s
    else
      var o := AcceptShot(env, s, now);
      if !o.ok then s
      else o.state.(events := o.state.events + ServerShotEvents(env, camLocation, camDirection, spreadSeed))
  }

  /**
   * After StopFire (or ServerStopFire) no shot comes out: a late timer tick produces no
   * event, and a late ServerFireOnce changes nothing, not even the rate guard's record.
   */
  lemma NoShotAfterStop(env: Env, s: State, camLocation: Vec, camDirection: Vec, spreadSeed: Int32, now: real)
    ensures FireOnceEvents(env, StopFireState(env, s), camLocation, camDirection, spreadSeed) == []
    ensures var stopped := ServerStopFireState(env, s);
            ServerFireOnceState(env, stopped, camLocation, camDirection, spreadSeed, now) == stopped
  {
  }

  /**
   * MulticastPlayFireFX on a receiving copy of the weapon: the locally controlled owner
   * already played its predicted FX and plays nothing; everyone else plays the server's shot.
   */
  function MulticastEvents(env: Env, shot: ShotResult): (r: seq<Event>)
    ensures env.ownerIsPawn && env.ownerLocallyControlled ==> r == []
    ensures !(env.ownerIsPawn && env.ownerLocallyControlled) ==> r == ShotFX(shot, false)
    ensures forall e | e in r :: (e.FireFX? || e.ImpactFX?) && !e.predictedLocal
  {
    if env.ownerIsPawn && env.ownerLocallyControlled then [] else ShotFX(shot, false)
  }

  class WeaponBase {
    const env: Env
    /** bWantsToFire (replicated) */
    var wantsToFire: bool
    /** FireTimerHandle is active. */
    var fireTimerActive: bool
    /** The active fire timer's period. */
    var fireTimerInterval: real
    /** LastServerFireTime */
    var lastServerFireTime: real
    var events: seq<Event>

    function Snapshot(): State
      reads this
    {
      State(wantsToFire, fireTimerActive, fireTimerInterval, lastServerFireTime, events)
    }

    /** A weapon as spawned: trigger released, no timer, last server shot at -1000 s. */
    constructor (env: Env)
      ensures this.env == env
      ensures Snapshot() == State(false, false, 0.0, -1000.0, [])
    {
      this.env := env;
      wantsToFire := false;
      fireTimerActive := false;
      fireTimerInterval := 0.0;
      lastServerFireTime := -1000.0;
      events := [];
    }

    /** IsFiring */
    function IsFiring(): (r: bool)
      reads this
      ensures r == Snapshot().wantsToFire
    {
      wantsToFire
    }

    /** SetFireTimerActive(bShouldFire) */
    method SetFireTimerActive(shouldFire: bool)
      modifies this
      ensures Snapshot() == SetTimerState(env, old(Snapshot()), shouldFire)
    {
      if !env.hasWorld {
        return;
      }
      if !shouldFire {
        fireTimerActive := false;
        return;
      }
      var interval := 60.0 / Max(env.roundsPerMinute, 1.0);
      if !fireTimerActive {
        fireTimerActive := true;
        fireTimerInterval := interval;
      }
    }

    /** StartFire */
    method StartFire()
      modifies this
      ensures Snapshot() == StartFireState(env, old(Snapshot()))
    {
      if !(env.ownerIsPawn && env.ownerController.Some?) {
        return;
      }
      wantsToFire := true;
      SetFireTimerActive(true);
      if !env.hasAuthority {
        events := events + [ServerStartFireCall];
      }
    }

    /** StopFire */
    method StopFire()
      modifies this
      ensures Snapshot() == StopFireState(env, old(Snapshot()))
    {
      wantsToFire := false;
      SetFireTimerActive(false);
      if !env.hasAuthority {
        events := events + [ServerStopFireCall];
      }
    }

    /** ServerStartFire_Implementation */
    method ServerStartFire()
      modifies this
      ensures Snapshot() == ServerStartFireState(env, old(Snapshot()))
    {
      if !(env.ownerIsPawn && env.ownerController.Some?) {
        return;
      }
      wantsToFire := true;
      SetFireTimerActive(true);
    }

    /** ServerStopFire_Implementation */
    method ServerStopFire()
      modifies this
      ensures Snapshot() == ServerStopFireState(env, old(Snapshot()))
    {
      wantsToFire := false;
      SetFireTimerActive(false);
    }

    /** CanServerAcceptShot at world time `now` (the source's const method does update LastServerFireTime). */
    method CanServerAcceptShot(now: real) returns (ok: bool)
      modifies this
      ensures Outcome(Snapshot(), ok) == AcceptShot(env, old(Snapshot()), now)
    {
      if !env.hasAuthority || !env.hasWorld {
        return false;
      }
      var minInterval := 60.0 / Max(env.roundsPerMinute, 1.0);
      if now - lastServerFireTime < minInterval * 0.9 {
        return false;
      }
      lastServerFireTime := now;
      return true;
    }

    /** ProcessServerShot */
    method ProcessServerShot(camLocation: Vec, camDirection: Vec, spreadSeed: Int32)
      modifies this
      ensures Snapshot() == old(Snapshot()).(events := old(events) + ServerShotEvents(env, camLocation, camDirection, spreadSeed))
    {
      var result := SimulateShot(env, camLocation, camDirection, spreadSeed, true);
      events := events + result.events + [MulticastFireFXCall(result.shot)];
    }

    /** FireOnce_LocalOrServer: the fire timer's callback. */
    method FireOnceLocalOrServer(camLocation: Vec, camDirection: Vec, spreadSeed: Int32)
      modifies this
      ensures Snapshot() == old(Snapshot()).(events := old(events) + FireOnceEvents(env, old(Snapshot()), camLocation, camDirection, spreadSeed))
    {
      if !wantsToFire || !(env.ownerIsPawn && env.ownerController.Some?) {
        return;
      }
      var predictedShot := SimulateShot(env, camLocation, camDirection, spreadSeed, false);
      events := events + [FireFX(predictedShot.shot, true)];
      if predictedShot.shot.blockingHit {
        events := events + [ImpactFX(predictedShot.shot, true)];
      }
      if env.hasAuthority {
        ProcessServerShot(camLocation, camDirection, spreadSeed);
      } else {
        events := events + [ServerFireOnceCall(camLocation, camDirection, spreadSeed)];
      }
    }

    /** ServerFireOnce_Implementation at world time `now`. */
    method ServerFireOnce(camLocation: Vec, camDirection: Vec, spreadSeed: Int32, now: real)
      modifies this
      ensures Snapshot() == ServerFireOnceState(env, old(Snapshot()), camLocation, camDirection, spreadSeed, now)
    {
      if !wantsToFire {
        return;
      }
      var accepted := CanServerAcceptShot(now);
      if !accepted {
        return;
      }
      ProcessServerShot(camLocation, camDirection, spreadSeed);
    }

    /** MulticastPlayFireFX_Implementation */
    method MulticastPlayFireFX(shot: ShotResult)
      modifies this
      ensures Snapshot() == old(Snapshot()).(events := old(events) + MulticastEvents(env, shot))
    {
      if env.ownerIsPawn && env.ownerLocallyControlled {
        return;
      }
      events := events + [FireFX(shot, false)];
      if shot.blockingHit {
        events := events + [ImpactFX(shot, false)];
      }
    }
  }
}
