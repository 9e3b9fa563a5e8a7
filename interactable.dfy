/**
 * AInteractableActor: which animation montage an interaction plays, the branch that
 * defers the Blueprint interaction until the montage completes, and the completion that
 * then runs it.
 *
 * The character's animation instance is an oracle: whether it exists, whether a montage
 * is playing, and the length Montage_Play reports. The completion timer is a pending
 * callback with its delay.
 */
module Interactable {
  import opened Common
  import Text

  /** EInteractionType */
  datatype InteractionType =
    /** EInteractionType::None */
    | NoType
    | Pickup | Sit | OpenDoor | PullLever | PressButton | Custom

  /** AnimationPlayRate, authored within [0.1, 5]. */
  type PlayRate = r: real | 0.1 <= r <= 5.0 witness 1.0

  /** The actor's authored properties (montages are asset references). */
  datatype Config = Config(
    interactionType: InteractionType,
    customMontage: Option<ObjectId>,
    pickupMontage: Option<ObjectId>,
    sitMontage: Option<ObjectId>,
    openDoorMontage: Option<ObjectId>,
    pullLeverMontage: Option<ObjectId>,
    pressButtonMontage: Option<ObjectId>,
    playAnimationOnInteract: bool,
    waitForAnimationComplete: bool,
    playRate: PlayRate,
    /** AnimationSectionName */
    sectionName: string,
    canInteract: bool,
    maxInteractionDistance: real,
    interactionName: string,
    interactionAction: string)

  datatype Event =
    /** AnimInstance->Montage_Stop(0.2) */
    | MontageStop(character: ObjectId)
    /** AnimInstance->Montage_Play(Montage, AnimationPlayRate, MontageLength, 0, true) */
    | MontagePlay(character: ObjectId, montage: ObjectId, playRate: real)
    /** AnimInstance->Montage_JumpToSection(AnimationSectionName, Montage) */
    | JumpToSection(character: ObjectId, section: string, montage: ObjectId)
    /** BP_OnAnimationStart(PlayerCharacter) */
    | AnimationStart(character: ObjectId)
    /** BP_OnAnimationComplete(PlayerCharacter) */
    | AnimationComplete(player: Option<ObjectId>)
    /** BP_OnInteract(PlayerCharacter) */
    | BlueprintInteract(player: Option<ObjectId>)

  /** A completion callback armed on AnimationCompleteTimerHandle: who it completes for, and after how long. */
  datatype Pending = Pending(character: ObjectId, delay: real)

  /** AnimatingCharacter, the completion timer and the log of engine and Blueprint calls. */
  datatype State = State(animatingCharacter: Option<ObjectId>, pending: Option<Pending>, events: seq<Event>)

  datatype Outcome = Outcome(state: State, ok: bool)

  /** What the character's animation instance answers during PlayInteractionAnimation. */
  datatype AnimOracle = AnimOracle(hasAnimInstance: bool, anyMontagePlaying: bool, montageLength: real)

  /** The montage authored for an interaction type. */
  function TypeMontage(cfg: Config, t: InteractionType): Option<ObjectId>
  {
    match t
    case NoType => None
    case Pickup => cfg.pickupMontage
    case Sit => cfg.sitMontage
    case OpenDoor => cfg.openDoorMontage
    case PullLever => cfg.pullLeverMontage
    case PressButton => cfg.pressButtonMontage
    case Custom => cfg.customMontage
  }

  /**
   * GetInteractionAnimationMontage: a custom montage overrides the interaction type;
   * otherwise the type's montage, none for the None type, and the (then null) custom one
   * for the Custom type.
   */
  function Montage(cfg: Config): (r: Option<ObjectId>)
    ensures cfg.customMontage.Some? ==> r == cfg.customMontage
    ensures cfg.customMontage.None? ==> r == TypeMontage(cfg, cfg.interactionType)
    ensures cfg.customMontage.None? && cfg.interactionType in {NoType, Custom} ==> r.None?
    ensures r.Some? ==> r == cfg.customMontage || r == TypeMontage(cfg, cfg.interactionType)
  {
    if cfg.customMontage.Some? then cfg.customMontage
    else match cfg.interactionType
      case Pickup => cfg.pickupMontage
      case Sit => cfg.sitMontage
      case OpenDoor => cfg.openDoorMontage
      case PullLever => cfg.pullLeverMontage
      case PressButton => cfg.pressButtonMontage
      case Custom => cfg.customMontage
      case NoType => None
  }

  /** PlayInteractionAnimation succeeds: a character, a montage, an animation instance and a positive length. */
  predicate PlaySucceeds(cfg: Config, character: Option<ObjectId>, anim: AnimOracle)
  {
    character.Some? && Montage(cfg).Some? && anim.hasAnimInstance && anim.montageLength > 0.0
  }

  /**
   * The calls PlayInteractionAnimation makes: none for a null character, no montage or no
   * animation instance; otherwise a stop of any playing montage and the play, and on a
   * positive length the jump to the authored section (unless NAME_None) and the start event.
   */
  function AnimationCalls(cfg: Config, character: Option<ObjectId>, anim: AnimOracle): (r: seq<Event>)
    ensures character.None? || Montage(cfg).None? || !anim.hasAnimInstance ==> r == []
    ensures forall e | e in r :: !e.BlueprintInteract? && !e.AnimationComplete?
    ensures PlaySucceeds(cfg, character, anim) ==> AnimationStart(character.value) in r
    ensures character.Some? && Montage(cfg).Some? && anim.hasAnimInstance ==>
              MontagePlay(character.value, Montage(cfg).value, cfg.playRate) in r
  {
    if character.None? || Montage(cfg).None? || !anim.hasAnimInstance then []
    else
      var c := character.value;
      var m := Montage(cfg).value;
      var played := (if anim.anyMontagePlaying then [MontageStop(c)] else []) + [MontagePlay(c, m, cfg.playRate)];
      if anim.montageLength <= 0.0 then played
      else
        played + (if !Text.IsNoneName(cfg.sectionName) then [JumpToSection(c, cfg.sectionName, m)] else [])
        + [AnimationStart(c)]
  }

  /**
   * PlayInteractionAnimation(PlayerCharacter): on success it records the animating
   * character and, when waiting, arms the completion timer for length / play rate; on
   * failure neither changes.
   */
  function PlayAnimation(cfg: Config, s: State, character: Option<ObjectId>, anim: AnimOracle): (r: Outcome)
    ensures r.ok <==> PlaySucceeds(cfg, character, anim)
    ensures !r.ok ==> r.state.animatingCharacter == s.animatingCharacter && r.state.pending == s.pending
    ensures r.ok ==> r.state.animatingCharacter == character
    ensures r.ok && cfg.waitForAnimationComplete ==>
              r.state.pending == Some(Pending(character.value, anim.montageLength / cfg.playRate))
    ensures !(r.ok && cfg.waitForAnimationComplete) ==> r.state.pending == s.pending
    ensures r.state.events == s.events + AnimationCalls(cfg, character, anim)
  {
    var calls := AnimationCalls(cfg, character, anim);
    if !PlaySucceeds(cfg, character, anim) then Outcome(s.(events := s.events + calls), false)
    else
      var pending := if cfg.waitForAnimationComplete
                     then Some(Pending(character.value, anim.montageLength / cfg.playRate)) else s.pending;
      Outcome(State(character, pending, s.events + calls), true)
  }

  /**
   * When PlayInteractionAnimation succeeds and waits for completion, the completion timer
   * is armed for the animating character, and its delay, length / play rate, is positive
   * and lies between a fifth of the montage length and ten times it.
   */
  lemma CompletionDelayBounds(cfg: Config, s: State, character: Option<ObjectId>, anim: AnimOracle)
    requires PlayAnimation(cfg, s, character, anim).ok && cfg.waitForAnimationComplete
    ensures var p := PlayAnimation(cfg, s, character, anim).state.pending;
            p.Some? && Some(p.value.character) == character
            && 0.0 < p.value.delay
            && anim.montageLength / 5.0 <= p.value.delay <= anim.montageLength * 10.0
  {
    QuotientByPlayRate(anim.montageLength, cfg.playRate);
  }

  /** Dividing a positive length by a rate in [0.1, 5] scales it by a factor in [1/5, 10]. */
  lemma QuotientByPlayRate(length: real, playRate: PlayRate)
    requires length > 0.0
    ensures 0.0 < length / playRate
    ensures length / 5.0 <= length / playRate <= length * 10.0
  {
    var d := length / playRate;
    assert d * playRate == length;
    assert d > 0.0 by {
      if d <= 0.0 {
        assert false;
      }
    }
    calc {
      d * 0.1;
    <= { ScaleMonotone(d, 0.1, playRate); }
      d * playRate;
    ==
      length;
    }
    calc {
      length;
    ==
      d * playRate;
    <= { ScaleMonotone(d, playRate, 5.0); }
      d * 5.0;
    }
  }

  lemma ScaleMonotone(x: real, a: real, b: real)
    requires x >= 0.0 && a <= b
    ensures x * a <= x * b
  {
  }

  /**
   * OnInteract(PlayerCharacter): when the animation is enabled, started and waited for,
   * OnInteract reports success at once and leaves BP_OnInteract to the completion;
   * otherwise it returns what BP_OnInteract (answering `blueprintResult`) returns.
   */
  function Interact(cfg: Config, s: State, character: Option<ObjectId>, anim: AnimOracle, blueprintResult: bool): (r: Outcome)
    ensures var played := PlayAnimation(cfg, s, character, anim);
            var deferred := cfg.playAnimationOnInteract && played.ok && cfg.waitForAnimationComplete;
            (deferred ==> r == Outcome(played.state, true))
            && (!deferred ==> r.ok == blueprintResult
                              && r.state.events == (if cfg.playAnimationOnInteract then played.state.events else s.events)
                                                   + [BlueprintInteract(character)]
                              && r.state.animatingCharacter
                                 == (if cfg.playAnimationOnInteract then played.state else s).animatingCharacter
                              && r.state.pending == (if cfg.playAnimationOnInteract then played.state else s).pending)
  {
    var s1 := if cfg.playAnimationOnInteract then PlayAnimation(cfg, s, character, anim) else Outcome(s, false);
    if s1.ok && cfg.waitForAnimationComplete then Outcome(s1.state, true)
    else Outcome(s1.state.(events := s1.state.events + [BlueprintInteract(character)]), blueprintResult)
  }

  /**
   * OnInteractionAnimationComplete(PlayerCharacter): clears the animating character and
   * the timer, tells Blueprint the animation completed, and runs BP_OnInteract once for a
   * non-null character.
   */
  function Complete(s: State, character: Option<ObjectId>): (r: State)
    ensures r.animatingCharacter.None? && r.pending.None?
    ensures r.events == s.events + [AnimationComplete(character)]
                        + (if character.Some? then [BlueprintInteract(character)] else [])
  {
    State(None, None, s.events + [AnimationComplete(character)]
                      + (if character.Some? then [BlueprintInteract(character)] else []))
  }

  /** How many times BP_OnInteract ran in a log. */
  function CountInteract(events: seq<Event>): (n: nat)
    ensures n <= |events|
    decreases |events|
  {
    if events == [] then 0
    else CountInteract(events[..|events| - 1]) + (if events[|events| - 1].BlueprintInteract? then 1 else 0)
  }

  lemma {:induction false} CountInteractAppend(a: seq<Event>, b: seq<Event>)
    ensures CountInteract(a + b) == CountInteract(a) + CountInteract(b)
    decreases |b|
  {
    if b == [] {
      assert a + b == a;
    } else {
      assert (a + b)[..|a + b| - 1] == a + b[..|b| - 1];
      CountInteractAppend(a, b[..|b| - 1]);
    }
  }

  lemma {:induction false} CountInteractNone(events: seq<Event>)
    requires forall e | e in events :: !e.BlueprintInteract?
    ensures CountInteract(events) == 0
    decreases |events|
  {
    if events != [] {
      assert events[|events| - 1] in events;
      CountInteractNone(events[..|events| - 1]);
    }
  }

  /**
   * Whichever branch OnInteract takes, the Blueprint interaction runs exactly once: at
   * once, or, when deferred, when the armed completion fires for the animating character.
   */
  lemma InteractRunsBlueprintOnce(cfg: Config, s: State, character: Option<ObjectId>, anim: AnimOracle,
                                  blueprintResult: bool)
    ensures var r := Interact(cfg, s, character, anim, blueprintResult);
            var deferred := cfg.playAnimationOnInteract && PlaySucceeds(cfg, character, anim) && cfg.waitForAnimationComplete;
            var after := if deferred then Complete(r.state, Some(r.state.pending.value.character)) else r.state;
            (deferred ==> r.ok && r.state.pending == Some(Pending(character.value, anim.montageLength / cfg.playRate))
                          && after.animatingCharacter.None?)
            && |after.events| >= |s.events| && after.events[..|s.events|] == s.events
            && CountInteract(after.events[|s.events|..]) == 1
  {
    var r := Interact(cfg, s, character, anim, blueprintResult);
    var extra := if cfg.playAnimationOnInteract then AnimationCalls(cfg, character, anim) else [];
    CountInteractNone(extra);
    if cfg.playAnimationOnInteract && PlaySucceeds(cfg, character, anim) && cfg.waitForAnimationComplete {
      assert r.state.events == s.events + extra;
      assert r.state.pending.value.character == character.value;
      var after := Complete(r.state, Some(r.state.pending.value.character));
      var tail := [AnimationComplete(character), BlueprintInteract(character)];
      assert after.events == s.events + extra + tail;
      CountWithTail(s.events, extra, tail);
    } else {
      assert r.state.events == s.events + extra + [BlueprintInteract(character)];
      CountWithTail(s.events, extra, [BlueprintInteract(character)]);
    }
  }

  /** A log extended by calls without BP_OnInteract and then a tail that runs it once counts one run after the old log. */
  lemma CountWithTail(old_: seq<Event>, extra: seq<Event>, tail: seq<Event>)
    requires CountInteract(extra) == 0
    requires |tail| >= 1 && tail[|tail| - 1].BlueprintInteract?
    requires forall k | 0 <= k < |tail| - 1 :: !tail[k].BlueprintInteract?
    ensures var all := old_ + extra + tail;
            |all| >= |old_| && all[..|old_|] == old_ && CountInteract(all[|old_|..]) == 1
  {
    var all := old_ + extra + tail;
    assert all[|old_|..] == extra + tail;
    CountInteractAppend(extra, tail);
    var init := tail[..|tail| - 1];
    assert forall e | e in init :: !e.BlueprintInteract?;
    CountInteractNone(init);
  }

  class InteractableActor {
    const config: Config
    /** AnimatingCharacter */
    var animatingCharacter: Option<ObjectId>
    /** AnimationCompleteTimerHandle, when armed. */
    var pending: Option<Pending>
    var events: seq<Event>

    function Snapshot(): State
      reads this
    {
      State(animatingCharacter, pending, events)
    }

    constructor (config: Config)
      ensures this.config == config && Snapshot() == State(None, None, [])
    {
      this.config := config;
      animatingCharacter := None;
      pending := None;
      events := [];
    }

    /** GetInteractionAnimationMontage */
    function GetInteractionAnimationMontage(): (r: Option<ObjectId>)
      ensures r == Montage(config)
    {
      if config.customMontage.Some? then config.customMontage
      else TypeMontage(config, config.interactionType)
    }

    /** GetInteractionName_Implementation */
    function GetInteractionName(): (r: string)
      ensures r == config.interactionName
    {
      config.interactionName
    }

    /** GetInteractionAction_Implementation */
    function GetInteractionAction(): (r: string)
      ensures r == config.interactionAction
    {
      config.interactionAction
    }

    /** CanInteract_Implementation(PlayerCharacter): bCanInteract, whoever asks. */
    function CanInteract(character: Option<ObjectId>): (r: bool)
      ensures r == config.canInteract
    {
      config.canInteract
    }

    /** GetInteractionDistance_Implementation */
    function GetInteractionDistance(): (r: real)
      ensures r == config.maxInteractionDistance
    {
      config.maxInteractionDistance
    }

    /** PlayInteractionAnimation(PlayerCharacter) */
    method PlayInteractionAnimation(character: Option<ObjectId>, anim: AnimOracle) returns (ok: bool)
      modifies this
      ensures Outcome(Snapshot(), ok) == PlayAnimation(config, old(Snapshot()), character, anim)
    {
      if character.None? {
        return false;
      }
      var montage := GetInteractionAnimationMontage();
      if montage.None? {
        return false;
      }
      if !anim.hasAnimInstance {
        return false;
      }
      var c := character.value;
      ghost var before := events;
      ghost var played := (if anim.anyMontagePlaying then [MontageStop(c)] else []) + [MontagePlay(c, montage.value, config.playRate)];
      if anim.anyMontagePlaying {
        events := events + [MontageStop(c)];
      }
      events := events + [MontagePlay(c, montage.value, config.playRate)];
      assert events == before + played;
      var montageLength := anim.montageLength;
      if montageLength > 0.0 {
        ghost var section := if !Text.IsNoneName(config.sectionName) then [JumpToSection(c, config.sectionName, montage.value)] else [];
        if !Text.IsNoneName(config.sectionName) {
          events := events + [JumpToSection(c, config.sectionName, montage.value)];
        }
        animatingCharacter := character;
        events := events + [AnimationStart(c)];
        assert events == before + (played + section + [AnimationStart(c)]);
        assert played + section + [AnimationStart(c)] == AnimationCalls(config, character, anim);
        if config.waitForAnimationComplete {
          var actualDuration := montageLength / config.playRate;
          pending := Some(Pending(c, actualDuration));
        }
        return true;
      }
      assert played == AnimationCalls(config, character, anim);
      return false;
    }

    /** OnInteract_Implementation(PlayerCharacter), with BP_OnInteract answering `blueprintResult`. */
    method OnInteract(character: Option<ObjectId>, anim: AnimOracle, blueprintResult: bool) returns (success: bool)
      modifies this
      ensures Outcome(Snapshot(), success) == Interact(config, old(Snapshot()), character, anim, blueprintResult)
    {
      if config.playAnimationOnInteract {
        var animationStarted := PlayInteractionAnimation(character, anim);
        if animationStarted && config.waitForAnimationComplete {
          return true;
        }
      }
      events := events + [BlueprintInteract(character)];
      success := blueprintResult;
    }

    /** OnInteractionAnimationComplete(PlayerCharacter): the completion timer's callback. */
    method OnInteractionAnimationComplete(character: Option<ObjectId>)
      modifies this
      ensures Snapshot() == Complete(old(Snapshot()), character)
    {
      animatingCharacter := None;
      pending := None;
      events := events + [AnimationComplete(character)];
      if character.Some? {
        events := events + [BlueprintInteract(character)];
      }
    }
  }
}
