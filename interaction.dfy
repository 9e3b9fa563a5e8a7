/**
 * The interaction focus of UInteractionComponent: a throttled check that traces from
 * the camera, focuses the interactable actor it hits, and tells actors when their focus
 * begins and ends; TryInteract forwards to the focused actor behind a chain of guards.
 *
 * The focused actor is held by a weak pointer: it is valid while the actor is in the
 * `live` set the caller passes. The trace, the hovered-widget test, the camera lookup and
 * the actors' interface answers are oracles.
 */
module Interaction {
  import opened Common

  datatype Event =
    /** Execute_OnInteractionFocusBegin(Actor, OwningCharacter) */
    | FocusBegin(actor: ObjectId, character: Option<ObjectId>)
    /** Execute_OnInteractionFocusEnd(Actor, OwningCharacter) */
    | FocusEnd(actor: ObjectId, character: Option<ObjectId>)
    /** WidgetInteraction->PressPointerKey(LeftMouseButton) */
    | PressPointerKey
    /** WidgetInteraction->ReleasePointerKey(LeftMouseButton) */
    | ReleasePointerKey

  /**
   * What the component reads but never writes once BeginPlay has run: its authored
   * settings, the cached owner and widget interaction component, and how actors answer
   * for the interactable interface.
   */
  datatype Env = Env(
    /** InteractionCheckFrequency (default 0.1 s) */
    checkFrequency: real,
    /** bEnableWidgetInteraction (default true) */
    enableWidgetInteraction: bool,
    /** WidgetInteraction is non-null (created by BeginPlay). */
    hasWidgetInteraction: bool,
    /** OwningCharacter */
    owningCharacter: Option<ObjectId>,
    /** Actor->Implements<UInteractableInterface>() */
    implements: ObjectId -> bool,
    /** Cast<IInteractableInterface>(Actor) is non-null. */
    castable: ObjectId -> bool,
    /** Execute_GetInteractionName(Actor) */
    interactionName: ObjectId -> string,
    /** Execute_GetInteractionAction(Actor) */
    interactionAction: ObjectId -> string)

  /**
   * The component's mutable fields: InteractionCheckTimer, FocusedActor, whether
   * CachedCamera is set, and the log of calls into actors and the widget interaction.
   */
  datatype State = State(timer: real, focused: Option<ObjectId>, cachedCamera: bool, events: seq<Event>)

  /** One frame's inputs to TickComponent. */
  datatype TickInput = TickInput(
    deltaTime: real,
    /** WidgetInteraction->IsOverInteractableWidget() */
    overWidget: bool,
    /** The actor the interaction trace hit, None when it hit nothing or no actor. */
    traceHit: Option<ObjectId>,
    /** FindCameraComponent() finds a camera, should the cache be empty. */
    cameraFound: bool)

  /** IsHoveringWidget: false when widget interaction is disabled or was not created. */
  function IsHoveringWidget(env: Env, overWidget: bool): (r: bool)
    ensures !env.hasWidgetInteraction || !env.enableWidgetInteraction ==> !r
    ensures env.hasWidgetInteraction && env.enableWidgetInteraction ==> r == overWidget
  {
    if !env.hasWidgetInteraction || !env.enableWidgetInteraction then false else overWidget
  }

  /**
   * UpdateFocusedActor(NewFocusActor): the previous actor, if still valid and different
   * and it answers the interface, is told its focus ended; then the new actor becomes the
   * focus and, if valid and answering, is told its focus began.
   */
  function UpdateFocus(env: Env, s: State, newFocus: Option<ObjectId>, live: set<ObjectId>): (r: State)
    ensures r.focused == newFocus && r.timer == s.timer && r.cachedCamera == s.cachedCamera
    ensures r.events == s.events
                        + (if IsValidRef(s.focused, live) && s.focused != newFocus && env.castable(s.focused.value)
                           then [FocusEnd(s.focused.value, env.owningCharacter)] else [])
                        + (if IsValidRef(newFocus, live) && env.castable(newFocus.value)
                           then [FocusBegin(newFocus.value, env.owningCharacter)] else [])
  {
    var ending := if IsValidRef(s.focused, live) && s.focused != newFocus && env.castable(s.focused.value)
                  then [FocusEnd(s.focused.value, env.owningCharacter)] else [];
    var s1 := s.(events := s.events + ending, focused := newFocus);
    if IsValidRef(s1.focused, live) && env.castable(s1.focused.value)
    then s1.(events := s1.events + [FocusBegin(s1.focused.value, env.owningCharacter)])
    else s1
  }

  /** The hit actor qualifies for focus: it implements the interface, answers it, and CanInteract holds. */
  predicate Qualifies(env: Env, hit: Option<ObjectId>, canInteract: ObjectId -> bool)
  {
    hit.Some? && env.implements(hit.value) && env.castable(hit.value) && canInteract(hit.value)
  }

  /**
   * PerformInteractionTrace: no trace without an owning character, or without a camera
   * (an empty camera cache is refilled first); otherwise the trace's hit actor.
   */
  function TraceStep(env: Env, s: State, input: TickInput): (r: (State, Option<ObjectId>))
    ensures r.0 == s.(cachedCamera := r.0.cachedCamera)
    ensures env.owningCharacter.None? ==> r == (s, None)
    ensures env.owningCharacter.Some? ==> r.0.cachedCamera == (s.cachedCamera || input.cameraFound)
    ensures r.1.Some? ==> r.1 == input.traceHit && env.owningCharacter.Some? && r.0.cachedCamera
  {
    if env.owningCharacter.None? then (s, None)
    else if !s.cachedCamera && !input.cameraFound then (s, None)
    else (s.(cachedCamera := true), input.traceHit)
  }

  /**
   * TickComponent(DeltaTime): the timer runs down by DeltaTime and the check runs only once
   * it reaches zero, resetting it to InteractionCheckFrequency. While a widget is hovered
   * any focus is dropped. Otherwise a qualifying hit actor becomes the focus (UpdateFocusedActor
   * only when it differs from the current one), and without one any valid focus is dropped.
   */
  function Tick(env: Env, s: State, input: TickInput, live: set<ObjectId>, canInteract: ObjectId -> bool): (r: State)
    ensures s.timer - input.deltaTime > 0.0 ==> r == s.(timer := s.timer - input.deltaTime)
    ensures s.timer - input.deltaTime <= 0.0 ==> r.timer == env.checkFrequency
    ensures s.timer - input.deltaTime <= 0.0 && IsHoveringWidget(env, input.overWidget) ==>
              r.focused == (if IsValidRef(s.focused, live) then None else s.focused)
    ensures s.timer - input.deltaTime <= 0.0 && !IsHoveringWidget(env, input.overWidget) ==>
              var hit := TraceStep(env, s, input).1;
              (Qualifies(env, hit, canInteract) ==> r.focused == (if hit == GetRef(s.focused, live) then s.focused else hit))
              && (!Qualifies(env, hit, canInteract) ==> r.focused == (if IsValidRef(s.focused, live) then None else s.focused))
    ensures r.focused.Some? ==> r.focused == s.focused || Qualifies(env, r.focused, canInteract)
  {
    var timer := s.timer - input.deltaTime;
    if timer > 0.0 then s.(timer := timer)
    else
      var s1 := s.(timer := env.checkFrequency);
      if IsHoveringWidget(env, input.overWidget) then
        if IsValidRef(s1.focused, live) then UpdateFocus(env, s1, None, live) else s1
      else
        var (s2, hit) := TraceStep(env, s1, input);
        if Qualifies(env, hit, canInteract) then
          if hit != GetRef(s2.focused, live) then UpdateFocus(env, s2, hit, live) else s2
        else if IsValidRef(s2.focused, live) then UpdateFocus(env, s2, None, live)
        else s2
  }

  /** A sequence of frames. */
  function TickRun(env: Env, s: State, inputs: seq<TickInput>, live: set<ObjectId>, canInteract: ObjectId -> bool): (r: State)
    ensures inputs == [] ==> r == s
    ensures r.focused.Some? ==> r.focused == s.focused || Qualifies(env, r.focused, canInteract)
    decreases |inputs|
  {
    if inputs == [] then s
    else TickRun(env, Tick(env, s, inputs[0], live, canInteract), inputs[1..], live, canInteract)
  }

  /** Reading a log of focus calls from a given focus: the focus it ends on, or Malformed. */
  datatype Tracked = Malformed | Focus(actor: Option<ObjectId>)

  /**
   * The focus a log of calls leaves behind, starting from focus `f`: a FocusBegin is
   * well-formed only while nothing is focused, and a FocusEnd only for the focused actor.
   */
  function Track(f: Option<ObjectId>, events: seq<Event>): (r: Tracked)
    decreases |events|
  {
    if events == [] then Focus(f)
    else match events[0]
      case FocusBegin(a, _) => if f.None? then Track(Some(a), events[1..]) else Malformed
      case FocusEnd(a, _) => if f == Some(a) then Track(None, events[1..]) else Malformed
      case _ => Track(f, events[1..])
  }

  lemma {:induction false} TrackAppend(f: Option<ObjectId>, a: seq<Event>, b: seq<Event>)
    ensures Track(f, a + b) == (match Track(f, a) case Malformed => Malformed case Focus(g) => Track(g, b))
    decreases |a|
  {
    if a == [] {
      assert a + b == b;
    } else {
      assert (a + b)[0] == a[0] && (a + b)[1..] == a[1..] + b;
      match a[0]
      case FocusBegin(x, _) =>
        if f.None? { TrackAppend(Some(x), a[1..], b); }
      case FocusEnd(x, _) =>
        if f == Some(x) { TrackAppend(None, a[1..], b); }
      case _ =>
        TrackAppend(f, a[1..], b);
    }
  }

  /**
   * The focus the component holds can be told apart from the log: it is nothing, or a
   * valid actor that answers the interface (and so received FocusBegin).
   */
  predicate FocusVisible(env: Env, s: State, live: set<ObjectId>)
  {
    s.focused.None? || (s.focused.value in live && env.castable(s.focused.value))
  }

  /**
   * One frame keeps the focus visible, and the calls it makes read as well-formed from the
   * old focus to the new: it never begins focus on an actor while another is focused, and it
   * never ends a focus that is not the current one.
   */
  lemma TickTracked(env: Env, s: State, input: TickInput, live: set<ObjectId>, canInteract: ObjectId -> bool)
    requires FocusVisible(env, s, live)
    requires input.traceHit.Some? ==> input.traceHit.value in live
    ensures var r := Tick(env, s, input, live, canInteract);
            FocusVisible(env, r, live)
            && |r.events| >= |s.events| && r.events[..|s.events|] == s.events
            && Track(s.focused, r.events[|s.events|..]) == Focus(r.focused)
  {
    var r := Tick(env, s, input, live, canInteract);
    var added := r.events[|s.events|..];
    if s.timer - input.deltaTime > 0.0 {
      assert added == [];
    } else if IsHoveringWidget(env, input.overWidget) {
      if IsValidRef(s.focused, live) {
        assert added == [FocusEnd(s.focused.value, env.owningCharacter)];
      } else {
        assert added == [];
      }
    } else {
      var hit := TraceStep(env, s.(timer := env.checkFrequency), input).1;
      if Qualifies(env, hit, canInteract) {
        if hit != GetRef(s.focused, live) {
          if s.focused.Some? && s.focused != hit {
            assert added == [FocusEnd(s.focused.value, env.owningCharacter), FocusBegin(hit.value, env.owningCharacter)];
            var begin := [FocusBegin(hit.value, env.owningCharacter)];
            assert added[1..] == begin && begin[1..] == [];
            assert Track(None, begin) == Track(hit, []);
            assert Track(s.focused, added) == Track(None, begin);
          } else {
            assert added == [FocusBegin(hit.value, env.owningCharacter)];
          }
        } else {
          assert added == [];
        }
      } else if IsValidRef(s.focused, live) {
        assert added == [FocusEnd(s.focused.value, env.owningCharacter)];
      } else {
        assert added == [];
      }
    }
  }

  /**
   * Over any number of frames, with the actors' validity fixed and the trace only hitting
   * valid actors, the focus calls form a well-formed log ending on the final focus: Tick
   * alone never begins focus on the same actor twice without ending it in between.
   */
  lemma {:induction false} TickRunTracked(env: Env, s: State, inputs: seq<TickInput>, live: set<ObjectId>,
                                          canInteract: ObjectId -> bool)
    requires FocusVisible(env, s, live)
    requires forall k | 0 <= k < |inputs| :: inputs[k].traceHit.Some? ==> inputs[k].traceHit.value in live
    ensures var r := TickRun(env, s, inputs, live, canInteract);
            FocusVisible(env, r, live)
            && |r.events| >= |s.events| && r.events[..|s.events|] == s.events
            && Track(s.focused, r.events[|s.events|..]) == Focus(r.focused)
    decreases |inputs|
  {
    if inputs != [] {
      var s1 := Tick(env, s, inputs[0], live, canInteract);
      TickTracked(env, s, inputs[0], live, canInteract);
      TickRunTracked(env, s1, inputs[1..], live, canInteract);
      var r := TickRun(env, s1, inputs[1..], live, canInteract);
      var a := s1.events[|s.events|..];
      var b := r.events[|s1.events|..];
      assert r.events[|s.events|..] == a + b;
      TrackAppend(s.focused, a, b);
    } else {
      assert s.events[|s.events|..] == [];
    }
  }

  /**
   * TryInteract: false without a valid focus or an owner, when the focus does not answer
   * the interface, or when it refuses CanInteract; otherwise what its OnInteract returns.
   */
  function TryInteractResult(env: Env, s: State, live: set<ObjectId>, canInteract: ObjectId -> bool,
                             onInteract: ObjectId -> bool): (r: bool)
    ensures r <==> IsValidRef(s.focused, live) && env.owningCharacter.Some? && env.castable(s.focused.value)
                   && canInteract(s.focused.value) && onInteract(s.focused.value)
  {
    if !IsValidRef(s.focused, live) || env.owningCharacter.None? then false
    else if !env.castable(s.focused.value) then false
    else if !canInteract(s.focused.value) then false
    else onInteract(s.focused.value)
  }

  /** CanInteractWithFocusedActor: TryInteract's guards without the interaction. */
  function CanInteractWithFocused(env: Env, s: State, live: set<ObjectId>, canInteract: ObjectId -> bool): (r: bool)
    ensures r <==> IsValidRef(s.focused, live) && env.owningCharacter.Some? && env.castable(s.focused.value)
                   && canInteract(s.focused.value)
    ensures forall onInteract: ObjectId -> bool :: TryInteractResult(env, s, live, canInteract, onInteract) ==> r
  {
    IsValidRef(s.focused, live) && env.owningCharacter.Some? && env.castable(s.focused.value)
    && canInteract(s.focused.value)
  }

  /** GetFocusedActorName: empty text without a valid, answering focus. */
  function FocusedName(env: Env, s: State, live: set<ObjectId>): (r: string)
    ensures !IsValidRef(s.focused, live) ==> r == ""
    ensures IsValidRef(s.focused, live) && !env.castable(s.focused.value) ==> r == ""
    ensures IsValidRef(s.focused, live) && env.castable(s.focused.value) ==> r == env.interactionName(s.focused.value)
  {
    if !IsValidRef(s.focused, live) || !env.castable(s.focused.value) then "" else env.interactionName(s.focused.value)
  }

  /** GetFocusedActorAction: empty text without a valid, answering focus. */
  function FocusedAction(env: Env, s: State, live: set<ObjectId>): (r: string)
    ensures !IsValidRef(s.focused, live) ==> r == ""
    ensures IsValidRef(s.focused, live) && !env.castable(s.focused.value) ==> r == ""
    ensures IsValidRef(s.focused, live) && env.castable(s.focused.value) ==> r == env.interactionAction(s.focused.value)
  {
    if !IsValidRef(s.focused, live) || !env.castable(s.focused.value) then "" else env.interactionAction(s.focused.value)
  }

  class InteractionComponent {
    const env: Env
    /** InteractionCheckTimer */
    var timer: real
    /** FocusedActor (weak) */
    var focused: Option<ObjectId>
    /** CachedCamera is non-null. */
    var cachedCamera: bool
    var events: seq<Event>

    function Snapshot(): State
      reads this
    {
      State(timer, focused, cachedCamera, events)
    }

    /** The component after construction and BeginPlay: timer 0, nothing focused. */
    constructor (env: Env, cameraFound: bool)
      ensures this.env == env && Snapshot() == State(0.0, None, env.owningCharacter.Some? && cameraFound, [])
    {
      this.env := env;
      timer := 0.0;
      focused := None;
      cachedCamera := env.owningCharacter.Some? && cameraFound;
      events := [];
    }

    /** UpdateFocusedActor(NewFocusActor) */
    method UpdateFocusedActor(newFocus: Option<ObjectId>, live: set<ObjectId>)
      modifies this
      ensures Snapshot() == UpdateFocus(env, old(Snapshot()), newFocus, live)
    {
      if IsValidRef(focused, live) && focused != newFocus && env.castable(focused.value) {
        events := events + [FocusEnd(focused.value, env.owningCharacter)];
      }
      focused := newFocus;
      if IsValidRef(focused, live) && env.castable(focused.value) {
        events := events + [FocusBegin(focused.value, env.owningCharacter)];
      }
    }

    /** PerformInteractionTrace */
    method PerformInteractionTrace(input: TickInput) returns (hit: Option<ObjectId>)
      modifies this
      ensures (Snapshot(), hit) == TraceStep(env, old(Snapshot()), input)
    {
      if env.owningCharacter.None? {
        return None;
      }
      if !cachedCamera {
        cachedCamera := input.cameraFound;
        if !cachedCamera {
          return None;
        }
      }
      return input.traceHit;
    }

    /** TickComponent(DeltaTime), with this frame's oracle answers. */
    method TickComponent(input: TickInput, live: set<ObjectId>, canInteract: ObjectId -> bool)
      modifies this
      ensures Snapshot() == Tick(env, old(Snapshot()), input, live, canInteract)
    {
      timer := timer - input.deltaTime;
      if timer > 0.0 {
        return;
      }
      timer := env.checkFrequency;
      if IsHoveringWidget(env, input.overWidget) {
        if IsValidRef(focused, live) {
          UpdateFocusedActor(None, live);
        }
        return;
      }
      var hit := PerformInteractionTrace(input);
      if hit.Some? && env.implements(hit.value) {
        if env.castable(hit.value) && canInteract(hit.value) {
          if hit != GetRef(focused, live) {
            UpdateFocusedActor(hit, live);
          }
          return;
        }
      }
      if IsValidRef(focused, live) {
        UpdateFocusedActor(None, live);
      }
    }

    /** TryInteract, with the focused actor's CanInteract and OnInteract answers. */
    function TryInteract(live: set<ObjectId>, canInteract: ObjectId -> bool, onInteract: ObjectId -> bool): (r: bool)
      reads this
      ensures r == TryInteractResult(env, Snapshot(), live, canInteract, onInteract)
    {
      if !IsValidRef(focused, live) || env.owningCharacter.None? then false
      else if !env.castable(focused.value) then false
      else if !canInteract(focused.value) then false
      else onInteract(focused.value)
    }

    /** PressWidgetInteraction: presses only while a widget is hovered. */
    method PressWidgetInteraction(overWidget: bool)
      modifies this
      ensures Snapshot() == old(Snapshot()).(events := old(events)
                + (if env.hasWidgetInteraction && IsHoveringWidget(env, overWidget) then [PressPointerKey] else []))
    {
      if env.hasWidgetInteraction && IsHoveringWidget(env, overWidget) {
        events := events + [PressPointerKey];
      }
    }

    /** ReleaseWidgetInteraction: releases whenever the widget interaction exists. */
    method ReleaseWidgetInteraction()
      modifies this
      ensures Snapshot() == old(Snapshot()).(events := old(events)
                + (if env.hasWidgetInteraction then [ReleasePointerKey] else []))
    {
      if env.hasWidgetInteraction {
        events := events + [ReleasePointerKey];
      }
    }
  }
}
