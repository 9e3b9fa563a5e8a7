/**
 * AMainPlayerController: picks the input mapping contexts for the platform, adds them to
 * the local player's Enhanced Input subsystem and binds every input action found in them
 * to a handler chosen from the action's name.
 */
module Controller {
  import opened Common
  import Text

  /** The handlers BindInputActions can bind. */
  datatype Handler =
    | HandleMove | HandleLook
    | HandleJumpStarted | HandleJumpCompleted
    | HandleSprintStarted | HandleSprintCompleted
    | HandleInteract
    | HandleFireStarted | HandleFireCompleted

  /** ETriggerEvent values used by the bindings. */
  datatype TriggerEvent = Triggered | Started | Completed

  /** The kinds of action the name classifier recognises. */
  datatype ActionKind = Move | Look | Jump | Sprint | Interact | Fire

  /** One EnhancedInputComponent->BindAction(Action, Trigger, this, Handler) call. */
  datatype Binding = Binding(action: ObjectId, trigger: TriggerEvent, handler: Handler)

  /** FInputModeGameAndUI (never locking the mouse, never hiding it during capture) or FInputModeGameOnly. */
  datatype InputMode = DefaultInputMode | GameAndUI(lockToViewport: bool, hideCursorDuringCapture: bool) | GameOnly

  /** The controller's authored properties. */
  datatype Config = Config(
    defaultMappingContexts: seq<Option<ObjectId>>,
    mobileExcludedMappingContexts: seq<Option<ObjectId>>,
    forceTouchControls: bool,
    mobileControlsWidgetClass: Option<ObjectId>)

  /**
   * What the engine answers: local control, SVirtualJoystick::ShouldDisplayTouchInterface,
   * whether the subsystem and an Enhanced Input component exist, each context's
   * mappings (their actions, possibly null) and each action's object name.
   */
  datatype Env = Env(
    isLocalPlayerController: bool,
    displayTouchInterface: bool,
    hasInputSubsystem: bool,
    hasEnhancedInputComponent: bool,
    mappingsOf: ObjectId -> seq<Option<ObjectId>>,
    actionName: ObjectId -> string)

  /**
   * The controller's observable state: the cursor and UI flags, the input mode, the
   * contexts added to the subsystem, the bindings made on the input component and
   * whether the mobile controls widget is on screen.
   */
  datatype State = State(
    showMouseCursor: bool,
    interactingWithUI: bool,
    inputMode: InputMode,
    addedContexts: seq<ObjectId>,
    bindings: seq<Binding>,
    mobileControlsOnScreen: bool)

  /** ShouldUseTouchControls: a touch platform, or touch forced by configuration. */
  predicate ShouldUseTouchControls(cfg: Config, env: Env)
  {
    env.displayTouchInterface || cfg.forceTouchControls
  }

  /** The contexts BindInputActions walks: the default ones, then the mobile-excluded ones unless on touch. */
  function AllContexts(cfg: Config, env: Env): (r: seq<Option<ObjectId>>)
    ensures ShouldUseTouchControls(cfg, env) ==> r == cfg.defaultMappingContexts
    ensures !ShouldUseTouchControls(cfg, env) ==> r == cfg.defaultMappingContexts + cfg.mobileExcludedMappingContexts
  {
    cfg.defaultMappingContexts + (if !ShouldUseTouchControls(cfg, env) then cfg.mobileExcludedMappingContexts else [])
  }

  /** The word the classifier looks for. */
  function Keyword(k: ActionKind): string
  {
    match k
    case Move => "Move"
    case Look => "Look"
    case Jump => "Jump"
    case Sprint => "Sprint"
    case Interact => "Interact"
    case Fire => "Fire"
  }

  /** The position of a kind in the classifier's order of tests. */
  function Rank(k: ActionKind): nat
  {
    match k
    case Move => 0
    case Look => 1
    case Jump => 2
    case Sprint => 3
    case Interact => 4
    case Fire => 5
  }

  /**
   * The classifier as written: for each kind in order, the name contains the keyword or
   * "IA_" followed by the keyword (both case-insensitive).
   */
  function Classify(name: string): Option<ActionKind>
  {
    if Text.ContainsIgnoreCase(name, "Move") || Text.ContainsIgnoreCase(name, "IA_Move") then Some(Move)
    else if Text.ContainsIgnoreCase(name, "Look") || Text.ContainsIgnoreCase(name, "IA_Look") then Some(Look)
    else if Text.ContainsIgnoreCase(name, "Jump") || Text.ContainsIgnoreCase(name, "IA_Jump") then Some(Jump)
    else if Text.ContainsIgnoreCase(name, "Sprint") || Text.ContainsIgnoreCase(name, "IA_Sprint") then Some(Sprint)
    else if Text.ContainsIgnoreCase(name, "Interact") || Text.ContainsIgnoreCase(name, "IA_Interact") then Some(Interact)
    else if Text.ContainsIgnoreCase(name, "Fire") || Text.ContainsIgnoreCase(name, "IA_Fire") then Some(Fire)
    else None
  }

  /** The first kind, in the order Move, Look, Jump, Sprint, Interact, Fire, whose plain keyword the name contains. */
  function FirstKeyword(name: string): (r: Option<ActionKind>)
  {
    if Text.ContainsIgnoreCase(name, "Move") then Some(Move)
    else if Text.ContainsIgnoreCase(name, "Look") then Some(Look)
    else if Text.ContainsIgnoreCase(name, "Jump") then Some(Jump)
    else if Text.ContainsIgnoreCase(name, "Sprint") then Some(Sprint)
    else if Text.ContainsIgnoreCase(name, "Interact") then Some(Interact)
    else if Text.ContainsIgnoreCase(name, "Fire") then Some(Fire)
    else None
  }

  /** A name that contains "IA_" + `word` contains `word`. */
  lemma PrefixedImpliesPlain(name: string, word: string, prefixed: string)
    requires prefixed == "IA_" + word
    ensures Text.ContainsIgnoreCase(name, prefixed) ==> Text.ContainsIgnoreCase(name, word)
  {
    Text.ContainsSuffix("IA_", word);
    if Text.ContainsIgnoreCase(name, prefixed) {
      Text.ContainsTransitive(name, prefixed, word);
    }
  }

  /** The "IA_" tests never change the classification: it is the first plain keyword match. */
  lemma ClassifyIgnoresPrefixedTests(name: string)
    ensures Classify(name) == FirstKeyword(name)
  {
    PrefixedImpliesPlain(name, "Move", "IA_Move");
    PrefixedImpliesPlain(name, "Look", "IA_Look");
    PrefixedImpliesPlain(name, "Jump", "IA_Jump");
    PrefixedImpliesPlain(name, "Sprint", "IA_Sprint");
    PrefixedImpliesPlain(name, "Interact", "IA_Interact");
    PrefixedImpliesPlain(name, "Fire", "IA_Fire");
  }

  /**
   * The classification is the first kind, in the order Move, Look, Jump, Sprint,
   * Interact, Fire, whose keyword the name contains; no kind when it contains none.
   */
  lemma ClassifyFirstMatch(name: string)
    ensures Classify(name).Some? ==>
              Text.ContainsIgnoreCase(name, Keyword(Classify(name).value))
              && forall k: ActionKind | Rank(k) < Rank(Classify(name).value) :: !Text.ContainsIgnoreCase(name, Keyword(k))
    ensures Classify(name).None? <==> forall k: ActionKind :: !Text.ContainsIgnoreCase(name, Keyword(k))
  {
    ClassifyIgnoresPrefixedTests(name);
    var contains := k => Text.ContainsIgnoreCase(name, Keyword(k));
    assert forall k: ActionKind :: contains(k) == Text.ContainsIgnoreCase(name, Keyword(k));
    assert FirstKeyword(name) == FirstKind(contains);
  }

  /** The first kind in classifier order that `holds`. */
  function FirstKind(holds: ActionKind -> bool): (r: Option<ActionKind>)
    ensures r.Some? ==> holds(r.value) && forall k: ActionKind | Rank(k) < Rank(r.value) :: !holds(k)
    ensures r.None? <==> forall k: ActionKind :: !holds(k)
  {
    if holds(Move) then Some(Move)
    else if holds(Look) then Some(Look)
    else if holds(Jump) then Some(Jump)
    else if holds(Sprint) then Some(Sprint)
    else if holds(Interact) then Some(Interact)
    else if holds(Fire) then Some(Fire)
    else
      assert forall k: ActionKind | holds(k) :: k.Move? || k.Look? || k.Jump? || k.Sprint? || k.Interact? || k.Fire?;
      None
  }

  /** The kind a handler serves, read off its name. */
  function HandlerKind(h: Handler): ActionKind
  {
    match h
    case HandleMove => Move
    case HandleLook => Look
    case HandleJumpStarted | HandleJumpCompleted => Jump
    case HandleSprintStarted | HandleSprintCompleted => Sprint
    case HandleInteract => Interact
    case HandleFireStarted | HandleFireCompleted => Fire
  }

  /** The trigger a handler answers, read off its name: Started, Completed, or Triggered for the axes. */
  function HandlerTrigger(h: Handler): TriggerEvent
  {
    match h
    case HandleMove | HandleLook => Triggered
    case HandleJumpStarted | HandleSprintStarted | HandleInteract | HandleFireStarted => Started
    case HandleJumpCompleted | HandleSprintCompleted | HandleFireCompleted => Completed
  }

  /**
   * The bindings made for a classified action: Move and Look on Triggered; Jump, Sprint
   * and Fire on Started and Completed; Interact on Started only.
   */
  function ActionBindings(k: ActionKind, action: ObjectId): (r: seq<Binding>)
    ensures forall b | b in r :: b.action == action && HandlerKind(b.handler) == k && b.trigger == HandlerTrigger(b.handler)
    ensures k in {Move, Look} ==> |r| == 1 && r[0].trigger == Triggered
    ensures k == Interact ==> |r| == 1 && r[0].trigger == Started
    ensures k in {Jump, Sprint, Fire} ==> |r| == 2 && r[0].trigger == Started && r[1].trigger == Completed
  {
    match k
    case Move => [Binding(action, Triggered, HandleMove)]
    case Look => [Binding(action, Triggered, HandleLook)]
    case Jump => [Binding(action, Started, HandleJumpStarted), Binding(action, Completed, HandleJumpCompleted)]
    case Sprint => [Binding(action, Started, HandleSprintStarted), Binding(action, Completed, HandleSprintCompleted)]
    case Interact => [Binding(action, Started, HandleInteract)]
    case Fire => [Binding(action, Started, HandleFireStarted), Binding(action, Completed, HandleFireCompleted)]
  }

  /** The local BoundActions set and the bindings made so far by one BindInputActions call. */
  datatype BindState = BindState(bound: set<ObjectId>, bindings: seq<Binding>)

  /** One mapping: a null or already bound action is skipped; an unmatched one is only reported. */
  function BindMapping(env: Env, st: BindState, action: Option<ObjectId>): BindState
  {
    if action.None? || action.value in st.bound then st
    else match Classify(env.actionName(action.value))
      case None => st
      case Some(k) => BindState(st.bound + {action.value}, st.bindings + ActionBindings(k, action.value))
  }

  /**
   * One mapping step: the action joins BoundActions exactly when it is non-null and
   * classified, the bindings only grow (by at most two), and an already bound action
   * changes nothing.
   */
  lemma BindMappingEffect(env: Env, st: BindState, action: Option<ObjectId>)
    ensures var r := BindMapping(env, st, action);
            && r.bound == st.bound + (if action.Some? && Classify(env.actionName(action.value)).Some?
                                      then {action.value} else {})
            && |st.bindings| <= |r.bindings| <= |st.bindings| + 2 && r.bindings[..|st.bindings|] == st.bindings
            && (action.Some? && action.value in st.bound ==> r == st)
  {
    var r := BindMapping(env, st, action);
    if action.Some? && action.value !in st.bound {
      var k := Classify(env.actionName(action.value));
      if k.Some? {
        assert r.bindings == st.bindings + ActionBindings(k.value, action.value);
      }
    }
  }

  /** The mappings of one context, in order. */
  function BindMappings(env: Env, st: BindState, mappings: seq<Option<ObjectId>>): (r: BindState)
    decreases |mappings|
  {
    if mappings == [] then st
    else BindMapping(env, BindMappings(env, st, mappings[..|mappings| - 1]), mappings[|mappings| - 1])
  }

  /** One context: skipped when null, otherwise its mappings. */
  function BindContext(env: Env, st: BindState, context: Option<ObjectId>): BindState
  {
    if context.None? then st else BindMappings(env, st, env.mappingsOf(context.value))
  }

  /** The contexts, in order. */
  function BindContexts(env: Env, st: BindState, contexts: seq<Option<ObjectId>>): BindState
    decreases |contexts|
  {
    if contexts == [] then st
    else BindContext(env, BindContexts(env, st, contexts[..|contexts| - 1]), contexts[|contexts| - 1])
  }

  /** What one BindInputActions call binds: nothing without an Enhanced Input component. */
  function NewBindings(cfg: Config, env: Env): BindState
  {
    if !env.hasEnhancedInputComponent then BindState({}, [])
    else BindContexts(env, BindState({}, []), AllContexts(cfg, env))
  }

  /** The contexts SetupInputComponent adds: the non-null default ones, then the non-null mobile-excluded ones unless on touch. */
  function MappingContextsAdded(cfg: Config, env: Env): (r: seq<ObjectId>)
    ensures !env.isLocalPlayerController || !env.hasInputSubsystem ==> r == []
    ensures env.isLocalPlayerController && env.hasInputSubsystem ==>
              r == NonNull(cfg.defaultMappingContexts)
                   + (if ShouldUseTouchControls(cfg, env) then [] else NonNull(cfg.mobileExcludedMappingContexts))
  {
    if !env.isLocalPlayerController || !env.hasInputSubsystem then []
    else NonNull(cfg.defaultMappingContexts)
         + (if !ShouldUseTouchControls(cfg, env) then NonNull(cfg.mobileExcludedMappingContexts) else [])
  }

  /** SetupInputComponent: nothing for a remote controller; otherwise the contexts, then the bindings. */
  function SetupState(cfg: Config, env: Env, s: State): (r: State)
    ensures !env.isLocalPlayerController ==> r == s
    ensures r.(addedContexts := s.addedContexts, bindings := s.bindings) == s
    ensures |s.addedContexts| <= |r.addedContexts| && r.addedContexts[..|s.addedContexts|] == s.addedContexts
    ensures |s.bindings| <= |r.bindings| && r.bindings[..|s.bindings|] == s.bindings
    ensures env.isLocalPlayerController && !env.hasInputSubsystem ==> r.addedContexts == s.addedContexts
    ensures env.isLocalPlayerController && !env.hasEnhancedInputComponent ==> r.bindings == s.bindings
  {
    if !env.isLocalPlayerController then s
    else s.(addedContexts := s.addedContexts + MappingContextsAdded(cfg, env),
            bindings := s.bindings + NewBindings(cfg, env).bindings)
  }

  /** SetMouseCursorVisible(bVisible): the input mode it selects. */
  function CursorInputMode(visible: bool): InputMode
  {
    if visible then GameAndUI(false, false) else GameOnly
  }

  /** The cursor is shown exactly while the controller is interacting with UI. */
  predicate CursorConsistent(s: State)
  {
    s.showMouseCursor == s.interactingWithUI
    && (s.inputMode == DefaultInputMode || s.inputMode == CursorInputMode(s.showMouseCursor))
  }

  /** SetMouseCursorVisible(bVisible) */
  function CursorState(s: State, visible: bool): (r: State)
    ensures CursorConsistent(r)
    ensures r.showMouseCursor == visible && r.interactingWithUI == visible
    ensures r.inputMode.GameAndUI? <==> visible
    ensures r.inputMode.GameAndUI? ==> !r.inputMode.lockToViewport && !r.inputMode.hideCursorDuringCapture
    ensures r == s.(showMouseCursor := r.showMouseCursor, interactingWithUI := r.interactingWithUI, inputMode := r.inputMode)
  {
    s.(showMouseCursor := visible, interactingWithUI := visible, inputMode := CursorInputMode(visible))
  }

  /** The bindings of one action in a list, in order. */
  function BindingsOf(bs: seq<Binding>, action: ObjectId): seq<Binding>
    decreases |bs|
  {
    if bs == [] then []
    else BindingsOf(bs[..|bs| - 1], action) + (if bs[|bs| - 1].action == action then [bs[|bs| - 1]] else [])
  }

  lemma {:induction false} BindingsOfAppend(a: seq<Binding>, b: seq<Binding>, action: ObjectId)
    ensures BindingsOf(a + b, action) == BindingsOf(a, action) + BindingsOf(b, action)
    decreases |b|
  {
    if b == [] {
      assert a + b == a;
    } else {
      assert (a + b)[..|a + b| - 1] == a + b[..|b| - 1];
      BindingsOfAppend(a, b[..|b| - 1], action);
    }
  }

  lemma BindingsOfActionBindings(k: ActionKind, a: ObjectId, action: ObjectId)
    ensures BindingsOf(ActionBindings(k, a), action) == (if a == action then ActionBindings(k, a) else [])
  {
    var r := ActionBindings(k, a);
    assert r[..1][..0] == [];
    assert BindingsOf(r[..1], action) == (if a == action then [r[0]] else []);
    if |r| == 2 {
      assert r[..1] == r[..|r| - 1];
    } else {
      assert r[..1] == r;
    }
  }

  /**
   * Every bound action was classified, and the bindings made for an action are exactly
   * the bindings of its kind when it is bound, and none otherwise.
   */
  ghost predicate Consistent(env: Env, st: BindState)
  {
    && (forall a | a in st.bound :: Classify(env.actionName(a)).Some?)
    && (forall a :: BindingsOf(st.bindings, a)
                    == if a in st.bound then ActionBindings(Classify(env.actionName(a)).value, a) else [])
  }

  lemma BindMappingConsistent(env: Env, st: BindState, action: Option<ObjectId>)
    requires Consistent(env, st)
    ensures Consistent(env, BindMapping(env, st, action))
  {
    var r := BindMapping(env, st, action);
    if action.Some? && action.value !in st.bound && Classify(env.actionName(action.value)).Some? {
      var x := action.value;
      var k := Classify(env.actionName(x)).value;
      forall a
        ensures BindingsOf(r.bindings, a)
                == if a in r.bound then ActionBindings(Classify(env.actionName(a)).value, a) else []
      {
        BindingsOfAppend(st.bindings, ActionBindings(k, x), a);
        BindingsOfActionBindings(k, x, a);
      }
    }
  }

  lemma {:induction false} BindMappingsConsistent(env: Env, st: BindState, mappings: seq<Option<ObjectId>>)
    requires Consistent(env, st)
    ensures Consistent(env, BindMappings(env, st, mappings))
    decreases |mappings|
  {
    if mappings != [] {
      BindMappingsConsistent(env, st, mappings[..|mappings| - 1]);
      BindMappingConsistent(env, BindMappings(env, st, mappings[..|mappings| - 1]), mappings[|mappings| - 1]);
    }
  }

  lemma {:induction false} BindContextsConsistent(env: Env, st: BindState, contexts: seq<Option<ObjectId>>)
    requires Consistent(env, st)
    ensures Consistent(env, BindContexts(env, st, contexts))
    decreases |contexts|
  {
    if contexts != [] {
      var prev := BindContexts(env, st, contexts[..|contexts| - 1]);
      BindContextsConsistent(env, st, contexts[..|contexts| - 1]);
      var c := contexts[|contexts| - 1];
      if c.Some? {
        BindMappingsConsistent(env, prev, env.mappingsOf(c.value));
      }
    }
  }

  /** Some mapping in the list names `action` and the classifier recognises its name. */
  predicate MappedAndMatched(env: Env, mappings: seq<Option<ObjectId>>, action: ObjectId)
  {
    Some(action) in mappings && Classify(env.actionName(action)).Some?
  }

  /** An action ends up bound exactly when it was bound before or is mapped here and recognised; BoundActions only grows. */
  lemma {:induction false} BindMappingsBound(env: Env, st: BindState, mappings: seq<Option<ObjectId>>)
    ensures var r := BindMappings(env, st, mappings);
            st.bound <= r.bound
            && |st.bindings| <= |r.bindings| && r.bindings[..|st.bindings|] == st.bindings
            && forall a :: a in r.bound <==> a in st.bound || MappedAndMatched(env, mappings, a)
    decreases |mappings|
  {
    if mappings != [] {
      var init := mappings[..|mappings| - 1];
      BindMappingsBound(env, st, init);
      var prev := BindMappings(env, st, init);
      var r := BindMappings(env, st, mappings);
      assert prev.bindings <= r.bindings;
      assert mappings == init + [mappings[|mappings| - 1]];
      forall a
        ensures a in r.bound <==> a in st.bound || MappedAndMatched(env, mappings, a)
      {
        assert Some(a) in mappings <==> Some(a) in init || mappings[|mappings| - 1] == Some(a);
      }
    }
  }

  /** Some non-null context in the list has a mapping naming `action`, whose name the classifier recognises. */
  predicate InSomeContext(env: Env, contexts: seq<Option<ObjectId>>, action: ObjectId)
  {
    exists k | 0 <= k < |contexts| :: contexts[k].Some? && MappedAndMatched(env, env.mappingsOf(contexts[k].value), action)
  }

  lemma {:induction false} BindContextsBound(env: Env, st: BindState, contexts: seq<Option<ObjectId>>)
    ensures var r := BindContexts(env, st, contexts);
            st.bound <= r.bound
            && |st.bindings| <= |r.bindings| && r.bindings[..|st.bindings|] == st.bindings
            && forall a :: a in r.bound <==> a in st.bound || InSomeContext(env, contexts, a)
    decreases |contexts|
  {
    if contexts != [] {
      var init := contexts[..|contexts| - 1];
      var c := contexts[|contexts| - 1];
      BindContextsBound(env, st, init);
      var prev := BindContexts(env, st, init);
      var r := BindContexts(env, st, contexts);
      if c.Some? {
        BindMappingsBound(env, prev, env.mappingsOf(c.value));
      }
      assert prev.bindings <= r.bindings;
      forall a
        ensures a in r.bound <==> a in st.bound || InSomeContext(env, contexts, a)
      {
        if InSomeContext(env, init, a) {
          var k :| 0 <= k < |init| && init[k].Some? && MappedAndMatched(env, env.mappingsOf(init[k].value), a);
          assert contexts[k] == init[k];
        }
        if InSomeContext(env, contexts, a) && !InSomeContext(env, init, a) {
          var k :| 0 <= k < |contexts| && contexts[k].Some? && MappedAndMatched(env, env.mappingsOf(contexts[k].value), a);
          assert k == |init|;
        }
      }
    }
  }

  /**
   * BindInputActions binds an action exactly when some non-null context it walks maps it
   * and its name is recognised; each such action gets the bindings of its kind once, however
   * many mappings name it, and no other action gets any.
   */
  lemma EachActionBoundOnce(cfg: Config, env: Env)
    ensures var r := NewBindings(cfg, env);
            forall a :: (a in r.bound <==> env.hasEnhancedInputComponent && InSomeContext(env, AllContexts(cfg, env), a))
                        && BindingsOf(r.bindings, a)
                           == if a in r.bound then ActionBindings(Classify(env.actionName(a)).value, a) else []
  {
    var init := BindState({}, []);
    assert Consistent(env, init);
    if env.hasEnhancedInputComponent {
      BindContextsConsistent(env, init, AllContexts(cfg, env));
      BindContextsBound(env, init, AllContexts(cfg, env));
    }
  }

  /** Each action gets at most two bindings from one BindInputActions call. */
  lemma AtMostTwoBindingsPerAction(cfg: Config, env: Env, a: ObjectId)
    ensures |BindingsOf(NewBindings(cfg, env).bindings, a)| <= 2
  {
    EachActionBoundOnce(cfg, env);
  }

  /**
   * A remote controller gets no contexts and no bindings; on a touch platform, or with
   * touch forced, neither mobile-excluded contexts nor their actions are used.
   */
  lemma TouchSkipsMobileExcluded(cfg: Config, env: Env, s: State)
    ensures !env.isLocalPlayerController ==> SetupState(cfg, env, s) == s
    ensures ShouldUseTouchControls(cfg, env) ==>
              AllContexts(cfg, env) == cfg.defaultMappingContexts
              && (env.hasInputSubsystem && env.isLocalPlayerController ==>
                    MappingContextsAdded(cfg, env) == NonNull(cfg.defaultMappingContexts))
    ensures cfg.forceTouchControls ==> ShouldUseTouchControls(cfg, env)
  {
    if ShouldUseTouchControls(cfg, env) && env.hasInputSubsystem && env.isLocalPlayerController {
      assert MappingContextsAdded(cfg, env) == NonNull(cfg.defaultMappingContexts) + [];
    }
  }

  class MainPlayerController {
    const config: Config
    const env: Env
    /** bShowMouseCursor */
    var showMouseCursor: bool
    /** bIsInteractingWithUI */
    var interactingWithUI: bool
    /** The input mode last set. */
    var inputMode: InputMode
    /** The contexts added to the Enhanced Input subsystem, in order. */
    var addedContexts: seq<ObjectId>
    /** The bindings made on the Enhanced Input component, in order. */
    var bindings: seq<Binding>
    /** MobileControlsWidget, once added to the player screen. */
    var mobileControlsOnScreen: bool

    function Snapshot(): State
      reads this
    {
      State(showMouseCursor, interactingWithUI, inputMode, addedContexts, bindings, mobileControlsOnScreen)
    }

    predicate Valid()
      reads this
    {
      CursorConsistent(Snapshot())
    }

    /** AMainPlayerController(): the cursor hidden. */
    constructor (config: Config, env: Env)
      ensures this.config == config && this.env == env
      ensures Snapshot() == State(false, false, DefaultInputMode, [], [], false)
      ensures Valid()
    {
      this.config := config;
      this.env := env;
      showMouseCursor := false;
      interactingWithUI := false;
      inputMode := DefaultInputMode;
      addedContexts := [];
      bindings := [];
      mobileControlsOnScreen := false;
    }

    /** ShouldUseTouchControls */
    function UsesTouchControls(): (r: bool)
      ensures r <==> ShouldUseTouchControls(config, env)
    {
      env.displayTouchInterface || config.forceTouchControls
    }

    /** BeginPlay: the mobile controls go on screen for a local controller using touch, when the widget can be created. */
    method BeginPlay()
      requires Valid()
      modifies this
      ensures Valid()
      ensures Snapshot() == old(Snapshot()).(mobileControlsOnScreen :=
                old(mobileControlsOnScreen)
                || (ShouldUseTouchControls(config, env) && env.isLocalPlayerController
                    && config.mobileControlsWidgetClass.Some?))
    {
      if UsesTouchControls() && env.isLocalPlayerController {
        if config.mobileControlsWidgetClass.Some? {
          mobileControlsOnScreen := true;
        }
      }
    }

    /** One of the AddMappingContext loops: adds the non-null contexts at priority 0, in order. */
    method AddMappingContexts(contexts: seq<Option<ObjectId>>)
      modifies this
      ensures Snapshot() == old(Snapshot()).(addedContexts := old(addedContexts) + NonNull(contexts))
    {
      var i := 0;
      while i < |contexts|
        invariant 0 <= i <= |contexts|
        invariant Snapshot() == old(Snapshot()).(addedContexts := addedContexts)
        invariant addedContexts == old(addedContexts) + NonNull(contexts[..i])
      {
        NonNullSnoc(contexts, i);
        var currentContext := contexts[i];
        if currentContext.Some? {
          addedContexts := addedContexts + [currentContext.value];
        }
        i := i + 1;
      }
      assert contexts[..i] == contexts;
    }

    /** SetupInputComponent */
    method SetupInputComponent()
      requires Valid()
      modifies this
      ensures Valid()
      ensures Snapshot() == SetupState(config, env, old(Snapshot()))
    {
      if env.isLocalPlayerController {
        AddSubsystemContexts();
        BindInputActions();
      }
    }

    /**
     * The subsystem block of SetupInputComponent: without the Enhanced Input subsystem
     * nothing is added; otherwise the default contexts, then the mobile-excluded ones
     * unless touch controls are used.
     */
    method AddSubsystemContexts()
      requires env.isLocalPlayerController
      modifies this
      ensures Snapshot() == old(Snapshot()).(addedContexts := old(addedContexts) + MappingContextsAdded(config, env))
    {
      if env.hasInputSubsystem {
        ghost var before := addedContexts;
        ghost var defaults := NonNull(config.defaultMappingContexts);
        AddMappingContexts(config.defaultMappingContexts);
        if !UsesTouchControls() {
          AddMappingContexts(config.mobileExcludedMappingContexts);
          assert addedContexts == before + (defaults + NonNull(config.mobileExcludedMappingContexts));
        } else {
          assert addedContexts == before + (defaults + []);
        }
      }
    }

    /** BindInputActions: walks the contexts and their mappings, binding each recognised action once. */
    method BindInputActions()
      modifies this
      ensures Snapshot() == old(Snapshot()).(bindings := old(bindings) + NewBindings(config, env).bindings)
    {
      if !env.hasEnhancedInputComponent {
        assert NewBindings(config, env).bindings == [];
        return;
      }
      var allContexts := config.defaultMappingContexts;
      if !UsesTouchControls() {
        allContexts := allContexts + config.mobileExcludedMappingContexts;
      }
      assert allContexts == AllContexts(config, env);
      ghost var start := BindState({}, []);
      var boundActions: set<ObjectId> := {};
      var i := 0;
      while i < |allContexts|
        invariant 0 <= i <= |allContexts|
        invariant Snapshot() == old(Snapshot()).(bindings := old(bindings) + BindContexts(env, start, allContexts[..i]).bindings)
        invariant boundActions == BindContexts(env, start, allContexts[..i]).bound
      {
        assert allContexts[..i + 1][..i] == allContexts[..i];
        var context := allContexts[i];
        if context.Some? {
          boundActions := BindContextMappings(env.mappingsOf(context.value), boundActions,
                                              old(bindings), BindContexts(env, start, allContexts[..i]));
        }
        i := i + 1;
      }
      assert allContexts[..i] == allContexts;
    }

    /** The inner loop of BindInputActions over one context's mappings, with BoundActions carried in and out. */
    method BindContextMappings(mappings: seq<Option<ObjectId>>, bound: set<ObjectId>,
                               ghost base: seq<Binding>, ghost st: BindState)
        returns (boundActions: set<ObjectId>)
      requires bound == st.bound && bindings == base + st.bindings
      modifies this
      ensures Snapshot() == old(Snapshot()).(bindings := base + BindMappings(env, st, mappings).bindings)
      ensures boundActions == BindMappings(env, st, mappings).bound
    {
      boundActions := bound;
      var j := 0;
      while j < |mappings|
        invariant 0 <= j <= |mappings|
        invariant Snapshot() == old(Snapshot()).(bindings := bindings)
        invariant bindings == base + BindMappings(env, st, mappings[..j]).bindings
        invariant boundActions == BindMappings(env, st, mappings[..j]).bound
      {
        assert mappings[..j + 1][..j] == mappings[..j];
        boundActions := BindMappingStep(mappings[j], boundActions, base, BindMappings(env, st, mappings[..j]));
        j := j + 1;
      }
      assert mappings[..j] == mappings;
    }

    /** One iteration of that inner loop: a null or already bound action is skipped, any other is classified. */
    method BindMappingStep(action: Option<ObjectId>, bound: set<ObjectId>, ghost base: seq<Binding>, ghost st: BindState)
        returns (boundActions: set<ObjectId>)
      requires bound == st.bound && bindings == base + st.bindings
      modifies this
      ensures Snapshot() == old(Snapshot()).(bindings := bindings)
      ensures bindings == base + BindMapping(env, st, action).bindings
      ensures boundActions == BindMapping(env, st, action).bound
    {
      boundActions := bound;
      if action.Some? && action.value !in boundActions {
        var matched := BindAction(action.value, env.actionName(action.value));
        if matched {
          boundActions := boundActions + {action.value};
        }
      }
    }

    /**
     * The classifier chain for one action not yet bound: the bindings of the first
     * matching kind, and whether one matched (the action then joins BoundActions).
     */
    method BindAction(a: ObjectId, actionName: string) returns (matched: bool)
      modifies this
      ensures matched <==> Classify(actionName).Some?
      ensures Snapshot() == old(Snapshot()).(bindings := old(bindings)
                + (if matched then ActionBindings(Classify(actionName).value, a) else []))
    {
      matched := true;
      if Text.ContainsIgnoreCase(actionName, "Move") || Text.ContainsIgnoreCase(actionName, "IA_Move") {
        assert Classify(actionName) == Some(Move);
        bindings := bindings + [Binding(a, Triggered, HandleMove)];
      } else if Text.ContainsIgnoreCase(actionName, "Look") || Text.ContainsIgnoreCase(actionName, "IA_Look") {
        assert Classify(actionName) == Some(Look);
        bindings := bindings + [Binding(a, Triggered, HandleLook)];
      } else if Text.ContainsIgnoreCase(actionName, "Jump") || Text.ContainsIgnoreCase(actionName, "IA_Jump") {
        assert Classify(actionName) == Some(Jump);
        bindings := bindings + [Binding(a, Started, HandleJumpStarted)];
        bindings := bindings + [Binding(a, Completed, HandleJumpCompleted)];
      } else if Text.ContainsIgnoreCase(actionName, "Sprint") || Text.ContainsIgnoreCase(actionName, "IA_Sprint") {
        assert Classify(actionName) == Some(Sprint);
        bindings := bindings + [Binding(a, Started, HandleSprintStarted)];
        bindings := bindings + [Binding(a, Completed, HandleSprintCompleted)];
      } else if Text.ContainsIgnoreCase(actionName, "Interact") || Text.ContainsIgnoreCase(actionName, "IA_Interact") {
        assert Classify(actionName) == Some(Interact);
        bindings := bindings + [Binding(a, Started, HandleInteract)];
      } else if Text.ContainsIgnoreCase(actionName, "Fire") || Text.ContainsIgnoreCase(actionName, "IA_Fire") {
        assert Classify(actionName) == Some(Fire);
        bindings := bindings + [Binding(a, Started, HandleFireStarted)];
        bindings := bindings + [Binding(a, Completed, HandleFireCompleted)];
      } else {
        assert Classify(actionName).None?;
        matched := false;
      }
    }

    /** SetMouseCursorVisible(bVisible) */
    method SetMouseCursorVisible(visible: bool)
      modifies this
      ensures Valid()
      ensures Snapshot() == CursorState(old(Snapshot()), visible)
    {
      showMouseCursor := visible;
      interactingWithUI := visible;
      if visible {
        inputMode := GameAndUI(false, false);
      } else {
        inputMode := GameOnly;
      }
    }
  }
}
