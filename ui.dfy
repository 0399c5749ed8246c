/**
 * The side-effect router: a middleware that lets three settings intents reduce
 * and then, for the one surface the intent names, compares whether the new
 * settings want the surface visible with whether it is materialised, and creates,
 * destroys or focuses it accordingly.
 */
module UiMiddleware {
  import opened Js
  import opened StoreTypes
  import opened WindowLifecycle

  /** The keys of `UI_SIDE_EFFECT_MAP`. */
  datatype VisibleId = MainWindowId | TrayId | AddToDoVanillaId | AddToDoSvelteId

  function VisibleKey(v: VisibleId): string {
    match v
    case MainWindowId => "index"
    case TrayId => "tray"
    case AddToDoVanillaId => "add-to-do/vanilla"
    case AddToDoSvelteId => "add-to-do/svelte"
  }

  const SideEffectKeys: set<string> := {"index", "tray", "add-to-do/vanilla", "add-to-do/svelte"}

  /** An own-key lookup in `UI_SIDE_EFFECT_MAP`. */
  function ParseVisibleId(key: string): (r: Option<VisibleId>)
    ensures r.Some? <==> key in SideEffectKeys
    ensures r.Some? ==> VisibleKey(r.value) == key
    ensures r.None? ==> forall v: VisibleId :: VisibleKey(v) != key
  {
    if key == "index" then Some(MainWindowId)
    else if key == "tray" then Some(TrayId)
    else if key == "add-to-do/vanilla" then Some(AddToDoVanillaId)
    else if key == "add-to-do/svelte" then Some(AddToDoSvelteId)
    else None
  }

  lemma {:induction false} VisibleKeyRoundTrip(v: VisibleId)
    ensures ParseVisibleId(VisibleKey(v)) == Some(v)
  {
    match v
    case MainWindowId =>
    case TrayId =>
    case AddToDoVanillaId =>
    case AddToDoSvelteId =>
  }

  const ActionsToIntercept: seq<string> :=
    ["SETTINGS:ADD_VISIBLE", "SETTINGS:REMOVE_VISIBLE", "SETTINGS:TOGGLE_VISIBLE"]

  predicate IsUIAction(a: Action)
    ensures IsUIAction(a) <==> a.actionType == "SETTINGS:ADD_VISIBLE"
                               || a.actionType == "SETTINGS:REMOVE_VISIBLE"
                               || a.actionType == "SETTINGS:TOGGLE_VISIBLE"
  {
    a.actionType in ActionsToIntercept
  }

  /** The payload names a surface; an absent or empty payload names none. */
  predicate ShouldIntercept(payload: Option<string>)
    ensures ShouldIntercept(payload) <==> payload.Some? && ParseVisibleId(payload.value).Some?
  {
    Truthy(payload) && payload.value in SideEffectKeys
  }

  /** The surface whose handler runs for `a`, if any. */
  function Target(a: Action): (r: Option<VisibleId>)
    ensures r.Some? ==> IsUIAction(a) && a.payload == Some(VisibleKey(r.value))
    ensures r.None? ==> !IsUIAction(a) || forall v: VisibleId :: a.payload != Some(VisibleKey(v))
  {
    if IsUIAction(a) && ShouldIntercept(a.payload) then ParseVisibleId(a.payload.value) else None
  }

  /** Only the three allow-listed types are intercepted. */
  lemma InterceptedTypes(a: Action)
    requires Target(a).Some?
    ensures a.actionType == "SETTINGS:ADD_VISIBLE" || a.actionType == "SETTINGS:REMOVE_VISIBLE"
            || a.actionType == "SETTINGS:TOGGLE_VISIBLE"
  {
  }

  /** An allow-listed intent whose payload is absent, empty or not a key is not intercepted. */
  lemma UnknownPayloadNotIntercepted(actionType: string, payload: Option<string>)
    requires payload.Some? ==> payload.value !in SideEffectKeys
    ensures Target(Action(actionType, payload)).None?
  {
  }

  /** The intent a destroyed window emits does not come back through the router. */
  lemma DestroyIntentNotIntercepted(windowId: string)
    ensures Target(DestroyIntent(windowId)).None?
  {
  }

  datatype SurfaceOp = CreateOp | DestroyOp | FocusOp | NoOp

  /** Whether a surface is materialised after `op`. */
  function Effect(op: SurfaceOp, materialised: bool): bool {
    match op
    case CreateOp => true
    case DestroyOp => false
    case _ => materialised
  }

  /** Whether the settings want `key` visible; unknown when the visible list is absent. */
  function Wanted(state: AppState, key: string): Option<bool> {
    if state.settings.Some? && state.settings.value.visible.Some?
    then Some(key in state.settings.value.visible.value)
    else None
  }

  /**
   * The window handler's decision. Acting on it makes the window's materialisation
   * what the settings want; it creates only what is absent, destroys only what is
   * present, and focuses exactly a window that is wanted and present.
   */
  function WindowDecision(state: AppState, id: string, isVisible: bool): (op: SurfaceOp)
    ensures Effect(op, isVisible) == Wanted(state, id).GetOr(isVisible)
    ensures op.CreateOp? ==> !isVisible
    ensures op.DestroyOp? ==> isVisible
    ensures op.FocusOp? <==> Wanted(state, id) == Some(true) && isVisible
  {
    if state.settings.None? || state.settings.value.visible.None? then NoOp
    else
      var shouldBeVisible := id in state.settings.value.visible.value;
      if !shouldBeVisible && isVisible then DestroyOp
      else if shouldBeVisible && !isVisible then CreateOp
      else if shouldBeVisible && isVisible then FocusOp
      else NoOp
  }

  /**
   * The tray handler's decision. It never focuses; absent settings decide nothing,
   * and present settings without a visible list make `visible.includes` throw.
   */
  function TrayDecision(state: AppState, isVisible: bool): (c: Completion<SurfaceOp>)
    ensures c.Throw? <==> state.settings.Some? && state.settings.value.visible.None?
    ensures c.Normal? ==> !c.value.FocusOp?
    ensures c.Normal? ==> Effect(c.value, isVisible) == Wanted(state, "tray").GetOr(isVisible)
    ensures c.Normal? && c.value.CreateOp? ==> !isVisible
    ensures c.Normal? && c.value.DestroyOp? ==> isVisible
  {
    if state.settings.None? then Normal(NoOp)
    else if state.settings.value.visible.None? then Throw(TypeError)
    else
      var trayShouldBeVisible := "tray" in state.settings.value.visible.value;
      if !trayShouldBeVisible && isVisible then Normal(DestroyOp)
      else if trayShouldBeVisible && !isVisible then Normal(CreateOp)
      else Normal(NoOp)
  }

  /**
   * `UI_SIDE_EFFECT_MAP[v](state)` as a decision: only the tray's handler can throw
   * and only a window's handler can focus; a handler that completes makes the
   * surface's materialisation what the settings want.
   */
  function HandlerOutcome(v: VisibleId, state: AppState, isVisible: bool): (c: Completion<SurfaceOp>)
    ensures c.Throw? ==> v == TrayId
    ensures c.Normal? && c.value.FocusOp? ==> v != TrayId
    ensures c.Normal? ==> Effect(c.value, isVisible) == Wanted(state, VisibleKey(v)).GetOr(isVisible)
  {
    if v == TrayId then TrayDecision(state, isVisible)
    else Normal(WindowDecision(state, VisibleKey(v), isVisible))
  }

  /** Which surfaces are materialised. */
  datatype Surfaces = Surfaces(main: bool, tray: bool, addToDoVanilla: bool, addToDoSvelte: bool)

  function SurfaceOf(s: Surfaces, v: VisibleId): bool {
    match v
    case MainWindowId => s.main
    case TrayId => s.tray
    case AddToDoVanillaId => s.addToDoVanilla
    case AddToDoSvelteId => s.addToDoSvelte
  }

  function WithSurface(s: Surfaces, v: VisibleId, b: bool): (r: Surfaces)
    ensures SurfaceOf(r, v) == b
    ensures forall u :: u != v ==> SurfaceOf(r, u) == SurfaceOf(s, u)
  {
    match v
    case MainWindowId => s.(main := b)
    case TrayId => s.(tray := b)
    case AddToDoVanillaId => s.(addToDoVanilla := b)
    case AddToDoSvelteId => s.(addToDoSvelte := b)
  }

  /** What the router does for one intent. */
  datatype Routing =
    | PassThrough
    | Handled(target: VisibleId, op: SurfaceOp)
    | HandlerThrew(target: VisibleId, error: JsError)

  /** The router's decision for `a`, taken on the state `post` that `a` reduced to. */
  function Route(a: Action, post: AppState, before: Surfaces): Routing {
    match Target(a)
    case None => PassThrough
    case Some(v) =>
      match HandlerOutcome(v, post, SurfaceOf(before, v))
      case Normal(op) => Handled(v, op)
      case Throw(e) => HandlerThrew(v, e)
  }

  /** The materialisation after the router has acted. */
  function Apply(r: Routing, before: Surfaces): Surfaces {
    match r
    case Handled(v, op) => WithSurface(before, v, Effect(op, SurfaceOf(before, v)))
    case _ => before
  }

  /** An intent that is not intercepted has no side effect. */
  lemma PassThroughHasNoEffect(a: Action, post: AppState, before: Surfaces)
    requires !IsUIAction(a) || !ShouldIntercept(a.payload)
    ensures Route(a, post, before) == PassThrough
    ensures Apply(Route(a, post, before), before) == before
  {
  }

  /** Only the surface the intent names can change. */
  lemma RouteTouchesOnlyTarget(a: Action, post: AppState, before: Surfaces, u: VisibleId)
    requires Target(a) != Some(u)
    ensures SurfaceOf(Apply(Route(a, post, before), before), u) == SurfaceOf(before, u)
  {
  }

  /** With a visible list present, the named surface ends up materialised exactly when listed. */
  lemma RouteConverges(a: Action, post: AppState, before: Surfaces)
    requires Target(a).Some?
    requires post.settings.Some? && post.settings.value.visible.Some?
    ensures Route(a, post, before).Handled?
    ensures SurfaceOf(Apply(Route(a, post, before), before), Target(a).value)
            == (VisibleKey(Target(a).value) in post.settings.value.visible.value)
  {
  }

  /** Routing the same intent on the same state again creates and destroys nothing. */
  lemma RouteIdempotent(a: Action, post: AppState, before: Surfaces)
    ensures var after := Apply(Route(a, post, before), before);
            && Apply(Route(a, post, after), after) == after
            && (Route(a, post, after).Handled? ==>
                  Route(a, post, after).op.FocusOp? || Route(a, post, after).op.NoOp?)
  {
    var after := Apply(Route(a, post, before), before);
    if Target(a).Some? {
      var v := Target(a).value;
      var m := SurfaceOf(before, v);
      match HandlerOutcome(v, post, m)
      case Throw(e) =>
        assert after == before;
      case Normal(op) =>
        assert SurfaceOf(after, v) == Effect(op, m);
        HandlerSettles(v, post, m);
    }
  }

  /** A handler run again on the materialisation it produced neither creates nor destroys. */
  lemma HandlerSettles(v: VisibleId, post: AppState, m: bool)
    requires HandlerOutcome(v, post, m).Normal?
    ensures var m' := Effect(HandlerOutcome(v, post, m).value, m);
            && HandlerOutcome(v, post, m').Normal?
            && Effect(HandlerOutcome(v, post, m').value, m') == m'
            && (HandlerOutcome(v, post, m').value.FocusOp? || HandlerOutcome(v, post, m').value.NoOp?)
  {
  }

  /** `shouldIntercept` as written: `payload in UI_SIDE_EFFECT_MAP` also holds for inherited keys. */
  predicate ShouldInterceptAsWritten(payload: Option<string>)
    ensures ShouldInterceptAsWritten(payload) <==>
              ShouldIntercept(payload) || (payload.Some? && payload.value in ObjectPrototypeKeys)
  {
    Truthy(payload) && HasProperty(SideEffectKeys, payload.value)
  }

  /** Away from the inherited keys, the test as written is the corrected one. */
  lemma AsWrittenAgreesOffPrototype(payload: Option<string>)
    requires payload.Some? ==> payload.value !in ObjectPrototypeKeys
    ensures ShouldInterceptAsWritten(payload) == ShouldIntercept(payload)
  {
  }

  /**
   * As written, `{type: 'SETTINGS:ADD_VISIBLE', payload: '__proto__'}` is intercepted,
   * although it names no surface, and calling the "handler" it looks up throws after
   * the intent has been reduced.
   */
  lemma ProtoPayloadAsWritten(post: AppState, before: Surfaces)
    ensures var a := Action("SETTINGS:ADD_VISIBLE", Some("__proto__"));
            && IsUIAction(a) && ShouldInterceptAsWritten(a.payload)
            && CallInherited("__proto__") == Throw(TypeError)
            && !ShouldIntercept(a.payload) && Route(a, post, before) == PassThrough
  {
  }

  /** The tray; its implementation is not part of this model, only its materialisation. */
  class Tray {
    var materialised: bool

    constructor()
      ensures !materialised
    {
      materialised := false;
    }

    predicate IsVisible()
      reads this
    {
      materialised
    }

    method Create()
      modifies this
      ensures materialised
    {
      materialised := true;
    }

    method Destroy()
      modifies this
      ensures !materialised
    {
      materialised := false;
    }
  }

  /** The rest of the middleware chain and the store behind it, as `next` and `getState`. */
  class Store {
    /** The store's reducer; the settings slice's reducer is not part of this model. */
    const reduce: (AppState, Action) -> AppState
    var state: AppState
    var received: seq<Action>

    constructor(reduce: (AppState, Action) -> AppState, initial: AppState)
      ensures this.reduce == reduce && state == initial && received == []
    {
      this.reduce := reduce;
      state := initial;
      received := [];
    }

    /** `next(action)`: reduces the intent; the innermost dispatch returns the intent. */
    method Next(a: Action) returns (r: Action)
      modifies this`state, this`received
      ensures state == reduce(old(state), a)
      ensures received == old(received) + [a]
      ensures r == a
    {
      state := reduce(state, a);
      received := received + [a];
      r := a;
    }

    function GetState(): AppState
      reads this
    {
      state
    }
  }

  /** The calls a window makes for one operation. */
  function OpCalls(op: SurfaceOp, w: WindowSnapshot): seq<WindowCall> {
    match op
    case CreateOp => CreateCalls(w.instance, w.serial, w.path)
    case DestroyOp => DestroyCalls(w.hasDispatch, w.id, w.instance)
    case FocusOp => FocusCalls(w.instance)
    case NoOp => []
  }

  /**
   * A window reports to the store only when it is destroyed, and then before its
   * native window goes; creating and focusing never dispatch.
   */
  lemma OpCallsDispatchOnlyOnDestroy(op: SurfaceOp, w: WindowSnapshot)
    ensures forall c :: c in OpCalls(op, w) && c.Dispatched? ==>
              op.DestroyOp? && w.hasDispatch && c.action == DestroyIntent(w.id)
    ensures op.DestroyOp? && w.hasDispatch ==> OpCalls(op, w)[0] == Dispatched(DestroyIntent(w.id))
  {
  }

  /** `createWindowSideEffects(id, w)` applied to a state. */
  method WindowSideEffects(id: string, w: Window, state: AppState) returns (op: SurfaceOp)
    requires w.Valid()
    modifies w`instance, w`calls
    ensures w.Valid()
    ensures op == WindowDecision(state, id, old(w.IsVisible()))
    ensures w.IsVisible() == Effect(op, old(w.IsVisible()))
    ensures w.calls == old(w.calls) + OpCalls(op, old(w.Snapshot()))
  {
    if state.settings.None? || state.settings.value.visible.None? {
      return NoOp;
    }
    var visible := state.settings.value.visible.value;
    var shouldBeVisible := id in visible;
    var isVisible := w.IsVisible();
    if !shouldBeVisible && isVisible {
      w.Destroy();
      return DestroyOp;
    }
    if shouldBeVisible && !isVisible {
      w.Create();
      return CreateOp;
    }
    if shouldBeVisible && isVisible {
      w.Focus();
      return FocusOp;
    }
    return NoOp;
  }

  /** `traySideEffects` applied to a state. */
  method TraySideEffects(tray: Tray, state: AppState) returns (c: Completion<SurfaceOp>)
    modifies tray
    ensures c == TrayDecision(state, old(tray.IsVisible()))
    ensures tray.IsVisible() == if c.Normal? then Effect(c.value, old(tray.IsVisible())) else old(tray.IsVisible())
  {
    if state.settings.None? {
      return Normal(NoOp);
    }
    if state.settings.value.visible.None? {
      return Throw(TypeError);
    }
    var trayShouldBeVisible := "tray" in state.settings.value.visible.value;
    var isTrayVisible := tray.IsVisible();
    if !trayShouldBeVisible && isTrayVisible {
      tray.Destroy();
      return Normal(DestroyOp);
    }
    if trayShouldBeVisible && !isTrayVisible {
      tray.Create();
      return Normal(CreateOp);
    }
    return Normal(NoOp);
  }

  /** The surfaces the router drives: the three windows and the tray. */
  class Registry {
    const main: Window
    const tray: Tray
    const addToDoVanilla: Window
    const addToDoSvelte: Window

    constructor(main: Window, tray: Tray, addToDoVanilla: Window, addToDoSvelte: Window)
      ensures this.main == main && this.tray == tray
      ensures this.addToDoVanilla == addToDoVanilla && this.addToDoSvelte == addToDoSvelte
    {
      this.main := main;
      this.tray := tray;
      this.addToDoVanilla := addToDoVanilla;
      this.addToDoSvelte := addToDoSvelte;
    }

    ghost predicate Valid()
      reads main, addToDoVanilla, addToDoSvelte
    {
      && main != addToDoVanilla && main != addToDoSvelte && addToDoVanilla != addToDoSvelte
      && main.Valid() && addToDoVanilla.Valid() && addToDoSvelte.Valid()
    }

    function WindowOf(v: VisibleId): Window
      requires v != TrayId
    {
      match v
      case MainWindowId => main
      case AddToDoVanillaId => addToDoVanilla
      case AddToDoSvelteId => addToDoSvelte
    }

    function Materialised(): Surfaces
      reads main, tray, addToDoVanilla, addToDoSvelte
    {
      Surfaces(main.IsVisible(), tray.IsVisible(), addToDoVanilla.IsVisible(), addToDoSvelte.IsVisible())
    }

    /** The calls the routing makes window `v` perform. */
    function CallsFor(r: Routing, v: VisibleId): seq<WindowCall>
      requires v != TrayId
      reads main, addToDoVanilla, addToDoSvelte
    {
      if r.Handled? && r.target == v then OpCalls(r.op, WindowOf(v).Snapshot()) else []
    }
  }

  /** Runs the handler of the window `v` names, leaving every other surface alone. */
  method RouteToWindow(reg: Registry, v: VisibleId, state: AppState) returns (op: SurfaceOp)
    requires v != TrayId && reg.Valid()
    modifies reg.main`instance, reg.main`calls
    modifies reg.addToDoVanilla`instance, reg.addToDoVanilla`calls
    modifies reg.addToDoSvelte`instance, reg.addToDoSvelte`calls
    ensures reg.Valid()
    ensures op == WindowDecision(state, VisibleKey(v), SurfaceOf(old(reg.Materialised()), v))
    ensures reg.Materialised() == Apply(Handled(v, op), old(reg.Materialised()))
    ensures reg.main.calls == old(reg.main.calls) + old(reg.CallsFor(Handled(v, op), MainWindowId))
    ensures reg.addToDoVanilla.calls
            == old(reg.addToDoVanilla.calls) + old(reg.CallsFor(Handled(v, op), AddToDoVanillaId))
    ensures reg.addToDoSvelte.calls
            == old(reg.addToDoSvelte.calls) + old(reg.CallsFor(Handled(v, op), AddToDoSvelteId))
  {
    match v
    case MainWindowId =>
      op := WindowSideEffects(VisibleKey(v), reg.main, state);
    case AddToDoVanillaId =>
      op := WindowSideEffects(VisibleKey(v), reg.addToDoVanilla, state);
    case AddToDoSvelteId =>
      op := WindowSideEffects(VisibleKey(v), reg.addToDoSvelte, state);
  }

  /**
   * `uiMiddleware(store)(next)(action)`. An intent that is not intercepted goes to
   * `next` and nothing else happens. An intercepted one goes to `next` first; the
   * handler of the surface it names then acts on the state `next` produced, and
   * the middleware returns what `next` returned, unless the handler threw.
   */
  method Middleware(reg: Registry, store: Store, action: Action) returns (outcome: Completion<Action>)
    requires reg.Valid()
    modifies store`state, store`received
    modifies reg.main`instance, reg.main`calls
    modifies reg.addToDoVanilla`instance, reg.addToDoVanilla`calls
    modifies reg.addToDoSvelte`instance, reg.addToDoSvelte`calls
    modifies reg.tray
    ensures reg.Valid()
    ensures store.received == old(store.received) + [action]
    ensures store.state == store.reduce(old(store.state), action)
    ensures var r := Route(action, store.state, old(reg.Materialised()));
            && reg.Materialised() == Apply(r, old(reg.Materialised()))
            && outcome == (if r.HandlerThrew? then Throw(r.error) else Normal(action))
    ensures var r := Route(action, store.state, old(reg.Materialised()));
            && reg.main.calls == old(reg.main.calls) + old(reg.CallsFor(r, MainWindowId))
            && reg.addToDoVanilla.calls == old(reg.addToDoVanilla.calls) + old(reg.CallsFor(r, AddToDoVanillaId))
            && reg.addToDoSvelte.calls == old(reg.addToDoSvelte.calls) + old(reg.CallsFor(r, AddToDoSvelteId))
  {
    if !IsUIAction(action) || !ShouldIntercept(action.payload) {
      var passed := store.Next(action);
      return Normal(passed);
    }
    var result := store.Next(action);
    var state := store.GetState();
    var v := ParseVisibleId(action.payload.value).value;
    if v == TrayId {
      var c := TraySideEffects(reg.tray, state);
      outcome := if c.Throw? then Throw(c.error) else Normal(result);
    } else {
      var op := RouteToWindow(reg, v, state);
      outcome := Normal(result);
    }
  }
}
