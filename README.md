# Reduxtron: the side-effect router, the view window and the counter slice

Reduxtron keeps one authoritative Redux store in Electron's main process and
mirrors it into the view processes. This project models three pieces of it:

- **The side-effect router** (`uiMiddleware`). Three settings intents pass through
  it: `SETTINGS:ADD_VISIBLE`, `SETTINGS:REMOVE_VISIBLE` and
  `SETTINGS:TOGGLE_VISIBLE`. When the payload names one of the four surfaces, the
  router first reduces the intent. It then asks that surface's handler to compare
  two things: whether `settings.visible` wants the surface, and whether the surface
  is materialised. The surfaces are the main window, the tray and the two "add to
  do" windows. From that comparison the handler creates, destroys or focuses the
  surface.
- **The view window** (`Window`). Its native `BrowserWindow` handle is nullable:
  `create` sets it, and does nothing while a handle already exists; `destroy`
  reports the destruction to the store through the `dispatch` it was given, then
  destroys the native window and clears the handle. The window also installs
  handlers on its native window, for Command-W and Control-W, close and closed
  events, and links that try to open a new window.
- **The counter slice** (`counterReducer`). A reducer over a number that dispatches
  through a table of three handlers.

Modules:

- `Js`: the JavaScript semantics the code relies on. This covers `undefined`, a
  thrown `TypeError`, string truthiness and `startsWith`. It also covers `in` on an
  object literal, which sees the keys inherited from `Object.prototype`.
- `StoreTypes`: the intent and state shapes.
- `Counter`: the counter slice.
- `WindowLifecycle`: the `Window` class and its handler decisions.
- `UiMiddleware`: the router, with a pure specification and the imperative version.

The pure specification is `Route`/`Apply` over the materialisation of the four
surfaces. The imperative version acts on `Window`, `Tray` and `Store` objects and
is proved against that specification.

A window's outward effects are kept in one ordered log, `calls`. It records
Electron calls, with a native window named by a serial number, and calls of the
store's `dispatch`. `Window.Valid()` is the window's invariant: the handle is the
native window the log left alive, and every other native window constructed has
been destroyed, so no native window leaks.

## Model

| member | source | states |
|---|---|---|
| `Counter.IncrementDecrementInverse` | src/main/store/reducers/counter.ts:3-4 | `counterIncrement` and `counterDecrement` undo each other |
| `Counter.IncreaseByDefaultsAndComposes` | src/main/store/reducers/counter.ts:5 | `increaseBy` without a payload leaves the counter unchanged, and two increases add up their payloads |
| `Counter.CounterActions` | src/main/store/reducers/counter.ts:7-11 | the table has a handler exactly for `INCREMENT`, `DECREMENT` and `INCREASE_BY` |
| `Counter.CounterReducer` | src/main/store/reducers/counter.ts:17-25 | the new counter is the old one (undefined counts as 0) plus the intent's delta: +1, -1, the payload or 0 without one, and 0 for a missing, empty or unknown type |
| `Counter.IncrementThenDecrement` | src/main/store/reducers/counter.ts:3-4 | incrementing then decrementing returns to the starting count |
| `Counter.IncrementAndDecrementExamples` | src/main/store/reducers/counter.ts:3-4 | 3 becomes 4 on `INCREMENT` and 2 on `DECREMENT` |
| `Counter.IncreaseByWithoutPayloadIsIdentity` | src/main/store/reducers/counter.ts:5 | `INCREASE_BY` without a payload leaves the counter unchanged |
| `Counter.UndefinedStateIsZero` | src/main/store/reducers/counter.ts:18-24 | an undefined counter behaves as 0 for every intent |
| `Counter.FalsyTypeIsIdentity` | src/main/store/reducers/counter.ts:18 | an intent with an empty or absent type leaves the counter unchanged |
| `Counter.UnknownTypeIsIdentity` | src/main/store/reducers/counter.ts:19-24 | a type that is not an own key of the table leaves the counter unchanged |
| `Counter.ReplayAddsDeltas` | src/main/store/reducers/counter.ts:17-25 | folding a non-empty sequence of intents adds up their deltas |
| `Counter.ReplayFromUndefined` | src/main/store/reducers/counter.ts:17-25 | from the undefined initial state, a replay yields the sum of the deltas |
| `Counter.ReplayConcat` | src/main/store/reducers/counter.ts:17-25 | replaying `xs + ys` is replaying `xs`, then `ys` |
| `Counter.CounterReducerAsWritten` | src/main/store/reducers/counter.ts:17-25 | the reducer as written returns the corrected reducer's number exactly when the type is not an `Object.prototype` key |
| `Counter.AsWrittenAgreesOffPrototype` | src/main/store/reducers/counter.ts:19-22 | for a type that is not an `Object.prototype` key, the reducer as written returns the corrected reducer's number |
| `Counter.AsWrittenInheritedKeyIsNotANumber` | src/main/store/reducers/counter.ts:19-22 | for every inherited key, the reducer as written throws or returns a non-number |
| `Counter.AsWrittenCounterexamples` | src/main/store/reducers/counter.ts:19-22 | `toString` turns 5 into `"[object Object]"` and `__proto__` throws a `TypeError`, where the corrected reducer gives 5 and 0 |
| `Js.CallInherited` | src/main/store/reducers/counter.ts:21 | calling an inherited `Object.prototype` member throws exactly for `__proto__`, `__defineGetter__` and `__defineSetter__`, and never yields a number |
| `WindowLifecycle.Window.constructor` | src/main/window/window.ts:51-59 | a new window has its id and path, no native window, no dispatch and no calls |
| `WindowLifecycle.Window.IsVisible` | src/main/window/window.ts:140-142 | while the invariant holds, the window is visible exactly when a native window it constructed is still open |
| `WindowLifecycle.Window.Create` | src/main/window/window.ts:67-69 | afterwards the window is materialised; a new native window is constructed only when none was alive, and the invariant holds |
| `WindowLifecycle.Window.Destroy` | src/main/window/window.ts:125-129 | dispatches the destroy intent if a dispatch is set, then destroys the live native window if any; afterwards the window is not materialised |
| `WindowLifecycle.Window.Focus` | src/main/window/window.ts:131-134 | focuses the application, then the live native window if any; the handle does not change |
| `WindowLifecycle.Window.SetDispatch` | src/main/window/window.ts:136-138 | afterwards the window has a dispatch; its materialisation and its invariant are unchanged |
| `WindowLifecycle.Window.HandleBeforeInput` | src/main/window/window.ts:101-111 | the default is prevented exactly when the window is materialised and the input is a close chord; the window is then destroyed, and otherwise nothing changes |
| `WindowLifecycle.Window.HandleClose` | src/main/window/window.ts:113-120 | close and closed prevent the default and destroy the window |
| `WindowLifecycle.OnlyModifiedWCloses` | src/main/window/window.ts:101-111 | no key but `w`, and no `w` without Control or Command, closes the window |
| `WindowLifecycle.ControlWClosesEverywhere` | src/main/window/window.ts:107-110 | Control-W closes on every platform |
| `WindowLifecycle.MetaWClosesOnlyOnDarwin` | src/main/window/window.ts:103-106 | Command-W without Control closes only on macOS |
| `WindowLifecycle.WindowOpenHandler` | src/main/window/window.ts:95-99 | a new window is always denied; the URL goes to the browser exactly when it starts with `http` |
| `UiMiddleware.ParseVisibleId` | src/main/store/middlewares/ui.ts:37-42 | a key has a handler exactly when it is one of the four surface ids, and the surface found has that key |
| `UiMiddleware.VisibleKeyRoundTrip` | src/main/store/middlewares/ui.ts:37-42 | parsing a surface's key gives back that surface |
| `UiMiddleware.ShouldIntercept` | src/main/store/middlewares/ui.ts:53-56 | a payload is intercepted exactly when it is present and names a surface |
| `UiMiddleware.Target` | src/main/store/middlewares/ui.ts:58-59 | an intent has a target only when its type is allow-listed and its payload is that surface's key |
| `UiMiddleware.IsUIAction` | src/main/store/middlewares/ui.ts:44-51 | an intent is a UI intent exactly when its type is one of the three settings types |
| `UiMiddleware.InterceptedTypes` | src/main/store/middlewares/ui.ts:44-51 | only the three settings intents are intercepted |
| `UiMiddleware.UnknownPayloadNotIntercepted` | src/main/store/middlewares/ui.ts:53-56 | an absent payload, or one that is not a surface id, is not intercepted |
| `UiMiddleware.DestroyIntentNotIntercepted` | src/main/store/middlewares/ui.ts:44-51 | the intent a destroyed window dispatches passes the router by |
| `UiMiddleware.WindowDecision` | src/main/store/middlewares/ui.ts:7-17 | acting on the decision makes the window's materialisation what the settings want; it changes nothing without a visible list, creates only an absent window, destroys only a present one, and focuses exactly a wanted, present window |
| `UiMiddleware.TrayDecision` | src/main/store/middlewares/ui.ts:29-35 | throws exactly when settings are present without a visible list; otherwise never focuses and makes the tray's materialisation what the settings want |
| `UiMiddleware.HandlerOutcome` | src/main/store/middlewares/ui.ts:37-42 | only the tray's handler can throw and only a window's handler can focus; a handler that completes makes its surface's materialisation what the settings want |
| `UiMiddleware.PassThroughHasNoEffect` | src/main/store/middlewares/ui.ts:59 | an intent that is not intercepted has no side effect |
| `UiMiddleware.RouteTouchesOnlyTarget` | src/main/store/middlewares/ui.ts:58-63 | no surface but the one the intent names changes |
| `UiMiddleware.RouteConverges` | src/main/store/middlewares/ui.ts:58-63 | with a visible list present, the named surface ends up materialised exactly when it is listed |
| `UiMiddleware.RouteIdempotent` | src/main/store/middlewares/ui.ts:58-63 | routing the same intent on the same state again changes nothing and neither creates nor destroys |
| `UiMiddleware.HandlerSettles` | src/main/store/middlewares/ui.ts:7-35 | a handler run again on the materialisation it produced only focuses or does nothing |
| `UiMiddleware.ShouldInterceptAsWritten` | src/main/store/middlewares/ui.ts:53-56 | as written, a payload is intercepted exactly when the corrected test accepts it or it is an `Object.prototype` key |
| `UiMiddleware.AsWrittenAgreesOffPrototype` | src/main/store/middlewares/ui.ts:53-56 | for a payload that is not an `Object.prototype` key, the test as written is the corrected test |
| `UiMiddleware.ProtoPayloadAsWritten` | src/main/store/middlewares/ui.ts:53-63 | as written, a `__proto__` payload is intercepted and its lookup throws; the corrected router passes it by |
| `UiMiddleware.OpCallsDispatchOnlyOnDestroy` | src/main/window/window.ts:125-134 | a window dispatches only its destroy intent, only when destroyed, and before its native window goes |
| `UiMiddleware.Store.Next` | src/main/store/middlewares/ui.ts:61 | `next` reduces the intent into the store and returns it |
| `UiMiddleware.WindowSideEffects` | src/main/store/middlewares/ui.ts:7-17 | performs `WindowDecision` against the window's current materialisation, with exactly the calls that operation makes, and keeps the window's invariant |
| `UiMiddleware.TraySideEffects` | src/main/store/middlewares/ui.ts:29-35 | performs `TrayDecision`; a throw leaves the tray unchanged |
| `UiMiddleware.RouteToWindow` | src/main/store/middlewares/ui.ts:19-27 | runs the named window's handler; no other window's materialisation or calls change |
| `UiMiddleware.Middleware` | src/main/store/middlewares/ui.ts:58-64 | reduces the intent exactly once; the materialisation becomes `Apply(Route(...))` on the post-reduction state; each window makes exactly the calls the routing gives it; the result is the intent, or the handler's throw |

## Left out

- Electron itself is not modelled. This covers the window-options table, loading
  the page, `ready-to-show`, the menu builder, dev tools, the `subscribe` IPC
  listener installed by the constructor and `shell.openExternal`. A window's
  effects appear only as entries in its `calls` log. The window-open handler
  returns a flag saying whether the URL goes to the browser.
- The store's `dispatch` is not modelled as a function. `SetDispatch` records only
  that one has been set, and each call of it is logged in `calls`. The destroy
  intent re-entering the store and the middleware chain is not modelled.
  `DestroyIntentNotIntercepted` states that it passes the router by, and
  `WindowDecision` that a destroyed window whose id has left the visible list is
  left alone.
- The native `destroy` emitting its own `closed` event, which makes `destroy` run
  again, is not modelled. A second `destroy` on a cleared window dispatches again
  and makes no Electron call, as `Destroy`'s contract states.
- `create` and the middleware are `async`. They are modelled as synchronous. The
  handler's `TypeError` is returned as a `Throw` completion, standing for the
  rejected promise.
- The tray (`main/tray/tray`) is not part of this model. `Tray` holds only a
  materialised flag behind `create`, `destroy` and `isVisible`.
- The settings reducer is not part of this model. `Store.reduce` is an arbitrary
  function of the state and the intent.
- The window instances that `ui.ts` imports are not defined in `window.ts` as
  given. `Registry` receives them, and the tray, as constructor arguments, and
  requires the three windows to be distinct objects.
- `process.platform` is a parameter of `HandleBeforeInput`.
- The counter's JavaScript numbers are unbounded integers. Floating point, `NaN`
  and non-number payloads are not modelled.
- Intent types and router payloads are modelled as strings only. In JavaScript,
  `in` and indexing turn a non-string key into a string, so a non-string payload
  whose string form is a surface id is intercepted and routed; for example
  `{type: 'SETTINGS:ADD_VISIBLE', payload: ['tray']}` runs the tray's handler.
  The same holds for a counter type such as `['INCREMENT']`. These cases are not
  modelled.
- An undefined intent passed to `counterReducer` is modelled as an intent without
  a type. The outcome is the same: the state, or 0.

## Findings

| source | as written | input that shows it | evidently intended | confidence | as-written member | corrected member |
|---|---|---|---|---|---|---|
| src/main/store/reducers/counter.ts:19-21 | `action.type in counterActions` is also true for the keys every object literal inherits from `Object.prototype`, and the inherited member is then called as a handler | `{type: 'toString'}` on a counter of 5 yields the string `"[object Object]"`; `{type: '__proto__'}` throws a `TypeError` | only the table's own keys select a handler; any other type leaves the counter unchanged | not executed | `Counter.CounterReducerAsWritten`, shown by `Counter.AsWrittenCounterexamples` | `Counter.CounterReducer` |
| src/main/store/middlewares/ui.ts:55 | `payload in UI_SIDE_EFFECT_MAP` is also true for inherited keys | `{type: 'SETTINGS:ADD_VISIBLE', payload: '__proto__'}` is intercepted and reduced, then `UI_SIDE_EFFECT_MAP['__proto__'](state)` throws a `TypeError` | only the four surface ids are intercepted, and any other payload goes to `next` alone | not executed | `UiMiddleware.ShouldInterceptAsWritten`, shown by `UiMiddleware.ProtoPayloadAsWritten` | `UiMiddleware.ShouldIntercept`, used by `UiMiddleware.Target` |
