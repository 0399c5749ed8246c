/**
 * The shapes of the store's intents and of the part of its state the side-effect
 * router reads. The settings slice's reducer is not part of this model; only the
 * shape of its state is.
 */
module StoreTypes {
  import opened Js

  /** An intent `{ type, payload? }` as it flows through the middleware chain. */
  datatype Action = Action(actionType: string, payload: Option<string>)

  const DestroyWindowInternal: string := "SETTINGS:DESTROY_WINDOW_INTERNAL"

  /** The intent a window emits when it is destroyed. */
  function DestroyIntent(windowId: string): Action {
    Action(DestroyWindowInternal, Some(windowId))
  }

  /** `settings`: the ids of the surfaces that should be visible, possibly absent. */
  datatype SettingsState = SettingsState(visible: Option<seq<string>>)

  /** `Partial<State>` as seen by the router: the settings slice may be absent. */
  datatype AppState = AppState(settings: Option<SettingsState>)
}
