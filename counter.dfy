/**
 * The counter slice of the store: a total reducer over an integer, dispatching
 * through a table of three handlers, and the fold of that reducer over a
 * sequence of intents.
 */
module Counter {
  import opened Js

  /**
   * An intent as the counter slice receives it. Every intent of the store reaches
   * every slice, so neither the type nor the payload is guaranteed to be present.
   */
  datatype CounterAction = CounterAction(actionType: Option<string>, payload: Option<int>)

  function CounterIncrement(state: int): int {
    state + 1
  }

  function CounterDecrement(state: int): int {
    state - 1
  }

  /** The payload defaults to 0 when it is absent. */
  function IncreaseBy(state: int, payload: Option<int>): int {
    state + payload.GetOr(0)
  }

  /** Incrementing and decrementing undo each other. */
  lemma IncrementDecrementInverse(state: int)
    ensures CounterDecrement(CounterIncrement(state)) == state
    ensures CounterIncrement(CounterDecrement(state)) == state
  {
  }

  /**
   * Increasing by an absent payload changes nothing, and increasing twice is
   * increasing once by the sum of the payloads.
   */
  lemma IncreaseByDefaultsAndComposes(state: int, p: int, q: int)
    ensures IncreaseBy(state, None) == state
    ensures IncreaseBy(IncreaseBy(state, Some(p)), Some(q)) == IncreaseBy(state, Some(p + q))
  {
  }

  /** The entries of the `counterActions` table. */
  datatype Handler = Increment | Decrement | IncreaseByPayload

  /** The own keys of the `counterActions` table. */
  const CounterActionKeys: set<string> := {"INCREMENT", "DECREMENT", "INCREASE_BY"}

  /** Looks a type up among the table's own keys. */
  function CounterActions(key: string): (h: Option<Handler>)
    ensures h.Some? <==> key in CounterActionKeys
  {
    if key == "INCREMENT" then Some(Increment)
    else if key == "DECREMENT" then Some(Decrement)
    else if key == "INCREASE_BY" then Some(IncreaseByPayload)
    else None
  }

  /** `counterActions[type](state, payload)`; the payload is passed to every handler. */
  function CallHandler(h: Handler, state: int, payload: Option<int>): int {
    match h
    case Increment => CounterIncrement(state)
    case Decrement => CounterDecrement(state)
    case IncreaseByPayload => IncreaseBy(state, payload)
  }

  /** What an intent adds to the counter, stated without the table. */
  function Delta(a: CounterAction): int {
    if a.actionType == Some("INCREMENT") then 1
    else if a.actionType == Some("DECREMENT") then -1
    else if a.actionType == Some("INCREASE_BY") then a.payload.GetOr(0)
    else 0
  }

  /**
   * The reducer: an undefined state counts as 0, a missing or empty type and an
   * unknown type leave the state unchanged, and a known type runs its handler.
   */
  function CounterReducer(state: Option<int>, action: CounterAction): (r: int)
    ensures r == state.GetOr(0) + Delta(action)
  {
    if !Truthy(action.actionType) then state.GetOr(0)
    else match CounterActions(action.actionType.value)
      case Some(h) => CallHandler(h, state.GetOr(0), action.payload)
      case None => state.GetOr(0)
  }

  lemma IncrementThenDecrement(state: Option<int>)
    ensures CounterReducer(Some(CounterReducer(state, CounterAction(Some("INCREMENT"), None))),
                           CounterAction(Some("DECREMENT"), None)) == state.GetOr(0)
  {
  }

  lemma IncrementAndDecrementExamples()
    ensures CounterReducer(Some(3), CounterAction(Some("INCREMENT"), None)) == 4
    ensures CounterReducer(Some(3), CounterAction(Some("DECREMENT"), None)) == 2
  {
  }

  lemma IncreaseByWithoutPayloadIsIdentity(state: int)
    ensures CounterReducer(Some(state), CounterAction(Some("INCREASE_BY"), None)) == state
    ensures CounterReducer(Some(5), CounterAction(Some("INCREASE_BY"), None)) == 5
  {
  }

  lemma UndefinedStateIsZero(action: CounterAction)
    ensures CounterReducer(None, action) == CounterReducer(Some(0), action)
  {
  }

  /** The `{type: ""}` bootstrap intent of the view store, and an intent without a type. */
  lemma FalsyTypeIsIdentity(state: Option<int>, payload: Option<int>)
    ensures CounterReducer(state, CounterAction(Some(""), payload)) == state.GetOr(0)
    ensures CounterReducer(state, CounterAction(None, payload)) == state.GetOr(0)
  {
  }

  lemma UnknownTypeIsIdentity(state: Option<int>, action: CounterAction)
    requires action.actionType.Some? && action.actionType.value !in CounterActionKeys
    ensures CounterReducer(state, action) == state.GetOr(0)
  {
  }

  /** Folds intents through the reducer, left to right, as the store applies them. */
  function Replay(state: Option<int>, actions: seq<CounterAction>): Option<int>
    decreases |actions|
  {
    if actions == [] then state
    else Replay(Some(CounterReducer(state, actions[0])), actions[1..])
  }

  function SumDeltas(actions: seq<CounterAction>): int
    decreases |actions|
  {
    if actions == [] then 0 else Delta(actions[0]) + SumDeltas(actions[1..])
  }

  /** Replaying a non-empty sequence adds up the deltas of its intents. */
  lemma {:induction false} ReplayAddsDeltas(state: Option<int>, actions: seq<CounterAction>)
    requires actions != []
    ensures Replay(state, actions) == Some(state.GetOr(0) + SumDeltas(actions))
    decreases |actions|
  {
    var next := Some(CounterReducer(state, actions[0]));
    if actions[1..] == [] {
      assert Replay(next, actions[1..]) == next;
    } else {
      ReplayAddsDeltas(next, actions[1..]);
    }
  }

  /** From the undefined initial state, a non-empty replay yields 0 plus the deltas. */
  lemma ReplayFromUndefined(actions: seq<CounterAction>)
    requires actions != []
    ensures Replay(None, actions) == Some(SumDeltas(actions))
  {
    ReplayAddsDeltas(None, actions);
  }

  /** Replaying a concatenation is replaying the parts one after the other. */
  lemma {:induction false} ReplayConcat(state: Option<int>, xs: seq<CounterAction>, ys: seq<CounterAction>)
    ensures Replay(state, xs + ys) == Replay(Replay(state, xs), ys)
    decreases |xs|
  {
    if xs == [] {
      assert xs + ys == ys;
    } else {
      assert (xs + ys)[0] == xs[0];
      assert (xs + ys)[1..] == xs[1..] + ys;
      ReplayConcat(Some(CounterReducer(state, xs[0])), xs[1..], ys);
    }
  }

  /**
   * The reducer as written, where `type in counterActions` also holds for the keys
   * every object literal inherits from `Object.prototype`, whose methods then run.
   */
  function CounterReducerAsWritten(state: Option<int>, action: CounterAction): (c: Completion<JsValue>)
    ensures c == Normal(JsNumber(CounterReducer(state, action))) <==>
              !(Truthy(action.actionType) && action.actionType.value in ObjectPrototypeKeys)
  {
    if !Truthy(action.actionType) then Normal(JsNumber(state.GetOr(0)))
    else if HasProperty(CounterActionKeys, action.actionType.value) then
      match CounterActions(action.actionType.value)
      case Some(h) => Normal(JsNumber(CallHandler(h, state.GetOr(0), action.payload)))
      case None => CallInherited(action.actionType.value)
    else Normal(JsNumber(state.GetOr(0)))
  }

  /** Away from the inherited keys, the reducer as written is the corrected reducer. */
  lemma AsWrittenAgreesOffPrototype(state: Option<int>, action: CounterAction)
    requires action.actionType.Some? ==> action.actionType.value !in ObjectPrototypeKeys
    ensures CounterReducerAsWritten(state, action) == Normal(JsNumber(CounterReducer(state, action)))
  {
  }

  /** On every inherited key the reducer as written throws or returns a non-number. */
  lemma AsWrittenInheritedKeyIsNotANumber(state: Option<int>, action: CounterAction)
    requires action.actionType.Some? && action.actionType.value in ObjectPrototypeKeys
    ensures !CounterReducerAsWritten(state, action).Normal?
            || !CounterReducerAsWritten(state, action).value.JsNumber?
  {
  }

  /** `{type: "toString"}` turns the counter into a string; `{type: "__proto__"}` throws. */
  lemma AsWrittenCounterexamples()
    ensures CounterReducerAsWritten(Some(5), CounterAction(Some("toString"), None))
            == Normal(JsString("[object Object]"))
    ensures CounterReducer(Some(5), CounterAction(Some("toString"), None)) == 5
    ensures CounterReducerAsWritten(None, CounterAction(Some("__proto__"), None)) == Throw(TypeError)
    ensures CounterReducer(None, CounterAction(Some("__proto__"), None)) == 0
  {
  }
}
