// The value-level protocol the state container is built from: history
// records, actions and their reducers, the JSON decoding contract, the
// default `hasChanged`, and the shape of a subscriber notification.

module Supplements {

  datatype Option<T> = None | Some(value: T)

  /** An opaque instant; the container stamps every history record with one. */
  type Timestamp = int

  /** One point of the history log: when, which action, the proposed state, and
      whether the validator accepted it. */
  datatype HistoryRecord<S> = HistoryRecord(date: Timestamp, action: string, state: S, valid: bool)

  /** Builds a history record; a record built without an explicit verdict is
      an accepted one. */
  function NewHistoryRecord<S>(now: Timestamp, action: string, state: S, valid: bool := true): (r: HistoryRecord<S>)
    ensures r.date == now && r.action == action && r.state == state
    ensures r.valid == valid
  {
    HistoryRecord(now, action, state, valid)
  }

  /** An action: a description (what the container writes into the history)
      and a reducer from the prior state to the proposed one. A reducer may
      trap on some states, so it is a partial function. */
  datatype Action<!S> = Action(description: string, reducer: S --> S)

  /** What `execute` hands back to the dispatcher. */
  datatype Executed<S> = Executed(state: S, oldState: S)

  /** Runs the action's reducer and pairs the result with the state it started from. */
  function Execute<S>(a: Action<S>, current: S): (r: Executed<S>)
    requires a.reducer.requires(current)
    ensures r.oldState == current
    ensures r.state == a.reducer(current)
  {
    Executed(a.reducer(current), current)
  }

  /** The empty action: its reducer returns the state it is given. */
  function DefaultAction<S(!new)>(): (a: Action<S>)
    ensures forall s :: a.reducer.requires(s) && a.reducer(s) == s
  {
    Action("SwiftyActionDefault", (s: S) => s)
  }

  /** Dispatching the empty action proposes exactly the current state. */
  lemma DefaultActionProposesCurrent<S(!new)>(current: S)
    ensures Execute(DefaultAction(), current) == Executed(current, current)
  {
  }

  /** The outcome of the foreign JSON decoder: a value, or the error it threw. */
  datatype Decoding<S> = Decoded(value: S) | DecodingError(reason: string)

  /** `fromJSON`: a decoder failure becomes an absent value, never a trap. */
  function FromJSON<S>(decode: string -> Decoding<S>, json: string): (r: Option<S>)
    ensures r.None? <==> decode(json).DecodingError?
    ensures r.Some? ==> r.value == decode(json).value
  {
    match decode(json)
    case Decoded(v) => Some(v)
    case DecodingError(_) => None
  }

  /** The default `hasChanged` of an equatable store reports no property as changed. */
  function HasChanged(property: string): (changed: bool)
    ensures !changed
  {
    false
  }

  /** The identity of a subscriber's closure; closures themselves are not modelled. */
  datatype Callback = Callback(handle: nat)

  /** One invocation of a subscriber: the registry key it was found under, the
      closure, and the `(state, oldState)` pair it received. */
  datatype Notification<S> = Notification(key: string, callback: Callback, state: S, oldState: Option<S>)

  /** `es` invokes every subscriber of `subs` exactly once, each with the pair
      `(st, prev)`, in some order. */
  ghost predicate DeliveredOnce<S>(es: seq<Notification<S>>, subs: map<string, Callback>, st: S, prev: Option<S>)
  {
    && (forall i :: 0 <= i < |es| ==>
          es[i].key in subs && es[i].callback == subs[es[i].key] && es[i].state == st && es[i].oldState == prev)
    && (forall i, j :: 0 <= i < j < |es| ==> es[i].key != es[j].key)
    && (forall k :: k in subs ==> exists i :: 0 <= i < |es| && es[i].key == k)
  }
}
