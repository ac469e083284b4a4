// The dispatch engine: the shared machine state (current store, subscriber
// registry, id counter, configuration flags, validator, history log) and the
// operations of the SwiftyState facade over it. The process-wide singleton is
// an explicitly constructed object passed to whoever needs it.

module Engine {
  import opened Supplements

  /** The decimal digit for `d`. */
  function DigitChar(d: nat): (c: char)
    requires d < 10
    ensures '0' <= c <= '9'
    ensures c as int - '0' as int == d
  {
    ('0' as int + d) as char
  }

  /** The decimal text of `n`, as string interpolation renders a non-negative Int. */
  function Decimal(n: nat): (r: string)
    ensures |r| >= 1
    ensures forall i :: 0 <= i < |r| ==> '0' <= r[i] <= '9'
    ensures (n < 10) == (|r| == 1)
    decreases n
  {
    if n < 10 then [DigitChar(n)] else Decimal(n / 10) + [DigitChar(n % 10)]
  }

  /** Distinct numbers have distinct decimal texts. */
  lemma {:induction false} DecimalInjective(m: nat, n: nat)
    requires Decimal(m) == Decimal(n)
    ensures m == n
  {
    if m < 10 && n < 10 {
      assert Decimal(m)[0] == DigitChar(m) && Decimal(n)[0] == DigitChar(n);
    } else if m >= 10 && n >= 10 {
      var a, b := Decimal(m / 10), Decimal(n / 10);
      assert Decimal(m) == a + [DigitChar(m % 10)];
      assert Decimal(n) == b + [DigitChar(n % 10)];
      assert |a| == |b|;
      assert a == Decimal(m)[..|a|] == Decimal(n)[..|b|] == b;
      assert DigitChar(m % 10) == Decimal(m)[|a|] == DigitChar(n % 10);
      DecimalInjective(m / 10, n / 10);
    }
  }

  /** The id `subscribe` hands out for counter value `n`: "f" followed by `n`. */
  function SubscriptionId(n: nat): (id: string)
    ensures |id| >= 2 && id[0] == 'f'
  {
    "f" + Decimal(n)
  }

  /** Distinct counter values give distinct ids. */
  lemma SubscriptionIdInjective(m: nat, n: nat)
    requires SubscriptionId(m) == SubscriptionId(n)
    ensures m == n
  {
    assert Decimal(m) == SubscriptionId(m)[1..] == SubscriptionId(n)[1..] == Decimal(n);
    DecimalInjective(m, n);
  }

  /** Every id handed out while the counter rose from 0 to `c`. */
  ghost function Issued(c: nat): set<string>
  {
    set n: nat | 1 <= n <= c :: SubscriptionId(n)
  }

  /** The next id is one that was never issued before, and issuing it extends
      the issued set by exactly that id. */
  lemma NextIdIsFresh(c: nat)
    ensures SubscriptionId(c + 1) !in Issued(c)
    ensures Issued(c + 1) == Issued(c) + {SubscriptionId(c + 1)}
  {
    if SubscriptionId(c + 1) in Issued(c) {
      var n: nat :| 1 <= n <= c && SubscriptionId(n) == SubscriptionId(c + 1);
      SubscriptionIdInjective(n, c + 1);
      assert false;
    }
    assert SubscriptionId(c + 1) in Issued(c + 1);
  }

  /** `es` invokes each subscriber of `done` exactly once with `(st, prev)`,
      and no one else. */
  ghost predicate PartlyDelivered<S>(es: seq<Notification<S>>, subs: map<string, Callback>, done: set<string>, st: S, prev: Option<S>)
  {
    && (forall i :: 0 <= i < |es| ==>
          es[i].key in done && es[i].key in subs && es[i].callback == subs[es[i].key] && es[i].state == st && es[i].oldState == prev)
    && (forall i, j :: 0 <= i < j < |es| ==> es[i].key != es[j].key)
    && (forall k :: k in done ==> exists i :: 0 <= i < |es| && es[i].key == k)
  }

  /** Invoking one more subscriber extends a partial delivery by that key. */
  lemma DeliverNext<S>(es: seq<Notification<S>>, subs: map<string, Callback>, done: set<string>, k: string, st: S, prev: Option<S>)
    requires PartlyDelivered(es, subs, done, st, prev)
    requires k in subs && k !in done
    ensures PartlyDelivered(es + [Notification(k, subs[k], st, prev)], subs, done + {k}, st, prev)
  {
    var es' := es + [Notification(k, subs[k], st, prev)];
    forall k' | k' in done + {k}
      ensures exists i :: 0 <= i < |es'| && es'[i].key == k'
    {
      if k' == k {
        assert es'[|es|].key == k;
      } else {
        var i :| 0 <= i < |es| && es[i].key == k';
        assert es'[i] == es[i];
      }
    }
  }

  /** The engine configuration as reported to the debugger. */
  datatype Config = Config(engineOn: bool, debug: bool)

  /** The shared machine state together with the facade's operations on it. */
  class Machine<S> {
    /** The current store; absent until one is set. */
    var state: Option<S>
    /** Registered subscribers, keyed by their subscription id. */
    var subscribers: map<string, Callback>
    /** Source of subscription ids; only ever incremented. */
    var counter: nat
    /** Whether dispatches are recorded in the history. */
    var debug: bool
    /** Whether dispatches are committed and announced. */
    var engineOn: bool
    /** The installed validator, if any. */
    var validator: Option<S -> bool>
    /** Every recorded dispatch, oldest first. */
    var history: seq<HistoryRecord<S>>
    /** Every subscriber invocation so far, oldest first. */
    ghost var log: seq<Notification<S>>

    /** Every registered key is an id that `subscribe` issued. */
    ghost predicate Valid()
      reads this
    {
      subscribers.Keys <= Issued(counter)
    }

    constructor ()
      ensures Valid()
      ensures state == None && subscribers == map[] && counter == 0
      ensures !debug && engineOn && validator == None
      ensures history == [] && log == []
    {
      state := None;
      subscribers := map[];
      counter := 0;
      debug := false;
      engineOn := true;
      validator := None;
      history := [];
      log := [];
    }

    /** Replaces the store, bypassing reducers, validator and subscribers. */
    method SetStore(s: S)
      modifies this`state
      ensures state == Some(s)
    {
      state := Some(s);
    }

    /** The current store; traps when none is set. */
    function GetRawState(): (s: S)
      reads this
      requires state.Some?
      ensures state == Some(s)
    {
      state.value
    }

    /** The validator's verdict on `s`; acceptance when none is installed. */
    function ValidateState(s: S): (ok: bool)
      reads this
      ensures validator.None? ==> ok
      ensures validator.Some? ==> ok == validator.value(s)
    {
      match validator
      case None => true
      case Some(v) => v(s)
    }

    /** Installs `v` as the validator, replacing any previous one. */
    method SetStateValidator(v: S -> bool)
      modifies this`validator
      ensures validator == Some(v)
      ensures forall s :: ValidateState(s) == v(s)
    {
      validator := Some(v);
    }

    function GetHistory(): (h: seq<HistoryRecord<S>>)
      reads this
      ensures h == history
    {
      history
    }

    function GetConfig(): (c: Config)
      reads this
      ensures c.engineOn == engineOn && c.debug == debug
    {
      Config(engineOn, debug)
    }

    /** Appends one record for a dispatch of `a` that proposed `s`. */
    method AddToHistory(a: Action<S>, s: S, now: Timestamp, valid: bool := true)
      modifies this`history
      ensures history == old(history) + [HistoryRecord(now, a.description, s, valid)]
    {
      history := history + [NewHistoryRecord(now, a.description, s, valid)];
    }

    /** Turns recording on, seeding an empty history with the current store. */
    method StartDebug(now: Timestamp)
      requires history == [] ==> state.Some?
      modifies this`history, this`debug
      ensures debug
      ensures old(history) == [] ==> history == [HistoryRecord(now, "SwiftyState debug started", state.value, true)]
      ensures old(history) != [] ==> history == old(history)
    {
      if |history| == 0 {
        var seed := NewHistoryRecord(now, "SwiftyState debug started", GetRawState());
        history := history + [seed];
      }
      debug := true;
    }

    /** Turns recording off; the records stay. */
    method StopDebug()
      modifies this`debug
      ensures !debug
    {
      debug := false;
    }

    method StartEngine()
      modifies this`engineOn
      ensures engineOn
    {
      engineOn := true;
    }

    method StopEngine()
      modifies this`engineOn
      ensures !engineOn
    {
      engineOn := false;
    }

    /** Registers `f` under a fresh id and returns the handle for it. */
    method Subscribe(f: Callback) returns (sub: Subscription)
      requires Valid()
      modifies this`counter, this`subscribers
      ensures Valid() && fresh(sub)
      ensures counter == old(counter) + 1
      ensures sub.id == SubscriptionId(counter)
      ensures sub.id !in Issued(old(counter)) && sub.id !in old(subscribers)
      ensures subscribers == old(subscribers)[sub.id := f]
    {
      NextIdIsFresh(counter);
      counter := counter + 1;
      var id := SubscriptionId(counter);
      subscribers := subscribers[id := f];
      sub := new Subscription(id);
    }

    /** Removes the subscriber registered under `id`, if there is one. */
    method Unsubscribe(id: string)
      requires Valid()
      modifies this`subscribers
      ensures Valid()
      ensures subscribers == old(subscribers) - {id}
      ensures id !in subscribers
    {
      subscribers := subscribers - {id};
    }

    /** Invokes every subscriber once with `(st, prev)`, in no particular order. */
    method Notify(st: S, prev: S, force: bool := false)
      modifies this`log
      ensures old(log) <= log
      ensures DeliveredOnce(log[|old(log)|..], subscribers, st, Some(prev))
    {
      var pending := subscribers.Keys;
      ghost var sent: seq<Notification<S>> := [];
      while pending != {}
        invariant pending <= subscribers.Keys
        invariant log == old(log) + sent
        invariant PartlyDelivered(sent, subscribers, subscribers.Keys - pending, st, Some(prev))
        decreases pending
      {
        var k :| k in pending;
        var f := subscribers[k];
        DeliverNext(sent, subscribers, subscribers.Keys - pending, k, st, Some(prev));
        assert (subscribers.Keys - pending) + {k} == subscribers.Keys - (pending - {k});
        sent := sent + [Notification(k, f, st, Some(prev))];
        log := log + [Notification(k, f, st, Some(prev))];
        pending := pending - {k};
      }
      assert subscribers.Keys - pending == subscribers.Keys;
      assert log[|old(log)|..] == sent;
    }

    /** Invokes only the subscriber registered under `id`, with the current
        store and no prior state; nothing when `id` is not registered. */
    method ExecuteSubscription(id: string)
      requires state.Some?
      modifies this`log
      ensures id in subscribers ==> log == old(log) + [Notification(id, subscribers[id], state.value, None)]
      ensures id !in subscribers ==> log == old(log)
    {
      var s := GetRawState();
      if id in subscribers {
        log := log + [Notification(id, subscribers[id], s, None)];
      }
    }

    /** Dispatches `a`: runs its reducer, validates the proposal, records it
        when debugging, and, when the engine is on, commits it if accepted
        (keeping the prior store otherwise) and notifies every subscriber. */
    method Dispatch(a: Action<S>, now: Timestamp, force: bool := false)
      requires Valid() && state.Some? && a.reducer.requires(state.value)
      modifies this`state, this`history, this`log
      ensures Valid() && state.Some?
      ensures var proposed := a.reducer(old(state).value);
        history == old(history) + (if debug then [HistoryRecord(now, a.description, proposed, ValidateState(proposed))] else [])
      ensures var proposed := a.reducer(old(state).value);
        state == (if !engineOn then old(state) else if ValidateState(proposed) then Some(proposed) else old(state))
      ensures state != old(state) ==> ValidateState(state.value)
      ensures ValidateState(old(state).value) ==> ValidateState(state.value)
      ensures engineOn ==> old(log) <= log && DeliveredOnce(log[|old(log)|..], subscribers, state.value, old(state))
      ensures !engineOn ==> log == old(log)
    {
      var result := Execute(a, GetRawState());
      var resultIsValid := ValidateState(result.state);
      if debug {
        AddToHistory(a, result.state, now, resultIsValid);
      }
      if engineOn {
        state := Some(if resultIsValid then result.state else result.oldState);
        Notify(state.value, result.oldState, force);
      }
    }

    /** Replaces the store with the decoded `json`, without notifying anyone;
        keeps the store when there is none or when decoding fails. */
    method LoadJSON(json: string, decode: string -> Decoding<S>)
      modifies this`state
      ensures old(state).Some? && decode(json).Decoded? ==> state == Some(decode(json).value)
      ensures old(state).None? || decode(json).DecodingError? ==> state == old(state)
    {
      if state.Some? {
        var decoded := FromJSON(decode, json);
        if decoded.Some? {
          state := decoded;
        }
      }
    }

    /** The part of `load` after the file was read (`contents` is absent when
        the file is missing or not UTF-8): on a successful decode, replace the
        store and notify every subscriber with the loaded store as both the new
        and the old state. */
    method Load(contents: Option<string>, decode: string -> Decoding<S>)
      modifies this`state, this`log
      ensures var ok := contents.Some? && old(state).Some? && decode(contents.value).Decoded?;
        if ok then
          && state == Some(decode(contents.value).value)
          && old(log) <= log
          && DeliveredOnce(log[|old(log)|..], subscribers, state.value, state)
        else
          state == old(state) && log == old(log)
    {
      if contents.Some? && state.Some? {
        var decoded := FromJSON(decode, contents.value);
        if decoded.Some? {
          state := decoded;
          Notify(state.value, state.value, true);
        }
      }
    }
  }

  /** The handle `subscribe` returns: its id is the capability to unsubscribe
      or hot-start that one subscriber. */
  class Subscription {
    const id: string

    constructor (id: string)
      ensures this.id == id
    {
      this.id := id;
    }

    /** Removes only the subscriber registered under this handle's id. */
    method Unsubscribe<S>(m: Machine<S>)
      requires m.Valid()
      modifies m`subscribers
      ensures m.Valid()
      ensures m.subscribers == old(m.subscribers) - {id}
    {
      m.Unsubscribe(id);
    }

    /** Invokes only this handle's subscriber, with the current store and no
        prior state; nothing when it is no longer registered. */
    method HotStart<S>(m: Machine<S>)
      requires m.state.Some?
      modifies m`log
      ensures id in m.subscribers ==> m.log == old(m.log) + [Notification(id, m.subscribers[id], m.state.value, None)]
      ensures id !in m.subscribers ==> m.log == old(m.log)
    {
      m.ExecuteSubscription(id);
    }

    /** Two hot starts in a row deliver the same payload to the same subscriber. */
    method HotStartTwice<S>(m: Machine<S>)
      requires m.state.Some? && id in m.subscribers
      modifies m`log
      ensures |m.log| == |old(m.log)| + 2
      ensures m.log[|m.log| - 1] == m.log[|m.log| - 2]
    {
      HotStart(m);
      HotStart(m);
    }
  }
}
