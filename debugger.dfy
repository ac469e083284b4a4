// The time-travel part of the debugger: a 1-based cursor over a copy of the
// engine's history, a "live" flag that keeps the cursor at the newest record,
// and the operations that move the cursor and push a past state back into the
// store. Rendering, gestures and layout are not modelled.

module Debugger {
  import opened Supplements
  import opened Engine

  /** The debugger's one action: whatever the current store, propose `s`. */
  function ReplaceState<S(!new)>(s: S): (a: Action<S>)
    ensures forall x :: a.reducer.requires(x) && a.reducer(x) == s
  {
    Action("replaceState", (x: S) => s)
  }

  /** Clamps a requested 1-based cursor into `[1, count]`; with an empty
      history a request at or above 1 gives 0. */
  function ClampIndex(index: int, count: nat): (r: int)
    ensures count >= 1 ==> 1 <= r <= count
    ensures 1 <= index <= count ==> r == index
    ensures index < 1 ==> r == 1
    ensures index > count >= 1 ==> r == count
    ensures count == 0 && index >= 1 ==> r == 0
  {
    if index >= 1 then (if index <= count then index else count) else 1
  }

  /** Clamping a clamped cursor again changes nothing. */
  lemma ClampIndexIdempotent(index: int, count: nat)
    requires count >= 1
    ensures ClampIndex(ClampIndex(index, count), count) == ClampIndex(index, count)
  {
  }

  /** `applyState(s)` reaches the dispatch, which needs a store, only when `s`
      validates. */
  predicate CanApply<S>(m: Machine<S>, s: S)
    reads m
  {
    m.state.Some? || !m.ValidateState(s)
  }

  /** The effect of `applyState(s, addToHistory)` on the engine: nothing when
      `s` fails validation; otherwise a dispatch of `replaceState(s)`, recorded
      only when both `addToHistory` and debugging were on, followed by
      `startDebug`, which leaves debugging on and seeds an empty history. */
  twostate predicate Applied<S(!new)>(m: Machine<S>, s: S, addToHistory: bool, now: Timestamp)
    reads m
  {
    && m.subscribers == old(m.subscribers) && m.counter == old(m.counter) && m.validator == old(m.validator)
    && if !m.ValidateState(s) then
         m.state == old(m.state) && m.history == old(m.history) && m.debug == old(m.debug) && m.log == old(m.log)
       else
         var recorded := old(m.history) + (if addToHistory && old(m.debug) then [HistoryRecord(now, "replaceState", s, true)] else []);
         && m.debug
         && m.state == (if m.engineOn then Some(s) else old(m.state))
         && m.state.Some?
         && m.history == (if recorded == [] then [HistoryRecord(now, "SwiftyState debug started", m.state.value, true)] else recorded)
         && (m.engineOn ==> old(m.log) <= m.log && DeliveredOnce(m.log[|old(m.log)|..], m.subscribers, s, old(m.state)))
         && (!m.engineOn ==> m.log == old(m.log))
  }

  /** The cursor state of the debugger view. */
  class TimeTravel<S(!new)> {
    /** The debugger's copy of the engine history. */
    var history: seq<HistoryRecord<S>>
    /** The selected record, 1-based; 0 before anything was selected. */
    var currHistoryIndex: int
    /** True when the newest record is selected, so new records are followed. */
    var sliderMaxedOut: bool

    constructor ()
      ensures history == [] && currHistoryIndex == 0 && sliderMaxedOut
    {
      history := [];
      currHistoryIndex := 0;
      sliderMaxedOut := true;
    }

    /** The selected record: the public cursor is 1-based. */
    function SelectedRecord(): (r: HistoryRecord<S>)
      reads this
      requires 1 <= currHistoryIndex <= |history|
      ensures r == history[currHistoryIndex - 1]
      ensures r in history
    {
      history[currHistoryIndex - 1]
    }

    /** `showState(index)` can run to the end: it reads the selected record
        whenever the cursor moves, and then may apply it. */
    predicate CanShow(index: int, autoApply: bool, m: Machine<S>)
      reads this, m
    {
      var target := ClampIndex(index, |history|);
      && (history != [] || currHistoryIndex == target)
      && (autoApply && history != [] && currHistoryIndex != target ==> CanApply(m, history[target - 1].state))
    }

    /** The cursor part of `showState`: mark "live" exactly when the raw request
        is the history length, then move to the clamped request unless the
        cursor is already there. */
    method MoveCursor(index: int) returns (moved: bool)
      requires history != [] || currHistoryIndex == ClampIndex(index, |history|)
      modifies this`currHistoryIndex, this`sliderMaxedOut
      ensures sliderMaxedOut == (index == |history|)
      ensures moved == (old(currHistoryIndex) != ClampIndex(index, |history|))
      ensures currHistoryIndex == ClampIndex(index, |history|)
      ensures moved ==> 1 <= currHistoryIndex <= |history|
    {
      if index != |history| {
        sliderMaxedOut := false;
      } else {
        sliderMaxedOut := true;
      }
      var newIndex := ClampIndex(index, |history|);
      if currHistoryIndex == newIndex {
        return false;
      }
      currHistoryIndex := newIndex;
      var historyPoint := SelectedRecord();
      return true;
    }

    /** Selects record `index` (clamped) and, when asked to, applies its state
        to the store without recording the dispatch. */
    method ShowState(index: int, autoApply: bool, m: Machine<S>, now: Timestamp)
      requires m.Valid() && CanShow(index, autoApply, m)
      modifies this`currHistoryIndex, this`sliderMaxedOut, m
      ensures sliderMaxedOut == (index == |history|)
      ensures currHistoryIndex == ClampIndex(index, |history|)
      ensures history != [] ==> 1 <= currHistoryIndex <= |history| && SelectedRecord() == history[ClampIndex(index, |history|) - 1]
      ensures m.Valid() && m.engineOn == old(m.engineOn)
      ensures old(currHistoryIndex) == currHistoryIndex || !autoApply ==> unchanged(m)
      ensures old(currHistoryIndex) != currHistoryIndex && autoApply ==> Applied(m, SelectedRecord().state, false, now)
    {
      var moved := MoveCursor(index);
      if !moved {
        return;
      }
      var historyPoint := SelectedRecord();
      if autoApply {
        ApplyState(historyPoint.state, false, m, now);
      }
    }

    /** Pushes `s` into the store through a `replaceState` dispatch if it
        validates; debugging is switched off around the dispatch unless
        `addToHistory`, and is on afterwards in either case. */
    method ApplyState(s: S, addToHistory: bool, m: Machine<S>, now: Timestamp)
      requires m.Valid() && CanApply(m, s)
      modifies m
      ensures m.Valid() && m.engineOn == old(m.engineOn)
      ensures Applied(m, s, addToHistory, now)
    {
      if !m.ValidateState(s) {
        return;
      }
      if !addToHistory {
        m.StopDebug();
      }
      m.Dispatch(ReplaceState(s), now);
      m.StartDebug(now);
    }

    /** Requests the record before the selected one. */
    method Undo(m: Machine<S>, now: Timestamp)
      requires m.Valid() && CanShow(currHistoryIndex - 1, true, m)
      modifies this`currHistoryIndex, this`sliderMaxedOut, m
      ensures currHistoryIndex == ClampIndex(old(currHistoryIndex) - 1, |history|)
      ensures sliderMaxedOut == (old(currHistoryIndex) - 1 == |history|)
      ensures old(currHistoryIndex) == 1 ==> currHistoryIndex == 1 && unchanged(m)
      ensures old(currHistoryIndex) != currHistoryIndex ==> Applied(m, SelectedRecord().state, false, now)
      ensures m.Valid() && m.engineOn == old(m.engineOn)
    {
      var newIndex := currHistoryIndex - 1;
      ShowState(newIndex, true, m, now);
    }

    /** Requests the record after the selected one. */
    method Redo(m: Machine<S>, now: Timestamp)
      requires m.Valid() && CanShow(currHistoryIndex + 1, true, m)
      modifies this`currHistoryIndex, this`sliderMaxedOut, m
      ensures currHistoryIndex == ClampIndex(old(currHistoryIndex) + 1, |history|)
      ensures sliderMaxedOut == (old(currHistoryIndex) + 1 == |history|)
      ensures old(currHistoryIndex) == |history| >= 1 ==> currHistoryIndex == |history| && !sliderMaxedOut && unchanged(m)
      ensures old(currHistoryIndex) != currHistoryIndex ==> Applied(m, SelectedRecord().state, false, now)
      ensures m.Valid() && m.engineOn == old(m.engineOn)
    {
      var newIndex := currHistoryIndex + 1;
      ShowState(newIndex, true, m, now);
    }

    /** The engine switch: on starts the engine and applies the selected
        record's state, recording the dispatch; off stops the engine. */
    method SwitchEngine(isOn: bool, m: Machine<S>, now: Timestamp)
      requires m.Valid()
      requires isOn ==> 1 <= currHistoryIndex <= |history| && CanApply(m, SelectedRecord().state)
      modifies m
      ensures m.Valid() && m.engineOn == isOn
      ensures isOn ==> Applied(m, SelectedRecord().state, true, now)
      ensures !isOn ==> && m.state == old(m.state) && m.history == old(m.history) && m.debug == old(m.debug)
                        && m.log == old(m.log) && m.subscribers == old(m.subscribers)
                        && m.counter == old(m.counter) && m.validator == old(m.validator)
    {
      if isOn {
        m.StartEngine();
        ApplyState(SelectedRecord().state, true, m, now);
      } else {
        m.StopEngine();
      }
    }

    /** The debugger's subscription callback: copy the engine history, and move
        to the newest record when "live" or when nothing was selected yet; a
        pinned cursor stays where it is. */
    method OnNotify(m: Machine<S>)
      requires m.history != [] || currHistoryIndex == 1 || (!sliderMaxedOut && currHistoryIndex != 0)
      modifies this`history, this`currHistoryIndex, this`sliderMaxedOut
      ensures history == m.history
      ensures old(sliderMaxedOut) || old(currHistoryIndex) == 0 ==>
                sliderMaxedOut && currHistoryIndex == ClampIndex(|history|, |history|)
      ensures !(old(sliderMaxedOut) || old(currHistoryIndex) == 0) ==>
                sliderMaxedOut == old(sliderMaxedOut) && currHistoryIndex == old(currHistoryIndex)
    {
      history := m.GetHistory();
      var totalHistoryPoints := |history|;
      if sliderMaxedOut {
        var _ := MoveCursor(totalHistoryPoints);
      }
      if currHistoryIndex == 0 {
        var _ := MoveCursor(totalHistoryPoints);
      }
    }

    /** Opening the debugger as written: start debugging, subscribe `callback`
        (this controller's own), hot-start it, which delivers the current store
        to it and runs it, then set the cursor to one below the history
        length. */
    method ViewDidLoad(m: Machine<S>, callback: Callback, now: Timestamp) returns (sub: Subscription)
      requires m.Valid() && m.state.Some?
      requires currHistoryIndex == 0 && sliderMaxedOut
      modifies this`history, this`currHistoryIndex, this`sliderMaxedOut, m
      ensures m.Valid() && fresh(sub) && sub.id in m.subscribers
      ensures m.engineOn == old(m.engineOn) && m.validator == old(m.validator)
      ensures m.counter == old(m.counter) + 1 && sub.id == SubscriptionId(m.counter)
      ensures m.subscribers == old(m.subscribers)[sub.id := callback]
      ensures m.log == old(m.log) + [Notification(sub.id, callback, old(m.state).value, None)]
      ensures m.state == old(m.state) && m.debug
      ensures m.history == (if old(m.history) == [] then [HistoryRecord(now, "SwiftyState debug started", m.state.value, true)] else old(m.history))
      ensures history == m.history && history != []
      ensures currHistoryIndex == |history| - 1
      ensures sliderMaxedOut
    {
      m.StartDebug(now);
      sub := m.Subscribe(callback);
      sub.HotStart(m);
      OnNotify(m);
      currHistoryIndex := |history| - 1;
    }

    /** Opening the debugger with the cursor left where the hot start put it:
        on the newest record. */
    method ViewDidLoadAtTip(m: Machine<S>, callback: Callback, now: Timestamp) returns (sub: Subscription)
      requires m.Valid() && m.state.Some?
      requires currHistoryIndex == 0 && sliderMaxedOut
      modifies this`history, this`currHistoryIndex, this`sliderMaxedOut, m
      ensures m.Valid() && fresh(sub) && sub.id in m.subscribers
      ensures m.engineOn == old(m.engineOn) && m.validator == old(m.validator)
      ensures m.counter == old(m.counter) + 1 && sub.id == SubscriptionId(m.counter)
      ensures m.subscribers == old(m.subscribers)[sub.id := callback]
      ensures m.log == old(m.log) + [Notification(sub.id, callback, old(m.state).value, None)]
      ensures m.state == old(m.state) && m.debug
      ensures m.history == (if old(m.history) == [] then [HistoryRecord(now, "SwiftyState debug started", m.state.value, true)] else old(m.history))
      ensures history == m.history && history != []
      ensures currHistoryIndex == |history| && SelectedRecord() == history[|history| - 1]
      ensures sliderMaxedOut
    {
      m.StartDebug(now);
      sub := m.Subscribe(callback);
      sub.HotStart(m);
      OnNotify(m);
      currHistoryIndex := |history|;
    }
  }
}
