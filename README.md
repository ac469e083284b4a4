# SwiftyState in Dafny

A model of the SwiftyState state container: a single store that changes only
by dispatching actions, whose reducers propose a new store, an optional
validator that can reject the proposal, subscribers that are told about every
dispatch while the engine is on, and a history log that records every dispatch
(accepted or not) while debugging is on. On top of the engine sit the
debugger's time-travel cursor (a 1-based index over the history with a "live"
flag) and the example application's store of switches with its validator and
reducers.

Files and modules:

- `supplements.dfy`, module `Supplements`: history records, actions and
  `execute`, the default action, the JSON decoding contract, the default
  `hasChanged`, and the notification log a subscriber delivery leaves.
- `engine.dfy`, module `Engine`: class `Machine<S>` holds the shared machine
  state (store, subscriber registry, id counter, `debug` and `engineOn` flags,
  validator, history) with the facade's operations as methods; class
  `Subscription` is the handle `subscribe` returns. Subscriber closures are
  `Callback` values; every invocation is appended to the ghost `log`.
- `debugger.dfy`, module `Debugger`: the `replaceState` action, the cursor clamp,
  and class `TimeTravel<S>` with the cursor fields of the debugger view and its
  operations (select, apply, undo, redo, engine switch, subscription callback,
  opening).
- `switches.dfy`, module `Switches`: the example `MyStore`, its validator, and
  the switch and control reducers, including the loop forms the application
  writes for the validator and for banning.
- `scenarios.dfy`, module `Scenarios`: end-to-end runs on fresh engines.

Where the design description of the system and the code disagree, the model
follows the code:

- Applying a past record with `addToHistory == false` does not add a history
  record: debugging is switched off around the dispatch. Only an empty history
  gains a record, the seed `startDebug` adds.
- `applyState` does not restore the previous recording mode; debugging is on
  afterwards whenever the state validated.
- The store is guaranteed valid only across dispatches (`Dispatch` keeps a
  valid store valid, and every change it makes is to a validated store).
  `setStateValidiator` does not re-check the current store, and `setStore`,
  `loadJSON` and `load` replace the store without validation.
- A failed `load` or `loadJSON` keeps the current store; it does not fall back
  to a default store.

## Model

| member | source | states |
|---|---|---|
| `Supplements.NewHistoryRecord` | SwiftyState/Classes/SwiftyStateSupplements.swift:83-88 | a record keeps the given time, action description and state; without an explicit verdict it is an accepted record |
| `Supplements.Execute` | SwiftyState/Classes/SwiftyStateSupplements.swift:147-150 | `execute` returns the reducer's result as the new state and the state it was given as the old state |
| `Supplements.DefaultAction` | SwiftyState/Classes/SwiftyStateSupplements.swift:128-132 | the default action's reducer is defined everywhere and is the identity |
| `Supplements.DefaultActionProposesCurrent` | SwiftyState/Classes/SwiftyStateSupplements.swift:129-131 | executing the default action proposes exactly the current store |
| `Supplements.FromJSON` | SwiftyState/Classes/SwiftyStateSupplements.swift:58-68 | `fromJSON` is absent exactly when the decoder throws, and otherwise is the decoded value |
| `Supplements.HasChanged` | SwiftyState/Classes/SwiftyStateSupplements.swift:15-19 | the default `hasChanged` is false for every property |
| `Engine.Decimal` | SwiftyState/Classes/SwiftyState.swift:144 | the rendering of the counter in an id is a non-empty string of decimal digits, one digit exactly for numbers below ten |
| `Engine.DecimalInjective` | SwiftyState/Classes/SwiftyState.swift:144 | two counter values with the same decimal text are equal |
| `Engine.SubscriptionId` | SwiftyState/Classes/SwiftyState.swift:143-144 | an id is "f" followed by at least one character |
| `Engine.SubscriptionIdInjective` | SwiftyState/Classes/SwiftyState.swift:143-144 | two counter values with the same id are equal |
| `Engine.NextIdIsFresh` | SwiftyState/Classes/SwiftyState.swift:142-149 | the id for the next counter value was never issued before, and issuing it adds exactly that id to the issued set |
| `Engine.DeliverNext` | SwiftyState/Classes/SwiftyState.swift:165-169 | one more iteration of the notification loop extends a delivery in which each visited subscriber was invoked exactly once by the newly visited one |
| `Engine.Machine.constructor` | SwiftyState/Classes/SwiftyState.swift:279-301 | a new machine has no store, no subscribers, counter 0, debugging off, engine on, no validator and an empty history |
| `Engine.Machine.SetStore` | SwiftyState/Classes/SwiftyState.swift:23-25 | the store becomes the given one and nothing else changes |
| `Engine.Machine.GetRawState` | SwiftyState/Classes/SwiftyState.swift:30-33 | returns the store and is defined only once a store is set |
| `Engine.Machine.ValidateState` | SwiftyState/Classes/SwiftyState.swift:64-69 | accepts every state when no validator is installed, and otherwise returns the validator's verdict |
| `Engine.Machine.SetStateValidator` | SwiftyState/Classes/SwiftyState.swift:183-185 | afterwards every validation is the new validator's verdict; nothing else changes |
| `Engine.Machine.GetHistory` | SwiftyState/Classes/SwiftyState.swift:74-76 | returns the recorded history |
| `Engine.Machine.GetConfig` | SwiftyState/Classes/SwiftyState.swift:131-133 | reports the engine and debug flags |
| `Engine.Machine.AddToHistory` | SwiftyState/Classes/SwiftyState.swift:83-87 | appends exactly one record with the action's description, the proposed state and the verdict |
| `Engine.Machine.StartDebug` | SwiftyState/Classes/SwiftyState.swift:89-95 | debugging is on; an empty history gets one seed record holding the current store, a non-empty one is unchanged, so a second call changes nothing |
| `Engine.Machine.StopDebug` | SwiftyState/Classes/SwiftyState.swift:97-99 | debugging is off and only that flag changes; no record is removed |
| `Engine.Machine.StartEngine` | SwiftyState/Classes/SwiftyState.swift:101-103 | the engine is on and only that flag changes |
| `Engine.Machine.StopEngine` | SwiftyState/Classes/SwiftyState.swift:105-107 | the engine is off and only that flag changes |
| `Engine.Machine.Subscribe` | SwiftyState/Classes/SwiftyState.swift:142-149 | the counter rises by one; the returned id is "f" and the new counter, was never issued before and was not registered; the registry gains exactly that entry |
| `Engine.Machine.Unsubscribe` | SwiftyState/Classes/SwiftyState.swift:154-156 | removes exactly the given key and keeps every other subscriber; an unknown key is a no-op, so a repeat is too; the counter is untouched |
| `Engine.Machine.Notify` | SwiftyState/Classes/SwiftyState.swift:165-169 | every registered subscriber is invoked exactly once, in some order, with the same `(state, oldState)` pair, and no one else is |
| `Engine.Machine.ExecuteSubscription` | SwiftyState/Classes/SwiftyState.swift:174-178 | invokes only the subscriber under the given id, with the current store and no old state; nothing when the id is not registered |
| `Engine.Machine.Dispatch` | SwiftyState/Classes/SwiftyState.swift:42-58 | with debugging on, exactly one record of the proposal and its verdict is appended whatever the engine flag, otherwise the history is unchanged; with the engine on, the store becomes the proposal if it validates and stays the prior store if not, and every subscriber is told the resulting store and the prior one; with the engine off, neither the store nor the subscribers are touched; a valid store stays valid |
| `Engine.Machine.LoadJSON` | SwiftyState/Classes/SwiftyState.swift:251-257 | a successful decode replaces the store; a failed decode or a missing store leaves it; no subscriber is notified |
| `Engine.Machine.Load` | SwiftyState/Classes/SwiftyState.swift:228-246 | on a successful decode the store is replaced and every subscriber is told the loaded store as both new and old state; otherwise nothing changes |
| `Engine.Subscription.constructor` | SwiftyState/Classes/SwiftyStateSupplements.swift:96-100 | the handle carries the given id |
| `Engine.Subscription.Unsubscribe` | SwiftyState/Classes/SwiftyStateSupplements.swift:103-105 | removes only the entry under the handle's own id |
| `Engine.Subscription.HotStart` | SwiftyState/Classes/SwiftyStateSupplements.swift:108-110 | invokes only the handle's own subscriber, with the current store and no old state; nothing once it is unsubscribed |
| `Engine.Subscription.HotStartTwice` | SwiftyState/Classes/SwiftyStateSupplements.swift:108-110 | two hot starts in a row deliver two identical notifications |
| `Debugger.ReplaceState` | SwiftyState/Classes/SwiftyStateDebuggerViewController.swift:99-114 | the `replaceState(s)` reducer maps every store to `s` |
| `Debugger.ClampIndex` | SwiftyState/Classes/SwiftyStateDebuggerViewController.swift:263 | a request is clamped into `[1, count]` when the history is non-empty, in-range requests are kept, and with an empty history a request at or above 1 gives 0 |
| `Debugger.ClampIndexIdempotent` | SwiftyState/Classes/SwiftyStateDebuggerViewController.swift:263 | clamping twice is clamping once |
| `Debugger.TimeTravel.constructor` | SwiftyState/Classes/SwiftyStateDebuggerViewController.swift:134-139 | a new debugger has no history, cursor 0 and is live |
| `Debugger.TimeTravel.SelectedRecord` | SwiftyState/Classes/SwiftyStateDebuggerViewController.swift:311-314 | the selected record is `history[cursor - 1]`, so the cursor is 1-based and must lie in `[1, count]` |
| `Debugger.TimeTravel.MoveCursor` | SwiftyState/Classes/SwiftyStateDebuggerViewController.swift:253-269 | "live" becomes `index == count` for the raw request even when the cursor does not move; the cursor becomes the clamped request; it moved exactly when it was elsewhere; reading the record needs a non-empty history |
| `Debugger.TimeTravel.ShowState` | SwiftyState/Classes/SwiftyStateDebuggerViewController.swift:253-301 | the cursor and "live" flag as in `MoveCursor`; when the cursor does not move, or when not applying, the engine is untouched; otherwise the selected state is applied without recording |
| `Debugger.TimeTravel.ApplyState` | SwiftyState/Classes/SwiftyStateDebuggerViewController.swift:321-331 | an invalid state changes nothing; a valid one is dispatched through `replaceState`, recorded only if both `addToHistory` and debugging were on, committed if the engine is on, and debugging is on afterwards; without `addToHistory` the history is unchanged unless it was empty |
| `Debugger.TimeTravel.Undo` | SwiftyState/Classes/SwiftyStateDebuggerViewController.swift:367-371 | requests the cursor one back; at the first record it stays and the engine is untouched |
| `Debugger.TimeTravel.Redo` | SwiftyState/Classes/SwiftyStateDebuggerViewController.swift:372-375 | requests the cursor one forward; at the newest record it stays, the engine is untouched, and the cursor stops being live |
| `Debugger.TimeTravel.SwitchEngine` | SwiftyState/Classes/SwiftyStateDebuggerViewController.swift:395-402 | switching on starts the engine and applies the selected record's state with recording; switching off only stops the engine |
| `Debugger.TimeTravel.OnNotify` | SwiftyState/Classes/SwiftyStateDebuggerViewController.swift:179-200 | the copy of the history becomes the engine's; when live or when nothing is selected the cursor jumps to the newest record and is live; a pinned cursor stays |
| `Debugger.TimeTravel.ViewDidLoad` | SwiftyState/Classes/SwiftyStateDebuggerViewController.swift:176-203 | opening as written: debugging on (an empty log gets its seed record), the controller's callback registered under the next fresh id with every other subscriber kept, and hot-started, so exactly one notification of the current store with no old state is delivered to it; engine flag, validator and store untouched; the history copied, the cursor left one below the history length |
| `Debugger.TimeTravel.ViewDidLoadAtTip` | SwiftyState/Classes/SwiftyStateDebuggerViewController.swift:176-203 | opening with the same effect on the engine (seed record, fresh registration, one hot-start notification, nothing else changed) but with the cursor on the newest record, which is then selectable |
| `Switches.IsValidStore` | Example/SwiftyState/State.swift:31-46 | the validator's verdict: accept exactly when the maximum is non-negative and no switch that is on is banned |
| `Switches.Validate` | Example/SwiftyState/State.swift:31-46 | the early-return loop rejects exactly when the maximum is negative or some switch that is on is also banned, so it agrees with `IsValidStore` |
| `Switches.TurnOn` | Example/SwiftyState/State.swift:61-68 | the new "on" list is the last `min(len + 1, max)` entries of the old list followed by the switch, and the switch is last whenever `max >= 1` |
| `Switches.RemoveAll` | Example/SwiftyState/State.swift:70-73 | removing never lengthens the list |
| `Switches.RemoveAllCounts` | Example/SwiftyState/State.swift:70-73 | removal drops every copy of the switch and keeps every copy of every other switch |
| `Switches.RemoveAllAppend` | Example/SwiftyState/State.swift:70-73 | removal works piecewise over a concatenation, so the kept switches keep their order |
| `Switches.RemoveAllAbsent` | Example/SwiftyState/State.swift:70-73 | removing a switch that is not on changes nothing |
| `Switches.SnakeReduce` | Example/SwiftyState/State.swift:57-76 | switch actions change only the "on" list |
| `Switches.TurnSwitchOnBounded` | Example/SwiftyState/State.swift:61-68 | after turning a switch on at most `maxSwitches` switches are on, the newest last, and they are the newest entries of the old list plus the switch |
| `Switches.TurnSwitchOffSpec` | Example/SwiftyState/State.swift:70-73 | after turning a switch off it is not on, every other switch keeps its count, and a switch that was not on leaves the store unchanged |
| `Switches.BanAll` | Example/SwiftyState/State.swift:98-103 | the ban loop's result starts with the old banned list and grows by at most one entry per scanned switch |
| `Switches.BanAllAppendsFresh` | Example/SwiftyState/State.swift:98-103 | what the ban loop appends contains no switch twice and no switch that was already banned, whatever the old list holds |
| `Switches.BanAllSpec` | Example/SwiftyState/State.swift:98-103 | the ban loop keeps the old bans in front, bans every switch it scans, bans nothing else, appends no duplicate and nothing already banned, and so keeps a duplicate-free list duplicate-free |
| `Switches.BanSwitchesInPlace` | Example/SwiftyState/State.swift:96-104 | the loop the application writes computes the ban reducer's result |
| `Switches.ControlReduce` | Example/SwiftyState/State.swift:90-110 | `setMaxTo` changes only the maximum; `banSwitches` empties the "on" list, keeps the maximum and keeps the old bans in front; `liftBan` empties only the banned list |
| `Switches.BanSwitchesSpec` | Example/SwiftyState/State.swift:96-104 | after a ban nothing is on, every previously-on switch is banned, old bans stay in front, nothing else is banned, no switch is appended twice or when already banned, the maximum is kept |
| `Switches.TurnOnBannedIsRejected` | Example/SwiftyState/State.swift:39-43 | turning on a banned switch under a positive maximum proposes a store the validator rejects |
| `Switches.BanSwitchesIsAccepted` | Example/SwiftyState/State.swift:96-104 | a ban proposes a store the validator accepts whenever the maximum is non-negative |
| `Switches.SnakeDispatch` | Example/SwiftyState/State.swift:53-77 | a switch action dispatches its reducer wherever that reducer does not trap |
| `Switches.ControlDispatch` | Example/SwiftyState/State.swift:84-111 | a control action dispatches its reducer, which is defined everywhere |
| `Scenarios.TwoSwitchesEngine` | Example/SwiftyState/State.swift:61-68 | with maximum 1 and the validator installed, turning on "s1" then "s2" leaves `["s2"]` |
| `Scenarios.BanScenario` | Example/SwiftyState/State.swift:61-104 | on that engine banning gives nothing on and `["s2"]` banned; turning "s2" on again is rejected and the store stays |
| `Scenarios.StoppedEngineScenario` | SwiftyState/Classes/SwiftyState.swift:47-57 | with the engine off a dispatch leaves the store, reaches no subscriber, and is still recorded |
| `Scenarios.TwoRecordEngine` | SwiftyState/Classes/SwiftyState.swift:89-95 | debugging on an empty log seeds one record; an accepted dispatch adds a second |
| `Scenarios.FourRecordEngine` | SwiftyState/Classes/SwiftyState.swift:42-58 | three accepted dispatches after the seed make exactly four records holding the successive stores |
| `Scenarios.FourRecords` | SwiftyState/Classes/SwiftyStateDebuggerViewController.swift:179-200 | a live debugger following those dispatches sits on record 4 |
| `Scenarios.TimeTravelScenario` | SwiftyState/Classes/SwiftyStateDebuggerViewController.swift:253-331 | selecting record 1 pins the cursor and restores the seed store without a new record; selecting record 4 is live again and restores the newest store |
| `Scenarios.OpenDebuggerAsWritten` | SwiftyState/Classes/SwiftyStateDebuggerViewController.swift:203 | opening the debugger as written on an empty log leaves one record and cursor 0, outside `[1, 1]` |
| `Scenarios.OpenDebuggerAtTip` | SwiftyState/Classes/SwiftyStateDebuggerViewController.swift:176-203 | opening with the corrected cursor selects the seed record |

## Findings

| source | as written | input that shows it | evidently intended | confidence | as-written member | corrected member |
|---|---|---|---|---|---|---|
| SwiftyState/Classes/SwiftyStateDebuggerViewController.swift:203 | after the hot start has moved the 1-based cursor to the newest record `history.count`, `viewDidLoad` sets it to `history.count - 1`, a 0-based index | opening the debugger on a store with an empty log: one seed record, cursor 0; switching the engine on then reads `history[-1]`, and undo/redo step from the wrong record | leave the cursor on the newest record, `history.count`, which the label and slider already show | medium; not executed | `Scenarios.OpenDebuggerAsWritten` | `Scenarios.OpenDebuggerAtTip` |

`Scenarios.OpenDebuggerAsWritten` runs `Debugger.TimeTravel.ViewDidLoad`, the
code as written; `Scenarios.OpenDebuggerAtTip` runs
`Debugger.TimeTravel.ViewDidLoadAtTip`, whose contract puts the cursor on the
newest record and makes it selectable.

## Left out

- All presentation: the debug UI manager, shake detection, the passthrough
  view, `initUI`/`closeUI`, size changes, translucency, labels, the slider
  value, the JSON and action text views and the date formatting inside
  `showState`. Only the cursor logic is kept.
- File handling: `getFilePath`, `save`, `deleteFile`/`resetSavedState` and the
  file reading of `load`, which depend on the file system. `Load` receives the
  file's text, or nothing when the file is missing or not UTF-8; the forced
  read of an existing but unreadable file is not modelled.
- JSON encoding and decoding internals: the decoder is a parameter, `toJSON`
  and `toData` are not modelled, and no round trip between them is claimed.
- Timestamps and action descriptions: each call takes its timestamp as a
  parameter, and descriptions are fixed strings rather than runtime reflection.
- Re-entrant delivery: subscriber callbacks are recorded, not run, and are
  assumed not to change the engine. The debugger's own callback is the
  separate method `OnNotify`; it is not re-run inside a dispatch the debugger
  itself starts, and the scenarios call it where the engine would deliver.
- Notification order: deliveries are specified as each subscriber exactly once;
  the `force` flag is accepted and has no effect, as in the code.
- Failure of a callback: callbacks cannot fail in the model.
- Engine.Machine.Subscribe: does not model the trap when the 64-bit counter
  would overflow; the counter is unbounded.
- Weak references, `deinit` (which unsubscribes and applies the final store
  with recording) and the `debugUI` slot of the shared state.
- The process-wide singleton: the machine is an object that is passed to each
  operation; several `SwiftyState()` facades over one instance are one object.
- Dynamic downcasts: the model is typed over the store type, so `as!` casts
  cannot fail.
- The example's view controllers and the timer-driven auto switch with its
  id generator.
- The slider: `sliderChanged` is `ShowState` with the slider's whole-number
  value; the conversion from its floating-point value is not modelled.
- Switches.SnakeDispatch: states that the reducer is defined wherever the
  Swift reducer does not trap (any store for turning a switch off, a
  non-negative maximum for turning one on), but not the converse. The trap of
  `removeFirst` under a negative maximum is the precondition of
  `SnakeReduce`.
