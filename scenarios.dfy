// End-to-end runs of the container with the example store and validator
// installed: what the store holds after a sequence of dispatches, and how the
// debugger's cursor and the history move. Each method builds its own engine,
// so nothing outside it changes.

module Scenarios {
  import opened Supplements
  import opened Engine
  import opened Switches
  import opened Debugger

  /** With a maximum of one switch and the validator installed, turning on
      "s1" then "s2" leaves only "s2" on. */
  method TwoSwitchesEngine() returns (m: Machine<MyStore>)
    ensures fresh(m) && m.Valid() && m.engineOn
    ensures forall s :: m.ValidateState(s) == IsValidStore(s)
    ensures m.state == Some(MyStore(["s2"], 1, []))
  {
    m := new Machine<MyStore>();
    m.SetStore(DefaultStore());
    m.SetStateValidator(IsValidStore);
    assert IsValidStore(MyStore(["s1"], 1, []));
    m.Dispatch(SnakeDispatch(TurnSwitchOn("s1")), 1);
    assert m.state == Some(MyStore(["s1"], 1, []));
    assert (["s1"] + ["s2"])[1..] == ["s2"];
    assert IsValidStore(MyStore(["s2"], 1, []));
    m.Dispatch(SnakeDispatch(TurnSwitchOn("s2")), 2);
  }

  /** On that engine, banning bans "s2"; turning "s2" on again proposes a
      store the validator rejects, so the store stays as it was. */
  method BanScenario() returns (afterTwo: MyStore, afterBan: MyStore, afterRetry: MyStore)
    ensures afterTwo == MyStore(["s2"], 1, [])
    ensures afterBan == MyStore([], 1, ["s2"])
    ensures afterRetry == afterBan
  {
    var m := TwoSwitchesEngine();
    afterTwo := m.GetRawState();
    assert BanAll([], ["s2"]) == ["s2"];
    ghost var banned := MyStore([], 1, ["s2"]);
    assert ControlReduce(BanSwitches, afterTwo) == banned;
    assert IsValidStore(banned);
    m.Dispatch(ControlDispatch(BanSwitches), 3);
    afterBan := m.GetRawState();
    assert SnakeReduce(TurnSwitchOn("s2"), banned).switchesTurnedOn == ["s2"];
    assert !IsValidStore(SnakeReduce(TurnSwitchOn("s2"), banned));
    m.Dispatch(SnakeDispatch(TurnSwitchOn("s2")), 4);
    afterRetry := m.GetRawState();
  }

  /** With the engine stopped, a dispatch is inert for the store and the
      subscribers but is still recorded while debugging. */
  method StoppedEngineScenario() returns (store: MyStore, recorded: nat, ghost delivered: bool)
    ensures store == DefaultStore()
    ensures recorded == 2
    ensures !delivered
  {
    var m := new Machine<MyStore>();
    m.SetStore(DefaultStore());
    var sub := m.Subscribe(Callback(7));
    m.StartDebug(0);
    m.StopEngine();
    m.Dispatch(SnakeDispatch(TurnSwitchOn("s1")), 1);
    store := m.GetRawState();
    recorded := |m.history|;
    delivered := m.log != [];
  }

  /** Starting to debug on an empty log seeds one record; raising the maximum
      to three is accepted and recorded. */
  method TwoRecordEngine() returns (m: Machine<MyStore>)
    ensures fresh(m) && m.Valid() && m.engineOn && m.debug && m.validator == None
    ensures m.state == Some(MyStore([], 3, []))
    ensures m.history == [
      HistoryRecord(0, "SwiftyState debug started", DefaultStore(), true),
      HistoryRecord(1, "setMaxTo", MyStore([], 3, []), true)]
  {
    m := new Machine<MyStore>();
    m.SetStore(DefaultStore());
    m.StartDebug(0);
    m.Dispatch(ControlDispatch(SetMaxTo(3)), 1);
  }

  /** Two more accepted dispatches make four records. */
  method FourRecordEngine() returns (m: Machine<MyStore>)
    ensures fresh(m) && m.Valid() && m.engineOn && m.validator == None
    ensures m.state == Some(MyStore(["s1", "s2"], 3, []))
    ensures m.history == [
      HistoryRecord(0, "SwiftyState debug started", DefaultStore(), true),
      HistoryRecord(1, "setMaxTo", MyStore([], 3, []), true),
      HistoryRecord(2, "turnSwitchOn", MyStore(["s1"], 3, []), true),
      HistoryRecord(3, "turnSwitchOn", MyStore(["s1", "s2"], 3, []), true)]
  {
    m := TwoRecordEngine();
    ghost var h := m.history;
    m.Dispatch(SnakeDispatch(TurnSwitchOn("s1")), 2);
    assert m.state == Some(MyStore(["s1"], 3, []));
    assert m.history == h + [HistoryRecord(2, "turnSwitchOn", MyStore(["s1"], 3, []), true)];
    h := m.history;
    m.Dispatch(SnakeDispatch(TurnSwitchOn("s2")), 3);
    assert TurnOn(["s1"], "s2", 3) == ["s1", "s2"];
    assert m.history == h + [HistoryRecord(3, "turnSwitchOn", MyStore(["s1", "s2"], 3, []), true)];
  }

  /** A debugger following that engine sits on the newest of the four
      records. Its own subscription is stood for by a call of its callback. */
  method FourRecords() returns (m: Machine<MyStore>, t: TimeTravel<MyStore>)
    ensures fresh(m) && fresh(t) && m.Valid() && m.engineOn && m.validator == None
    ensures m.state == Some(MyStore(["s1", "s2"], 3, []))
    ensures |m.history| == 4 && m.history[0].state == DefaultStore()
    ensures m.history[3].state == MyStore(["s1", "s2"], 3, [])
    ensures t.history == m.history && t.currHistoryIndex == 4 && t.sliderMaxedOut
  {
    m := FourRecordEngine();
    t := new TimeTravel<MyStore>();
    t.OnNotify(m);
  }

  /** On four records, selecting record 1 pins the cursor and puts the seed
      state back in the store without a new record; selecting record 4 returns
      to the newest record, marks the cursor live again and restores the
      newest state. */
  method TimeTravelScenario() returns (rewound: MyStore, pinned: bool, cursor: int, live: bool, restored: MyStore, recorded: nat)
    ensures rewound == DefaultStore() && pinned
    ensures cursor == 4 && live
    ensures restored == MyStore(["s1", "s2"], 3, [])
    ensures recorded == 4
  {
    var m, t := FourRecords();
    t.ShowState(1, true, m, 4);
    rewound := m.GetRawState();
    pinned := !t.sliderMaxedOut;
    assert |m.history| == 4;
    t.OnNotify(m);
    assert t.currHistoryIndex == 1;
    t.ShowState(4, true, m, 5);
    cursor := t.currHistoryIndex;
    live := t.sliderMaxedOut;
    restored := m.GetRawState();
    recorded := |m.history|;
  }

  /** Opening the debugger as written on a store with no history: one seed
      record, but the cursor ends at 0, outside `[1, 1]`, so no record is
      selected. */
  method OpenDebuggerAsWritten() returns (count: nat, cursor: int)
    ensures count == 1 && cursor == 0
  {
    var m := new Machine<MyStore>();
    m.SetStore(DefaultStore());
    var t := new TimeTravel<MyStore>();
    var sub := t.ViewDidLoad(m, Callback(0), 0);
    count := |t.history|;
    cursor := t.currHistoryIndex;
  }

  /** Opening the debugger with the cursor left at the newest record: the
      seed record is selected. */
  method OpenDebuggerAtTip() returns (count: nat, cursor: int, selected: MyStore)
    ensures count == 1 && cursor == 1
    ensures selected == DefaultStore()
  {
    var m := new Machine<MyStore>();
    m.SetStore(DefaultStore());
    var t := new TimeTravel<MyStore>();
    var sub := t.ViewDidLoadAtTip(m, Callback(0), 0);
    count := |t.history|;
    cursor := t.currHistoryIndex;
    selected := t.SelectedRecord().state;
  }
}
