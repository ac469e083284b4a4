// The example application's store: a list of switches that are on (bounded
// by a maximum, oldest evicted first), a list of banned switches, the
// validator that forbids a banned switch from being on, and the reducers of
// the switch and control actions.

module Switches {
  import opened Supplements

  datatype MyStore = MyStore(switchesTurnedOn: seq<string>, maxSwitches: int, bannedSwitches: seq<string>)

  /** The store the application starts from. */
  function DefaultStore(): MyStore
  {
    MyStore([], 1, [])
  }

  /** No element occurs twice. */
  predicate NoDuplicates(xs: seq<string>)
  {
    forall i, j :: 0 <= i < j < |xs| ==> xs[i] != xs[j]
  }

  // ---------------------------------------------------------------- validator

  /** The validator's acceptance condition: a non-negative maximum and no switch
      that is both on and banned. */
  predicate IsValidStore(s: MyStore): (ok: bool)
    ensures ok <==> s.maxSwitches >= 0 && forall x :: x in s.switchesTurnedOn ==> x !in s.bannedSwitches
  {
    s.maxSwitches >= 0 && forall i :: 0 <= i < |s.switchesTurnedOn| ==> s.switchesTurnedOn[i] !in s.bannedSwitches
  }

  /** The validator as the application writes it: reject a negative maximum,
      then scan the "on" list and reject at the first banned switch. */
  method Validate(s: MyStore) returns (ok: bool)
    ensures !ok <==> s.maxSwitches < 0 || exists i :: 0 <= i < |s.switchesTurnedOn| && s.switchesTurnedOn[i] in s.bannedSwitches
    ensures ok == IsValidStore(s)
  {
    if s.maxSwitches < 0 {
      return false;
    }
    var i := 0;
    while i < |s.switchesTurnedOn|
      invariant 0 <= i <= |s.switchesTurnedOn|
      invariant forall j :: 0 <= j < i ==> s.switchesTurnedOn[j] !in s.bannedSwitches
    {
      if s.switchesTurnedOn[i] in s.bannedSwitches {
        return false;
      }
      i := i + 1;
    }
    return true;
  }

  // ------------------------------------------------------------ switch actions

  datatype SnakeAction = TurnSwitchOn(id: string) | TurnSwitchOff(id: string)

  function Min(a: int, b: int): int
  {
    if a <= b then a else b
  }

  /** Appends `id` to the "on" list, then drops the oldest entries until at most
      `max` remain. */
  function TurnOn(on: seq<string>, id: string, max: int): (r: seq<string>)
    requires max >= 0
    ensures |r| == Min(|on| + 1, max)
    ensures r == (on + [id])[|on| + 1 - |r|..]
    ensures max >= 1 ==> r[|r| - 1] == id
  {
    var appended := on + [id];
    var n := |appended|;
    if n > max then appended[n - max..] else appended
  }

  /** Every occurrence of `id` removed, the other entries kept in order. */
  function RemoveAll(xs: seq<string>, id: string): (r: seq<string>)
    ensures |r| <= |xs|
    decreases |xs|
  {
    if xs == [] then []
    else (if xs[0] == id then [] else [xs[0]]) + RemoveAll(xs[1..], id)
  }

  /** RemoveAll drops exactly the copies of `id` and keeps every other copy. */
  lemma {:induction false} RemoveAllCounts(xs: seq<string>, id: string)
    ensures multiset(RemoveAll(xs, id)) == multiset(xs)[id := 0]
    decreases |xs|
  {
    if xs != [] {
      RemoveAllCounts(xs[1..], id);
      assert xs == [xs[0]] + xs[1..];
    }
  }

  /** RemoveAll works piecewise, so the relative order of the kept entries is
      that of the input. */
  lemma {:induction false} RemoveAllAppend(xs: seq<string>, ys: seq<string>, id: string)
    ensures RemoveAll(xs + ys, id) == RemoveAll(xs, id) + RemoveAll(ys, id)
    decreases |xs|
  {
    if xs != [] {
      assert (xs + ys)[1..] == xs[1..] + ys;
      RemoveAllAppend(xs[1..], ys, id);
    } else {
      assert xs + ys == ys;
    }
  }

  /** A list without `id` is left as it is. */
  lemma {:induction false} RemoveAllAbsent(xs: seq<string>, id: string)
    requires id !in xs
    ensures RemoveAll(xs, id) == xs
    decreases |xs|
  {
    if xs != [] {
      RemoveAllAbsent(xs[1..], id);
    }
  }

  /** The reducer may trap: turning a switch on with a negative maximum asks
      `removeFirst` for more entries than the list holds. */
  predicate SnakeDefined(a: SnakeAction, s: MyStore)
  {
    a.TurnSwitchOn? ==> s.maxSwitches >= 0
  }

  function SnakeReduce(a: SnakeAction, s: MyStore): (r: MyStore)
    requires SnakeDefined(a, s)
    ensures r.maxSwitches == s.maxSwitches && r.bannedSwitches == s.bannedSwitches
  {
    match a
    case TurnSwitchOn(id) => s.(switchesTurnedOn := TurnOn(s.switchesTurnedOn, id, s.maxSwitches))
    case TurnSwitchOff(id) => s.(switchesTurnedOn := RemoveAll(s.switchesTurnedOn, id))
  }

  /** Turning a switch on keeps at most `maxSwitches` switches on, the newest last. */
  lemma TurnSwitchOnBounded(s: MyStore, id: string)
    requires s.maxSwitches >= 0
    ensures var r := SnakeReduce(TurnSwitchOn(id), s);
      && |r.switchesTurnedOn| <= s.maxSwitches
      && |r.switchesTurnedOn| == Min(|s.switchesTurnedOn| + 1, s.maxSwitches)
      && (s.maxSwitches >= 1 ==> r.switchesTurnedOn[|r.switchesTurnedOn| - 1] == id)
      && r.switchesTurnedOn <= (s.switchesTurnedOn + [id])[|s.switchesTurnedOn| + 1 - |r.switchesTurnedOn|..]
  {
  }

  /** Turning a switch off removes every copy of it and keeps the rest in order. */
  lemma TurnSwitchOffSpec(s: MyStore, id: string)
    ensures var r := SnakeReduce(TurnSwitchOff(id), s);
      && id !in r.switchesTurnedOn
      && multiset(r.switchesTurnedOn) == multiset(s.switchesTurnedOn)[id := 0]
      && (id !in s.switchesTurnedOn ==> r == s)
  {
    RemoveAllCounts(s.switchesTurnedOn, id);
    var r := SnakeReduce(TurnSwitchOff(id), s);
    assert id in r.switchesTurnedOn ==> multiset(r.switchesTurnedOn)[id] > 0;
    if id !in s.switchesTurnedOn {
      RemoveAllAbsent(s.switchesTurnedOn, id);
    }
  }

  // ----------------------------------------------------------- control actions

  datatype ControlAction = SetMaxTo(max: int) | BanSwitches | LiftBan

  /** The banned list after scanning `on` left to right and appending each
      switch not yet banned. */
  function BanAll(banned: seq<string>, on: seq<string>): (r: seq<string>)
    ensures banned <= r
    ensures |r| <= |banned| + |on|
    decreases |on|
  {
    if on == [] then banned
    else BanAll(if on[0] in banned then banned else banned + [on[0]], on[1..])
  }

  /** What a ban appends is free of duplicates and of switches already banned,
      whatever the old list holds. */
  lemma {:induction false} BanAllAppendsFresh(banned: seq<string>, on: seq<string>)
    ensures NoDuplicates(BanAll(banned, on)[|banned|..])
    ensures forall x :: x in BanAll(banned, on)[|banned|..] ==> x !in banned
    decreases |on|
  {
    if on != [] {
      var next := if on[0] in banned then banned else banned + [on[0]];
      BanAllAppendsFresh(next, on[1..]);
      var r := BanAll(banned, on);
      assert r == BanAll(next, on[1..]);
      var later := r[|next|..];
      if next != banned {
        assert r[|banned|..] == [on[0]] + later;
        assert on[0] in next;
      } else {
        assert r[|banned|..] == later;
      }
    }
  }

  /** Banning keeps the old entries in front, adds every switch of `on`, adds
      nothing else, and never appends a switch twice or one already banned,
      whatever the old list holds. */
  lemma {:induction false} BanAllSpec(banned: seq<string>, on: seq<string>)
    ensures banned <= BanAll(banned, on)
    ensures forall x :: x in on ==> x in BanAll(banned, on)
    ensures forall x :: x in BanAll(banned, on) ==> x in banned || x in on
    ensures NoDuplicates(BanAll(banned, on)[|banned|..])
    ensures forall x :: x in BanAll(banned, on)[|banned|..] ==> x !in banned
    ensures NoDuplicates(banned) ==> NoDuplicates(BanAll(banned, on))
    decreases |on|
  {
    BanAllAppendsFresh(banned, on);
    if on != [] {
      var next := if on[0] in banned then banned else banned + [on[0]];
      BanAllSpec(next, on[1..]);
      assert on[0] in next;
      assert forall x :: x in on ==> x == on[0] || x in on[1..];
    }
  }

  /** The control reducer: each action changes one part of the store. */
  function ControlReduce(a: ControlAction, s: MyStore): (r: MyStore)
    ensures a.SetMaxTo? ==> r.maxSwitches == a.max && r.switchesTurnedOn == s.switchesTurnedOn && r.bannedSwitches == s.bannedSwitches
    ensures a.BanSwitches? ==> r.switchesTurnedOn == [] && r.maxSwitches == s.maxSwitches && s.bannedSwitches <= r.bannedSwitches
    ensures a.LiftBan? ==> r.bannedSwitches == [] && r.switchesTurnedOn == s.switchesTurnedOn && r.maxSwitches == s.maxSwitches
  {
    match a
    case SetMaxTo(max) => s.(maxSwitches := max)
    case BanSwitches => s.(bannedSwitches := BanAll(s.bannedSwitches, s.switchesTurnedOn), switchesTurnedOn := [])
    case LiftBan => s.(bannedSwitches := [])
  }

  /** The ban action as the application writes it: a loop appending each "on"
      switch that is not yet banned, then clearing the "on" list. */
  method BanSwitchesInPlace(s: MyStore) returns (r: MyStore)
    ensures r == ControlReduce(BanSwitches, s)
  {
    r := s;
    var i := 0;
    while i < |s.switchesTurnedOn|
      invariant 0 <= i <= |s.switchesTurnedOn|
      invariant r.switchesTurnedOn == s.switchesTurnedOn && r.maxSwitches == s.maxSwitches
      invariant BanAll(r.bannedSwitches, s.switchesTurnedOn[i..]) == BanAll(s.bannedSwitches, s.switchesTurnedOn)
    {
      var id := s.switchesTurnedOn[i];
      if id !in r.bannedSwitches {
        r := r.(bannedSwitches := r.bannedSwitches + [id]);
      }
      assert s.switchesTurnedOn[i..][1..] == s.switchesTurnedOn[i + 1..];
      i := i + 1;
    }
    r := r.(switchesTurnedOn := []);
  }

  /** After a ban nothing is on, every previously-on switch is banned, the old
      bans stay in front, nothing else is banned, and no switch is added that
      is banned already or added twice. */
  lemma BanSwitchesSpec(s: MyStore)
    ensures var r := ControlReduce(BanSwitches, s);
      && r.switchesTurnedOn == []
      && r.maxSwitches == s.maxSwitches
      && s.bannedSwitches <= r.bannedSwitches
      && (forall x :: x in s.switchesTurnedOn ==> x in r.bannedSwitches)
      && (forall x :: x in r.bannedSwitches ==> x in s.bannedSwitches || x in s.switchesTurnedOn)
      && NoDuplicates(r.bannedSwitches[|s.bannedSwitches|..])
      && (forall x :: x in r.bannedSwitches[|s.bannedSwitches|..] ==> x !in s.bannedSwitches)
      && (NoDuplicates(s.bannedSwitches) ==> NoDuplicates(r.bannedSwitches))
  {
    BanAllSpec(s.bannedSwitches, s.switchesTurnedOn);
  }

  /** Turning on a banned switch under a positive maximum yields a store the
      validator rejects. */
  lemma TurnOnBannedIsRejected(s: MyStore, id: string)
    requires s.maxSwitches >= 1 && id in s.bannedSwitches
    ensures !IsValidStore(SnakeReduce(TurnSwitchOn(id), s))
  {
    var on := SnakeReduce(TurnSwitchOn(id), s).switchesTurnedOn;
    assert on[|on| - 1] == id;
  }

  /** A ban leaves a store the validator accepts whenever the maximum is non-negative. */
  lemma BanSwitchesIsAccepted(s: MyStore)
    requires s.maxSwitches >= 0
    ensures IsValidStore(ControlReduce(BanSwitches, s))
  {
  }

  // ------------------------------------------------------ actions for dispatch

  function SnakeName(a: SnakeAction): string
  {
    match a
    case TurnSwitchOn(_) => "turnSwitchOn"
    case TurnSwitchOff(_) => "turnSwitchOff"
  }

  function ControlName(a: ControlAction): string
  {
    match a
    case SetMaxTo(_) => "setMaxTo"
    case BanSwitches => "banSwitches"
    case LiftBan => "liftBan"
  }

  /** A switch action as something the container can dispatch. */
  function SnakeDispatch(a: SnakeAction): (d: Action<MyStore>)
    ensures forall s :: SnakeDefined(a, s) ==> d.reducer.requires(s) && d.reducer(s) == SnakeReduce(a, s)
  {
    Action(SnakeName(a), (s: MyStore) requires SnakeDefined(a, s) => SnakeReduce(a, s))
  }

  /** A control action as something the container can dispatch. */
  function ControlDispatch(a: ControlAction): (d: Action<MyStore>)
    ensures forall s :: d.reducer.requires(s) && d.reducer(s) == ControlReduce(a, s)
  {
    Action(ControlName(a), (s: MyStore) => ControlReduce(a, s))
  }
}
