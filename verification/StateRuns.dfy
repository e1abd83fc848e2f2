/** What holds of StateManager over every run. */
module StateRuns {
  import opened Text
  import opened Models
  import opened StateSpec

  // Reading action lists.

  /** The state most recently published for an address. */
  function LastState(actions: seq<Action>, a: string): Option<Command> {
    if actions == [] then None
    else
      var x := actions[|actions| - 1];
      if x.PublishState? && x.address == a then Some(x.state) else LastState(actions[..|actions| - 1], a)
  }

  function Sends(actions: seq<Action>): seq<(string, Command)> {
    if actions == [] then []
    else
      var x := actions[|actions| - 1];
      Sends(actions[..|actions| - 1]) + (if x.SendDevice? then [(x.address, x.command)] else [])
  }

  function CountDiscoveries(actions: seq<Action>): nat {
    if actions == [] then 0
    else CountDiscoveries(actions[..|actions| - 1]) + (if actions[|actions| - 1].PublishDiscovery? then 1 else 0)
  }

  function CountStates(actions: seq<Action>): nat {
    if actions == [] then 0
    else CountStates(actions[..|actions| - 1]) + (if actions[|actions| - 1].PublishState? then 1 else 0)
  }

  lemma {:induction false} LastStateAppend(x: seq<Action>, y: seq<Action>, a: string)
    ensures LastState(x + y, a) == if LastState(y, a).Some? then LastState(y, a) else LastState(x, a)
  {
    if y == [] {
      assert x + y == x;
    } else {
      assert (x + y)[..|x + y| - 1] == x + y[..|y| - 1];
      LastStateAppend(x, y[..|y| - 1], a);
    }
  }

  lemma {:induction false} TalliesAppend(x: seq<Action>, y: seq<Action>)
    ensures Sends(x + y) == Sends(x) + Sends(y)
    ensures CountDiscoveries(x + y) == CountDiscoveries(x) + CountDiscoveries(y)
    ensures CountStates(x + y) == CountStates(x) + CountStates(y)
  {
    if y == [] {
      assert x + y == x;
    } else {
      assert (x + y)[..|x + y| - 1] == x + y[..|y| - 1];
      TalliesAppend(x, y[..|y| - 1]);
    }
  }

  /** The device an event or send action is about. */
  function Subject(x: Action): Option<string> {
    match x
    case SendDevice(a, _) => Some(a)
    case PublishEvent(e) => if e.DeviceEvent? then Some(Normal(e.address)) else None
    case _ => None
  }

  /** The address an action mentions. */
  function Mentions(x: Action): Option<string> {
    match x
    case PublishState(a, _, _) => Some(a)
    case PublishCommandEvent(a, _, _) => Some(a)
    case PublishAttributes(a, _, _) => Some(a)
    case PublishDiscovery(a) => Some(a)
    case _ => Subject(x)
  }

  // What one handler does, as a relation that composes.

  predicate NoRepeats(order: seq<string>) {
    forall i, j :: 0 <= i < j < |order| ==> order[i] != order[j]
  }

  /** The dictionary and its order agree; every key is normalised and of an allowed house. */
  ghost predicate Structured(s: Manager) {
    && (forall n :: n in s.order <==> n in s.devices)
    && NoRepeats(s.order)
    && (forall n :: n in s.devices ==> Normal(n) == n && AddressAllowed(s, n))
  }

  predicate SameSettings(s: Manager, t: Manager) {
    && s.configs == t.configs && s.allowed == t.allowed && s.optimistic == t.optimistic
  }

  predicate SameLinks(s: Manager, t: Manager) {
    && s.mqtt == t.mqtt && s.everMqtt == t.everMqtt && s.mochad == t.mochad && s.generation == t.generation
  }

  ghost predicate Grows(s: Manager, t: Manager) {
    && SameSettings(s, t) && s.devices.Keys <= t.devices.Keys && (Structured(s) ==> Structured(t))
  }

  /** Current states change exactly as the emitted state publications say. */
  ghost predicate Tracks(s: Manager, actions: seq<Action>, t: Manager) {
    forall a :: a in t.devices ==>
      t.devices[a].current == if LastState(actions, a).Some? then LastState(actions, a) else Get(s, a).current
  }

  function Flag(s: Manager, a: string): nat {
    if Get(s, a).discovered then 1 else 0
  }

  /** Each discovery action raises its device's flag, once. */
  ghost predicate Flags(s: Manager, actions: seq<Action>, t: Manager) {
    forall a: string :: multiset(actions)[PublishDiscovery(a)] + Flag(s, a) == Flag(t, a)
  }

  /** While MQTT is connected nothing is said about a device before its discovery. */
  ghost predicate Announces(s: Manager, actions: seq<Action>) {
    s.mqtt ==> forall i :: 0 <= i < |actions| && Subject(actions[i]).Some? ==>
      Flag(s, Subject(actions[i]).value) == 1 || PublishDiscovery(Subject(actions[i]).value) in actions[..i]
  }

  predicate Counts(s: Manager, actions: seq<Action>, t: Manager) {
    && t.stats.commandsSent == s.stats.commandsSent + |Sends(actions)|
    && t.stats.discoveryMessages == s.stats.discoveryMessages + CountDiscoveries(actions)
    && t.stats.stateChanges == s.stats.stateChanges + CountStates(actions)
    && t.stats.mqttConnections == s.stats.mqttConnections
    && t.stats.mqttDisconnects == s.stats.mqttDisconnects
    && t.stats.mqttReconnects == s.stats.mqttReconnects
  }

  /** The device keeps a state; one that nobody configured does. */
  predicate HasState(configs: map<string, DeviceConfig>, n: string) {
    n in configs ==> configs[n].stateful
  }

  lemma HasStateIsStateful(configs: map<string, DeviceConfig>, n: string)
    ensures HasState(configs, n) == ConfigIn(configs, n).stateful
  {
  }

  /** Only allowed houses are mentioned, only stateful devices get a state, and states are retained. */
  predicate LawfulAction(s: Manager, x: Action) {
    && (Mentions(x).Some? ==> AddressAllowed(s, Mentions(x).value))
    && (x.PublishState? ==> HasState(s.configs, x.address) && x.retain)
  }

  ghost predicate Lawful(s: Manager, actions: seq<Action>) {
    forall x :: x in actions ==> LawfulAction(s, x)
  }

  /** A device without state has none; a state always differs from the one before it. */
  ghost predicate Sane(s: Manager) {
    forall n :: n in s.devices ==>
      && (!HasState(s.configs, n) ==> s.devices[n].current == None)
      && (s.devices[n].current.Some? ==> s.devices[n].current != s.devices[n].previous)
  }

  /** Every device mentioned is a known device. */
  ghost predicate Covers(actions: seq<Action>, t: Manager) {
    forall x :: x in actions && Mentions(x).Some? ==> Mentions(x).value in t.devices
  }

  ghost predicate Handles(s: Manager, actions: seq<Action>, t: Manager) {
    && Grows(s, t) && SameLinks(s, t)
    && Tracks(s, actions, t)
    && Flags(s, actions, t)
    && Announces(s, actions)
    && Counts(s, actions, t)
    && Lawful(s, actions)
    && Covers(actions, t)
    && (Sane(s) ==> Sane(t))
  }

  lemma ComposeTracks(s: Manager, x: seq<Action>, t: Manager, y: seq<Action>, u: Manager)
    requires Tracks(s, x, t) && Tracks(t, y, u)
    requires s.devices.Keys <= t.devices.Keys <= u.devices.Keys
    requires forall a :: a in u.devices && a !in t.devices ==> LastState(x, a) == None
    ensures Tracks(s, x + y, u)
  {
    forall a | a in u.devices
      ensures u.devices[a].current == if LastState(x + y, a).Some? then LastState(x + y, a) else Get(s, a).current
    {
      LastStateAppend(x, y, a);
    }
  }

  lemma ComposeFlags(s: Manager, x: seq<Action>, t: Manager, y: seq<Action>, u: Manager)
    requires Flags(s, x, t) && Flags(t, y, u)
    ensures Flags(s, x + y, u)
  {
    forall a: string
      ensures multiset(x + y)[PublishDiscovery(a)] + Flag(s, a) == Flag(u, a)
    {
      assert multiset(x + y)[PublishDiscovery(a)]
          == multiset(x)[PublishDiscovery(a)] + multiset(y)[PublishDiscovery(a)];
    }
  }

  lemma ComposeAnnounces(s: Manager, x: seq<Action>, t: Manager, y: seq<Action>)
    requires Announces(s, x) && Announces(t, y) && Flags(s, x, t) && s.mqtt == t.mqtt
    ensures Announces(s, x + y)
  {
    if s.mqtt {
      forall i | 0 <= i < |x + y| && Subject((x + y)[i]).Some?
        ensures Flag(s, Subject((x + y)[i]).value) == 1 || PublishDiscovery(Subject((x + y)[i]).value) in (x + y)[..i]
      {
        var a := Subject((x + y)[i]).value;
        if i < |x| {
          assert (x + y)[..i] == x[..i];
        } else {
          assert (x + y)[..i] == x + y[..i - |x|];
          assert multiset(x)[PublishDiscovery(a)] + Flag(s, a) == Flag(t, a);
        }
      }
    }
  }

  lemma LawfulElsewhere(s: Manager, t: Manager, actions: seq<Action>)
    requires SameSettings(s, t) && Lawful(t, actions)
    ensures Lawful(s, actions)
  {
  }

  lemma Compose(s: Manager, x: seq<Action>, t: Manager, y: seq<Action>, u: Manager)
    requires Handles(s, x, t) && Handles(t, y, u)
    ensures Handles(s, x + y, u)
  {
    forall a | a !in t.devices
      ensures LastState(x, a) == None
    {
      NoStateFor(x, a);
    }
    ComposeTracks(s, x, t, y, u);
    ComposeFlags(s, x, t, y, u);
    ComposeAnnounces(s, x, t, y);
    TalliesAppend(x, y);
    LawfulElsewhere(s, t, y);
  }

  lemma {:induction false} NoStateFor(x: seq<Action>, a: string)
    requires forall z :: z in x && z.PublishState? ==> z.address != a
    ensures LastState(x, a) == None
  {
    if x != [] {
      assert x[|x| - 1] in x;
      NoStateFor(x[..|x| - 1], a);
    }
  }

  // The building blocks.

  lemma PutStructured(s: Manager, n: string, d: Device, stats: Statistics)
    requires n in s.devices && Structured(s)
    ensures Structured(Put(s, n, d).(stats := stats))
  {
  }

  lemma EnsureStructured(s: Manager, n: string)
    requires Structured(s) && Normal(n) == n && AddressAllowed(s, n)
    ensures Structured(Ensure(s, n))
  {
    if n !in s.devices {
      assert forall m :: m in Ensure(s, n).order <==> m in s.order || m == n;
    }
  }

  lemma EnsureHandles(s: Manager, n: string)
    requires Normal(n) == n && AddressAllowed(s, n)
    ensures Handles(s, [], Ensure(s, n))
  {
    if Structured(s) {
      EnsureStructured(s, n);
    }
    NewDeviceIsQuiet(s, n);
  }

  lemma NewDeviceIsQuiet(s: Manager, n: string)
    ensures Tracks(s, [], Ensure(s, n)) && Flags(s, [], Ensure(s, n))
    ensures Sane(s) ==> Sane(Ensure(s, n))
  {
  }

  /** Any change of a known device that touches neither its states nor its flag, and no counted statistic. */
  lemma QuietChange(s: Manager, n: string, d: Device, stats: Statistics)
    requires n in s.devices
    requires d.current == s.devices[n].current && d.previous == s.devices[n].previous
    requires d.discovered == s.devices[n].discovered
    requires Counts(s, [], s.(stats := stats))
    ensures Handles(s, [], Put(s, n, d).(stats := stats))
  {
    if Structured(s) {
      PutStructured(s, n, d, stats);
    }
    SameStateTracks(s, n, d, stats);
  }

  lemma SameStateTracks(s: Manager, n: string, d: Device, stats: Statistics)
    requires n in s.devices
    requires d.current == s.devices[n].current && d.previous == s.devices[n].previous
    requires d.discovered == s.devices[n].discovered
    ensures var t := Put(s, n, d).(stats := stats); Tracks(s, [], t) && Flags(s, [], t) && (Sane(s) ==> Sane(t))
  {
  }

  lemma QuietCount(s: Manager, stats: Statistics)
    requires Counts(s, [], s.(stats := stats))
    ensures Handles(s, [], s.(stats := stats))
  {
    assert Structured(s) ==> Structured(s.(stats := stats));
  }

  lemma DiscoverHandles(s: Manager, n: string)
    requires n in s.devices && AddressAllowed(s, n)
    ensures var o := Discover(s, n); Handles(s, o.actions, o.next) && (s.mqtt ==> Flag(o.next, n) == 1)
  {
    if s.mqtt && !s.devices[n].discovered {
      DiscoverGrows(s, n);
      DiscoverSpeaks(s, n);
      DiscoverCounts(s, n);
    } else {
      NothingHandles(s);
    }
  }

  lemma DiscoverCounts(s: Manager, n: string)
    requires n in s.devices && AddressAllowed(s, n) && s.mqtt && !s.devices[n].discovered
    ensures var x, t := [PublishDiscovery(n)], Discover(s, n).next;
            Announces(s, x) && Counts(s, x, t) && Lawful(s, x) && Covers(x, t)
  {
    TallyOne(PublishDiscovery(n));
  }

  lemma DiscoverGrows(s: Manager, n: string)
    requires n in s.devices
    ensures var t := Discover(s, n).next; Grows(s, t) && SameLinks(s, t)
  {
    var t := Discover(s, n).next;
    if Structured(s) && t != s {
      PutStructured(s, n, t.devices[n], t.stats);
    }
  }

  lemma DiscoverSpeaks(s: Manager, n: string)
    requires n in s.devices && s.mqtt && !s.devices[n].discovered
    ensures var t := Discover(s, n).next;
            && Tracks(s, [PublishDiscovery(n)], t) && Flags(s, [PublishDiscovery(n)], t)
            && (Sane(s) ==> Sane(t))
  {
    TallyOne(PublishDiscovery(n));
  }

  lemma TallyOne(x: Action)
    ensures Sends([x]) == if x.SendDevice? then [(x.address, x.command)] else []
    ensures CountDiscoveries([x]) == if x.PublishDiscovery? then 1 else 0
    ensures CountStates([x]) == if x.PublishState? then 1 else 0
    ensures forall a :: LastState([x], a) == if x.PublishState? && x.address == a then Some(x.state) else None
  {
    assert [x][..0] == [];
  }

  /** Saying something that is neither a state nor a discovery. */
  lemma EmitHandles(s: Manager, x: Action)
    requires !x.PublishState? && !x.PublishDiscovery? && !x.SendDevice?
    requires LawfulAction(s, x) && (Mentions(x).Some? ==> Mentions(x).value in s.devices)
    requires s.mqtt && Subject(x).Some? ==> Flag(s, Subject(x).value) == 1
    ensures Handles(s, [x], s)
  {
    TallyOne(x);
  }

  function CountSend(s: Manager): Manager {
    s.(stats := s.stats.(commandsSent := s.stats.commandsSent + 1))
  }

  lemma SendHandles(s: Manager, n: string, c: Command)
    requires n in s.devices && AddressAllowed(s, n) && (s.mqtt ==> Flag(s, n) == 1)
    ensures Handles(s, [SendDevice(n, c)], CountSend(s))
  {
    TallyOne(SendDevice(n, c));
    if Structured(s) {
      StatsKeepStructure(s, CountSend(s).stats);
    }
  }

  lemma StatsKeepStructure(s: Manager, stats: Statistics)
    requires Structured(s)
    ensures Structured(s.(stats := stats))
  {
  }

  lemma SetStateSpeaks(s: Manager, n: string, c: Command, now: int, clear: bool)
    requires n in s.devices
    ensures var o := SetState(s, n, c, now, clear); Tracks(s, o.actions, o.next) && Flags(s, o.actions, o.next)
  {
    var o := SetState(s, n, c, now, clear);
    if o.actions != [] {
      TallyOne(o.actions[0]);
    }
  }

  lemma SetStateKeeps(s: Manager, n: string, c: Command, now: int, clear: bool)
    requires n in s.devices && HasState(s.configs, n)
    ensures Sane(s) ==> Sane(SetState(s, n, c, now, clear).next)
  {
  }

  lemma SetStateCounts(s: Manager, n: string, c: Command, now: int, clear: bool)
    requires n in s.devices && AddressAllowed(s, n) && HasState(s.configs, n)
    ensures var o := SetState(s, n, c, now, clear);
            Counts(s, o.actions, o.next) && Lawful(s, o.actions) && Covers(o.actions, o.next) && Announces(s, o.actions)
  {
    var o := SetState(s, n, c, now, clear);
    if o.actions != [] {
      TallyOne(o.actions[0]);
    }
  }

  lemma SetStateGrows(s: Manager, n: string, c: Command, now: int, clear: bool)
    requires n in s.devices
    ensures var t := SetState(s, n, c, now, clear).next; Grows(s, t) && SameLinks(s, t)
  {
    var t := SetState(s, n, c, now, clear).next;
    if Structured(s) {
      PutStructured(s, n, t.devices[n], t.stats);
    }
  }

  lemma SetStateHandles(s: Manager, n: string, c: Command, now: int, clear: bool)
    requires n in s.devices && AddressAllowed(s, n) && HasState(s.configs, n)
    ensures var o := SetState(s, n, c, now, clear); Handles(s, o.actions, o.next)
  {
    SetStateSpeaks(s, n, c, now, clear);
    SetStateKeeps(s, n, c, now, clear);
    SetStateCounts(s, n, c, now, clear);
    SetStateGrows(s, n, c, now, clear);
  }

  // The handlers.

  lemma HearHandles(s: Manager, n: string, now: int)
    requires Normal(n) == n && AddressAllowed(s, n)
    ensures var o := Hear(s, n, now);
            Handles(s, o.actions, o.next) && n in o.next.devices && (s.mqtt ==> Flag(o.next, n) == 1)
  {
    var counted := CountEvent(s);
    var known := Ensure(counted, n);
    var seen := Seen(known, n, now);
    QuietCount(s, counted.stats);
    EnsureHandles(counted, n);
    Compose(s, [], counted, [], known);
    QuietChange(known, n, seen.devices[n], known.stats);
    Compose(s, [], known, [], seen);
    DiscoverHandles(seen, n);
    var o := Discover(seen, n);
    Compose(s, [], seen, o.actions, o.next);
    assert [] + o.actions == o.actions;
  }

  lemma DeviceEventHandles(s: Manager, e: Event)
    requires e.DeviceEvent?
    ensures var o := OnDeviceEvent(s, e); Handles(s, o.actions, o.next)
  {
    if AddressAllowed(s, e.address) {
      var n := Normal(e.address);
      NormalIdempotent(e.address);
      HearHandles(s, n, e.time);
      var o := Hear(s, n, e.time);
      EmitHandles(o.next, PublishEvent(e));
      Compose(s, o.actions, o.next, [PublishEvent(e)], o.next);
      HasStateIsStateful(s.configs, n);
      if ConfigOf(s, n).stateful && e.command in STATE_COMMANDS {
        SetStateHandles(o.next, n, e.command, e.time, true);
        var p := SetState(o.next, n, e.command, e.time, true);
        Compose(s, o.actions + [PublishEvent(e)], o.next, p.actions, p.next);
      }
    }
  }

  lemma SeenAndSetHandles(s: Manager, n: string, c: Command, now: int)
    requires n in s.devices && AddressAllowed(s, n) && HasState(s.configs, n)
    ensures var o := SetState(Seen(s, n, now), n, c, now, true); Handles(s, o.actions, o.next)
  {
    var seen := Seen(s, n, now);
    QuietChange(s, n, seen.devices[n], s.stats);
    SetStateHandles(seen, n, c, now, true);
    var o := SetState(seen, n, c, now, true);
    Compose(s, [], seen, o.actions, o.next);
    assert [] + o.actions == o.actions;
  }

  lemma {:induction false} HouseLoopHandles(s: Manager, members: seq<string>, e: Event)
    requires e.HouseEvent? && Structured(s)
    requires forall n :: n in members ==> n in s.devices
    ensures var o := HouseLoop(s, members, e); Handles(s, o.actions, o.next)
    decreases |members|
  {
    if members != [] {
      var n := members[0];
      var o := HouseOne(s, n, e);
      assert n in members;
      HasStateIsStateful(s.configs, n);
      if Heeds(s, n, e.command) {
        SeenAndSetHandles(s, n, HouseTarget(e.command), e.time);
      }
      HouseLoopHandles(o.next, members[1..], e);
      var p := HouseLoop(o.next, members[1..], e);
      Compose(s, o.actions, o.next, p.actions, p.next);
    }
  }

  lemma {:induction false} HouseMembersSound(order: seq<string>, prefix: string)
    ensures forall n :: n in HouseMembers(order, prefix) <==> n in order && prefix <= n
  {
    if order != [] {
      HouseMembersSound(order[1..], prefix);
      assert order == [order[0]] + order[1..];
    }
  }

  lemma HouseEventHandles(s: Manager, e: Event)
    requires e.HouseEvent? && Structured(s)
    ensures var o := OnHouseEvent(s, e); Handles(s, o.actions, o.next)
  {
    if !HouseAllowed(s, e.house) {
      NothingHandles(s);
    } else if e.command in {AllUnitsOff, AllLightsOff, AllLightsOn} {
      HouseCommandHandles(s, e, HouseMembers(s.order, Normal(e.house)));
    } else {
      QuietCount(s, CountEvent(s).stats);
    }
  }

  lemma HouseCommandHandles(s: Manager, e: Event, members: seq<string>)
    requires e.HouseEvent? && Structured(s) && members == HouseMembers(s.order, Normal(e.house))
    ensures var o := HouseLoop(CountEvent(s), members, e); Handles(s, o.actions, o.next)
  {
    var counted := CountEvent(s);
    QuietCount(s, counted.stats);
    HouseMembersSound(s.order, Normal(e.house));
    HouseLoopHandles(counted, members, e);
    var o := HouseLoop(counted, members, e);
    Compose(s, [], counted, o.actions, o.next);
    assert [] + o.actions == o.actions;
  }

  lemma SnapshotOneHandles(s: Manager, address: string, c: Command, now: int)
    ensures var o := SnapshotOne(s, address, c, now); Handles(s, o.actions, o.next)
  {
    if AddressAllowed(s, address) {
      var n := Normal(address);
      NormalIdempotent(address);
      EnsureHandles(s, n);
      HasStateIsStateful(s.configs, n);
      if ConfigOf(s, n).stateful {
        var known := Ensure(s, n);
        SeenAndSetHandles(known, n, c, now);
        var o := SetState(Seen(known, n, now), n, c, now, true);
        Compose(s, [], known, o.actions, o.next);
        assert [] + o.actions == o.actions;
      }
    }
  }

  lemma {:induction false} SnapshotLoopHandles(s: Manager, entries: seq<(string, Command)>, now: int)
    ensures var o := SnapshotLoop(s, entries, now); Handles(s, o.actions, o.next)
    decreases |entries|
  {
    if entries != [] {
      SnapshotOneHandles(s, entries[0].0, entries[0].1, now);
      var o := SnapshotOne(s, entries[0].0, entries[0].1, now);
      SnapshotLoopHandles(o.next, entries[1..], now);
      var p := SnapshotLoop(o.next, entries[1..], now);
      Compose(s, o.actions, o.next, p.actions, p.next);
    }
  }

  function Waiting(s: Manager, n: string, c: Command): Manager {
    Put(s, n, Get(s, n).(pending := Some(c)))
  }

  /** Counting the send early or late makes no difference. */
  lemma PendThenDiscover(s: Manager, n: string, c: Command)
    requires n in s.devices
    ensures var p := Discover(Waiting(s, n, c), n);
            Discover(Pend(s, n, c), n) == Outcome(CountSend(p.next), p.actions)
  {
  }

  lemma WaitingHandles(s: Manager, n: string, c: Command)
    requires n in s.devices
    ensures Handles(s, [], Waiting(s, n, c))
  {
    QuietChange(s, n, Waiting(s, n, c).devices[n], s.stats);
  }

  lemma DiscoverAndSendHandles(s: Manager, n: string, c: Command)
    requires n in s.devices && AddressAllowed(s, n)
    ensures var p := Discover(s, n); Handles(s, p.actions + [SendDevice(n, c)], CountSend(p.next))
  {
    DiscoverHandles(s, n);
    var p := Discover(s, n);
    SendHandles(p.next, n, c);
    Compose(s, p.actions, p.next, [SendDevice(n, c)], CountSend(p.next));
  }

  /** Recording the pending command and discovering the device, up to and including the send. */
  lemma SendPartHandles(s: Manager, n: string, c: Command)
    requires n in s.devices && AddressAllowed(s, n)
    ensures var o := Discover(Pend(s, n, c), n); Handles(s, o.actions + [SendDevice(n, c)], o.next)
  {
    var waiting := Waiting(s, n, c);
    WaitingHandles(s, n, c);
    DiscoverAndSendHandles(waiting, n, c);
    var p := Discover(waiting, n);
    var x := p.actions + [SendDevice(n, c)];
    Compose(s, [], waiting, x, CountSend(p.next));
    assert [] + x == x;
    PendThenDiscover(s, n, c);
  }

  lemma FollowUpHandles(s: Manager, n: string, c: Command, now: int)
    requires n in s.devices && AddressAllowed(s, n)
    ensures var o := FollowUp(s, n, c, now); Handles(s, o.actions, o.next)
  {
    HasStateIsStateful(s.configs, n);
    if ConfigOf(s, n).stateful {
      var x := PublishAttributes(n, c, s.optimistic);
      EmitHandles(s, x);
      if s.optimistic {
        SetStateHandles(s, n, c, now, false);
        var p := SetState(s, n, c, now, false);
        Compose(s, [x], s, p.actions, p.next);
      } else {
        assert [x] + [] == [x];
      }
    } else {
      EmitHandles(s, PublishCommandEvent(n, c, false));
    }
  }

  lemma ForwardHandles(s: Manager, n: string, c: Command, now: int)
    requires n in s.devices && AddressAllowed(s, n)
    ensures var o := Forward(s, n, c, now); Handles(s, o.actions, o.next)
  {
    SendPartHandles(s, n, c);
    var o := Discover(Pend(s, n, c), n);
    FollowUpHandles(o.next, n, c, now);
    var p := FollowUp(o.next, n, c, now);
    Compose(s, o.actions + [SendDevice(n, c)], o.next, p.actions, p.next);
  }

  lemma {:induction false} NoSends(x: seq<Action>)
    requires forall z :: z in x ==> !z.SendDevice?
    ensures Sends(x) == []
  {
    if x != [] {
      assert x[|x| - 1] in x;
      NoSends(x[..|x| - 1]);
    }
  }

  lemma ForwardSends(s: Manager, n: string, c: Command, now: int)
    ensures Sends(Forward(s, n, c, now).actions) == [(n, c)]
  {
    var o := Discover(Pend(s, n, c), n);
    var p := FollowUp(o.next, n, c, now);
    NoSends(o.actions);
    NoSends(p.actions);
    TallyOne(SendDevice(n, c));
    TalliesAppend(o.actions, [SendDevice(n, c)]);
    TalliesAppend(o.actions + [SendDevice(n, c)], p.actions);
  }

  lemma AcceptedHandles(s: Manager, n: string, c: Command, now: int)
    requires Normal(n) == n && AddressAllowed(s, n) && c in ConfigOf(s, n).supported
    ensures var o := Forward(Ensure(s, n), n, c, now); Handles(s, o.actions, o.next) && Sends(o.actions) == [(n, c)]
  {
    var known := Ensure(s, n);
    EnsureHandles(s, n);
    ForwardHandles(known, n, c, now);
    ForwardSends(known, n, c, now);
    var o := Forward(known, n, c, now);
    Compose(s, [], known, o.actions, o.next);
    assert [] + o.actions == o.actions;
  }

  lemma RequestedHandles(s: Manager, address: string, c: Command, now: int)
    ensures var o := Requested(s, address, c, now);
            && Handles(s, o.actions, o.next)
            && Sends(o.actions) == if Accepts(s, address, c) then [(Normal(address), c)] else []
  {
    var n := Normal(address);
    NormalIdempotent(address);
    if !AddressAllowed(s, address) {
      NothingHandles(s);
    } else if c in ConfigOf(s, n).supported {
      AcceptedHandles(s, n, c, now);
    } else {
      EnsureHandles(s, n);
    }
  }

  lemma NothingHandles(s: Manager)
    ensures Handles(s, [], s)
  {
  }

  // Connecting to MQTT.

  lemma {:induction false} RediscoverLoopState(s: Manager, names: seq<string>)
    requires NoRepeats(names) && forall n :: n in names ==> n in s.devices
    ensures var t := RediscoverLoop(s, names).next;
            && SameSettings(s, t) && SameLinks(s, t) && t.order == s.order
            && t.stats == s.stats.(discoveryMessages := s.stats.discoveryMessages + |names|)
            && t.devices.Keys == s.devices.Keys
            && forall n :: n in s.devices ==>
                 t.devices[n] == if n in names then s.devices[n].(discovered := true) else s.devices[n]
    decreases |names|
  {
    if names != [] {
      assert names == [names[0]] + names[1..];
      RediscoverLoopState(Rediscover(s, names[0]).next, names[1..]);
    }
  }

  lemma RediscoverTallies(s: Manager, n: string)
    ensures var x := Rediscover(s, n).actions;
            && Sends(x) == [] && CountDiscoveries(x) == 1
            && (forall a: string :: multiset(x)[PublishDiscovery(a)] == if a == n then 1 else 0)
            && (forall a :: LastState(x, a) == if a == n then Get(s, n).current else None)
  {
    TallyOne(PublishDiscovery(n));
    if Get(s, n).current.Some? {
      var y := PublishState(n, Get(s, n).current.value, true);
      TallyOne(y);
      TalliesAppend([PublishDiscovery(n)], [y]);
      forall a
        ensures LastState([PublishDiscovery(n)] + [y], a) == if a == n then Get(s, n).current else None
      {
        LastStateAppend([PublishDiscovery(n)], [y], a);
      }
    } else {
      assert [PublishDiscovery(n)] + [] == [PublishDiscovery(n)];
    }
  }

  lemma {:induction false} RediscoverLoopTallies(s: Manager, names: seq<string>)
    ensures var x := RediscoverLoop(s, names).actions; Sends(x) == [] && CountDiscoveries(x) == |names|
    decreases |names|
  {
    if names != [] {
      var o := Rediscover(s, names[0]);
      RediscoverTallies(s, names[0]);
      RediscoverLoopTallies(o.next, names[1..]);
      TalliesAppend(o.actions, RediscoverLoop(o.next, names[1..]).actions);
    }
  }

  /** A listed device is discovered exactly once and its current state is the last one published for it. */
  lemma {:induction false} RediscoverLoopSpeaks(s: Manager, names: seq<string>, a: string)
    requires NoRepeats(names)
    ensures var x := RediscoverLoop(s, names).actions;
            && multiset(x)[PublishDiscovery(a)] == (if a in names then 1 else 0)
            && LastState(x, a) == (if a in names then Get(s, a).current else None)
    decreases |names|
  {
    if names != [] {
      var n := names[0];
      var o := Rediscover(s, n);
      var rest := RediscoverLoop(o.next, names[1..]).actions;
      assert names == [n] + names[1..];
      assert n !in names[1..];
      RediscoverTallies(s, n);
      RediscoverLoopSpeaks(o.next, names[1..], a);
      LastStateAppend(o.actions, rest, a);
    }
  }

  /** The actions of a reconnect: only discoveries and the current states of the listed devices. */
  predicate Restates(s: Manager, x: Action) {
    match x
    case PublishDiscovery(a) => a in s.devices
    case PublishState(a, c, retain) => a in s.devices && s.devices[a].current == Some(c) && retain
    case _ => false
  }

  lemma {:induction false} RediscoverLoopRestates(s: Manager, names: seq<string>)
    requires forall n :: n in names ==> n in s.devices
    ensures forall x :: x in RediscoverLoop(s, names).actions ==> Restates(s, x)
    decreases |names|
  {
    if names != [] {
      var t := Rediscover(s, names[0]).next;
      RediscoverLoopRestates(t, names[1..]);
      assert forall x :: Restates(t, x) ==> Restates(s, x);
    }
  }
}
