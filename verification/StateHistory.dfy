/** Theorems about every sequence of events, commands and connection changes a StateManager can see. */
module StateHistory {
  import opened Text
  import opened Models
  import opened StateSpec
  import opened StateRuns

  // One step, whatever it is.

  predicate Tallied(s: Manager, actions: seq<Action>, t: Manager) {
    && t.stats.commandsSent == s.stats.commandsSent + |Sends(actions)|
    && t.stats.discoveryMessages == s.stats.discoveryMessages + CountDiscoveries(actions)
  }

  /** The number of connections, disconnections and reconnections fits the two connection flags. */
  predicate LinksCounted(s: Manager) {
    && s.stats.mqttConnections == s.generation
    && s.stats.mqttReconnects + (if s.everMqtt then 1 else 0) == s.stats.mqttDisconnects + (if s.mqtt then 1 else 0)
    && (s.mqtt ==> s.everMqtt)
  }

  ghost predicate Sound(s: Manager) {
    Structured(s) && Sane(s) && LinksCounted(s)
  }

  /** Everything but an MQTT connect. */
  ghost predicate Effect(s: Manager, i: Input, actions: seq<Action>, t: Manager) {
    && SameSettings(s, t) && s.devices.Keys <= t.devices.Keys && t.generation == s.generation
    && Tracks(s, actions, t)
    && Flags(s, actions, t)
    && Announces(s, actions)
    && Tallied(s, actions, t)
    && t.stats.stateChanges == s.stats.stateChanges + CountStates(actions)
    && Lawful(s, actions)
    && Covers(actions, t)
    && (forall x :: x in actions && Subject(x).Some? ==> s.mqtt == t.mqtt)
  }

  function Accepted(s: Manager, i: Input): seq<(string, Command)> {
    if i.Request? && Accepts(s, i.address, i.command) then [(Normal(i.address), i.command)] else []
  }

  lemma EventHandles(s: Manager, e: Event, now: int)
    requires Structured(s)
    ensures var o := Observed(s, Some(e), now); Handles(s, o.actions, o.next)
  {
    match e
    case DeviceEvent(_, _, _, _, _) => DeviceEventHandles(s, e);
    case HouseEvent(_, _, _, _, _) => HouseEventHandles(s, e);
    case StatusSnapshot(_) => SnapshotHandles(s, e, now);
    case UnknownEvent(_, _) => UnknownHandles(s, e, now);
  }

  lemma SnapshotHandles(s: Manager, e: Event, now: int)
    requires e.StatusSnapshot?
    ensures var o := OnSnapshot(s, e, now); Handles(s, o.actions, o.next)
  {
    var counted := CountSync(s);
    QuietCount(s, counted.stats);
    SnapshotLoopHandles(counted, e.devices, now);
    var o := SnapshotLoop(counted, e.devices, now);
    Compose(s, [], counted, o.actions, o.next);
    assert [] + o.actions == o.actions;
  }

  lemma UnknownHandles(s: Manager, e: Event, now: int)
    requires e.UnknownEvent?
    ensures var o := Observed(s, Some(e), now); Handles(s, o.actions, o.next)
  {
    var counted := s.(stats := s.stats.(unknownPackets := s.stats.unknownPackets + 1));
    QuietCount(s, counted.stats);
    EmitHandles(counted, LogUnknown(e.raw));
    Compose(s, [], counted, [LogUnknown(e.raw)], counted);
    assert [] + [LogUnknown(e.raw)] == [LogUnknown(e.raw)];
  }

  lemma HandledStep(s: Manager, i: Input)
    requires Structured(s) && (i.Observe? || i.Request?)
    ensures var o := Step(s, i); Handles(s, o.actions, o.next) && Sends(o.actions) == Accepted(s, i)
  {
    match i
    case Request(address, c, now) => RequestedHandles(s, address, c, now);
    case Observe(event, now) =>
      if event.Some? {
        EventHandles(s, event.value, now);
        ObservationsSendNothing(s, event.value, now);
      } else {
        QuietCount(s, s.stats);
      }
  }

  lemma {:induction false} HouseLoopQuiet(s: Manager, members: seq<string>, e: Event)
    requires e.HouseEvent?
    ensures forall x :: x in HouseLoop(s, members, e).actions ==> x.PublishState?
    decreases |members|
  {
    if members != [] {
      HouseLoopQuiet(HouseOne(s, members[0], e).next, members[1..], e);
    }
  }

  lemma {:induction false} SnapshotLoopQuiet(s: Manager, entries: seq<(string, Command)>, now: int)
    ensures forall x :: x in SnapshotLoop(s, entries, now).actions ==> x.PublishState?
    decreases |entries|
  {
    if entries != [] {
      SnapshotLoopQuiet(SnapshotOne(s, entries[0].0, entries[0].1, now).next, entries[1..], now);
    }
  }

  lemma ObservationsSendNothing(s: Manager, e: Event, now: int)
    ensures Sends(Observed(s, Some(e), now).actions) == []
  {
    match e {
      case DeviceEvent(_, _, _, _, _) =>
      case HouseEvent(_, _, _, _, _) => HouseLoopQuiet(CountEvent(s), HouseMembers(s.order, Normal(e.house)), e);
      case StatusSnapshot(entries) => SnapshotLoopQuiet(CountSync(s), entries, now);
      case UnknownEvent(_, _) =>
    }
    NoSends(Observed(s, Some(e), now).actions);
  }

  lemma {:induction false} NoneCounted(x: seq<Action>)
    requires forall z :: z in x ==> !z.PublishState? && !z.PublishDiscovery?
    ensures CountDiscoveries(x) == 0 && CountStates(x) == 0
  {
    if x != [] {
      assert x[|x| - 1] in x;
      NoneCounted(x[..|x| - 1]);
    }
  }

  /** The same devices with the same states, whatever else changed. */
  ghost predicate SameStates(s: Manager, t: Manager) {
    && SameSettings(s, t) && t.order == s.order && t.devices.Keys == s.devices.Keys
    && forall n :: n in s.devices ==>
         t.devices[n].current == s.devices[n].current && t.devices[n].previous == s.devices[n].previous
  }

  lemma SameStatesKeep(s: Manager, t: Manager)
    requires SameStates(s, t) && Structured(s) && Sane(s)
    ensures Structured(t) && Sane(t)
  {
    assert Structured(t);
    assert Sane(t);
  }

  predicate StatusOnly(x: seq<Action>) {
    forall z :: z in x ==> z.PublishAvailability? || z.PublishStatus? || z.RequestStatus?
  }

  lemma StatusOnlySays(s: Manager, x: seq<Action>)
    requires StatusOnly(x)
    ensures Announces(s, x) && Lawful(s, x) && Sends(x) == [] && CountDiscoveries(x) == 0 && CountStates(x) == 0
    ensures forall a :: LastState(x, a) == None
    ensures forall z :: z in x ==> Subject(z) == None
  {
    assert forall i :: 0 <= i < |x| ==> x[i] in x;
    NoSends(x);
    NoneCounted(x);
    forall a
      ensures LastState(x, a) == None
    {
      NoStateFor(x, a);
    }
  }

  /** Saying only status things changes nothing about devices. */
  lemma StatusOnlyEffect(s: Manager, t: Manager, i: Input, x: seq<Action>)
    requires SameStates(s, t) && t.generation == s.generation
    requires forall n :: n in s.devices ==> t.devices[n].discovered == s.devices[n].discovered
    requires StatusOnly(x)
    requires t.stats.commandsSent == s.stats.commandsSent
    requires t.stats.discoveryMessages == s.stats.discoveryMessages && t.stats.stateChanges == s.stats.stateChanges
    ensures Effect(s, i, x, t) && Sends(x) == []
  {
    StatusOnlySays(s, x);
    assert forall a: string :: PublishDiscovery(a) !in x;
    assert Flags(s, x, t);
  }

  lemma LinkStepEffect(s: Manager, i: Input)
    requires Sound(s) && (i.MqttDown? || i.MochadUp? || i.MochadDown?)
    ensures var o := Step(s, i); Effect(s, i, o.actions, o.next) && Sound(o.next) && Sends(o.actions) == []
  {
    var o := Step(s, i);
    assert SameStates(s, o.next);
    StatusOnlyEffect(s, o.next, i, o.actions);
    SameStatesKeep(s, o.next);
  }

  lemma StepEffect(s: Manager, i: Input)
    requires Sound(s) && !i.MqttUp?
    ensures var o := Step(s, i); Effect(s, i, o.actions, o.next) && Sound(o.next) && Sends(o.actions) == Accepted(s, i)
  {
    if i.Observe? || i.Request? {
      HandledStep(s, i);
    } else {
      LinkStepEffect(s, i);
    }
  }

  /** An MQTT connect: a new generation in which every known device is discovered once and its state restated. */
  lemma ConnectEffect(s: Manager)
    requires Sound(s)
    ensures var o := Step(s, MqttUp);
            && SameSettings(s, o.next) && o.next.devices.Keys == s.devices.Keys
            && o.next.generation == s.generation + 1 && o.next.mqtt
            && (forall a: string :: multiset(o.actions)[PublishDiscovery(a)] == Flag(o.next, a))
            && (forall a :: LastState(o.actions, a) == Get(s, a).current == Get(o.next, a).current)
  {
    ConnectState(s);
    forall a: string
      ensures multiset(Step(s, MqttUp).actions)[PublishDiscovery(a)] == Flag(Step(s, MqttUp).next, a)
      ensures LastState(Step(s, MqttUp).actions, a) == Get(s, a).current
    {
      ConnectSpeaks(s, a);
    }
  }

  lemma ConnectState(s: Manager)
    requires Sound(s)
    ensures var t := Step(s, MqttUp).next;
            && SameSettings(s, t) && t.devices.Keys == s.devices.Keys && t.order == s.order
            && t.generation == s.generation + 1 && t.mqtt && t.mochad == s.mochad
            && (forall n :: n in s.devices ==> t.devices[n] == s.devices[n].(discovered := true))
            && t.stats.discoveryMessages == s.stats.discoveryMessages + |s.order|
            && t.stats.commandsSent == s.stats.commandsSent && t.stats.stateChanges == s.stats.stateChanges
            && LinksCounted(t)
  {
    RediscoverLoopState(MqttMarkedUp(s), s.order);
  }

  lemma ConnectSound(s: Manager)
    requires Sound(s)
    ensures Sound(Step(s, MqttUp).next)
  {
    ConnectState(s);
    SameStatesKeep(s, Step(s, MqttUp).next);
  }

  lemma StatusSpeaks(s: Manager, y: seq<Action>, a: string)
    ensures multiset(StatusActions(s) + y)[PublishDiscovery(a)] == multiset(y)[PublishDiscovery(a)]
    ensures LastState(StatusActions(s) + y, a) == LastState(y, a)
  {
    NoStateFor(StatusActions(s), a);
    LastStateAppend(StatusActions(s), y, a);
  }

  lemma ConnectSpeaks(s: Manager, a: string)
    requires Structured(s)
    ensures var x := Step(s, MqttUp).actions;
            && multiset(x)[PublishDiscovery(a)] == (if a in s.devices then 1 else 0)
            && LastState(x, a) == Get(s, a).current
  {
    var up := MqttMarkedUp(s);
    RediscoverLoopSpeaks(up, s.order, a);
    StatusSpeaks(up, RediscoverLoop(up, s.order).actions, a);
  }

  lemma StatusCounts(s: Manager, y: seq<Action>)
    ensures Sends(StatusActions(s) + y) == Sends(y)
    ensures CountDiscoveries(StatusActions(s) + y) == CountDiscoveries(y)
  {
    NoSends(StatusActions(s));
    NoneCounted(StatusActions(s));
    TalliesAppend(StatusActions(s), y);
  }

  lemma ConnectTallies(s: Manager)
    ensures var x := Step(s, MqttUp).actions; Sends(x) == [] && CountDiscoveries(x) == |s.order|
  {
    var up := MqttMarkedUp(s);
    RediscoverLoopTallies(up, s.order);
    StatusCounts(up, RediscoverLoop(up, s.order).actions);
  }

  lemma ConnectLawful(s: Manager)
    requires Sound(s)
    ensures var o := Step(s, MqttUp);
            Lawful(s, o.actions) && Covers(o.actions, o.next) && (forall z :: z in o.actions ==> Subject(z) == None)
  {
    ConnectState(s);
    forall z | z in OnMqttUp(s).actions
      ensures LawfulAction(s, z) && Subject(z) == None && (Mentions(z).Some? ==> Mentions(z).value in s.devices)
    {
      ConnectSays(s, z);
      RestatingIsLawful(s, z);
    }
  }

  lemma ConnectSays(s: Manager, z: Action)
    requires Structured(s) && z in OnMqttUp(s).actions
    ensures z in StatusActions(MqttMarkedUp(s)) || Restates(MqttMarkedUp(s), z)
  {
    RediscoverLoopRestates(MqttMarkedUp(s), s.order);
  }

  lemma RestatingIsLawful(s: Manager, z: Action)
    requires Sound(s) && (z in StatusActions(MqttMarkedUp(s)) || Restates(MqttMarkedUp(s), z))
    ensures LawfulAction(s, z) && Subject(z) == None && (Mentions(z).Some? ==> Mentions(z).value in s.devices)
  {
  }

  // Whole runs.

  /** When something was said: in which MQTT generation, while connected or not, by the connect handler or not. */
  datatype Tag = Tag(generation: nat, connected: bool, onConnect: bool)

  datatype Entry = Entry(tag: Tag, action: Action)

  datatype History = History(manager: Manager, log: seq<Entry>)

  function Stamp(tag: Tag, actions: seq<Action>): (r: seq<Entry>)
    ensures |r| == |actions| && forall i :: 0 <= i < |r| ==> r[i] == Entry(tag, actions[i])
  {
    seq(|actions|, i requires 0 <= i < |actions| => Entry(tag, actions[i]))
  }

  function Advance(h: History, i: Input): History {
    var o := Step(h.manager, i);
    History(o.next, h.log + Stamp(Tag(o.next.generation, o.next.mqtt, i.MqttUp?), o.actions))
  }

  function Run(h: History, inputs: seq<Input>): History
    decreases |inputs|
  {
    if inputs == [] then h else Advance(Run(h, inputs[..|inputs| - 1]), inputs[|inputs| - 1])
  }

  function Begin(devices: seq<DeviceConfig>, optimistic: bool, codes: Option<set<string>>): History {
    History(Create(devices, optimistic, codes), [])
  }

  /** The actions of the entries whose tags are selected. */
  function Said(log: seq<Entry>, which: Tag -> bool): seq<Action> {
    if log == [] then []
    else
      var e := log[|log| - 1];
      Said(log[..|log| - 1], which) + (if which(e.tag) then [e.action] else [])
  }

  function InGeneration(g: nat): Tag -> bool { (t: Tag) => t.generation == g }

  function Ever(): Tag -> bool { (t: Tag) => true }

  function OffConnect(): Tag -> bool { (t: Tag) => !t.onConnect }

  lemma {:induction false} SaidAppend(log: seq<Entry>, tag: Tag, x: seq<Action>, which: Tag -> bool)
    ensures Said(log + Stamp(tag, x), which) == Said(log, which) + (if which(tag) then x else [])
  {
    var all := log + Stamp(tag, x);
    if x == [] {
      assert all == log;
    } else {
      var k := |x| - 1;
      assert all[..|all| - 1] == log + Stamp(tag, x[..k]);
      SaidAppend(log, tag, x[..k], which);
      assert x == x[..k] + [x[k]];
    }
  }

  function Discoveries(log: seq<Entry>, g: nat, a: string): nat {
    multiset(Said(log, InGeneration(g)))[PublishDiscovery(a)]
  }

  ghost predicate DiscoveredOnce(h: History) {
    forall g: nat, a: string ::
      && Discoveries(h.log, g, a) <= 1
      && (g == h.manager.generation ==> Discoveries(h.log, g, a) == Flag(h.manager, a))
      && (g > h.manager.generation ==> Discoveries(h.log, g, a) == 0)
  }

  /** The device this entry is about was discovered earlier in the same generation. */
  ghost predicate Introduced(log: seq<Entry>, i: int)
    requires 0 <= i < |log| && Subject(log[i].action).Some?
  {
    exists j :: 0 <= j < i && log[j].tag.generation == log[i].tag.generation
                && log[j].action == PublishDiscovery(Subject(log[i].action).value)
  }

  ghost predicate AllIntroduced(log: seq<Entry>) {
    forall i :: 0 <= i < |log| && log[i].tag.connected && Subject(log[i].action).Some? ==> Introduced(log, i)
  }

  predicate StatisticsMatch(h: History) {
    && |Sends(Said(h.log, Ever()))| == h.manager.stats.commandsSent
    && CountDiscoveries(Said(h.log, Ever())) == h.manager.stats.discoveryMessages
    && CountStates(Said(h.log, OffConnect())) == h.manager.stats.stateChanges
  }

  ghost predicate AllLawful(h: History) {
    forall i :: 0 <= i < |h.log| ==> LawfulAction(h.manager, h.log[i].action)
  }

  lemma DiscoveredOnceKept(h: History, i: Input)
    requires Sound(h.manager) && DiscoveredOnce(h)
    ensures DiscoveredOnce(Advance(h, i))
  {
    var s, o := h.manager, Step(h.manager, i);
    var tag := Tag(o.next.generation, o.next.mqtt, i.MqttUp?);
    var k := Advance(h, i);
    if i.MqttUp? {
      ConnectEffect(s);
    } else {
      StepEffect(s, i);
    }
    forall g: nat, a: string
      ensures Discoveries(k.log, g, a)
           == Discoveries(h.log, g, a) + if g == o.next.generation then multiset(o.actions)[PublishDiscovery(a)] else 0
    {
      SaidAppend(h.log, tag, o.actions, InGeneration(g));
    }
  }

  lemma StepTallies(s: Manager, i: Input)
    requires Sound(s)
    ensures var o := Step(s, i);
            && Tallied(s, o.actions, o.next) && Sends(o.actions) == Accepted(s, i)
            && o.next.stats.stateChanges == s.stats.stateChanges + CountStates(if i.MqttUp? then [] else o.actions)
  {
    if i.MqttUp? {
      ConnectState(s);
      ConnectTallies(s);
    } else {
      StepEffect(s, i);
    }
  }

  lemma SaidTallies(log: seq<Entry>, tag: Tag, x: seq<Action>)
    ensures var all := log + Stamp(tag, x);
            && Sends(Said(all, Ever())) == Sends(Said(log, Ever())) + Sends(x)
            && CountDiscoveries(Said(all, Ever())) == CountDiscoveries(Said(log, Ever())) + CountDiscoveries(x)
            && CountStates(Said(all, OffConnect()))
               == CountStates(Said(log, OffConnect())) + CountStates(if tag.onConnect then [] else x)
  {
    SaidAppend(log, tag, x, Ever());
    SaidAppend(log, tag, x, OffConnect());
    TalliesAppend(Said(log, Ever()), x);
    TalliesAppend(Said(log, OffConnect()), if tag.onConnect then [] else x);
  }

  lemma StatisticsAppend(h: History, tag: Tag, x: seq<Action>, t: Manager)
    requires StatisticsMatch(h) && Tallied(h.manager, x, t)
    requires t.stats.stateChanges == h.manager.stats.stateChanges + CountStates(if tag.onConnect then [] else x)
    ensures StatisticsMatch(History(t, h.log + Stamp(tag, x)))
  {
    SaidTallies(h.log, tag, x);
  }

  lemma StatisticsKept(h: History, i: Input)
    requires Sound(h.manager) && StatisticsMatch(h)
    ensures StatisticsMatch(Advance(h, i))
  {
    var o := Step(h.manager, i);
    StepTallies(h.manager, i);
    StatisticsAppend(h, Tag(o.next.generation, o.next.mqtt, i.MqttUp?), o.actions, o.next);
  }

  lemma SendsGrow(h: History, i: Input)
    requires Sound(h.manager)
    ensures Sends(Said(Advance(h, i).log, Ever())) == Sends(Said(h.log, Ever())) + Accepted(h.manager, i)
  {
    var o := Step(h.manager, i);
    StepTallies(h.manager, i);
    SaidTallies(h.log, Tag(o.next.generation, o.next.mqtt, i.MqttUp?), o.actions);
  }

  lemma StepSettings(s: Manager, i: Input)
    requires Sound(s)
    ensures var o := Step(s, i);
            && Sound(o.next) && SameSettings(s, o.next) && s.devices.Keys <= o.next.devices.Keys
            && Lawful(s, o.actions) && Covers(o.actions, o.next)
  {
    if i.MqttUp? {
      ConnectState(s);
      ConnectSound(s);
      ConnectLawful(s);
    } else {
      StepEffect(s, i);
    }
  }

  lemma LawfulKept(h: History, i: Input)
    requires Sound(h.manager) && AllLawful(h)
    ensures AllLawful(Advance(h, i))
  {
    var o := Step(h.manager, i);
    StepSettings(h.manager, i);
    forall k | 0 <= k < |Advance(h, i).log|
      ensures LawfulAction(o.next, Advance(h, i).log[k].action)
    {
      if k >= |h.log| {
        assert o.actions[k - |h.log|] in o.actions;
      }
    }
  }

  lemma {:induction false} SaidSource(log: seq<Entry>, which: Tag -> bool, x: Action)
    requires x in Said(log, which)
    ensures exists j :: 0 <= j < |log| && which(log[j].tag) && log[j].action == x
  {
    var e := log[|log| - 1];
    if !(which(e.tag) && e.action == x) {
      SaidSource(log[..|log| - 1], which, x);
      var j :| 0 <= j < |log| - 1 && which(log[..|log| - 1][j].tag) && log[..|log| - 1][j].action == x;
      assert which(log[j].tag) && log[j].action == x;
    }
  }

  /** What one step says about a device while connected comes after that device's discovery. */
  lemma StepAnnounces(s: Manager, i: Input, k: nat)
    requires Sound(s)
    requires var o := Step(s, i); k < |o.actions| && Subject(o.actions[k]).Some? && o.next.mqtt
    ensures var o := Step(s, i);
            && o.next.generation == s.generation
            && (Flag(s, Subject(o.actions[k]).value) == 1 || PublishDiscovery(Subject(o.actions[k]).value) in o.actions[..k])
  {
    var o := Step(s, i);
    assert o.actions[k] in o.actions;
    if i.MqttUp? {
      ConnectLawful(s);
    } else {
      StepEffect(s, i);
    }
  }

  lemma IntroducedEarlier(log: seq<Entry>, more: seq<Entry>, k: int)
    requires 0 <= k < |log| && Subject(log[k].action).Some? && Introduced(log, k)
    ensures Introduced(log + more, k)
  {
    var j :| 0 <= j < k && log[j].tag.generation == log[k].tag.generation
             && log[j].action == PublishDiscovery(Subject(log[k].action).value);
    assert (log + more)[j] == log[j];
  }

  lemma IntroducedNow(log: seq<Entry>, tag: Tag, x: seq<Action>, k: int)
    requires 0 <= k < |x| && Subject(x[k]).Some?
    requires var a := Subject(x[k]).value; Discoveries(log, tag.generation, a) == 1 || PublishDiscovery(a) in x[..k]
    ensures Introduced(log + Stamp(tag, x), |log| + k)
  {
    var all, a := log + Stamp(tag, x), Subject(x[k]).value;
    if PublishDiscovery(a) in x[..k] {
      var j :| 0 <= j < k && x[..k][j] == PublishDiscovery(a);
      assert all[|log| + j] == Entry(tag, PublishDiscovery(a));
    } else {
      SaidSource(log, InGeneration(tag.generation), PublishDiscovery(a));
      var j :| 0 <= j < |log| && InGeneration(tag.generation)(log[j].tag) && log[j].action == PublishDiscovery(a);
      assert all[j] == log[j];
    }
  }

  lemma IntroducedKept(h: History, i: Input)
    requires Sound(h.manager) && DiscoveredOnce(h) && AllIntroduced(h.log)
    ensures AllIntroduced(Advance(h, i).log)
  {
    var o := Step(h.manager, i);
    var tag := Tag(o.next.generation, o.next.mqtt, i.MqttUp?);
    var log := h.log + Stamp(tag, o.actions);
    forall k | 0 <= k < |log| && log[k].tag.connected && Subject(log[k].action).Some?
      ensures Introduced(log, k)
    {
      if k < |h.log| {
        IntroducedEarlier(h.log, Stamp(tag, o.actions), k);
      } else {
        StepAnnounces(h.manager, i, k - |h.log|);
        IntroducedNow(h.log, tag, o.actions, k - |h.log|);
      }
    }
  }

  /** The state of affairs in every reachable history. */
  ghost predicate Reached(h: History) {
    Sound(h.manager) && DiscoveredOnce(h) && AllIntroduced(h.log) && StatisticsMatch(h) && AllLawful(h)
  }

  lemma AdvanceKeeps(h: History, i: Input)
    requires Reached(h)
    ensures Reached(Advance(h, i)) && SameSettings(h.manager, Advance(h, i).manager)
  {
    StepSettings(h.manager, i);
    DiscoveredOnceKept(h, i);
    IntroducedKept(h, i);
    StatisticsKept(h, i);
    LawfulKept(h, i);
  }

  function AllAccepted(s: Manager, inputs: seq<Input>): seq<(string, Command)> {
    if inputs == [] then []
    else AllAccepted(s, inputs[..|inputs| - 1]) + Accepted(s, inputs[|inputs| - 1])
  }

  lemma {:induction false} RunKeeps(h: History, inputs: seq<Input>)
    requires Reached(h)
    ensures Reached(Run(h, inputs)) && SameSettings(h.manager, Run(h, inputs).manager)
    decreases |inputs|
  {
    if inputs != [] {
      RunKeeps(h, inputs[..|inputs| - 1]);
      AdvanceKeeps(Run(h, inputs[..|inputs| - 1]), inputs[|inputs| - 1]);
    }
  }

  /** The manager before anything has happened: known devices, nothing known about them. */
  ghost predicate Blank(s: Manager) {
    && Structured(s) && (forall n :: n in s.devices ==> s.devices[n] == FRESH)
    && s.generation == 0 && !s.mqtt && !s.everMqtt && s.stats == Statistics(0, 0, 0, 0, 0, 0, 0, 0, 0, 0, 0)
  }

  lemma ConfigureOne(s: Manager, d: DeviceConfig)
    requires Blank(s) && AddressAllowed(s, d.address)
    ensures var n := Normal(d.address); Blank(Ensure(s.(configs := s.configs[n := d]), n))
  {
    var n := Normal(d.address);
    NormalIdempotent(d.address);
    EnsureStructured(s, n);
    assert Ensure(s.(configs := s.configs[n := d]), n) == Ensure(s, n).(configs := s.configs[n := d]);
  }

  lemma {:induction false} ConfigureKeeps(s: Manager, devices: seq<DeviceConfig>)
    requires Blank(s)
    ensures Blank(Configure(s, devices))
    decreases |devices|
  {
    if devices != [] {
      if AddressAllowed(s, devices[0].address) {
        var n := Normal(devices[0].address);
        ConfigureOne(s, devices[0]);
        ConfigureKeeps(Ensure(s.(configs := s.configs[n := devices[0]]), n), devices[1..]);
      } else {
        ConfigureKeeps(s, devices[1..]);
      }
    }
  }

  lemma BeginReached(devices: seq<DeviceConfig>, optimistic: bool, codes: Option<set<string>>)
    ensures Reached(Begin(devices, optimistic, codes))
  {
    ConfigureKeeps(Empty(optimistic, codes), devices);
  }

  // The theorems. Each speaks of every configuration and every sequence of inputs.

  function HistoryOf(devices: seq<DeviceConfig>, optimistic: bool, codes: Option<set<string>>, inputs: seq<Input>): History {
    Run(Begin(devices, optimistic, codes), inputs)
  }

  lemma RunReached(devices: seq<DeviceConfig>, optimistic: bool, codes: Option<set<string>>, inputs: seq<Input>)
    ensures Reached(HistoryOf(devices, optimistic, codes, inputs))
    ensures SameSettings(Create(devices, optimistic, codes), HistoryOf(devices, optimistic, codes, inputs).manager)
  {
    BeginReached(devices, optimistic, codes);
    RunKeeps(Begin(devices, optimistic, codes), inputs);
  }

  lemma RunSound(devices: seq<DeviceConfig>, optimistic: bool, codes: Option<set<string>>, inputs: seq<Input>)
    ensures var h := HistoryOf(devices, optimistic, codes, inputs);
            Sound(h.manager) && SameSettings(Create(devices, optimistic, codes), h.manager)
  {
    RunReached(devices, optimistic, codes, inputs);
  }

  lemma AcceptanceIsFixed(s: Manager, t: Manager, i: Input)
    requires SameSettings(s, t)
    ensures Accepted(s, i) == Accepted(t, i)
  {
  }

  /** The commands sent in a run are exactly the accepted ones, in order and without dropping repetitions. */
  lemma {:induction false} SendsAreTheAcceptedCommands(
      devices: seq<DeviceConfig>, optimistic: bool, codes: Option<set<string>>, inputs: seq<Input>)
    ensures Sends(Said(HistoryOf(devices, optimistic, codes, inputs).log, Ever()))
         == AllAccepted(Create(devices, optimistic, codes), inputs)
    decreases |inputs|
  {
    if inputs != [] {
      var init, last := inputs[..|inputs| - 1], inputs[|inputs| - 1];
      var h := HistoryOf(devices, optimistic, codes, init);
      SendsAreTheAcceptedCommands(devices, optimistic, codes, init);
      RunSound(devices, optimistic, codes, init);
      SendsGrow(h, last);
      AcceptanceIsFixed(Create(devices, optimistic, codes), h.manager, last);
    }
  }

  /** In each MQTT generation a device is discovered at most once, and everything said about it while connected
      comes after its one discovery in that generation. */
  lemma DiscoveryComesFirstAndOnce(
      devices: seq<DeviceConfig>, optimistic: bool, codes: Option<set<string>>, inputs: seq<Input>)
    ensures var log := HistoryOf(devices, optimistic, codes, inputs).log;
            && (forall g: nat, a: string :: Discoveries(log, g, a) <= 1)
            && (forall i :: 0 <= i < |log| && log[i].tag.connected && Subject(log[i].action).Some? ==> Introduced(log, i))
  {
    RunReached(devices, optimistic, codes, inputs);
  }

  /** The statistics are exact. */
  lemma StatisticsAreExact(
      devices: seq<DeviceConfig>, optimistic: bool, codes: Option<set<string>>, inputs: seq<Input>)
    ensures var h := HistoryOf(devices, optimistic, codes, inputs); StatisticsMatch(h) && LinksCounted(h.manager)
  {
    RunReached(devices, optimistic, codes, inputs);
  }

  /** No device is known and nothing is ever said outside the allowed houses; only stateful devices ever get a state
      published, and a device without state never acquires one. */
  lemma HouseFilterAndStatefulness(
      devices: seq<DeviceConfig>, optimistic: bool, codes: Option<set<string>>, inputs: seq<Input>)
    ensures var h := HistoryOf(devices, optimistic, codes, inputs); var s0 := Create(devices, optimistic, codes);
            && (forall n :: n in h.manager.devices ==> AddressAllowed(s0, n))
            && (forall i :: 0 <= i < |h.log| ==> LawfulAction(s0, h.log[i].action))
            && Sane(h.manager)
  {
    RunReached(devices, optimistic, codes, inputs);
  }
}
