/** House-wide commands, the range of states, and pending commands. */
module StateDetails {
  import opened Text
  import opened Models
  import opened StateSpec
  import opened StateRuns
  import opened StateHistory

  // House-wide commands.

  /** The publications owed: the heeding members whose state differs from the target, in dictionary order. */
  function Owed(s: Manager, members: seq<string>, c: Command): seq<Action> {
    if members == [] then []
    else (if Heeds(s, members[0], c) && Get(s, members[0]).current != Some(HouseTarget(c))
          then [PublishState(members[0], HouseTarget(c), true)] else [])
         + Owed(s, members[1..], c)
  }

  /** The record of a device that heard a house-wide command. */
  function Obeyed(d: Device, c: Command, now: int): Device {
    Reported(d.(available := true, lastSeen := Some(now)), HouseTarget(c), now, true)
  }

  function Expected(s: Manager, n: string, member: bool, c: Command, now: int): Device {
    if member && Heeds(s, n, c) then Obeyed(Get(s, n), c, now) else Get(s, n)
  }

  lemma HouseOneExact(s: Manager, n: string, e: Event)
    requires e.HouseEvent? && n in s.devices
    ensures var o := HouseOne(s, n, e);
            && o.next == s.(devices := o.next.devices, stats := o.next.stats)
            && o.next.devices.Keys == s.devices.Keys
            && (forall m :: m in s.devices ==> o.next.devices[m] == Expected(s, m, m == n, e.command, e.time))
            && o.actions == if Heeds(s, n, e.command) && s.devices[n].current != Some(HouseTarget(e.command))
                            then [PublishState(n, HouseTarget(e.command), true)] else []
  {
  }

  /** Devices outside the list do not matter to what is owed. */
  lemma {:induction false} OwedLocal(s: Manager, t: Manager, members: seq<string>, c: Command)
    requires s.configs == t.configs
    requires forall n :: n in members ==> Get(s, n) == Get(t, n)
    ensures Owed(s, members, c) == Owed(t, members, c)
  {
    if members != [] {
      assert members[0] in members;
      OwedLocal(s, t, members[1..], c);
    }
  }

  lemma {:induction false} HouseLoopExact(s: Manager, members: seq<string>, e: Event)
    requires e.HouseEvent? && NoRepeats(members) && forall n :: n in members ==> n in s.devices
    ensures var o := HouseLoop(s, members, e);
            && o.next.devices.Keys == s.devices.Keys && o.actions == Owed(s, members, e.command)
            && forall n :: n in s.devices ==> o.next.devices[n] == Expected(s, n, n in members, e.command, e.time)
    decreases |members|
  {
    if members != [] {
      var n := members[0];
      assert members == [n] + members[1..];
      assert n !in members[1..];
      HouseOneExact(s, n, e);
      var t := HouseOne(s, n, e).next;
      HouseLoopExact(t, members[1..], e);
      OwedLocal(s, t, members[1..], e.command);
    }
  }

  lemma {:induction false} HouseMembersDistinct(order: seq<string>, prefix: string)
    requires NoRepeats(order)
    ensures NoRepeats(HouseMembers(order, prefix))
  {
    if order != [] {
      HouseMembersDistinct(order[1..], prefix);
      HouseMembersSound(order[1..], prefix);
      assert order[0] !in order[1..];
    }
  }

  /** A house-wide command from an allowed house reaches exactly the known devices of that house that keep a state and
      respond to it; it leaves every other device as it was; and it publishes exactly the states that changed. */
  lemma HouseCommandIsExact(s: Manager, e: Event)
    requires e.HouseEvent? && Structured(s) && HouseAllowed(s, e.house)
    requires e.command in {AllUnitsOff, AllLightsOff, AllLightsOn}
    ensures var o := OnHouseEvent(s, e); var house := Normal(e.house);
            && o.next.devices.Keys == s.devices.Keys
            && (forall n :: n in s.devices ==> o.next.devices[n] == Expected(s, n, house <= n, e.command, e.time))
            && o.actions == Owed(s, HouseMembers(s.order, house), e.command)
  {
    var members := HouseMembers(s.order, Normal(e.house));
    HouseMembersSound(s.order, Normal(e.house));
    HouseMembersDistinct(s.order, Normal(e.house));
    HouseLoopExact(CountEvent(s), members, e);
    OwedLocal(s, CountEvent(s), members, e.command);
  }

  // The range of states.

  predicate Displayable(c: Command) { c.On? || c.Off? || c.Dim? }

  /** What the configuration loader guarantees: a stateful device supports only ON, OFF, DIM and BRIGHT. */
  ghost predicate WellConfigured(configs: map<string, DeviceConfig>) {
    forall n :: n in configs && configs[n].stateful ==> configs[n].supported <= LIGHT_COMMANDS
  }

  /** What the protocol parser guarantees: a snapshot holds only ON and OFF. */
  ghost predicate ParserBuilt(i: Input) {
    i.Observe? && i.event.Some? && i.event.value.StatusSnapshot? ==> OnOffOnly(i.event.value.devices)
  }

  ghost predicate OnOffOnly(entries: seq<(string, Command)>) {
    forall k :: 0 <= k < |entries| ==> entries[k].1.On? || entries[k].1.Off?
  }

  ghost predicate AllDisplayable(s: Manager) {
    forall n :: n in s.devices && s.devices[n].current.Some? ==> Displayable(s.devices[n].current.value)
  }

  ghost predicate Shows(x: seq<Action>) {
    forall z :: z in x && z.PublishState? ==> Displayable(z.state)
  }

  lemma {:induction false} HouseLoopShows(s: Manager, members: seq<string>, e: Event)
    requires e.HouseEvent?
    ensures Shows(HouseLoop(s, members, e).actions)
    decreases |members|
  {
    if members != [] {
      HouseLoopShows(HouseOne(s, members[0], e).next, members[1..], e);
    }
  }

  lemma {:induction false} SnapshotLoopShows(s: Manager, entries: seq<(string, Command)>, now: int)
    requires OnOffOnly(entries)
    ensures Shows(SnapshotLoop(s, entries, now).actions)
    decreases |entries|
  {
    if entries != [] {
      assert OnOffOnly(entries[1..]);
      SnapshotLoopShows(SnapshotOne(s, entries[0].0, entries[0].1, now).next, entries[1..], now);
    }
  }

  lemma FollowUpShows(s: Manager, n: string, c: Command, now: int)
    requires WellConfigured(s.configs) && c in ConfigOf(s, n).supported
    ensures Shows(FollowUp(s, n, c, now).actions)
  {
    if ConfigOf(s, n).stateful {
      assert c in LIGHT_COMMANDS;
    }
  }

  lemma DiscoverShows(s: Manager, n: string)
    ensures Shows(Discover(s, n).actions) && Discover(s, n).next.configs == s.configs
  {
  }

  lemma ForwardShows(s: Manager, n: string, c: Command, now: int)
    requires WellConfigured(s.configs) && c in ConfigOf(s, n).supported
    ensures Shows(Forward(s, n, c, now).actions)
  {
    var p := Pend(s, n, c);
    DiscoverShows(p, n);
    FollowUpShows(Discover(p, n).next, n, c, now);
  }

  lemma RequestShows(s: Manager, address: string, c: Command, now: int)
    requires WellConfigured(s.configs)
    ensures Shows(Requested(s, address, c, now).actions)
  {
    var n := Normal(address);
    if AddressAllowed(s, address) && c in ConfigOf(s, n).supported {
      ForwardShows(Ensure(s, n), n, c, now);
    }
  }

  lemma ConnectShows(s: Manager)
    requires Structured(s) && AllDisplayable(s)
    ensures Shows(OnMqttUp(s).actions)
  {
    RediscoverLoopRestates(MqttMarkedUp(s), s.order);
  }

  lemma DeviceEventShows(s: Manager, e: Event)
    requires e.DeviceEvent?
    ensures Shows(OnDeviceEvent(s, e).actions)
  {
  }

  lemma ObserveShows(s: Manager, event: Option<Event>, now: int)
    requires ParserBuilt(Observe(event, now))
    ensures Shows(Observed(s, event, now).actions)
  {
    match event
    case Some(DeviceEvent(_, _, _, _, _)) => DeviceEventShows(s, event.value);
    case Some(HouseEvent(_, _, _, _, house)) =>
      HouseLoopShows(CountEvent(s), HouseMembers(s.order, Normal(house)), event.value);
    case Some(StatusSnapshot(entries)) => SnapshotLoopShows(CountSync(s), entries, now);
    case _ =>
  }

  lemma StepShows(s: Manager, i: Input)
    requires Structured(s) && AllDisplayable(s) && WellConfigured(s.configs) && ParserBuilt(i)
    ensures Shows(Step(s, i).actions)
  {
    match i
    case Request(address, c, now) => RequestShows(s, address, c, now);
    case MqttUp => ConnectShows(s);
    case Observe(event, now) => ObserveShows(s, event, now);
    case _ =>
  }

  lemma {:induction false} LastStateShown(x: seq<Action>, a: string)
    requires Shows(x)
    ensures LastState(x, a).Some? ==> Displayable(LastState(x, a).value)
  {
    if x != [] {
      assert x[|x| - 1] in x;
      LastStateShown(x[..|x| - 1], a);
    }
  }

  lemma StepTracks(s: Manager, i: Input)
    requires Sound(s)
    ensures var o := Step(s, i); Tracks(s, o.actions, o.next)
  {
    if i.MqttUp? {
      ConnectEffect(s);
    } else {
      StepEffect(s, i);
    }
  }

  lemma StepDisplayable(s: Manager, i: Input)
    requires Sound(s) && AllDisplayable(s) && WellConfigured(s.configs) && ParserBuilt(i)
    ensures AllDisplayable(Step(s, i).next)
  {
    var o := Step(s, i);
    StepShows(s, i);
    StepTracks(s, i);
    forall n | n in o.next.devices && o.next.devices[n].current.Some?
      ensures Displayable(o.next.devices[n].current.value)
    {
      LastStateShown(o.actions, n);
    }
  }

  /** With loader-built configurations and parser-built events, every state in every run is ON, OFF or DIM. */
  lemma {:induction false} StatesStayDisplayable(
      devices: seq<DeviceConfig>, optimistic: bool, codes: Option<set<string>>, inputs: seq<Input>)
    requires WellConfigured(Create(devices, optimistic, codes).configs)
    requires forall i :: i in inputs ==> ParserBuilt(i)
    ensures AllDisplayable(HistoryOf(devices, optimistic, codes, inputs).manager)
    decreases |inputs|
  {
    if inputs == [] {
      ConfigureKeeps(Empty(optimistic, codes), devices);
    } else {
      var init, last := inputs[..|inputs| - 1], inputs[|inputs| - 1];
      assert last in inputs;
      StatesStayDisplayable(devices, optimistic, codes, init);
      RunSound(devices, optimistic, codes, init);
      StepDisplayable(HistoryOf(devices, optimistic, codes, init).manager, last);
    }
  }

  // Pending commands.

  /** A device's own echo clears its pending command exactly when that command is its own authoritative state;
      so a pending BRIGHT is never cleared by the echo of BRIGHT. */
  lemma EchoClearsPending(s: Manager, e: Event)
    requires e.DeviceEvent? && AddressAllowed(s, e.address) && e.command in STATE_COMMANDS
    requires ConfigOf(s, Normal(e.address)).stateful && Get(s, Normal(e.address)).pending == Some(e.command)
    ensures var d := OnDeviceEvent(s, e).next.devices; var n := Normal(e.address);
            && n in d
            && (d[n].pending == None <==> Authoritative(e.command) == e.command)
            && (Authoritative(e.command) == e.command <==> Displayable(e.command))
  {
  }
}
