/** What StateManager keeps about the past: its counters, and when and from what a device last changed. */
module StateCounts {
  import opened Text
  import opened Models
  import opened StateSpec
  import opened StateRuns
  import opened StateHistory
  import opened StateMeaning

  // The counters of what came in.

  /** A device event with an address, or a house event, of a house that is heard. */
  ghost predicate IsHeard(codes: Option<set<string>>, i: Input) {
    && i.Observe? && i.event.Some?
    && match i.event.value
       case DeviceEvent(_, _, _, _, a) => Normal(a) != "" && (Restrictive(codes) ==> Lists(codes, Normal(a)[..1]))
       case HouseEvent(_, _, _, _, h) => Restrictive(codes) ==> Lists(codes, Normal(h))
       case _ => false
  }

  predicate IsSnapshot(i: Input) { i.Observe? && i.event.Some? && i.event.value.StatusSnapshot? }

  predicate IsUnknown(i: Input) { i.Observe? && i.event.Some? && i.event.value.UnknownEvent? }

  /** How many of the inputs have the property. */
  ghost function Tally(inputs: seq<Input>, p: Input -> bool): nat
    decreases |inputs|
  {
    if inputs == [] then 0 else Tally(inputs[..|inputs| - 1], p) + if p(inputs[|inputs| - 1]) then 1 else 0
  }

  /** Only counters of what went out may differ. */
  predicate SameIntake(s: Manager, t: Manager) {
    && t.stats.eventsReceived == s.stats.eventsReceived && t.stats.statusSyncs == s.stats.statusSyncs
    && t.stats.unknownPackets == s.stats.unknownPackets && t.stats.mochadReconnects == s.stats.mochadReconnects
  }

  lemma SetStateIntake(s: Manager, n: string, c: Command, now: int, clear: bool)
    ensures SameIntake(s, SetState(s, n, c, now, clear).next)
  {
  }

  lemma HouseOneIntake(s: Manager, n: string, e: Event)
    requires e.HouseEvent?
    ensures SameIntake(s, HouseOne(s, n, e).next)
  {
    SetStateIntake(Seen(s, n, e.time), n, HouseTarget(e.command), e.time, true);
  }

  lemma {:induction false} HouseLoopIntake(s: Manager, members: seq<string>, e: Event)
    requires e.HouseEvent?
    ensures SameIntake(s, HouseLoop(s, members, e).next)
    decreases |members|
  {
    if members != [] {
      HouseOneIntake(s, members[0], e);
      HouseLoopIntake(HouseOne(s, members[0], e).next, members[1..], e);
    }
  }

  lemma SnapshotOneIntake(s: Manager, address: string, c: Command, now: int)
    ensures SameIntake(s, SnapshotOne(s, address, c, now).next)
  {
    var n := Normal(address);
    SetStateIntake(Seen(Ensure(s, n), n, now), n, c, now, true);
  }

  lemma {:induction false} SnapshotLoopIntake(s: Manager, entries: seq<(string, Command)>, now: int)
    ensures SameIntake(s, SnapshotLoop(s, entries, now).next)
    decreases |entries|
  {
    if entries != [] {
      SnapshotOneIntake(s, entries[0].0, entries[0].1, now);
      SnapshotLoopIntake(SnapshotOne(s, entries[0].0, entries[0].1, now).next, entries[1..], now);
    }
  }

  lemma RequestIntake(s: Manager, address: string, c: Command, now: int)
    ensures SameIntake(s, Requested(s, address, c, now).next)
  {
    var n := Normal(address);
    if Accepts(s, address, c) {
      FollowUpIntake(Discover(Pend(Ensure(s, n), n, c), n).next, n, c, now);
    }
  }

  lemma FollowUpIntake(s: Manager, n: string, c: Command, now: int)
    ensures SameIntake(s, FollowUp(s, n, c, now).next)
  {
    SetStateIntake(s, n, c, now, false);
  }

  /** What one input adds. */
  ghost predicate TakesIn(s: Manager, codes: Option<set<string>>, i: Input, t: Manager) {
    && t.stats.eventsReceived == s.stats.eventsReceived + (if IsHeard(codes, i) then 1 else 0)
    && t.stats.statusSyncs == s.stats.statusSyncs + (if IsSnapshot(i) then 1 else 0)
    && t.stats.unknownPackets == s.stats.unknownPackets + (if IsUnknown(i) then 1 else 0)
    && t.stats.mochadReconnects == s.stats.mochadReconnects + (if i.MochadUp? then 1 else 0)
  }

  lemma EventTakesIn(s: Manager, codes: Option<set<string>>, e: Event, now: int)
    requires s.allowed == HouseFilter(codes)
    ensures TakesIn(s, codes, Observe(Some(e), now), Observed(s, Some(e), now).next)
  {
    match e
    case DeviceEvent(_, _, _, _, a) => DeviceTakesIn(s, codes, e, now);
    case HouseEvent(_, _, _, _, h) =>
      FilterMeans(codes, h);
      HouseLoopIntake(CountEvent(s), HouseMembers(s.order, Normal(h)), e);
    case StatusSnapshot(_) => SnapshotLoopIntake(CountSync(s), e.devices, now);
    case UnknownEvent(_, _) =>
  }

  lemma HearIntake(s: Manager, n: string, now: int)
    ensures var t := Hear(s, n, now).next;
            SameIntake(CountEvent(s), t) && t.stats.duplicates == s.stats.duplicates
  {
  }

  lemma DeviceTakesIn(s: Manager, codes: Option<set<string>>, e: Event, now: int)
    requires s.allowed == HouseFilter(codes) && e.DeviceEvent?
    ensures TakesIn(s, codes, Observe(Some(e), now), OnDeviceEvent(s, e).next)
  {
    PermittedMeans(codes, e.address);
    var n := Normal(e.address);
    HearIntake(s, n, e.time);
    SetStateIntake(Hear(s, n, e.time).next, n, e.command, e.time, true);
  }

  lemma StepTakesIn(s: Manager, codes: Option<set<string>>, i: Input)
    requires Structured(s) && s.allowed == HouseFilter(codes)
    ensures TakesIn(s, codes, i, Step(s, i).next)
  {
    match i
    case Observe(event, now) =>
      if event.Some? {
        EventTakesIn(s, codes, event.value, now);
      }
    case Request(address, command, now) => RequestIntake(s, address, command, now);
    case MqttUp => RediscoverLoopState(MqttMarkedUp(s), s.order);
    case _ =>
  }

  lemma {:induction false} ConfigureCountsNothing(s: Manager, devices: seq<DeviceConfig>)
    ensures Configure(s, devices).stats == s.stats
    decreases |devices|
  {
    if devices != [] {
      if AddressAllowed(s, devices[0].address) {
        var n := Normal(devices[0].address);
        ConfigureCountsNothing(Ensure(s.(configs := s.configs[n := devices[0]]), n), devices[1..]);
      } else {
        ConfigureCountsNothing(s, devices[1..]);
      }
    }
  }

  /** In every run the counters are the numbers of events heard, snapshots, unknown lines, and connections to mochad. */
  lemma {:induction false} IntakeIsCounted(
      devices: seq<DeviceConfig>, optimistic: bool, codes: Option<set<string>>, inputs: seq<Input>)
    ensures var stats := HistoryOf(devices, optimistic, codes, inputs).manager.stats;
            && stats.eventsReceived == Tally(inputs, (i) => IsHeard(codes, i))
            && stats.statusSyncs == Tally(inputs, IsSnapshot) && stats.unknownPackets == Tally(inputs, IsUnknown)
            && stats.mochadReconnects == Tally(inputs, (i: Input) => i.MochadUp?)
    decreases |inputs|
  {
    if inputs == [] {
      ConfigureCountsNothing(Empty(optimistic, codes), devices);
    } else {
      var init, last := inputs[..|inputs| - 1], inputs[|inputs| - 1];
      var s := HistoryOf(devices, optimistic, codes, init).manager;
      IntakeIsCounted(devices, optimistic, codes, init);
      RunFilter(devices, optimistic, codes, init);
      StepTakesIn(s, codes, last);
    }
  }

  // What is recorded of a change.

  lemma SetStateRecords(s: Manager, n: string, c: Command, now: int, clear: bool)
    ensures var t := SetState(s, n, c, now, clear).next; var d, e := Get(s, n), Get(t, n);
            && (e.current != d.current ==> e.previous == d.current && e.lastChanged == Some(now)
                                           && t.stats.duplicates == s.stats.duplicates)
            && (e.current == d.current ==> e.previous == d.previous && e.lastChanged == d.lastChanged
                                           && t.stats.duplicates == s.stats.duplicates + 1)
  {
  }

  /** A heard report that changes the state records the time and the state before; any other leaves both records alone, and
      one that only repeats the state is counted as a duplicate. */
  lemma ChangesAreRecorded(s: Manager, e: Event, now: int)
    requires e.DeviceEvent? && AddressAllowed(s, e.address)
    ensures var t := Step(s, Observe(Some(e), now)).next; var n := Normal(e.address); var d, r := Get(s, n), Get(t, n);
            var states := && (n in s.configs ==> s.configs[n].stateful)
                          && e.command in {On, Off, Dim, Bright, StatusOn, StatusOff};
            && (r.current != d.current ==> r.previous == d.current && r.lastChanged == Some(e.time))
            && (r.current == d.current ==> r.previous == d.previous && r.lastChanged == d.lastChanged)
            && t.stats.duplicates == s.stats.duplicates + if states && r.current == d.current then 1 else 0
  {
    var n := Normal(e.address);
    HeardKeepsRecords(s, n, e.time);
    EventIsHeard(s, e);
    if ConfigOf(s, n).stateful && e.command in STATE_COMMANDS {
      SetStateRecords(Hear(s, n, e.time).next, n, e.command, e.time, true);
    }
  }

  lemma HeardKeepsRecords(s: Manager, n: string, now: int)
    ensures var t := Hear(s, n, now).next; var d, h := Get(s, n), Get(t, n);
            && h.current == d.current && h.previous == d.previous && h.lastChanged == d.lastChanged
            && t.stats.duplicates == s.stats.duplicates
  {
    HearEffect(s, n, now);
    HearIntake(s, n, now);
  }

  lemma EventIsHeard(s: Manager, e: Event)
    requires e.DeviceEvent? && AddressAllowed(s, e.address)
    ensures var n := Normal(e.address); var h := Hear(s, n, e.time).next;
            OnDeviceEvent(s, e).next == if ConfigOf(s, n).stateful && e.command in STATE_COMMANDS
                                        then SetState(h, n, e.command, e.time, true).next else h
  {
  }

  /** Losing mochad makes every device unavailable and changes nothing else about any. */
  lemma LossMakesUnavailable(s: Manager)
    ensures var t := Step(s, MochadDown).next;
            && t.devices.Keys == s.devices.Keys
            && forall n :: n in s.devices ==>
                 && !t.devices[n].available && t.devices[n].current == s.devices[n].current
                 && t.devices[n].pending == s.devices[n].pending && t.devices[n].discovered == s.devices[n].discovered
                 && t.devices[n].previous == s.devices[n].previous && t.devices[n].lastSeen == s.devices[n].lastSeen
                 && t.devices[n].lastChanged == s.devices[n].lastChanged
  {
  }

  /** A line that the parser does not understand is logged as it was, and it is all that is ever logged. */
  lemma UnknownLinesAreLogged(s: Manager, event: Option<Event>, now: int, raw: string)
    requires Structured(s)
    ensures LogUnknown(raw) in Step(s, Observe(event, now)).actions
       <==> event.Some? && event.value.UnknownEvent? && event.value.raw == raw
  {
    match event
    case None =>
    case Some(e) =>
      match e {
        case DeviceEvent(_, _, _, _, _) =>
        case HouseEvent(_, _, _, _, _) => HouseLogsNothing(CountEvent(s), HouseMembers(s.order, Normal(e.house)), e);
        case StatusSnapshot(entries) => SnapshotLogsNothing(CountSync(s), entries, now);
        case UnknownEvent(_, _) =>
      }
  }

  lemma {:induction false} HouseLogsNothing(s: Manager, members: seq<string>, e: Event)
    requires e.HouseEvent?
    ensures forall x :: x in HouseLoop(s, members, e).actions ==> x.PublishState?
    decreases |members|
  {
    if members != [] {
      HouseLogsNothing(HouseOne(s, members[0], e).next, members[1..], e);
    }
  }

  lemma {:induction false} SnapshotLogsNothing(s: Manager, entries: seq<(string, Command)>, now: int)
    ensures forall x :: x in SnapshotLoop(s, entries, now).actions ==> x.PublishState?
    decreases |entries|
  {
    if entries != [] {
      SnapshotLogsNothing(SnapshotOne(s, entries[0].0, entries[0].1, now).next, entries[1..], now);
    }
  }
}
