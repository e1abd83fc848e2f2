/** What the inputs of StateManager mean, in the words of the configuration: which houses are heard, and which state a
    report, a request, a house-wide command or a status snapshot leaves behind. */
module StateMeaning {
  import opened Text
  import opened Models
  import opened StateSpec
  import opened StateRuns
  import opened StateHistory
  import opened StateDetails

  // The configured house codes.

  /** Some code is not blank, so the codes restrict anything at all. */
  ghost predicate Restrictive(codes: Option<set<string>>) {
    codes.Some? && exists c :: c in codes.value && Strip(c) != ""
  }

  /** The house is one of the codes that are not blank. */
  ghost predicate Lists(codes: Option<set<string>>, house: string) {
    codes.Some? && exists c :: c in codes.value && Strip(c) != "" && Normal(c) == house
  }

  lemma FilterMeans(codes: Option<set<string>>, house: string)
    ensures HousePermitted(HouseFilter(codes), house) <==> (Restrictive(codes) ==> Lists(codes, Normal(house)))
  {
    if codes.Some? {
      var kept := set c | c in codes.value && Strip(c) != "" :: Normal(c);
      if Restrictive(codes) {
        var c :| c in codes.value && Strip(c) != "";
        assert Normal(c) in kept;
      }
    }
  }

  lemma FirstLetterIsNormal(n: string)
    requires n != "" && Normal(n) == n
    ensures Normal(n[..1]) == n[..1]
  {
    StripIsTrimmed(SPACES, n);
    assert |Strip(n)| == |n|;
    StripKeepsFirst(n);
    TrimmedIsFixed(SPACES, n[..1]);
    assert UpperChar(n[0]) == n[0];
  }

  lemma StripKeepsFirst(n: string)
    requires n != "" && |Strip(n)| == |n|
    ensures n[0] !in SPACES && Strip(n) == n
  {
    LeftStripShortens(n);
    RightStripEnds(SPACES, LeftStrip(SPACES, n));
    assert RightStrip(SPACES, LeftStrip(SPACES, n)) <= LeftStrip(SPACES, n);
  }

  lemma {:induction false} LeftStripShortens(s: string)
    ensures |LeftStrip(SPACES, s)| <= |s| && (|LeftStrip(SPACES, s)| == |s| ==> s == "" || s[0] !in SPACES)
    ensures |LeftStrip(SPACES, s)| == |s| ==> LeftStrip(SPACES, s) == s
  {
    if s != "" && s[0] in SPACES {
      LeftStripShortens(s[1..]);
    }
  }

  lemma PermittedMeans(codes: Option<set<string>>, address: string)
    ensures var n := Normal(address);
            Permitted(HouseFilter(codes), address) <==> n != "" && (Restrictive(codes) ==> Lists(codes, n[..1]))
  {
    var n := Normal(address);
    if n != "" {
      NormalIdempotent(address);
      FirstLetterIsNormal(n);
      FilterMeans(codes, n[..1]);
    }
  }

  lemma {:induction false} ConfigureKeepsFilter(s: Manager, devices: seq<DeviceConfig>)
    ensures Configure(s, devices).allowed == s.allowed
    decreases |devices|
  {
    if devices != [] {
      if AddressAllowed(s, devices[0].address) {
        var n := Normal(devices[0].address);
        ConfigureKeepsFilter(Ensure(s.(configs := s.configs[n := devices[0]]), n), devices[1..]);
      } else {
        ConfigureKeepsFilter(s, devices[1..]);
      }
    }
  }

  /** Every manager that a run reaches filters by the configured codes. */
  lemma RunFilter(devices: seq<DeviceConfig>, optimistic: bool, codes: Option<set<string>>, inputs: seq<Input>)
    ensures var s := HistoryOf(devices, optimistic, codes, inputs).manager; Sound(s) && s.allowed == HouseFilter(codes)
  {
    RunSound(devices, optimistic, codes, inputs);
    ConfigureKeepsFilter(Empty(optimistic, codes), devices);
  }

  /** The action is about the device. */
  predicate About(x: Action, a: string) {
    || (x.PublishState? && x.address == a) || (x.PublishCommandEvent? && x.address == a)
    || (x.PublishAttributes? && x.address == a) || (x.PublishDiscovery? && x.address == a)
    || (x.SendDevice? && x.address == a)
    || (x.PublishEvent? && x.event.DeviceEvent? && Normal(x.event.address) == a)
  }

  /** Everything said in a run is about devices that are known at its end. */
  lemma {:induction false} SaidOfKnownDevices(
      devices: seq<DeviceConfig>, optimistic: bool, codes: Option<set<string>>, inputs: seq<Input>)
    ensures var h := HistoryOf(devices, optimistic, codes, inputs);
            forall i, a :: 0 <= i < |h.log| && About(h.log[i].action, a) ==> a in h.manager.devices
    decreases |inputs|
  {
    if inputs != [] {
      var init, last := inputs[..|inputs| - 1], inputs[|inputs| - 1];
      var g, h := HistoryOf(devices, optimistic, codes, init), HistoryOf(devices, optimistic, codes, inputs);
      SaidOfKnownDevices(devices, optimistic, codes, init);
      RunSound(devices, optimistic, codes, init);
      StepSettings(g.manager, last);
      var o := Step(g.manager, last);
      forall i, a | 0 <= i < |h.log| && About(h.log[i].action, a)
        ensures a in h.manager.devices
      {
        if i >= |g.log| {
          assert h.log[i].action == o.actions[i - |g.log|];
          assert o.actions[i - |g.log|] in o.actions && Mentions(h.log[i].action) == Some(a);
        }
      }
    }
  }

  /** The house filter, over every run: unless all codes are blank or none are given, every known device, and every device
      that anything is ever said about, is of a house that is one of the codes. */
  lemma HouseFilterHolds(devices: seq<DeviceConfig>, optimistic: bool, codes: Option<set<string>>, inputs: seq<Input>)
    ensures var h := HistoryOf(devices, optimistic, codes, inputs);
            Restrictive(codes) ==>
              && (forall n :: n in h.manager.devices ==> n != "" && Lists(codes, n[..1]))
              && (forall i :: 0 <= i < |h.log| ==> forall a :: About(h.log[i].action, a) ==> a != "" && Lists(codes, a[..1]))
  {
    var h := HistoryOf(devices, optimistic, codes, inputs);
    RunFilter(devices, optimistic, codes, inputs);
    SaidOfKnownDevices(devices, optimistic, codes, inputs);
    if Restrictive(codes) {
      forall n | n in h.manager.devices
        ensures n != "" && Lists(codes, n[..1])
      {
        PermittedMeans(codes, n);
      }
      forall i | 0 <= i < |h.log|
        ensures forall a :: About(h.log[i].action, a) ==> a != "" && Lists(codes, a[..1])
      {
        assert forall a :: About(h.log[i].action, a) ==> a in h.manager.devices;
      }
    }
  }

  // Which devices are configured.

  /** Entry k is the last one for its address that the filter lets through. */
  ghost predicate Configures(devices: seq<DeviceConfig>, codes: Option<set<string>>, k: nat, n: string) {
    && k < |devices| && Normal(devices[k].address) == n && n != "" && (Restrictive(codes) ==> Lists(codes, n[..1]))
    && forall j :: k < j < |devices| ==> Normal(devices[j].address) != n
  }

  lemma {:induction false} ConfigureOthers(s: Manager, devices: seq<DeviceConfig>, n: string)
    requires forall j :: 0 <= j < |devices| ==> Normal(devices[j].address) != n
    ensures var t := Configure(s, devices);
            (n in t.configs <==> n in s.configs) && (n in s.configs ==> t.configs[n] == s.configs[n])
            && (n in t.devices <==> n in s.devices)
    decreases |devices|
  {
    if devices != [] {
      if AddressAllowed(s, devices[0].address) {
        var m := Normal(devices[0].address);
        ConfigureOthers(Ensure(s.(configs := s.configs[m := devices[0]]), m), devices[1..], n);
      } else {
        ConfigureOthers(s, devices[1..], n);
      }
    }
  }

  lemma {:induction false} ConfigureLast(s: Manager, devices: seq<DeviceConfig>, codes: Option<set<string>>, k: nat, n: string)
    requires s.allowed == HouseFilter(codes) && Configures(devices, codes, k, n)
    ensures var t := Configure(s, devices); n in t.configs && t.configs[n] == devices[k] && n in t.devices
    decreases |devices|
  {
    var m := Normal(devices[0].address);
    var t := if AddressAllowed(s, devices[0].address) then Ensure(s.(configs := s.configs[m := devices[0]]), m) else s;
    if k == 0 {
      PermittedMeans(codes, devices[0].address);
      ConfigureOthers(t, devices[1..], n);
    } else {
      assert Configures(devices[1..], codes, k - 1, n);
      ConfigureLast(t, devices[1..], codes, k - 1, n);
    }
  }

  lemma {:induction false} ConfigureRefused(s: Manager, devices: seq<DeviceConfig>, codes: Option<set<string>>, n: string)
    requires s.allowed == HouseFilter(codes) && !(n != "" && (Restrictive(codes) ==> Lists(codes, n[..1])))
    ensures var t := Configure(s, devices); (n in t.configs <==> n in s.configs) && (n in t.devices <==> n in s.devices)
    decreases |devices|
  {
    if devices != [] {
      PermittedMeans(codes, devices[0].address);
      if AddressAllowed(s, devices[0].address) {
        var m := Normal(devices[0].address);
        ConfigureRefused(Ensure(s.(configs := s.configs[m := devices[0]]), m), devices[1..], codes, n);
      } else {
        ConfigureRefused(s, devices[1..], codes, n);
      }
    }
  }

  lemma {:induction false} LastOfAddress(devices: seq<DeviceConfig>, n: string) returns (k: nat)
    requires exists j :: 0 <= j < |devices| && Normal(devices[j].address) == n
    ensures k < |devices| && Normal(devices[k].address) == n
    ensures forall j :: k < j < |devices| ==> Normal(devices[j].address) != n
    decreases |devices|
  {
    k := |devices| - 1;
    if Normal(devices[k].address) != n {
      var i :| 0 <= i < |devices| && Normal(devices[i].address) == n;
      assert Normal(devices[..k][i].address) == n;
      k := LastOfAddress(devices[..k], n);
    }
  }

  /** A new manager has a configuration for an address, and knows its device, if and only if some entry of a heard house is
      for that address; and then the configuration is the last such entry. */
  lemma ConfiguredExactly(devices: seq<DeviceConfig>, optimistic: bool, codes: Option<set<string>>, n: string)
    ensures var s := Create(devices, optimistic, codes);
            && (n in s.devices <==> n in s.configs)
            && (n in s.configs <==> exists k: nat :: Configures(devices, codes, k, n))
            && (forall k: nat :: Configures(devices, codes, k, n) ==> s.configs[n] == devices[k])
  {
    var s := Empty(optimistic, codes);
    forall k: nat | Configures(devices, codes, k, n)
      ensures var t := Configure(s, devices); n in t.configs && t.configs[n] == devices[k] && n in t.devices
    {
      ConfigureLast(s, devices, codes, k, n);
    }
    if !(n != "" && (Restrictive(codes) ==> Lists(codes, n[..1]))) {
      ConfigureRefused(s, devices, codes, n);
    } else if exists j :: 0 <= j < |devices| && Normal(devices[j].address) == n {
      var k := LastOfAddress(devices, n);
      assert Configures(devices, codes, k, n);
    } else {
      ConfigureOthers(s, devices, n);
    }
  }

  // A report from a device.

  lemma HearEffect(s: Manager, n: string, now: int)
    ensures var o := Hear(s, n, now); var d := Get(s, n);
            && o.actions == (if s.mqtt && !d.discovered then [PublishDiscovery(n)] else [])
            && o.next.devices
               == s.devices[n := d.(available := true, lastSeen := Some(now), discovered := d.discovered || s.mqtt)]
  {
  }

  lemma SetStateEffect(s: Manager, n: string, c: Command, now: int, clear: bool)
    ensures var o := SetState(s, n, c, now, clear); var d := Get(s, n); var e := Get(o.next, n);
            && o.next.devices == s.devices[n := e]
            && e.current == Some(Authoritative(c)) && e.available == d.available && e.lastSeen == Some(now)
            && o.actions == if d.current == e.current then [] else [PublishState(n, Authoritative(c), true)]
  {
  }

  /** The state a report is about, if the device keeps one. */
  function NewState(s: Manager, n: string, c: Command): Option<Command> {
    if ConfigOf(s, n).stateful && c in STATE_COMMANDS then Some(Authoritative(c)) else Get(s, n).current
  }

  lemma DeviceEventEffect(s: Manager, e: Event)
    requires e.DeviceEvent? && AddressAllowed(s, e.address)
    ensures var o := OnDeviceEvent(s, e); var n := Normal(e.address); var d := Get(o.next, n);
            && o.next.devices == s.devices[n := d]
            && d.current == NewState(s, n, e.command) && d.available && d.lastSeen == Some(e.time)
            && o.actions == (if s.mqtt && !Get(s, n).discovered then [PublishDiscovery(n)] else []) + [PublishEvent(e)]
                            + if d.current == Get(s, n).current then [] else [PublishState(n, d.current.value, true)]
  {
    var n := Normal(e.address);
    var h := Hear(s, n, e.time);
    HearEffect(s, n, e.time);
    if ConfigOf(s, n).stateful && e.command in STATE_COMMANDS {
      SetStateEffect(h.next, n, e.command, e.time, true);
    } else {
      assert h.actions + [PublishEvent(e)] + [] == h.actions + [PublishEvent(e)];
    }
  }

  /** A device event is heard if and only if its address is not blank and its house is one of the codes, if the codes
      restrict anything. If it is heard, its device is known, available and seen from then on and the event is published;
      if not, nothing happens at all. No other device changes. */
  lemma DeviceEventsAreHeardExactly(s: Manager, codes: Option<set<string>>, e: Event, now: int)
    requires e.DeviceEvent? && s.allowed == HouseFilter(codes)
    ensures var o := Step(s, Observe(Some(e), now)); var n := Normal(e.address);
            var heard := n != "" && (Restrictive(codes) ==> Lists(codes, n[..1]));
            && (PublishEvent(e) in o.actions <==> heard)
            && (heard ==> n in o.next.devices && o.next.devices[n].available && o.next.devices[n].lastSeen == Some(e.time))
            && (!heard ==> o == Outcome(s, []))
            && (forall m :: m in s.devices && m != n ==> m in o.next.devices && o.next.devices[m] == s.devices[m])
  {
    PermittedMeans(codes, e.address);
    if AddressAllowed(s, e.address) {
      DeviceEventEffect(s, e);
    }
  }

  /** What a report makes of the state. */
  lemma NewStateMeans(s: Manager, n: string, c: Command)
    ensures var before, after := Get(s, n).current, NewState(s, n, c);
            && (n in s.configs && !s.configs[n].stateful ==> after == before)
            && ((n in s.configs ==> s.configs[n].stateful) ==>
                  && (c == On || c == Bright || c == StatusOn ==> after == Some(On))
                  && (c == Off || c == StatusOff ==> after == Some(Off)) && (c == Dim ==> after == Some(Dim))
                  && (c !in {On, Off, Dim, Bright, StatusOn, StatusOff} ==> after == before))
  {
  }

  lemma PublishedAfter(first: seq<Action>, e: Event, n: string, before: Option<Command>, after: Option<Command>)
    requires (forall x :: x in first ==> x.PublishDiscovery?) && (after != before ==> after.Some?)
    ensures var x := first + [PublishEvent(e)] + if after == before then [] else [PublishState(n, after.value, true)];
            forall c, r :: PublishState(n, c, r) in x <==> r && after == Some(c) && before != Some(c)
  {
  }

  /** The state that a heard report leaves behind: ON after ON, BRIGHT and STATUS ON, OFF after OFF and STATUS OFF, DIM
      after DIM, if the device keeps a state; in every other case the state it had. It is published, retained, if and only
      if it is not the state the device had. */
  lemma ReportsLeaveTheirState(s: Manager, e: Event, now: int)
    requires e.DeviceEvent? && AddressAllowed(s, e.address)
    ensures var o := Step(s, Observe(Some(e), now)); var n := Normal(e.address);
            var before, after := Get(s, n).current, Get(o.next, n).current;
            && (n in s.configs && !s.configs[n].stateful ==> after == before)
            && ((n in s.configs ==> s.configs[n].stateful) ==>
                  && (e.command == On || e.command == Bright || e.command == StatusOn ==> after == Some(On))
                  && (e.command == Off || e.command == StatusOff ==> after == Some(Off))
                  && (e.command == Dim ==> after == Some(Dim))
                  && (e.command !in {On, Off, Dim, Bright, StatusOn, StatusOff} ==> after == before))
            && (forall c, r :: PublishState(n, c, r) in o.actions <==> r && after == Some(c) && before != Some(c))
  {
    var n := Normal(e.address);
    DeviceEventEffect(s, e);
    NewStateMeans(s, n, e.command);
    PublishedAfter(if s.mqtt && !Get(s, n).discovered then [PublishDiscovery(n)] else [], e, n, Get(s, n).current,
                   NewState(s, n, e.command));
  }

  lemma SetStateConfirms(s: Manager, n: string, c: Command, now: int)
    ensures var d, e := Get(s, n), Get(SetState(s, n, c, now, true).next, n);
            e.pending == if d.pending == e.current then None else d.pending
  {
  }

  /** A heard report that leaves a state behind confirms the pending command, and so clears it, if and only if that command
      is the state; every other report leaves it pending. */
  lemma ReportsConfirmExactly(s: Manager, e: Event, now: int)
    requires e.DeviceEvent? && AddressAllowed(s, e.address)
    ensures var n := Normal(e.address); var d, t := Get(s, n), Get(Step(s, Observe(Some(e), now)).next, n);
            t.pending == if (n in s.configs ==> s.configs[n].stateful) && d.pending == t.current
                            && e.command in {On, Off, Dim, Bright, StatusOn, StatusOff} then None else d.pending
  {
    var n := Normal(e.address);
    HearEffect(s, n, e.time);
    if ConfigOf(s, n).stateful && e.command in STATE_COMMANDS {
      SetStateConfirms(Hear(s, n, e.time).next, n, e.command, e.time);
    }
  }

  // House-wide commands.

  lemma {:induction false} OwedExactly(s: Manager, members: seq<string>, c: Command, n: string, x: Command, r: bool)
    ensures PublishState(n, x, r) in Owed(s, members, c) <==>
      r && n in members && Heeds(s, n, c) && x == HouseTarget(c) && Get(s, n).current != Some(x)
    decreases |members|
  {
    if members != [] {
      assert members == [members[0]] + members[1..];
      OwedExactly(s, members[1..], c, n, x, r);
    }
  }

  /** What a known device does on a heard house-wide command. */
  lemma HouseMemberEffect(s: Manager, e: Event, n: string)
    requires e.HouseEvent? && Structured(s) && n in s.devices && HouseAllowed(s, e.house)
    requires e.command in {AllUnitsOff, AllLightsOff, AllLightsOn}
    ensures var o := OnHouseEvent(s, e); var obeys := Normal(e.house) <= n && Heeds(s, n, e.command);
            && o.next.devices.Keys == s.devices.Keys
            && o.next.devices[n] == (if obeys then Obeyed(s.devices[n], e.command, e.time) else s.devices[n])
            && (forall c, r :: PublishState(n, c, r) in o.actions <==>
                  r && obeys && c == HouseTarget(e.command) && s.devices[n].current != Some(c))
  {
    HouseCommandIsExact(s, e);
    HouseMembersSound(s.order, Normal(e.house));
    forall c, r
      ensures PublishState(n, c, r) in OnHouseEvent(s, e).actions <==>
        r && Normal(e.house) <= n && Heeds(s, n, e.command) && c == HouseTarget(e.command) && s.devices[n].current != Some(c)
    {
      OwedExactly(s, HouseMembers(s.order, Normal(e.house)), e.command, n, c, r);
    }
  }

  lemma ObeyedMeans(d: Device, c: Command, now: int)
    ensures var e := Obeyed(d, c, now);
            e.current == Some(HouseTarget(c)) && e.available && e.lastSeen == Some(now)
  {
  }

  lemma UnheardHouseEvents(s: Manager, e: Event)
    requires e.HouseEvent?
    requires !HouseAllowed(s, e.house) || e.command !in {AllUnitsOff, AllLightsOff, AllLightsOn}
    ensures OnHouseEvent(s, e).next.devices == s.devices && OnHouseEvent(s, e).actions == []
  {
  }

  /** The configuration says that the command switches the device on. */
  predicate SwitchesOn(configs: map<string, DeviceConfig>, n: string, c: Command) {
    c == AllLightsOn && n in configs && configs[n].stateful && configs[n].allLightsOn
  }

  /** The configuration says that the command switches the device off; ALL UNITS OFF does so if there is none. */
  predicate SwitchesOff(configs: map<string, DeviceConfig>, n: string, c: Command) {
    || (c == AllLightsOff && n in configs && configs[n].stateful && configs[n].allLightsOff)
    || (c == AllUnitsOff && (n in configs ==> configs[n].stateful && configs[n].allUnitsOff))
  }

  lemma HeedsMeans(s: Manager, n: string, c: Command)
    ensures Heeds(s, n, c) <==> SwitchesOn(s.configs, n, c) || SwitchesOff(s.configs, n, c)
    ensures SwitchesOn(s.configs, n, c) ==> HouseTarget(c) == On && c in {AllUnitsOff, AllLightsOff, AllLightsOn}
    ensures SwitchesOff(s.configs, n, c) ==> HouseTarget(c) == Off && c in {AllUnitsOff, AllLightsOff, AllLightsOn}
  {
  }

  /** What any house event does to a known device. ALL LIGHTS ON switches on, and ALL LIGHTS OFF and ALL UNITS OFF switch
      off, exactly the devices of a heard house that keep a state and whose configuration says that they respond; of the
      devices that nobody configured, only ALL UNITS OFF reaches any. Every other device stays exactly as it was. The new
      state is published, retained, if and only if it is not the state the device had. */
  lemma HouseCommandsSwitchExactly(s: Manager, codes: Option<set<string>>, e: Event, now: int, n: string)
    requires e.HouseEvent? && Structured(s) && s.allowed == HouseFilter(codes) && n in s.devices
    ensures var o := Step(s, Observe(Some(e), now));
            var reached := Normal(e.house) <= n && (Restrictive(codes) ==> Lists(codes, Normal(e.house)));
            var on, off := reached && SwitchesOn(s.configs, n, e.command), reached && SwitchesOff(s.configs, n, e.command);
            && o.next.devices.Keys == s.devices.Keys
            && (on ==> o.next.devices[n].current == Some(On)) && (off ==> o.next.devices[n].current == Some(Off))
            && (on || off ==> o.next.devices[n].available && o.next.devices[n].lastSeen == Some(e.time))
            && (!on && !off ==> o.next.devices[n] == s.devices[n])
            && (forall c, r :: PublishState(n, c, r) in o.actions <==>
                  r && o.next.devices[n].current == Some(c) && s.devices[n].current != Some(c))
  {
    FilterMeans(codes, e.house);
    HeedsMeans(s, n, e.command);
    if HouseAllowed(s, e.house) && e.command in {AllUnitsOff, AllLightsOff, AllLightsOn} {
      HouseMemberEffect(s, e, n);
      ObeyedMeans(s.devices[n], e.command, e.time);
    } else {
      UnheardHouseEvents(s, e);
    }
  }

  // Status snapshots.

  /** What the last entry for the device says. */
  function LastEntry(entries: seq<(string, Command)>, n: string): Option<Command> {
    if entries == [] then None
    else if LastEntry(entries[1..], n).Some? then LastEntry(entries[1..], n)
    else if Normal(entries[0].0) == n then Some(entries[0].1) else None
  }

  lemma {:induction false} LastEntryIs(entries: seq<(string, Command)>, n: string, k: nat)
    requires k < |entries| && Normal(entries[k].0) == n
    requires forall j :: k < j < |entries| ==> Normal(entries[j].0) != n
    ensures LastEntry(entries, n) == Some(entries[k].1)
    decreases |entries|
  {
    if k == 0 {
      NoEntry(entries[1..], n);
    } else {
      LastEntryIs(entries[1..], n, k - 1);
    }
  }

  lemma {:induction false} NoEntry(entries: seq<(string, Command)>, n: string)
    requires forall j :: 0 <= j < |entries| ==> Normal(entries[j].0) != n
    ensures LastEntry(entries, n) == None
  {
    if entries != [] {
      NoEntry(entries[1..], n);
    }
  }

  /** The snapshot reaches the device. */
  predicate Synced(s: Manager, entries: seq<(string, Command)>, n: string) {
    LastEntry(entries, n).Some? && AddressAllowed(s, n)
  }

  lemma SyncEffect(s: Manager, n: string, c: Command, now: int)
    ensures var t := SetState(Seen(Ensure(s, n), n, now), n, c, now, true).next;
            && SameSettings(s, t) && t.devices == s.devices[n := Get(t, n)]
            && Get(t, n).current == Some(Authoritative(c)) && Get(t, n).available
  {
    SetStateEffect(Seen(Ensure(s, n), n, now), n, c, now, true);
  }

  lemma EnsureEffect(s: Manager, n: string)
    ensures var t := Ensure(s, n); SameSettings(s, t) && t.devices == s.devices[n := Get(t, n)] && Get(t, n) == Get(s, n)
  {
  }

  lemma SnapshotOneEffect(s: Manager, address: string, c: Command, now: int)
    ensures var t := SnapshotOne(s, address, c, now).next; var n := Normal(address);
            && SameSettings(s, t)
            && (!AddressAllowed(s, n) ==> t == s)
            && (AddressAllowed(s, n) ==>
                  && t.devices == s.devices[n := Get(t, n)]
                  && (ConfigOf(s, n).stateful ==> Get(t, n).current == Some(Authoritative(c)) && Get(t, n).available)
                  && (!ConfigOf(s, n).stateful ==> Get(t, n) == Get(s, n)))
  {
    var n := Normal(address);
    NormalIdempotent(address);
    if AddressAllowed(s, address) {
      SyncEffect(s, n, c, now);
      EnsureEffect(s, n);
    }
  }

  lemma {:induction false} SnapshotLoopEffect(s: Manager, entries: seq<(string, Command)>, now: int, n: string)
    ensures var t := SnapshotLoop(s, entries, now).next; var synced := Synced(s, entries, n);
            && SameSettings(s, t)
            && (n in t.devices <==> n in s.devices || synced)
            && (synced && ConfigOf(s, n).stateful ==>
                  Get(t, n).current == Some(Authoritative(LastEntry(entries, n).value)) && Get(t, n).available)
            && (!synced || !ConfigOf(s, n).stateful ==> Get(t, n) == Get(s, n))
    decreases |entries|
  {
    if entries != [] {
      SnapshotOneEffect(s, entries[0].0, entries[0].1, now);
      SnapshotLoopEffect(SnapshotOne(s, entries[0].0, entries[0].1, now).next, entries[1..], now, n);
    }
  }

  /** After a snapshot every device that keeps a state, and that a heard entry is about, is in the state that its last
      entry says, ON or OFF, and available. */
  lemma SnapshotsLeaveTheirStates(s: Manager, codes: Option<set<string>>, e: Event, now: int, k: nat)
    requires e.StatusSnapshot? && s.allowed == HouseFilter(codes) && k < |e.devices|
    requires forall j :: k < j < |e.devices| ==> Normal(e.devices[j].0) != Normal(e.devices[k].0)
    ensures var t := Step(s, Observe(Some(e), now)).next; var n, c := Normal(e.devices[k].0), e.devices[k].1;
            var heard := n != "" && (Restrictive(codes) ==> Lists(codes, n[..1]));
            && (heard ==> n in t.devices)
            && (heard && (n in s.configs ==> s.configs[n].stateful) ==>
                  && (c == On ==> t.devices[n].current == Some(On)) && (c == Off ==> t.devices[n].current == Some(Off))
                  && t.devices[n].available)
            && (!heard || (n in s.configs && !s.configs[n].stateful) ==> Get(t, n) == Get(s, n))
  {
    var n := Normal(e.devices[k].0);
    NormalIdempotent(e.devices[k].0);
    PermittedMeans(codes, n);
    LastEntryIs(e.devices, n, k);
    SnapshotLoopEffect(CountSync(s), e.devices, now, n);
  }

  /** A snapshot leaves every device alone that none of its entries is about. */
  lemma SnapshotsLeaveOthersAlone(s: Manager, e: Event, now: int, n: string)
    requires e.StatusSnapshot? && forall j :: 0 <= j < |e.devices| ==> Normal(e.devices[j].0) != n
    ensures var t := Step(s, Observe(Some(e), now)).next;
            (n in t.devices <==> n in s.devices) && Get(t, n) == Get(s, n)
  {
    NoEntry(e.devices, n);
    SnapshotLoopEffect(CountSync(s), e.devices, now, n);
  }

  // Requested commands.

  lemma PendEffect(s: Manager, n: string, c: Command)
    ensures var o := Discover(Pend(s, n, c), n); var d := Get(o.next, n);
            && SameSettings(s, o.next) && o.next.devices == s.devices[n := d]
            && d.pending == Some(c) && d.current == Get(s, n).current
            && (forall x :: x in o.actions ==> x.PublishDiscovery?)
  {
  }

  lemma FollowUpEffect(s: Manager, n: string, c: Command, now: int)
    ensures var o := FollowUp(s, n, c, now); var d := Get(o.next, n);
            && (o.next.devices == s.devices || o.next.devices == s.devices[n := d])
            && d.pending == Get(s, n).pending
            && d.current == (if ConfigOf(s, n).stateful && s.optimistic then Some(Authoritative(c)) else Get(s, n).current)
            && (PublishCommandEvent(n, c, false) in o.actions <==> !ConfigOf(s, n).stateful)
            && (forall g :: PublishAttributes(n, c, g) in o.actions <==> ConfigOf(s, n).stateful && g == s.optimistic)
  {
    if ConfigOf(s, n).stateful && s.optimistic {
      SetStateEffect(s, n, c, now, false);
    }
  }

  lemma ForwardStates(s: Manager, n: string, c: Command, now: int)
    ensures var t := Forward(s, n, c, now).next; var d := Get(t, n);
            && t.devices == s.devices[n := d] && d.pending == Some(c)
            && d.current == (if ConfigOf(s, n).stateful && s.optimistic then Some(Authoritative(c)) else Get(s, n).current)
  {
    PendEffect(s, n, c);
    FollowUpEffect(Discover(Pend(s, n, c), n).next, n, c, now);
  }

  lemma ForwardSays(s: Manager, n: string, c: Command, now: int)
    ensures var x := Forward(s, n, c, now).actions;
            && SendDevice(n, c) in x && (PublishCommandEvent(n, c, false) in x <==> !ConfigOf(s, n).stateful)
            && (forall g :: PublishAttributes(n, c, g) in x <==> ConfigOf(s, n).stateful && g == s.optimistic)
  {
    var o := Discover(Pend(s, n, c), n);
    var f := FollowUp(o.next, n, c, now);
    PendEffect(s, n, c);
    FollowUpEffect(o.next, n, c, now);
    var x := o.actions + [SendDevice(n, c)] + f.actions;
    assert x[|o.actions|] == SendDevice(n, c);
    assert forall z :: z in x <==> z in o.actions || z == SendDevice(n, c) || z in f.actions;
  }

  lemma AcceptsMeans(s: Manager, codes: Option<set<string>>, address: string, c: Command)
    requires s.allowed == HouseFilter(codes)
    ensures var n := Normal(address);
            Accepts(s, address, c) <==>
              && n != "" && (Restrictive(codes) ==> Lists(codes, n[..1]))
              && if n in s.configs then c in s.configs[n].supported else c == On || c == Off
  {
    PermittedMeans(codes, address);
  }

  /** A requested command is sent if and only if it is heard and the device supports it; a device that nobody configured
      supports ON and OFF. A device without state then gets an event, one with a state its attributes, marked as a guess if
      and only if updates are optimistic. A command that is not sent makes nothing be said. */
  lemma RequestsAreSentExactly(s: Manager, codes: Option<set<string>>, address: string, c: Command, now: int)
    requires s.allowed == HouseFilter(codes)
    ensures var x := Step(s, Request(address, c, now)).actions; var n := Normal(address);
            var sent := && n != "" && (Restrictive(codes) ==> Lists(codes, n[..1]))
                        && if n in s.configs then c in s.configs[n].supported else c == On || c == Off;
            && (SendDevice(n, c) in x <==> sent)
            && (PublishCommandEvent(n, c, false) in x <==> sent && n in s.configs && !s.configs[n].stateful)
            && (forall g :: PublishAttributes(n, c, g) in x <==>
                  sent && (n in s.configs ==> s.configs[n].stateful) && g == s.optimistic)
            && (!sent ==> x == [])
  {
    AcceptsMeans(s, codes, address, c);
    RequestSays(s, address, c, now);
  }

  lemma RequestSays(s: Manager, address: string, c: Command, now: int)
    ensures var x := Step(s, Request(address, c, now)).actions; var n := Normal(address);
            if !Accepts(s, address, c) then x == []
            else && SendDevice(n, c) in x && (PublishCommandEvent(n, c, false) in x <==> !ConfigOf(s, n).stateful)
                 && (forall g :: PublishAttributes(n, c, g) in x <==> ConfigOf(s, n).stateful && g == s.optimistic)
  {
    if Accepts(s, address, c) {
      var n := Normal(address);
      EnsureEffect(s, n);
      ForwardSays(Ensure(s, n), n, c, now);
    }
  }

  /** A command that is sent is pending. With optimistic updates a device that keeps a state is then taken to be in the
      state the command asks for; otherwise its state waits for a report. No other device changes. */
  lemma RequestsLeaveTheirState(s: Manager, address: string, c: Command, now: int)
    requires Accepts(s, address, c)
    ensures var t := Step(s, Request(address, c, now)).next; var n := Normal(address); var d := Get(t, n);
            var guessed := s.optimistic && (n in s.configs ==> s.configs[n].stateful);
            && n in t.devices && d.pending == Some(c)
            && (guessed && (c == On || c == Bright) ==> d.current == Some(On))
            && (guessed && c == Off ==> d.current == Some(Off)) && (guessed && c == Dim ==> d.current == Some(Dim))
            && (!guessed ==> d.current == Get(s, n).current)
            && (forall m :: m in s.devices && m != n ==> m in t.devices && t.devices[m] == s.devices[m])
  {
    RequestStates(s, address, c, now);
  }

  lemma RequestStates(s: Manager, address: string, c: Command, now: int)
    requires Accepts(s, address, c)
    ensures var t := Step(s, Request(address, c, now)).next; var n := Normal(address); var d := Get(t, n);
            && t.devices == s.devices[n := d] && d.pending == Some(c)
            && d.current == (if ConfigOf(s, n).stateful && s.optimistic then Some(Authoritative(c)) else Get(s, n).current)
  {
    var n := Normal(address);
    EnsureEffect(s, n);
    ForwardStates(Ensure(s, n), n, c, now);
    RequestIsForwarded(s, address, c, now);
  }

  lemma RequestIsForwarded(s: Manager, address: string, c: Command, now: int)
    requires Accepts(s, address, c)
    ensures var n := Normal(address); Step(s, Request(address, c, now)) == Forward(Ensure(s, n), n, c, now)
  {
  }

  // Connection changes.

  lemma StatusSays(s: Manager)
    ensures var x := StatusActions(s);
            && (forall online, mqtt, mochad :: PublishStatus(online, mqtt, mochad) in x <==>
                  mqtt == s.mqtt && mochad == s.mochad && online == (s.mqtt && s.mochad))
            && RequestStatus !in x
  {
  }

  /** Every connection change announces the connections as they are from then on, online if and only if both are up; and a
      new connection to mochad, and nothing else, asks it for its status. */
  lemma ConnectionsAreAnnounced(s: Manager, i: Input)
    requires Structured(s) && (i.MqttUp? || i.MqttDown? || i.MochadUp? || i.MochadDown?)
    ensures var o := Step(s, i);
            && (forall online, mqtt, mochad :: PublishStatus(online, mqtt, mochad) in o.actions <==>
                  mqtt == o.next.mqtt && mochad == o.next.mochad && online == (o.next.mqtt && o.next.mochad))
            && (RequestStatus in o.actions <==> i.MochadUp?)
            && o.next.mqtt == (if i.MqttUp? then true else if i.MqttDown? then false else s.mqtt)
            && o.next.mochad == (if i.MochadUp? then true else if i.MochadDown? then false else s.mochad)
  {
    StatusSays(Step(s, i).next);
    match i
    case MqttUp =>
      var up := MqttMarkedUp(s);
      RediscoverLoopRestates(up, s.order);
      RediscoverLoopState(up, s.order);
      StatusSays(up);
    case _ =>
  }
}
