/** StateManager as the source writes it: one object updating its own fields. */
module StateManagerObject {
  import opened Text
  import opened Models
  import opened StateSpec

  class StateManager {
    var devices: map<string, Device>
    var order: seq<string>
    var configs: map<string, DeviceConfig>
    var allowed: Option<set<string>>
    var optimistic: bool
    var mqttConnected: bool
    var mqttHasConnected: bool
    var mochadConnected: bool
    var generation: nat
    var stats: Statistics

    function Model(): Manager
      reads this
    {
      Manager(devices, order, configs, allowed, optimistic, mqttConnected, mqttHasConnected, mochadConnected,
              generation, stats)
    }

    constructor (configured: seq<DeviceConfig>, optimisticUpdates: bool, codes: Option<set<string>>)
      ensures Model() == Create(configured, optimisticUpdates, codes)
    {
      devices, order, configs := map[], [], map[];
      allowed, optimistic := HouseFilter(codes), optimisticUpdates;
      mqttConnected, mqttHasConnected, mochadConnected, generation := false, false, false, 0;
      stats := Statistics(0, 0, 0, 0, 0, 0, 0, 0, 0, 0, 0);
      new;
      for k := 0 to |configured|
        invariant Configure(Model(), configured[k..]) == Create(configured, optimisticUpdates, codes)
      {
        var d := configured[k];
        assert configured[k..][1..] == configured[k + 1..];
        if AddressAllowed(Model(), d.address) {
          configs := configs[Normal(d.address) := d];
          EnsureDevice(Normal(d.address));
        }
      }
    }

    method EnsureDevice(n: string)
      modifies this
      ensures Model() == Ensure(old(Model()), n)
    {
      if n !in devices {
        devices := devices[n := FRESH];
        order := order + [n];
      }
    }

    method MarkSeen(n: string, now: int)
      modifies this
      ensures Model() == Seen(old(Model()), n, now)
    {
      devices := devices[n := Get(Model(), n).(available := true, lastSeen := Some(now))];
    }

    method ReceiveEvent()
      modifies this
      ensures Model() == CountEvent(old(Model()))
    {
      stats := stats.(eventsReceived := stats.eventsReceived + 1);
    }

    method RecordPending(n: string, command: Command)
      modifies this
      ensures Model() == Pend(old(Model()), n, command)
    {
      devices := devices[n := Get(Model(), n).(pending := Some(command))];
      stats := stats.(commandsSent := stats.commandsSent + 1);
    }

    /** The part of _set_device_state that touches the device's record. */
    method UpdateRecord(n: string, c: Command, now: int, clear: bool) returns (changed: bool)
      modifies this`devices
      ensures changed == (Get(old(Model()), n).current != Some(c))
      ensures devices == old(devices)[n := Reported(Get(old(Model()), n), c, now, clear)]
    {
      var d := Get(Model(), n);
      changed := d.current != Some(c);
      if changed {
        d := d.(previous := d.current, current := Some(c), lastChanged := Some(now));
      }
      d := d.(lastSeen := Some(now));
      if clear {
        d := ClearPending(d, c);
      }
      devices := devices[n := d];
    }

    method SetDeviceState(n: string, command: Command, now: int, clear: bool) returns (actions: seq<Action>)
      modifies this
      ensures Outcome(Model(), actions) == SetState(old(Model()), n, command, now, clear)
    {
      var c := Authoritative(command);
      var changed := UpdateRecord(n, c, now, clear);
      if !changed {
        stats := stats.(duplicates := stats.duplicates + 1);
        return [];
      }
      stats := stats.(stateChanges := stats.stateChanges + 1);
      return [PublishState(n, c, true)];
    }

    method DiscoveryActions(n: string) returns (actions: seq<Action>)
      modifies this
      ensures Outcome(Model(), actions) == Discover(old(Model()), n)
    {
      if !mqttConnected || Get(Model(), n).discovered {
        return [];
      }
      devices := devices[n := Get(Model(), n).(discovered := true)];
      stats := stats.(discoveryMessages := stats.discoveryMessages + 1);
      actions := [PublishDiscovery(n)];
    }

    method HouseMember(n: string, e: Event) returns (actions: seq<Action>)
      requires e.HouseEvent?
      modifies this
      ensures Outcome(Model(), actions) == HouseOne(old(Model()), n, e)
    {
      if !Heeds(Model(), n, e.command) {
        return [];
      }
      MarkSeen(n, e.time);
      actions := SetDeviceState(n, HouseTarget(e.command), e.time, true);
    }

    method ApplyHouseEvent(e: Event) returns (actions: seq<Action>)
      requires e.HouseEvent?
      modifies this
      ensures Outcome(Model(), actions) == OnHouseEvent(old(Model()), e)
    {
      actions := [];
      if !HouseAllowed(Model(), e.house) {
        return;
      }
      ReceiveEvent();
      if e.command !in {AllUnitsOff, AllLightsOff, AllLightsOn} {
        return;
      }
      var members := HouseMembers(order, Normal(e.house));
      ghost var start := Model();
      for k := 0 to |members|
        invariant After(actions, HouseLoop(Model(), members[k..], e)) == HouseLoop(start, members, e)
      {
        assert members[k..][1..] == members[k + 1..];
        var more := HouseMember(members[k], e);
        AfterAfter(actions, more, HouseLoop(Model(), members[k + 1..], e));
        actions := actions + more;
      }
      assert actions + [] == actions;
    }

    method SnapshotEntry(address: string, command: Command, now: int) returns (actions: seq<Action>)
      modifies this
      ensures Outcome(Model(), actions) == SnapshotOne(old(Model()), address, command, now)
    {
      if !AddressAllowed(Model(), address) {
        return [];
      }
      EnsureDevice(Normal(address));
      if !ConfigOf(Model(), Normal(address)).stateful {
        return [];
      }
      MarkSeen(Normal(address), now);
      actions := SetDeviceState(Normal(address), command, now, true);
    }

    method ApplyStatusSnapshot(e: Event, now: int) returns (actions: seq<Action>)
      requires e.StatusSnapshot?
      modifies this
      ensures Outcome(Model(), actions) == OnSnapshot(old(Model()), e, now)
    {
      stats := stats.(statusSyncs := stats.statusSyncs + 1);
      actions := [];
      ghost var start := Model();
      assert start == CountSync(old(Model()));
      for k := 0 to |e.devices|
        invariant After(actions, SnapshotLoop(Model(), e.devices[k..], now)) == SnapshotLoop(start, e.devices, now)
      {
        assert e.devices[k..][1..] == e.devices[k + 1..];
        var more := SnapshotEntry(e.devices[k].0, e.devices[k].1, now);
        AfterAfter(actions, more, SnapshotLoop(Model(), e.devices[k + 1..], now));
        actions := actions + more;
      }
      assert actions + [] == actions;
    }

    method HearDevice(n: string, now: int) returns (actions: seq<Action>)
      modifies this
      ensures Outcome(Model(), actions) == Hear(old(Model()), n, now)
    {
      ReceiveEvent();
      EnsureDevice(n);
      MarkSeen(n, now);
      actions := DiscoveryActions(n);
    }

    method ApplyDeviceEvent(e: Event) returns (actions: seq<Action>)
      requires e.DeviceEvent?
      modifies this
      ensures Outcome(Model(), actions) == OnDeviceEvent(old(Model()), e)
    {
      if !AddressAllowed(Model(), e.address) {
        return [];
      }
      var n := Normal(e.address);
      actions := HearDevice(n, e.time);
      actions := actions + [PublishEvent(e)];
      if ConfigOf(Model(), n).stateful && e.command in STATE_COMMANDS {
        var more := SetDeviceState(n, e.command, e.time, true);
        actions := actions + more;
      }
    }

    method Apply(event: Option<Event>, now: int) returns (actions: seq<Action>)
      modifies this
      ensures Outcome(Model(), actions) == Step(old(Model()), Observe(event, now))
    {
      if event.None? {
        return [];
      }
      var e := event.value;
      if e.DeviceEvent? {
        actions := ApplyDeviceEvent(e);
      } else if e.HouseEvent? {
        actions := ApplyHouseEvent(e);
      } else if e.StatusSnapshot? {
        actions := ApplyStatusSnapshot(e, now);
      } else {
        stats := stats.(unknownPackets := stats.unknownPackets + 1);
        actions := [LogUnknown(e.raw)];
      }
    }

    method FollowUpCommand(n: string, command: Command, now: int) returns (actions: seq<Action>)
      modifies this
      ensures Outcome(Model(), actions) == FollowUp(old(Model()), n, command, now)
    {
      if !ConfigOf(Model(), n).stateful {
        return [PublishCommandEvent(n, command, false)];
      }
      actions := [PublishAttributes(n, command, optimistic)];
      if optimistic {
        var more := SetDeviceState(n, command, now, false);
        actions := actions + more;
      }
    }

    method ForwardCommand(n: string, command: Command, now: int) returns (actions: seq<Action>)
      modifies this
      ensures Outcome(Model(), actions) == Forward(old(Model()), n, command, now)
    {
      RecordPending(n, command);
      actions := DiscoveryActions(n);
      actions := actions + [SendDevice(n, command)];
      var more := FollowUpCommand(n, command, now);
      actions := actions + more;
    }

    method OptimisticUpdate(address: string, command: Command, now: int) returns (actions: seq<Action>)
      modifies this
      ensures Outcome(Model(), actions) == Step(old(Model()), Request(address, command, now))
    {
      if !AddressAllowed(Model(), address) {
        return [];
      }
      var n := Normal(address);
      EnsureDevice(n);
      if command !in ConfigOf(Model(), n).supported {
        return [];
      }
      actions := ForwardCommand(n, command, now);
    }

    method MarkMqttUp()
      modifies this
      ensures Model() == MqttMarkedUp(old(Model()))
    {
      var wasConnected := mqttConnected;
      mqttConnected := true;
      generation := generation + 1;
      if mqttHasConnected && !wasConnected {
        stats := stats.(mqttReconnects := stats.mqttReconnects + 1);
      }
      mqttHasConnected := true;
      stats := stats.(mqttConnections := stats.mqttConnections + 1);
    }

    method RediscoverDevice(n: string) returns (actions: seq<Action>)
      modifies this
      ensures Outcome(Model(), actions) == Rediscover(old(Model()), n)
    {
      var d := Get(Model(), n);
      devices := devices[n := d.(discovered := false)];
      actions := [PublishDiscovery(n)];
      stats := stats.(discoveryMessages := stats.discoveryMessages + 1);
      ghost var once := old(devices)[n := d.(discovered := true)];
      devices := devices[n := d.(discovered := true)];
      assert devices == once;
      if d.current.Some? {
        actions := actions + [PublishState(n, d.current.value, true)];
      }
    }

    method OnMqttConnected() returns (actions: seq<Action>)
      modifies this
      ensures Outcome(Model(), actions) == Step(old(Model()), MqttUp)
    {
      MarkMqttUp();
      actions := StatusActions(Model());
      var names := order;
      for k := 0 to |names|
        invariant After(actions, RediscoverLoop(Model(), names[k..])) == OnMqttUp(old(Model()))
      {
        assert names[k..][1..] == names[k + 1..];
        var more := RediscoverDevice(names[k]);
        AfterAfter(actions, more, RediscoverLoop(Model(), names[k + 1..]));
        actions := actions + more;
      }
      assert actions + [] == actions;
    }

    method OnMqttDisconnected() returns (actions: seq<Action>)
      modifies this
      ensures Outcome(Model(), actions) == Step(old(Model()), MqttDown)
    {
      if mqttConnected {
        stats := stats.(mqttDisconnects := stats.mqttDisconnects + 1);
      }
      mqttConnected := false;
      actions := StatusActions(Model());
    }

    method OnMochadConnected() returns (actions: seq<Action>)
      modifies this
      ensures Outcome(Model(), actions) == Step(old(Model()), MochadUp)
    {
      mochadConnected := true;
      stats := stats.(mochadReconnects := stats.mochadReconnects + 1);
      actions := StatusActions(Model()) + [RequestStatus];
    }

    method OnMochadDisconnected() returns (actions: seq<Action>)
      modifies this
      ensures Outcome(Model(), actions) == Step(old(Model()), MochadDown)
    {
      mochadConnected := false;
      devices := map n | n in devices :: devices[n].(available := false);
      actions := StatusActions(Model());
    }
  }
}
