/** What StateManager (state.py) does, as functions on its state. */
module StateSpec {
  import opened Text
  import opened Models

  datatype Device = Device(
    current: Option<Command>,
    previous: Option<Command>,
    lastSeen: Option<int>,
    lastChanged: Option<int>,
    pending: Option<Command>,
    discovered: bool,
    available: bool
  )

  const FRESH := Device(None, None, None, None, None, false, false)

  datatype Statistics = Statistics(
    eventsReceived: nat,
    commandsSent: nat,
    duplicates: nat,
    stateChanges: nat,
    mqttConnections: nat,
    mqttDisconnects: nat,
    mqttReconnects: nat,
    mochadReconnects: nat,
    discoveryMessages: nat,
    statusSyncs: nat,
    unknownPackets: nat
  )

  /** `order` is the insertion order of the `devices` dictionary. */
  datatype Manager = Manager(
    devices: map<string, Device>,
    order: seq<string>,
    configs: map<string, DeviceConfig>,
    allowed: Option<set<string>>,
    optimistic: bool,
    mqtt: bool,
    everMqtt: bool,
    mochad: bool,
    generation: nat,
    stats: Statistics
  )

  /** A new state and the actions emitted on the way, in order. */
  datatype Outcome = Outcome(next: Manager, actions: seq<Action>)

  /** Everything that can happen to the manager. */
  datatype Input =
    | Observe(event: Option<Event>, now: int)
    | Request(address: string, command: Command, now: int)
    | MqttUp
    | MqttDown
    | MochadUp
    | MochadDown

  const STATE_COMMANDS: set<Command> := {On, Off, Dim, Bright, StatusOn, StatusOff}

  function After(actions: seq<Action>, o: Outcome): Outcome {
    Outcome(o.next, actions + o.actions)
  }

  lemma AfterAfter(a: seq<Action>, b: seq<Action>, o: Outcome)
    ensures After(a, After(b, o)) == After(a + b, o)
  {
    assert a + (b + o.actions) == (a + b) + o.actions;
  }

  // Lookups.

  function Get(s: Manager, n: string): Device {
    if n in s.devices then s.devices[n] else FRESH
  }

  function Put(s: Manager, n: string, d: Device): Manager {
    s.(devices := s.devices[n := d])
  }

  function ConfigIn(configs: map<string, DeviceConfig>, n: string): DeviceConfig {
    if n in configs then configs[n] else DefaultDevice(n)
  }

  function ConfigOf(s: Manager, n: string): DeviceConfig {
    ConfigIn(s.configs, n)
  }

  predicate HousePermitted(allowed: Option<set<string>>, house: string) {
    allowed.Some? ==> Normal(house) in allowed.value
  }

  predicate Permitted(allowed: Option<set<string>>, address: string) {
    var n := Normal(address);
    n != "" && HousePermitted(allowed, n[..1])
  }

  predicate HouseAllowed(s: Manager, house: string) {
    HousePermitted(s.allowed, house)
  }

  predicate AddressAllowed(s: Manager, address: string) {
    Permitted(s.allowed, address)
  }

  function Ensure(s: Manager, n: string): Manager {
    if n in s.devices then s else s.(devices := s.devices[n := FRESH], order := s.order + [n])
  }

  // Building blocks.

  function Authoritative(c: Command): Command {
    if c in {On, Bright, StatusOn} then On else if c in {Off, StatusOff} then Off else c
  }

  function ClearPending(d: Device, c: Command): Device {
    if d.pending == Some(c) then d.(pending := None) else d
  }

  /** The device record after a report of state c, which may be the state it already had. */
  function Reported(d: Device, c: Command, now: int, clear: bool): Device {
    var e := if d.current == Some(c) then d.(lastSeen := Some(now))
             else d.(previous := d.current, current := Some(c), lastSeen := Some(now), lastChanged := Some(now));
    if clear then ClearPending(e, c) else e
  }

  function CountReport(stats: Statistics, duplicate: bool): Statistics {
    if duplicate then stats.(duplicates := stats.duplicates + 1) else stats.(stateChanges := stats.stateChanges + 1)
  }

  function SetState(s: Manager, n: string, command: Command, now: int, clear: bool): Outcome {
    var c := Authoritative(command);
    var d := Get(s, n);
    var duplicate := d.current == Some(c);
    Outcome(Put(s, n, Reported(d, c, now, clear)).(stats := CountReport(s.stats, duplicate)),
            if duplicate then [] else [PublishState(n, c, true)])
  }

  function Discover(s: Manager, n: string): Outcome {
    if !s.mqtt || Get(s, n).discovered then Outcome(s, [])
    else
      Outcome(Put(s, n, Get(s, n).(discovered := true)).(
                stats := s.stats.(discoveryMessages := s.stats.discoveryMessages + 1)),
              [PublishDiscovery(n)])
  }

  function CountEvent(s: Manager): Manager {
    s.(stats := s.stats.(eventsReceived := s.stats.eventsReceived + 1))
  }

  function CountSync(s: Manager): Manager {
    s.(stats := s.stats.(statusSyncs := s.stats.statusSyncs + 1))
  }

  function Pend(s: Manager, n: string, command: Command): Manager {
    Put(s, n, Get(s, n).(pending := Some(command))).(stats := s.stats.(commandsSent := s.stats.commandsSent + 1))
  }

  function Seen(s: Manager, n: string, now: int): Manager {
    Put(s, n, Get(s, n).(available := true, lastSeen := Some(now)))
  }

  function StatusActions(s: Manager): seq<Action> {
    var online := s.mqtt && s.mochad;
    [PublishAvailability(online), PublishStatus(online, s.mqtt, s.mochad)]
  }

  // The handlers.

  /** A sign of life from a device. */
  function Hear(s: Manager, n: string, now: int): Outcome {
    Discover(Seen(Ensure(CountEvent(s), n), n, now), n)
  }

  function OnDeviceEvent(s: Manager, e: Event): Outcome
    requires e.DeviceEvent?
  {
    if !AddressAllowed(s, e.address) then Outcome(s, [])
    else
      var n := Normal(e.address);
      var o := Hear(s, n, e.time);
      var actions := o.actions + [PublishEvent(e)];
      if !ConfigOf(s, n).stateful || e.command !in STATE_COMMANDS then Outcome(o.next, actions)
      else After(actions, SetState(o.next, n, e.command, e.time, true))
  }

  predicate Responds(d: DeviceConfig, c: Command) {
    match c
    case AllUnitsOff => d.allUnitsOff
    case AllLightsOff => d.allLightsOff
    case AllLightsOn => d.allLightsOn
    case _ => false
  }

  predicate Heeds(s: Manager, n: string, c: Command) {
    ConfigOf(s, n).stateful && Responds(ConfigOf(s, n), c)
  }

  function HouseTarget(c: Command): Command {
    if c.AllLightsOn? then On else Off
  }

  function HouseMembers(order: seq<string>, prefix: string): seq<string> {
    if order == [] then []
    else (if prefix <= order[0] then [order[0]] else []) + HouseMembers(order[1..], prefix)
  }

  function HouseOne(s: Manager, n: string, e: Event): Outcome
    requires e.HouseEvent?
  {
    if !Heeds(s, n, e.command) then Outcome(s, [])
    else SetState(Seen(s, n, e.time), n, HouseTarget(e.command), e.time, true)
  }

  function HouseLoop(s: Manager, members: seq<string>, e: Event): Outcome
    requires e.HouseEvent?
    decreases |members|
  {
    if members == [] then Outcome(s, [])
    else
      var o := HouseOne(s, members[0], e);
      After(o.actions, HouseLoop(o.next, members[1..], e))
  }

  function OnHouseEvent(s: Manager, e: Event): Outcome
    requires e.HouseEvent?
  {
    if !HouseAllowed(s, e.house) then Outcome(s, [])
    else if e.command !in {AllUnitsOff, AllLightsOff, AllLightsOn} then Outcome(CountEvent(s), [])
    else HouseLoop(CountEvent(s), HouseMembers(s.order, Normal(e.house)), e)
  }

  function SnapshotOne(s: Manager, address: string, command: Command, now: int): Outcome {
    if !AddressAllowed(s, address) then Outcome(s, [])
    else
      var n := Normal(address);
      var known := Ensure(s, n);
      if !ConfigOf(s, n).stateful then Outcome(known, [])
      else SetState(Seen(known, n, now), n, command, now, true)
  }

  function SnapshotLoop(s: Manager, entries: seq<(string, Command)>, now: int): Outcome
    decreases |entries|
  {
    if entries == [] then Outcome(s, [])
    else
      var o := SnapshotOne(s, entries[0].0, entries[0].1, now);
      After(o.actions, SnapshotLoop(o.next, entries[1..], now))
  }

  function OnSnapshot(s: Manager, e: Event, now: int): Outcome
    requires e.StatusSnapshot?
  {
    SnapshotLoop(CountSync(s), e.devices, now)
  }

  function Observed(s: Manager, event: Option<Event>, now: int): Outcome {
    match event
    case None => Outcome(s, [])
    case Some(e) =>
      match e {
        case DeviceEvent(_, _, _, _, _) => OnDeviceEvent(s, e)
        case HouseEvent(_, _, _, _, _) => OnHouseEvent(s, e)
        case StatusSnapshot(_) => OnSnapshot(s, e, now)
        case UnknownEvent(_, raw) =>
          Outcome(s.(stats := s.stats.(unknownPackets := s.stats.unknownPackets + 1)), [LogUnknown(raw)])
      }
  }

  /** The command is let through: the house is allowed and the device supports it. */
  predicate Accepts(s: Manager, address: string, command: Command) {
    AddressAllowed(s, address) && command in ConfigOf(s, Normal(address)).supported
  }

  /** What optimistic_update adds after the send: an event for a device without state, otherwise the attributes and,
      with optimistic updates, the state itself. */
  function FollowUp(s: Manager, n: string, command: Command, now: int): Outcome {
    if !ConfigOf(s, n).stateful then Outcome(s, [PublishCommandEvent(n, command, false)])
    else After([PublishAttributes(n, command, s.optimistic)],
               if s.optimistic then SetState(s, n, command, now, false) else Outcome(s, []))
  }

  /** The part of optimistic_update that follows its checks. */
  function Forward(s: Manager, n: string, command: Command, now: int): Outcome {
    var o := Discover(Pend(s, n, command), n);
    After(o.actions + [SendDevice(n, command)], FollowUp(o.next, n, command, now))
  }

  /** optimistic_update */
  function Requested(s: Manager, address: string, command: Command, now: int): Outcome {
    var n := Normal(address);
    if !AddressAllowed(s, address) then Outcome(s, [])
    else if command !in ConfigOf(s, n).supported then Outcome(Ensure(s, n), [])
    else Forward(Ensure(s, n), n, command, now)
  }

  function Rediscover(s: Manager, n: string): Outcome {
    var d := Get(s, n);
    Outcome(Put(s, n, d.(discovered := true)).(
              stats := s.stats.(discoveryMessages := s.stats.discoveryMessages + 1)),
            [PublishDiscovery(n)] + (if d.current.Some? then [PublishState(n, d.current.value, true)] else []))
  }

  function RediscoverLoop(s: Manager, names: seq<string>): Outcome
    decreases |names|
  {
    if names == [] then Outcome(s, [])
    else
      var o := Rediscover(s, names[0]);
      After(o.actions, RediscoverLoop(o.next, names[1..]))
  }

  /** mqtt_connected up to its loop over the devices. */
  function MqttMarkedUp(s: Manager): Manager {
    s.(mqtt := true, everMqtt := true, generation := s.generation + 1,
       stats := s.stats.(
         mqttConnections := s.stats.mqttConnections + 1,
         mqttReconnects := if s.everMqtt && !s.mqtt then s.stats.mqttReconnects + 1 else s.stats.mqttReconnects))
  }

  function OnMqttUp(s: Manager): Outcome {
    var up := MqttMarkedUp(s);
    After(StatusActions(up), RediscoverLoop(up, s.order))
  }

  function OnMqttDown(s: Manager): Outcome {
    var down := s.(mqtt := false, stats := s.stats.(
      mqttDisconnects := if s.mqtt then s.stats.mqttDisconnects + 1 else s.stats.mqttDisconnects));
    Outcome(down, StatusActions(down))
  }

  function OnMochadUp(s: Manager): Outcome {
    var up := s.(mochad := true, stats := s.stats.(mochadReconnects := s.stats.mochadReconnects + 1));
    Outcome(up, StatusActions(up) + [RequestStatus])
  }

  function OnMochadDown(s: Manager): Outcome {
    var down := s.(mochad := false, devices := map n | n in s.devices :: s.devices[n].(available := false));
    Outcome(down, StatusActions(down))
  }

  function Step(s: Manager, i: Input): Outcome {
    match i
    case Observe(event, now) => Observed(s, event, now)
    case Request(address, command, now) => Requested(s, address, command, now)
    case MqttUp => OnMqttUp(s)
    case MqttDown => OnMqttDown(s)
    case MochadUp => OnMochadUp(s)
    case MochadDown => OnMochadDown(s)
  }

  // Construction.

  function HouseFilter(codes: Option<set<string>>): Option<set<string>> {
    match codes
    case None => None
    case Some(cs) =>
      var kept := set c | c in cs && Strip(c) != "" :: Normal(c);
      if kept == {} then None else Some(kept)
  }

  function Empty(optimistic: bool, codes: Option<set<string>>): Manager {
    Manager(map[], [], map[], HouseFilter(codes), optimistic, false, false, false, 0,
            Statistics(0, 0, 0, 0, 0, 0, 0, 0, 0, 0, 0))
  }

  function Configure(s: Manager, devices: seq<DeviceConfig>): Manager
    decreases |devices|
  {
    if devices == [] then s
    else if !AddressAllowed(s, devices[0].address) then Configure(s, devices[1..])
    else
      var n := Normal(devices[0].address);
      Configure(Ensure(s.(configs := s.configs[n := devices[0]]), n), devices[1..])
  }

  function Create(devices: seq<DeviceConfig>, optimistic: bool, codes: Option<set<string>>): Manager {
    Configure(Empty(optimistic, codes), devices)
  }
}
