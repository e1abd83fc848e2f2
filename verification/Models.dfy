/** The data exchanged by the bridge's layers (models.py). */
module Models {
  import opened Text

  datatype Command =
    | On | Off | Dim | Bright
    | AllLightsOn | AllLightsOff | AllUnitsOff
    | StatusRequest | StatusOn | StatusOff
    | UnknownCommand

  datatype Direction = Rx | Tx

  datatype Transport = Rf | Pl

  datatype DeviceType = Switch | Light | Chime

  datatype Capability = ActionCapability | OnOffCapability | DimCapability | AllLightsCapability

  datatype OperationMode = Continuous | Momentary | ActionMode | Sensor | AlarmSequence

  const ON_OFF: set<Command> := {On, Off}
  const ON_ONLY: set<Command> := {On}
  const LIGHT_COMMANDS: set<Command> := {On, Off, Dim, Bright}

  datatype DeviceConfig = DeviceConfig(
    address: string,
    name: string,
    entityType: DeviceType,
    profile: Option<string>,
    capabilities: set<Capability>,
    repeats: int,
    repeatDelayMs: int,
    supported: set<Command>,
    stateful: bool,
    repeatable: set<Command>,
    allLightsOn: bool,
    allLightsOff: bool,
    allUnitsOff: bool,
    learned: bool,
    mode: OperationMode
  )

  type Devices = map<string, DeviceConfig>

  const MAX_REPEATS := 5
  const MAX_DELAY_MS := 5000

  /** `DeviceConfig.__post_init__`: fill in what the entity type implies unless commands are already given. */
  function PostInit(d: DeviceConfig): DeviceConfig {
    if d.entityType.Chime? && d.supported == {} then
      d.(capabilities := {ActionCapability}, supported := ON_ONLY, stateful := false,
         repeatable := ON_ONLY, mode := ActionMode)
    else if d.supported != {} then d
    else if d.entityType.Light? then
      d.(supported := LIGHT_COMMANDS, capabilities := {OnOffCapability, DimCapability},
         allLightsOn := true, allLightsOff := true)
    else
      d.(supported := ON_OFF, capabilities := {OnOffCapability}, allLightsOn := false, allLightsOff := false)
  }

  /** The dataclass constructor with every other field at its default. */
  function MakeDevice(address: string, name: string, entityType: DeviceType, repeats: int, delay: int): DeviceConfig {
    PostInit(DeviceConfig(address, name, entityType, None, {OnOffCapability}, repeats, delay,
                          {}, true, {}, false, false, true, false, Continuous))
  }

  /** What the bridge assumes about an address nobody configured: a plain switch. */
  function DefaultDevice(address: string): DeviceConfig {
    MakeDevice(address, address, Switch, 1, 150)
  }

  datatype Event =
    | DeviceEvent(time: int, direction: Direction, transport: Transport, command: Command, address: string)
    | HouseEvent(time: int, direction: Direction, transport: Transport, command: Command, house: string)
    | StatusSnapshot(devices: seq<(string, Command)>)
    | UnknownEvent(time: int, raw: string)

  /** The side effects StateManager asks the bridge to perform. */
  datatype Action =
    | PublishState(address: string, state: Command, retain: bool)
    | PublishEvent(event: Event)
    | PublishCommandEvent(address: string, command: Command, retain: bool)
    | PublishAttributes(address: string, command: Command, optimistic: bool)
    | PublishDiscovery(address: string)
    | PublishAvailability(online: bool)
    | PublishStatus(online: bool, mqtt: bool, mochad: bool)
    | SendDevice(address: string, command: Command)
    | RequestStatus
    | LogUnknown(raw: string)
}

/** X10 addresses (protocol/validation.py and the copies of the same pattern in config.py and topics.py). */
module Addresses {
  import opened Text

  predicate IsHouse(c: char) { 'A' <= c <= 'P' }

  /** `[1-9]|1[0-6]` */
  predicate IsUnit(s: string) {
    || (|s| == 1 && '1' <= s[0] <= '9')
    || (|s| == 2 && s[0] == '1' && '0' <= s[1] <= '6')
  }

  predicate Canonical(a: string) {
    |a| >= 2 && IsHouse(a[0]) && IsUnit(a[1..])
  }

  function NormalizeAddress(s: string): Option<string> {
    if Canonical(Normal(s)) then Some(Normal(s)) else None
  }

  /** The 256 addresses, A1 to P16. */
  lemma CanonicalExactly(a: string)
    ensures Canonical(a) <==>
      && |a| >= 2 && a[0] in "ABCDEFGHIJKLMNOP"
      && a[1..] in {"1", "2", "3", "4", "5", "6", "7", "8", "9", "10", "11", "12", "13", "14", "15", "16"}
  {
    if |a| >= 2 {
      HouseExactly(a[0]);
      UnitExactly(a[1..]);
    }
  }

  lemma HouseExactly(c: char)
    ensures IsHouse(c) <==> c in "ABCDEFGHIJKLMNOP"
  {
  }

  lemma UnitExactly(s: string)
    ensures IsUnit(s) <==>
      s in {"1", "2", "3", "4", "5", "6", "7", "8", "9", "10", "11", "12", "13", "14", "15", "16"}
  {
    if |s| == 1 {
      assert s == [s[0]];
    } else if |s| == 2 {
      assert s == [s[0], s[1]];
    }
  }

  lemma HouseIsPlain(c: char)
    requires IsHouse(c) || IsDigit(c)
    ensures c !in SPACES && UpperChar(c) == c && c != '/'
  {
  }

  lemma CanonicalIsNormal(a: string)
    requires Canonical(a)
    ensures Normal(a) == a && NormalizeAddress(a) == Some(a)
    ensures '/' !in a && a != "bridge"
  {
    forall i | 0 <= i < |a|
      ensures a[i] !in SPACES && UpperChar(a[i]) == a[i] && a[i] != '/'
    {
      assert i > 0 ==> a[i] == a[1..][i - 1];
      HouseIsPlain(a[i]);
    }
    TrimmedIsFixed(SPACES, a);
    assert Upper(a) == a;
  }

  /** The documentation promises that A01 becomes A1; the pattern rejects every unit that begins with a zero. */
  lemma LeadingZeroIsRejected(s: string)
    requires |Normal(s)| >= 2 && Normal(s)[1] == '0'
    ensures NormalizeAddress(s) == None
  {
    assert Normal(s)[1..][0] == '0';
  }

  lemma DocumentedExampleIsRejected()
    ensures NormalizeAddress("A01") == None
  {
    var a := "A01";
    HouseIsPlain(a[0]);
    HouseIsPlain(a[2]);
    TrimmedIsFixed(SPACES, a);
    assert Upper(a)[1] == '0';
    LeadingZeroIsRejected(a);
  }
}
