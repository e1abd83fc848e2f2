/** The capability profiles (device_registry.py). */
module Profiles {
  import opened Text
  import opened Models

  datatype Profile = Profile(
    id: string,
    entityType: DeviceType,
    capabilities: set<Capability>,
    supported: set<Command>,
    stateful: bool,
    repeatable: set<Command>,
    allLightsOn: bool,
    allLightsOff: bool,
    allUnitsOff: bool,
    learned: bool,
    mode: OperationMode
  )

  function Stateful(id: string, entityType: DeviceType, capabilities: set<Capability>, mode: OperationMode): Profile {
    Profile(id, entityType, capabilities, ON_OFF, true, {}, false, false, true, false, mode)
  }

  function Momentarily(id: string, entityType: DeviceType, capabilities: set<Capability>, commands: set<Command>,
                       repeatable: set<Command>, allUnitsOff: bool, mode: OperationMode): Profile {
    Profile(id, entityType, capabilities, commands, false, repeatable, false, false, allUnitsOff, false, mode)
  }

  /** It can be switched on; a chime has no state; with a state it can be switched off, and it dims if it says so. */
  predicate Coherent(p: Profile) {
    && On in p.supported && (p.entityType.Chime? ==> !p.stateful)
    && (p.stateful ==> Off in p.supported && (DimCapability in p.capabilities <==> Dim in p.supported))
  }

  /** The table, keyed by an already stripped and lower-cased identifier. Every entry is filed under its own
      identifier, supports some command, and a stateful one supports only ON, OFF, DIM and BRIGHT. Two entries have
      neither a state nor the chime type. */
  function Lookup(k: string): (r: Option<Profile>)
    ensures r.Some? ==> r.value.id == k && r.value.supported != {} && |k| > 6
    ensures r.Some? && r.value.stateful ==> r.value.supported <= LIGHT_COMMANDS
    ensures r.Some? ==> Coherent(r.value)
    ensures r.Some? ==>
      (!r.value.stateful && !r.value.entityType.Chime? <==> k == "um506_momentary" || k == "powerflash_mode_2")
  {
    var onOff := {OnOffCapability};
    var dimmable := {OnOffCapability, DimCapability};
    if k == "generic_switch" then Some(Stateful(k, Switch, onOff, Continuous))
    else if k == "generic_light" then
      Some(Profile(k, Light, dimmable, LIGHT_COMMANDS, true, {}, true, true, true, false, Continuous))
    else if k == "lm15a_socket_rocket" then
      Some(Profile(k, Light, onOff, ON_OFF, true, {}, true, true, true, true, Continuous))
    else if k == "um506_momentary" then
      Some(Momentarily(k, Switch, {ActionCapability}, ON_ONLY, ON_ONLY, true, Momentary))
    else if k == "um506_continuous" then Some(Stateful(k, Switch, onOff, Continuous))
    else if k == "sc546a_chime" then
      Some(Momentarily(k, Chime, {ActionCapability}, ON_ONLY, ON_ONLY, false, ActionMode))
    else if k == "ms13a_motion" then Some(Stateful(k, Switch, onOff, Sensor))
    else if k == "ms14a_motion" then Some(Stateful(k, Switch, onOff, Sensor))
    else if k == "ms16a_activeeye" then Some(Stateful(k, Switch, onOff, Sensor))
    else if k == "pr511_motion_monitor" then Some(Stateful(k, Light, onOff, Continuous))
    else if k == "powerflash_mode_1" then
      Some(Stateful(k, Switch, {OnOffCapability, AllLightsCapability}, AlarmSequence))
    else if k == "powerflash_mode_2" then
      Some(Momentarily(k, Switch, {AllLightsCapability}, ON_OFF, ON_OFF, true, AlarmSequence))
    else if k == "powerflash_mode_3" then Some(Stateful(k, Switch, onOff, Continuous))
    else if k == "powerhorn" then
      assert On in {On, Off, Dim, Bright, AllLightsOn, AllUnitsOff};
      Some(Momentarily(k, Chime, {ActionCapability, AllLightsCapability},
                       {On, Off, Dim, Bright, AllLightsOn, AllUnitsOff}, ON_OFF, false, AlarmSequence))
    else if k == "rr501_unit_1" then Some(Stateful(k, Switch, onOff, Continuous))
    else if k == "rr501_unit_9" then Some(Stateful(k, Switch, onOff, Continuous))
    else if k == "grouped_address_function" then Some(Stateful(k, Switch, onOff, Continuous))
    else None
  }

  function GetProfile(id: string): Option<Profile> {
    Lookup(Lower(Strip(id)))
  }

  /** `replace(device, ...)` re-runs `__post_init__` on the copy. */
  function ApplyProfile(d: DeviceConfig, p: Profile): DeviceConfig {
    PostInit(d.(profile := Some(p.id), entityType := p.entityType, capabilities := p.capabilities,
                supported := p.supported, stateful := p.stateful, repeatable := p.repeatable,
                allLightsOn := p.allLightsOn, allLightsOff := p.allLightsOff, allUnitsOff := p.allUnitsOff,
                learned := p.learned, mode := p.mode))
  }
}
