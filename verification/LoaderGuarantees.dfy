/** The configuration loader meets the assumptions that the state manager, the queue and discovery make about devices. */
module LoaderGuarantees {
  import opened Text
  import opened Models
  import opened Addresses
  import opened ConfigFile
  import JsonValues
  import CommandQueue
  import StateDetails
  import Topics
  import Discovery

  lemma LoadedIsWellConfigured(d: DeviceConfig, friendly: bool)
    requires Loaded(d, friendly)
    ensures d.stateful ==> d.supported <= LIGHT_COMMANDS
  {
  }

  /** Devices from any accepted source: stateful ones support only ON, OFF, DIM and BRIGHT, and repeats are bounded. */
  lemma LoaderGuaranteesDevices(fields: seq<(string, JsonValues.Json)>, envFriendly: bool, env: Option<string>)
    ensures var r := Load(fields, envFriendly, env);
            r.Ok? ==> StateDetails.WellConfigured(r.value.devices) && CommandQueue.Bounded(r.value.devices)
  {
    LoadLoads(fields, envFriendly, env);
    var r := Load(fields, envFriendly, env);
    if r.Ok? {
      forall a | a in r.value.devices
        ensures r.value.devices[a].stateful ==> r.value.devices[a].supported <= LIGHT_COMMANDS
      {
        LoadedIsWellConfigured(r.value.devices[a], r.value.friendly);
      }
    }
  }

  /** Whatever a loader-built device is, it can be switched on; a chime has no state; and a device with a state can be
      switched off and is dimmable exactly when it claims to be. Without a profile, lights and only lights dim and follow
      ALL LIGHTS ON and ALL LIGHTS OFF. */
  lemma CapabilitiesFit(d: DeviceConfig)
    requires Derived(d)
    ensures On in d.supported && (d.entityType.Chime? ==> !d.stateful)
    ensures d.stateful ==> Off in d.supported && (DimCapability in d.capabilities <==> Dim in d.supported)
    ensures d.profile == None ==>
      && (Dim in d.supported <==> d.entityType.Light?) && (d.allLightsOn <==> d.entityType.Light?)
      && (d.allLightsOff <==> d.entityType.Light?) && d.allUnitsOff && (d.stateful <==> !d.entityType.Chime?)
  {
  }

  lemma StatelessProfiles(d: DeviceConfig)
    requires Derived(d)
    ensures !d.stateful && !d.entityType.Chime?
       <==> d.profile == Some("um506_momentary") || d.profile == Some("powerflash_mode_2")
  {
  }

  lemma LoadedName(d: DeviceConfig, friendly: bool)
    requires Loaded(d, friendly)
    ensures Strip(d.name) != ""
  {
    CanonicalIsNormal(d.address);
    if friendly {
      TrimmedIsFixed(SPACES, d.name);
    } else {
      assert |Normal(d.name)| == |Strip(d.name)|;
    }
  }

  /** With a one-segment discovery prefix, discovery fails for exactly two kinds of loader-built device: the momentary
      UM506 and the PowerFlash in mode 2. */
  lemma DiscoveryRefusesExactlyTwoProfiles(d: DeviceConfig, friendly: bool, prefix: string, base: string)
    requires Loaded(d, friendly) && Topics.CleanSegment(base).Some?
    requires Topics.CleanSegment(prefix).Some? && '/' !in Topics.CleanSegment(prefix).value
    ensures Discovery.DiscoveryMessage(d, prefix, base).Err?
       <==> d.profile == Some("um506_momentary") || d.profile == Some("powerflash_mode_2")
  {
    LoadedName(d, friendly);
    CanonicalIsNormal(d.address);
    Discovery.DiscoverySucceedsExactly(d, prefix, base);
    StatelessProfiles(d);
  }
}
