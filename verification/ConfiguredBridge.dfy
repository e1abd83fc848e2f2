/** From configuration files and mochad lines to the bridge's theorems: what the loader and the parser guarantee is all
    that the theorems assume. */
module ConfiguredBridge {
  import opened Text
  import opened Models
  import opened Addresses
  import opened StateSpec
  import opened JsonValues
  import opened ConfigFile
  import opened LoaderGuarantees
  import opened BridgeSystem
  import opened BridgeRuns
  import opened BridgeDiscovery
  import opened BridgeAgreement
  import opened BridgeLimits
  import opened BridgeRestating
  import ParserGuarantees
  import ProtocolParser
  import StateDetails
  import StateMeaning
  import HouseCodes
  import CommandQueue
  import Discovery

  /** _address_allowed_by_config */
  predicate InHouses(codes: Option<set<string>>, a: string) {
    codes.Some? ==> Normal(a) != "" && Normal(a)[..1] in codes.value
  }

  /** The devices the bridge takes over from a configuration, at construction and on reload. */
  function Kept(devices: Devices, codes: Option<set<string>>): Devices {
    map a | a in devices && InHouses(codes, a) :: devices[a]
  }

  /** Discovery is generated for every device of the configuration. */
  predicate Announceable(devices: Devices) {
    forall a :: a in devices ==>
      devices[a].profile != Some("um506_momentary") && devices[a].profile != Some("powerflash_mode_2")
  }

  lemma LoadedIsDiscoverable(devices: Devices, friendly: bool, prefix: string, base: string)
    requires AllLoaded(devices, friendly) && Announceable(devices) && UsableTopics(prefix, base)
    ensures Discoverable(devices, prefix, base)
  {
    forall a | a in devices
      ensures Discovery.DiscoveryMessage(devices[a], prefix, base).Ok?
    {
      DiscoveryRefusesExactlyTwoProfiles(devices[a], friendly, prefix, base);
    }
  }

  // What the state manager gets.

  ghost predicate AllGood(list: seq<DeviceConfig>) {
    forall d :: d in list ==> Canonical(d.address) && (d.stateful ==> d.supported <= LIGHT_COMMANDS)
  }

  lemma {:induction false} ConfigureIsGood(s: Manager, list: seq<DeviceConfig>)
    requires AllGood(list) && CanonicalKeys(s) && StateDetails.WellConfigured(s.configs)
    ensures CanonicalKeys(Configure(s, list)) && StateDetails.WellConfigured(Configure(s, list).configs)
    decreases |list|
  {
    if list != [] {
      assert list[0] in list && AllGood(list[1..]);
      CanonicalIsNormal(list[0].address);
      if AddressAllowed(s, list[0].address) {
        var n := Normal(list[0].address);
        ConfigureIsGood(Ensure(s.(configs := s.configs[n := list[0]]), n), list[1..]);
      } else {
        ConfigureIsGood(s, list[1..]);
      }
    }
  }

  lemma ListedAreGood(list: seq<DeviceConfig>, devices: Devices, friendly: bool)
    requires AllLoaded(devices, friendly) && Lists(list, devices)
    ensures AllGood(list)
  {
    forall d | d in list
      ensures Canonical(d.address) && (d.stateful ==> d.supported <= LIGHT_COMMANDS)
    {
      assert devices[d.address] == d;
      LoadedIsWellConfigured(d, friendly);
    }
  }

  /** The bridge as it is constructed from accepted settings. */
  ghost predicate ConstructedFrom(w: World, s: Settings, codes: Option<set<string>>) {
    && w.devices == Kept(s.devices, codes) && UsableTopics(w.prefix, w.base)
    && exists list, optimistic :: Lists(list, w.devices) && w.manager == Create(list, optimistic, codes)
  }

  /** A bridge constructed from any accepted configuration: the addresses are canonical, a stateful device supports only
      ON, OFF, DIM and BRIGHT, and repeats are bounded. */
  lemma ConfiguredIsCanonical(fields: seq<(string, Json)>, envFriendly: bool, env: Option<string>, s: Settings,
                              codes: Option<set<string>>, w: World)
    requires Load(fields, envFriendly, env) == Ok(s) && ConstructedFrom(w, s, codes)
    ensures CanonicalKeys(w.manager) && StateDetails.WellConfigured(w.manager.configs) && CommandQueue.Bounded(w.devices)
    ensures AllLoaded(w.devices, s.friendly)
  {
    LoadLoads(fields, envFriendly, env);
    var list, optimistic :| Lists(list, w.devices) && w.manager == Create(list, optimistic, codes);
    ListedAreGood(list, w.devices, s.friendly);
    ConfigureIsGood(Empty(optimistic, codes), list);
  }

  /** Without the two refused profiles it meets the assumptions of every theorem. */
  lemma ConfiguredIsWelcoming(fields: seq<(string, Json)>, envFriendly: bool, env: Option<string>, s: Settings,
                              codes: Option<set<string>>, w: World)
    requires Load(fields, envFriendly, env) == Ok(s) && ConstructedFrom(w, s, codes) && Announceable(w.devices)
    ensures Welcoming(w) && StateDetails.WellConfigured(w.manager.configs) && CommandQueue.Bounded(w.devices)
  {
    ConfiguredIsCanonical(fields, envFriendly, env, s, codes, w);
    LoadedIsDiscoverable(w.devices, s.friendly, w.prefix, w.base);
  }

  // What happens to it.

  /** The event was parsed from some stream of lines. */
  ghost predicate Parsed(event: Option<Event>) {
    exists lines: seq<ProtocolParser.Input>, k: nat ::
      k < |lines| && event == ProtocolParser.ParseAll(ProtocolParser.FRESH, lines).results[k]
  }

  /** The devices come from some accepted configuration. */
  ghost predicate Reloaded(devices: Devices, codes: Option<set<string>>) {
    exists fields, envFriendly, env ::
      Load(fields, envFriendly, env).Ok? && devices == Kept(Load(fields, envFriendly, env).value.devices, codes)
  }

  /** The move comes from the parser, the loader or the network. */
  ghost predicate Sourced(m: Move, codes: Option<set<string>>) {
    && (m.MochadLine? ==> Parsed(m.event))
    && (m.Reload? ==> Reloaded(m.devices, codes))
  }

  lemma ParsedIsRegular(w: World, m: Move)
    requires m.MochadLine? && Parsed(m.event)
    ensures Regular(w, m)
  {
    var lines: seq<ProtocolParser.Input>, k: nat :|
      k < |lines| && m.event == ProtocolParser.ParseAll(ProtocolParser.FRESH, lines).results[k];
    ParserGuarantees.ParserFeedsTheBridge(lines, k, m.now);
  }

  lemma ReloadedIsRegular(w: World, m: Move, codes: Option<set<string>>)
    requires m.Reload? && Reloaded(m.devices, codes) && Announceable(m.devices) && UsableTopics(w.prefix, w.base)
    ensures Regular(w, m)
  {
    var fields, envFriendly, env :|
      Load(fields, envFriendly, env).Ok? && m.devices == Kept(Load(fields, envFriendly, env).value.devices, codes);
    LoadLoads(fields, envFriendly, env);
    LoadedIsDiscoverable(m.devices, Load(fields, envFriendly, env).value.friendly, w.prefix, w.base);
  }

  lemma SourcedIsRegular(w: World, m: Move, codes: Option<set<string>>)
    requires Sourced(m, codes) && (m.Reload? ==> Announceable(m.devices)) && UsableTopics(w.prefix, w.base)
    ensures Regular(w, m)
  {
    if m.MochadLine? {
      ParsedIsRegular(w, m);
    } else if m.Reload? {
      ReloadedIsRegular(w, m, codes);
    }
  }

  /** From configuration text and mochad lines to the broker: whatever configurations without the two refused profiles were
      accepted and whatever arrives, on a living session the broker shows the current state of every device that has one,
      as long as no direct send has failed since the last MQTT connect; and every MQTT connect on a living session makes it
      so. */
  lemma ConfiguredBridgeAgrees(fields: seq<(string, Json)>, envFriendly: bool, env: Option<string>, s: Settings,
                               codes: Option<set<string>>, w: World, moves: seq<Move>)
    requires Load(fields, envFriendly, env) == Ok(s) && ConstructedFrom(w, s, codes) && Unused(w)
    requires forall m :: m in moves ==> Sourced(m, codes)
    requires Announceable(w.devices) && forall m :: m in moves ==> m.Reload? ==> Announceable(m.devices)
    ensures var u := RunMoves(Course(w, false), moves).world;
            && (u.phase.Running? && u.link && !Since(w, moves, SendBreaks) ==> Agrees(u))
            && (u.phase.FlagSet? && u.link ==> Agrees(Next(u, Connected)))
  {
    ConfiguredIsWelcoming(fields, envFriendly, env, s, codes, w);
    forall m | m in moves
      ensures Regular(w, m)
    {
      SourcedIsRegular(w, m, codes);
    }
    var u := RunMoves(Course(w, false), moves).world;
    if u.phase.Running? && u.link && !Since(w, moves, SendBreaks) {
      AgreementUntilASendFails(w, moves);
    }
    if u.phase.FlagSet? && u.link {
      EveryConnectRestoresAgreement(w, moves);
    }
  }

  /** And with any profiles, a connect restores agreement if and only if every device that has a state comes before the
      first refused one or is already shown right. */
  lemma ConfiguredConnectAgreesExactly(fields: seq<(string, Json)>, envFriendly: bool, env: Option<string>, s: Settings,
                                       codes: Option<set<string>>, w: World, moves: seq<Move>)
    requires Load(fields, envFriendly, env) == Ok(s) && ConstructedFrom(w, s, codes) && Unused(w)
    requires forall m :: m in moves ==> Sourced(m, codes)
    requires var u := RunMoves(Course(w, false), moves).world; u.phase.FlagSet? && u.link
    ensures var u := RunMoves(Course(w, false), moves).world;
            Agrees(Next(u, Connected)) <==> forall a :: a in u.manager.devices ==> Settled(u, a)
  {
    ConfiguredIsCanonical(fields, envFriendly, env, s, codes, w);
    forall m | m in moves
      ensures Named(m)
    {
      if m.MochadLine? {
        ParsedIsRegular(w, m);
      }
    }
    EveryConnectAgreesExactly(w, moves);
  }

  // Limits.

  lemma SourcedIsBounded(m: Move, codes: Option<set<string>>)
    requires Sourced(m, codes)
    ensures m.Reload? ==> CommandQueue.Bounded(m.devices)
  {
    if m.Reload? {
      var fields, envFriendly, env :|
        Load(fields, envFriendly, env).Ok? && m.devices == Kept(Load(fields, envFriendly, env).value.devices, codes);
      LoadLoads(fields, envFriendly, env);
    }
  }

  lemma SourcedIsFromParser(m: Move, codes: Option<set<string>>)
    requires Sourced(m, codes)
    ensures FromParser(m)
  {
    if m.MochadLine? {
      var lines: seq<ProtocolParser.Input>, k: nat :|
        k < |lines| && m.event == ProtocolParser.ParseAll(ProtocolParser.FRESH, lines).results[k];
      ParserGuarantees.ParserFeedsTheBridge(lines, k, m.now);
    }
  }

  /** Whatever configuration was accepted and whatever arrives: any flush writes at most 500 lines and sleeps at most 2000
      seconds, every state of the manager is ON, OFF or DIM, and so is every state the bridge has put on the broker. */
  lemma ConfiguredBridgeStaysInBounds(fields: seq<(string, Json)>, envFriendly: bool, env: Option<string>, s: Settings,
                                      codes: Option<set<string>>, w: World, moves: seq<Move>, accepts: nat)
    requires Load(fields, envFriendly, env) == Ok(s) && ConstructedFrom(w, s, codes) && Unused(w)
    requires forall m :: m in moves ==> Sourced(m, codes)
    ensures var u := RunMoves(Course(w, false), moves).world;
            var p := CommandQueue.FlushJobs(CommandQueue.Jobs(u.devices, u.queue.waiting), accepts);
            && |p.written| <= 500 && p.slept <= 2000 * 1000
            && StateDetails.AllDisplayable(u.manager) && Displayed(w.states, u.states)
  {
    ConfiguredIsCanonical(fields, envFriendly, env, s, codes, w);
    forall m | m in moves
      ensures FromParser(m) && (m.Reload? ==> CommandQueue.Bounded(m.devices))
    {
      SourcedIsBounded(m, codes);
      SourcedIsFromParser(m, codes);
    }
    EveryFlushIsBounded(w, moves, accepts);
    OnlyDisplayableStatesAreShown(w, moves);
  }

  // Reloads that end the bridge.

  lemma RefusedProfileRaises(w: World, devices: Devices, friendly: bool)
    requires AllLoaded(devices, friendly) && UsableTopics(w.prefix, w.base)
    ensures DiscoveryRaises(w.(devices := devices)) <==> !Announceable(devices)
  {
    forall a | a in devices
      ensures Discovery.DiscoveryMessage(devices[a], w.prefix, w.base).Err? <==>
        devices[a].profile == Some("um506_momentary") || devices[a].profile == Some("powerflash_mode_2")
    {
      DiscoveryRefusesExactlyTwoProfiles(devices[a], friendly, w.prefix, w.base);
    }
  }

  /** A reload from an accepted configuration ends the bridge if and only if it changes something, MQTT is up, and a device
      has one of the two refused profiles. */
  lemma ReloadEndsTheBridgeExactly(fields: seq<(string, Json)>, envFriendly: bool, env: Option<string>, s: Settings,
                                   codes: Option<set<string>>, w: World, renamed: bool)
    requires Load(fields, envFriendly, env) == Ok(s) && UsableTopics(w.prefix, w.base)
    ensures var devices := Kept(s.devices, codes);
            ReloadRaises(w, devices, renamed) <==>
              (devices != w.devices || renamed) && Flagged(w) && !Announceable(devices)
  {
    LoadLoads(fields, envFriendly, env);
    RefusedProfileRaises(w, Kept(s.devices, codes), s.friendly);
  }

  // The two places where devices are filtered by house.

  /** House codes as the configuration delivers them: none at all, or some upper-case letters. */
  ghost predicate AreHouses(codes: Option<set<string>>) {
    codes.Some? ==> codes.value != {} && forall c :: c in codes.value ==> |c| == 1 && IsHouse(c[0])
  }

  /** They do. */
  lemma ListDeliversHouses(raw: Option<string>)
    requires HouseCodes.ParseHouseCodes(raw).Ok?
    ensures AreHouses(HouseCodes.Letters(HouseCodes.ParseHouseCodes(raw).value))
  {
    HouseCodes.CodesAreHouses(raw);
    var codes := HouseCodes.ParseHouseCodes(raw).value;
    if codes.Some? {
      var c :| c in codes.value;
      assert [c] in HouseCodes.Letters(codes).value;
    }
  }

  lemma HousesAreHeard(codes: Option<set<string>>, a: string)
    requires AreHouses(codes) && Canonical(a)
    ensures InHouses(codes, a) <==> (StateMeaning.Restrictive(codes) ==> StateMeaning.Lists(codes, a[..1]))
  {
    CanonicalIsNormal(a);
    if codes.Some? {
      forall c | c in codes.value
        ensures Strip(c) == c && Normal(c) == c
      {
        HouseIsPlain(c[0]);
        TrimmedIsFixed(SPACES, c);
        assert Upper(c) == c;
      }
      var c :| c in codes.value;
      assert StateMeaning.Restrictive(codes);
    }
  }

  /** The bridge's own devices and the state manager's configurations are the same, and both hold exactly the configured
      devices whose house is one of the codes, or all if there are none. */
  lemma FiltersAgree(devices: Devices, friendly: bool, list: seq<DeviceConfig>, optimistic: bool, codes: Option<set<string>>)
    requires AllLoaded(devices, friendly) && Lists(list, devices) && AreHouses(codes)
    ensures Create(list, optimistic, codes).configs == Kept(devices, codes)
    ensures forall a :: a in Kept(devices, codes) <==> a in devices && (codes.Some? ==> a[..1] in codes.value)
  {
    var s := Create(list, optimistic, codes);
    forall a
      ensures a in s.configs <==> a in Kept(devices, codes)
      ensures a in Kept(devices, codes) ==> s.configs[a] == devices[a]
      ensures a in Kept(devices, codes) <==> a in devices && (codes.Some? ==> a[..1] in codes.value)
    {
      StateMeaning.ConfiguredExactly(list, optimistic, codes, a);
      if a in devices {
        HousesAreHeard(codes, a);
        CanonicalIsNormal(a);
        var k: nat :| k < |list| && list[k] == devices[a];
        ListedOnce(devices, friendly, list, codes, k);
      } else {
        NotListed(devices, friendly, list, codes, a);
      }
    }
  }

  /** A listed device is the last of its address. */
  lemma ListedOnce(devices: Devices, friendly: bool, list: seq<DeviceConfig>, codes: Option<set<string>>, k: nat)
    requires AllLoaded(devices, friendly) && Lists(list, devices) && k < |list|
    ensures var a := list[k].address;
            (exists j: nat :: StateMeaning.Configures(list, codes, j, a))
            <==> (StateMeaning.Restrictive(codes) ==> StateMeaning.Lists(codes, a[..1]))
    ensures forall j: nat :: StateMeaning.Configures(list, codes, j, list[k].address) ==> j == k
  {
    var a := list[k].address;
    forall j | 0 <= j < |list|
      ensures Normal(list[j].address) == list[j].address
    {
      assert list[j] in list;
      CanonicalIsNormal(list[j].address);
    }
    if StateMeaning.Restrictive(codes) ==> StateMeaning.Lists(codes, a[..1]) {
      assert StateMeaning.Configures(list, codes, k, a);
    }
  }

  lemma NotListed(devices: Devices, friendly: bool, list: seq<DeviceConfig>, codes: Option<set<string>>, a: string)
    requires AllLoaded(devices, friendly) && Lists(list, devices) && a !in devices
    ensures forall j: nat :: !StateMeaning.Configures(list, codes, j, a)
  {
    forall j: nat | j < |list|
      ensures Normal(list[j].address) != a
    {
      assert list[j] in list;
      CanonicalIsNormal(list[j].address);
    }
  }
}
