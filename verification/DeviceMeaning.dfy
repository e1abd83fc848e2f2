/** What a device configuration means, field by field: which texts and JSON values are accepted, and as what. */
module DeviceMeaning {
  import opened Text
  import opened Models
  import opened Addresses
  import opened Profiles
  import opened DeviceParsers
  import opened JsonValues
  import opened ConfigFile

  // The profile table.

  /** The identifiers on record. */
  const PROFILES: set<string> := STATEFUL + STATELESS

  const STATEFUL: set<string> := {
    "generic_switch", "generic_light", "lm15a_socket_rocket", "um506_continuous", "ms13a_motion", "ms14a_motion",
    "ms16a_activeeye", "pr511_motion_monitor", "powerflash_mode_1", "powerflash_mode_3", "rr501_unit_1", "rr501_unit_9",
    "grouped_address_function"
  }

  const STATELESS: set<string> := {"um506_momentary", "sc546a_chime", "powerflash_mode_2", "powerhorn"}

  /** The seventeen profiles: which exist and which keep a state. */
  lemma ProfilesExactly(k: string)
    ensures Lookup(k).Some? <==> k in PROFILES
    ensures Lookup(k).Some? ==> (Lookup(k).value.stateful <==> k in STATEFUL)
  {
  }

  /** Which are lights, which are chimes, and which obey the house-wide commands. */
  lemma ProfileKinds(k: string)
    requires k in PROFILES
    ensures var p := Lookup(k).value;
            && (p.entityType.Light? <==> k in {"generic_light", "lm15a_socket_rocket", "pr511_motion_monitor"})
            && (p.entityType.Chime? <==> k in {"sc546a_chime", "powerhorn"})
            && (p.allLightsOn <==> k in {"generic_light", "lm15a_socket_rocket"}) && p.allLightsOff == p.allLightsOn
            && (p.allUnitsOff <==> k !in {"sc546a_chime", "powerhorn"})
  {
    ProfilesExactly(k);
  }

  /** Which can be dimmed, which cannot be switched off, and which learn. */
  lemma ProfileCommands(k: string)
    requires k in PROFILES
    ensures var p := Lookup(k).value;
            && (Dim in p.supported <==> k in {"generic_light", "powerhorn"}) && (Bright in p.supported <==> Dim in p.supported)
            && (Off in p.supported <==> k !in {"um506_momentary", "sc546a_chime"})
            && (p.learned <==> k == "lm15a_socket_rocket")
  {
    ProfilesExactly(k);
  }

  /** A device with a profile has the profile's traits, whatever type was written beside it. */
  lemma ProfileIsApplied(d: DeviceConfig)
    requires Derived(d) && d.profile.Some?
    ensures d.profile.value in PROFILES
    ensures var p := Lookup(d.profile.value).value;
            && d.entityType == p.entityType && d.stateful == p.stateful && d.supported == p.supported
            && d.allLightsOn == p.allLightsOn && d.allLightsOff == p.allLightsOff && d.allUnitsOff == p.allUnitsOff
            && d.capabilities == p.capabilities && d.repeatable == p.repeatable && d.learned == p.learned && d.mode == p.mode
  {
    ProfilesExactly(d.profile.value);
  }

  // One device.

  /** An optional number: written, or the default. */
  ghost predicate NumberIs(text: Option<string>, default: int, n: int) {
    if text.Some? then ParseInt(text.value) == Some(n) else n == default
  }

  /** A type or, failing that, a profile. */
  ghost predicate KindIs(text: string, d: DeviceConfig) {
    var k := Keyword(text);
    if k == "light" then d.entityType.Light? && d.profile == None
    else if k == "switch" then d.entityType.Switch? && d.profile == None
    else if k == "chime" then d.entityType.Chime? && d.profile == None
    else d.profile == Some(k)
  }

  predicate IsType(text: string) {
    Keyword(text) == "light" || Keyword(text) == "switch" || Keyword(text) == "chime"
  }

  /** The name is the given one, stripped, if there is a visible one and friendly names are wanted; else the address. */
  ghost predicate NameIs(name: Option<string>, friendly: bool, d: DeviceConfig) {
    if friendly && name.Some? && Strip(name.value) != "" then d.name == Strip(name.value) else d.name == d.address
  }

  /** The repeats and the delay are as written, or 1 and 150, and within their limits. */
  ghost predicate NumbersAre(repeats: Option<string>, delay: Option<string>, d: DeviceConfig) {
    && NumberIs(repeats, 1, d.repeats) && 1 <= d.repeats <= 5
    && NumberIs(delay, 150, d.repeatDelayMs) && 0 <= d.repeatDelayMs <= 5000
  }

  lemma BuiltWithProfile(a: string, name: string, t: DeviceType, repeats: Option<string>, delay: Option<string>,
                         id: string, d: DeviceConfig)
    ensures BuildDevice(a, name, t, repeats, delay, Some(id)) == Ok(d)
       <==> d.address == a && d.name == name && Derived(d) && NumbersAre(repeats, delay, d) && d.profile == Some(Keyword(id))
  {
    BuiltIsDerived(a, name, t, repeats, delay, Some(id));
    KeywordIdempotent(id);
    if Lookup(Keyword(id)).Some? {
      var p := Lookup(Keyword(id)).value;
      ApplyForgetsType(a, name, t, p.entityType, d.repeats, d.repeatDelayMs, p);
    }
  }

  /** A device is built exactly if its numbers are in range and its profile is on record. */
  lemma BuiltExactly(a: string, name: string, t: DeviceType, repeats: Option<string>, delay: Option<string>,
                     profile: Option<string>, d: DeviceConfig)
    ensures BuildDevice(a, name, t, repeats, delay, profile) == Ok(d)
       <==> && d.address == a && d.name == name && Derived(d) && NumbersAre(repeats, delay, d)
            && (if profile.Some? then d.profile == Some(Keyword(profile.value)) else d.profile == None && d.entityType == t)
  {
    if profile.Some? {
      BuiltWithProfile(a, name, t, repeats, delay, profile.value, d);
    }
  }

  lemma NameExactly(a: string, name: Option<string>, friendly: bool, d: DeviceConfig)
    requires d.address == a
    ensures d.name == DisplayName(a, name, friendly) <==> NameIs(name, friendly, d)
  {
  }

  /** No profile is called like a type. */
  lemma TypesAreNoProfiles(s: string)
    requires IsType(s)
    ensures Lookup(Keyword(s)) == None
  {
  }

  /** A device read through a text that may name a type or a profile. */
  lemma KindExactly(a: string, name: string, text: string, repeats: Option<string>, delay: Option<string>, d: DeviceConfig)
    ensures (ParseTypeOrProfile(text).Ok?
             && var (t, profile) := ParseTypeOrProfile(text).value; BuildDevice(a, name, t, repeats, delay, profile) == Ok(d))
       <==> d.address == a && d.name == name && Derived(d) && NumbersAre(repeats, delay, d) && KindIs(text, d)
  {
    var k := Keyword(text);
    KeywordIdempotent(text);
    if IsType(text) {
      TypesAreNoProfiles(text);
      BuiltExactly(a, name, ParseType(text).value, repeats, delay, None, d);
    } else if Lookup(k).Some? {
      BuiltExactly(a, name, Lookup(k).value.entityType, repeats, delay, Some(k), d);
    }
  }

  // Entries of X10_DEVICES.

  /** What the colon-separated parts of an entry say: address, name, type or profile, repeats, delay. */
  ghost predicate PartsSay(parts: seq<string>, friendly: bool, d: DeviceConfig)
    requires |parts| >= 1
  {
    && |parts| <= 5 && Canonical(d.address) && d.address == Normal(parts[0]) && Derived(d)
    && NameIs(if |parts| > 1 then Some(parts[1]) else None, friendly, d)
    && (if |parts| > 2 then KindIs(parts[2], d) else d.entityType.Switch? && d.profile == None)
    && NumbersAre(if |parts| > 3 && parts[3] != "" then Some(parts[3]) else None,
                  if |parts| > 4 && parts[4] != "" then Some(parts[4]) else None, d)
  }

  lemma PartsMean(parts: seq<string>, friendly: bool, d: DeviceConfig)
    requires |parts| >= 1
    ensures ReadParts(parts, friendly) == Ok(d) <==> PartsSay(parts, friendly, d)
  {
    var a := Normal(parts[0]);
    var given := if |parts| > 1 then Some(parts[1]) else None;
    var name := DisplayName(a, given, friendly);
    if d.address == a {
      NameExactly(a, given, friendly, d);
    }
    if |parts| <= 2 {
      BuiltExactly(a, name, Switch, None, None, None, d);
    } else {
      KindExactly(a, name, parts[2], if |parts| >= 4 then NonBlank(parts[3]) else None,
                  if |parts| >= 5 then NonBlank(parts[4]) else None, d);
    }
  }

  /** An entry is read as a device exactly if its parts say so; blank entries, and only they, are skipped. */
  lemma EntryMeans(entry: string, friendly: bool, d: DeviceConfig)
    ensures ReadEntry(entry, friendly) == Ok(None) <==> Strip(entry) == ""
    ensures ReadEntry(entry, friendly) == Ok(Some(d))
       <==> Strip(entry) != "" && PartsSay(StripEach(Split(Strip(entry), ':')), friendly, d)
  {
    PartsMean(StripEach(Split(Strip(entry), ':')), friendly, d);
  }

  /** A device that nobody configured is treated like one configured by its address alone. */
  lemma UnconfiguredIsBare(a: string, friendly: bool)
    requires Canonical(a)
    ensures ReadEntry(a, friendly) == Ok(Some(DefaultDevice(a)))
  {
    CanonicalIsNormal(a);
    assert Strip(a) == a by {
      DisplayNameFits(a, None, true);
      TrimmedIsFixed(SPACES, a);
    }
    assert ':' !in a;
    SplitWithout(a, ':');
    assert StripEach([a]) == [a];
    EntryMeans(a, friendly, DefaultDevice(a));
  }

  // Objects of the config file.

  /** The text under a key or, failing that, under another. */
  function Under(fields: seq<(string, Json)>, key: string, other: string): Option<string> {
    if Field(fields, key).Some? then Some(PyStr(Field(fields, key).value))
    else if Field(fields, other).Some? then Some(PyStr(Field(fields, other).value))
    else None
  }

  /** What the fields of an object say about a device. A null name or profile counts as none. Beside a profile only a plain
      type is allowed, and it is not used. */
  ghost predicate FieldsSay(fields: seq<(string, Json)>, friendly: bool, d: DeviceConfig) {
    var name, profile, kind := Field(fields, "name"), Field(fields, "profile"), Under(fields, "type", "entity_type");
    var text := if kind.Some? then kind.value else "switch";
    && Derived(d)
    && NameIs(if name.Some? && name.value != Null then Some(PyStr(name.value)) else None, friendly, d)
    && NumbersAre(Under(fields, "command_repeats", "repeats"), Under(fields, "command_repeat_delay_ms", "repeat_delay_ms"), d)
    && (if profile.Some? && profile.value != Null then IsType(text) && d.profile == Some(Keyword(PyStr(profile.value)))
        else KindIs(text, d))
  }

  lemma DetailsMean(a: string, fields: seq<(string, Json)>, friendly: bool, d: DeviceConfig)
    ensures ReadDetails(a, fields, friendly) == Ok(d) <==> d.address == a && FieldsSay(fields, friendly, d)
  {
    var name, profile := Field(fields, "name"), Field(fields, "profile");
    var given := if Given(name) then Some(PyStr(name.value)) else None;
    var repeats := Under(fields, "command_repeats", "repeats");
    var delay := Under(fields, "command_repeat_delay_ms", "repeat_delay_ms");
    var text := TypeText(fields);
    var shown := DisplayName(a, given, friendly);
    if d.address == a {
      NameExactly(a, given, friendly, d);
    }
    if !Given(profile) {
      KindExactly(a, shown, text, repeats, delay, d);
    } else if IsType(text) {
      BuiltExactly(a, shown, ParseType(text).value, repeats, delay, Some(PyStr(profile.value)), d);
    }
  }

  /** A list item is read as a device exactly if it is an object, gives an address, and its fields say so. */
  lemma ItemMeans(j: Json, friendly: bool, d: DeviceConfig)
    ensures ReadItem(j, friendly) == Ok(Some(d))
       <==> && j.Object? && Canonical(d.address) && FieldsSay(j.fields, friendly, d)
            && Field(j.fields, "address").Some? && d.address == Normal(PyStr(Field(j.fields, "address").value))
    ensures ReadItem(j, friendly) != Ok(None)
  {
    if j.Object? {
      var address := Field(j.fields, "address");
      var given := if address.Some? then PyStr(address.value) else "";
      assert Normal("") == "";
      if NormalizeAddress(given).Some? {
        DetailsMean(Normal(given), j.fields, friendly, d);
        ReadItemIsDetails(j, friendly, Normal(given));
      }
    }
  }

  lemma ReadItemIsDetails(j: Json, friendly: bool, a: string)
    requires j.Object? && Field(j.fields, "address").Some?
    requires NormalizeAddress(PyStr(Field(j.fields, "address").value)) == Some(a)
    ensures var r := ReadDetails(a, j.fields, friendly);
            ReadItem(j, friendly) == if r.Ok? then Ok(Some(r.value)) else Err(r.error)
  {
  }

  /** A field named by its address is read as a device exactly if it holds a name, and then the device is a plain switch,
      or an object whose fields say so. */
  lemma FieldMeans(f: (string, Json), friendly: bool, d: DeviceConfig)
    ensures ReadField(f, friendly) == Ok(Some(d))
       <==> && Canonical(d.address) && d.address == Normal(f.0) && Derived(d)
            && if f.1.Text? then NameIs(Some(f.1.s), friendly, d) && d.entityType.Switch? && d.profile == None
                                 && d.repeats == 1 && d.repeatDelayMs == 150
               else f.1.Object? && FieldsSay(f.1.fields, friendly, d)
    ensures ReadField(f, friendly) != Ok(None)
  {
    match f.1
    case Text(name) => NamedField(f.0, name, friendly, d);
    case Object(fields, shown) => ObjectField(f.0, fields, shown, friendly, d);
    case _ =>
  }

  lemma ObjectField(key: string, fields: seq<(string, Json)>, shown: string, friendly: bool, d: DeviceConfig)
    ensures ReadField((key, Object(fields, shown)), friendly) == Ok(Some(d))
       <==> Canonical(d.address) && d.address == Normal(key) && FieldsSay(fields, friendly, d)
    ensures ReadField((key, Object(fields, shown)), friendly) != Ok(None)
  {
    DetailsMean(Normal(key), fields, friendly, d);
    FieldIsDetails(key, fields, shown, friendly);
  }

  lemma FieldIsDetails(key: string, fields: seq<(string, Json)>, shown: string, friendly: bool)
    ensures var r := ReadField((key, Object(fields, shown)), friendly);
            if !Canonical(Normal(key)) then r == Err(BadAddress)
            else var details := ReadDetails(Normal(key), fields, friendly);
                 r == if details.Ok? then Ok(Some(details.value)) else Err(details.error)
  {
  }

  lemma NamedField(key: string, name: string, friendly: bool, d: DeviceConfig)
    ensures ReadField((key, Text(name)), friendly) == Ok(Some(d))
       <==> && Canonical(d.address) && d.address == Normal(key) && Derived(d) && NameIs(Some(name), friendly, d)
            && d.entityType.Switch? && d.profile == None && d.repeats == 1 && d.repeatDelayMs == 150
    ensures ReadField((key, Text(name)), friendly) != Ok(None)
  {
    var a := Normal(key);
    if d.address == a {
      NameExactly(a, Some(name), friendly, d);
    }
    BuiltExactly(a, DisplayName(a, Some(name), friendly), Switch, None, None, None, d);
  }

  // Whole configurations.

  /** The devices come from exactly one place: `devices`, else `x10_devices`, else the environment; never both of the
      first two. The flag is a boolean or one of eight words, else the environment's. */
  lemma SettingsMean(fields: seq<(string, Json)>, envFriendly: bool, env: Option<string>, s: Settings)
    ensures Load(fields, envFriendly, env) == Ok(s)
       <==> && (match Field(fields, "use_friendly_names")
                case None => s.friendly == envFriendly
                case Some(Bool(b)) => s.friendly == b
                case Some(Text(t)) =>
                  (if s.friendly then Keyword(t) in {"1", "true", "yes", "on"} else Keyword(t) in {"0", "false", "no", "off"})
                case _ => false)
            && (Field(fields, "devices").Some? ==>
                  && Field(fields, "x10_devices") == None
                  && FromJson(Field(fields, "devices").value, s.friendly) == Ok(s.devices))
            && (Field(fields, "devices") == None && Field(fields, "x10_devices").Some? ==>
                  FromString(Some(PyStr(Field(fields, "x10_devices").value)), s.friendly) == Ok(s.devices))
            && (Field(fields, "devices") == None && Field(fields, "x10_devices") == None ==>
                  FromString(env, s.friendly) == Ok(s.devices))
  {
  }

  /** A null is no device list under `devices`, but under `x10_devices` it is taken for the text "None" and refused. */
  lemma NullsDiffer(fields: seq<(string, Json)>, envFriendly: bool, env: Option<string>)
    requires Field(fields, "use_friendly_names") == None
    ensures Field(fields, "devices") == Some(Null) && Field(fields, "x10_devices") == None ==>
      Load(fields, envFriendly, env) == Ok(Settings(envFriendly, map[]))
    ensures Field(fields, "devices") == None && Field(fields, "x10_devices") == Some(Null) ==>
      Load(fields, envFriendly, env) == Err(BadAddress)
  {
    var s := "None";
    TrimmedIsFixed(SPACES, s);
    SplitWithout(s, ',');
    SplitWithout(s, ':');
    assert StripEach([s]) == [s];
    assert |Normal(s)| == 4;
    assert ReadEntry(s, envFriendly) == Err(BadAddress);
    assert [s][..0] == [];
  }

  // Numbers.

  lemma {:induction false} GroupedDigits(s: string, n: nat, d: int)
    requires DigitsValue(s) == Some(n) && 0 <= d < 10
    ensures DigitsValue(s + [DigitChar(d)]) == Some(10 * n + d) && DigitsValue(s + "_" + [DigitChar(d)]) == Some(10 * n + d)
  {
    var t, u := s + [DigitChar(d)], s + "_" + [DigitChar(d)];
    assert t[..|t| - 1] == s && u[..|u| - 2] == s;
    assert IsDigit(s[|s| - 1]);
  }

  lemma SignedIsTrimmed(sign: char, digits: string)
    requires sign !in SPACES && digits != "" && digits[|digits| - 1] !in SPACES
    ensures Strip([sign] + digits) == [sign] + digits && ([sign] + digits)[1..] == digits
  {
    TrimmedIsFixed(SPACES, [sign] + digits);
  }

  lemma SignedIsRead(sign: char, n: nat)
    requires sign == '-' || sign == '+'
    ensures sign == '-' ==> ParseInt([sign] + Decimal(n)) == Some(0 - n)
    ensures sign == '+' ==> ParseInt([sign] + Decimal(n)) == Some(n)
  {
    var digits := Decimal(n);
    DigitsOfDecimal(n);
    assert digits[|digits| - 1] in digits;
    DigitIsNotSpace(digits[|digits| - 1]);
    SignedIsTrimmed(sign, digits);
  }

  /** `int` reads back what `str` writes for any integer, and a plus sign changes nothing. */
  lemma IntegersAreRead(n: int)
    ensures ParseInt(PyStr(Int(n))) == Some(n)
    ensures n >= 0 ==> ParseInt("+" + PyStr(Int(n))) == Some(n)
  {
    if n < 0 {
      SignedIsRead('-', -n);
    } else {
      ParseDecimal(n);
      SignedIsRead('+', n);
    }
  }
}
