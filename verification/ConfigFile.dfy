/** The editable config file: written from the active devices, read back by the loader (config.py). */
module ConfigFile {
  import opened Text
  import opened Models
  import opened Addresses
  import opened Profiles
  import opened DeviceParsers
  import opened JsonValues

  // What the parsers can produce.

  /** Everything but the five basic fields follows from the entity type or the profile. */
  predicate Derived(d: DeviceConfig) {
    var basic := MakeDevice(d.address, d.name, d.entityType, d.repeats, d.repeatDelayMs);
    match d.profile
    case None => d == basic
    case Some(id) => Lookup(id).Some? && Keyword(id) == id && d == ApplyProfile(basic, Lookup(id).value)
  }

  ghost predicate Loaded(d: DeviceConfig, friendly: bool) {
    && Canonical(d.address) && Derived(d)
    && 1 <= d.repeats <= MAX_REPEATS && 0 <= d.repeatDelayMs <= MAX_DELAY_MS
    && (if friendly then d.name != "" && Trimmed(SPACES, d.name) else d.name == d.address)
  }

  ghost predicate AllLoaded(m: Devices, friendly: bool) {
    forall a :: a in m ==> m[a].address == a && Loaded(m[a], friendly)
  }

  lemma LowerKeepsNonSpace(c: char)
    requires c !in SPACES
    ensures LowerChar(c) !in SPACES
  {
  }

  lemma KeywordIdempotent(s: string)
    ensures Keyword(Keyword(s)) == Keyword(s)
  {
    var t, k := Strip(s), Keyword(s);
    StripIsTrimmed(SPACES, s);
    if k != "" {
      LowerKeepsNonSpace(t[0]);
      LowerKeepsNonSpace(t[|t| - 1]);
    }
    TrimmedIsFixed(SPACES, k);
    assert Lower(k) == k;
  }

  lemma ApplyForgetsType(a: string, n: string, t: DeviceType, u: DeviceType, r: int, d: int, p: Profile)
    requires p.supported != {}
    ensures ApplyProfile(MakeDevice(a, n, t, r, d), p) == ApplyProfile(MakeDevice(a, n, u, r, d), p)
  {
  }

  lemma BuiltIsDerived(a: string, name: string, t: DeviceType, repeats: Option<string>, delay: Option<string>,
                       profile: Option<string>)
    ensures var r := BuildDevice(a, name, t, repeats, delay, profile);
            r.Ok? ==> && r.value.address == a && r.value.name == name && Derived(r.value)
                      && 1 <= r.value.repeats <= MAX_REPEATS && 0 <= r.value.repeatDelayMs <= MAX_DELAY_MS
  {
    var r := BuildDevice(a, name, t, repeats, delay, profile);
    if r.Ok? && profile.Some? {
      var p := GetProfile(profile.value).value;
      KeywordIdempotent(profile.value);
      ApplyForgetsType(a, name, t, p.entityType, ParseRepeats(repeats).value, ParseDelay(delay).value, p);
    }
  }

  lemma DisplayNameFits(a: string, name: Option<string>, friendly: bool)
    requires Canonical(a)
    ensures var n := DisplayName(a, name, friendly);
            if friendly then n != "" && Trimmed(SPACES, n) else n == a
  {
    CanonicalIsNormal(a);
    HouseIsPlain(a[0]);
    assert a[|a| - 1] == a[1..][|a| - 2];
    HouseIsPlain(a[|a| - 1]);
    if name.Some? {
      StripIsTrimmed(SPACES, name.value);
    }
  }

  lemma BuiltIsLoaded(a: string, name: Option<string>, friendly: bool, t: DeviceType, repeats: Option<string>,
                      delay: Option<string>, profile: Option<string>)
    requires Canonical(a)
    ensures var r := BuildDevice(a, DisplayName(a, name, friendly), t, repeats, delay, profile);
            r.Ok? ==> Loaded(r.value, friendly)
  {
    DisplayNameFits(a, name, friendly);
    BuiltIsDerived(a, DisplayName(a, name, friendly), t, repeats, delay, profile);
  }

  /** Whatever is read is loader-built. */
  ghost predicate ReadsLoaded(r: Result<Option<DeviceConfig>, Error>, friendly: bool) {
    r.Ok? && r.value.Some? ==> Loaded(r.value.value, friendly)
  }

  lemma PartsAreLoaded(parts: seq<string>, friendly: bool)
    requires |parts| >= 1
    ensures ReadParts(parts, friendly).Ok? ==> Loaded(ReadParts(parts, friendly).value, friendly)
  {
    var r := ReadParts(parts, friendly);
    if r.Ok? {
      var a := NormalizeAddress(parts[0]).value;
      var name := if |parts| > 1 then Some(parts[1]) else None;
      if |parts| <= 2 {
        BuiltIsLoaded(a, name, friendly, Switch, None, None, None);
      } else {
        var (t, profile) := ParseTypeOrProfile(parts[2]).value;
        BuiltIsLoaded(a, name, friendly, t, if |parts| >= 4 then NonBlank(parts[3]) else None,
                      if |parts| >= 5 then NonBlank(parts[4]) else None, profile);
      }
    }
  }

  lemma DetailsAreLoaded(a: string, fields: seq<(string, Json)>, friendly: bool)
    requires Canonical(a)
    ensures ReadDetails(a, fields, friendly).Ok? ==> Loaded(ReadDetails(a, fields, friendly).value, friendly)
  {
    if ReadKind(fields).Ok? {
      var (t, profile) := ReadKind(fields).value;
      var name := Field(fields, "name");
      BuiltIsLoaded(a, if Given(name) then Some(PyStr(name.value)) else None, friendly, t,
                    TextOf(FieldOr(fields, "command_repeats", "repeats")),
                    TextOf(FieldOr(fields, "command_repeat_delay_ms", "repeat_delay_ms")), profile);
    }
  }

  lemma EntryIsLoaded(e: string, friendly: bool)
    ensures ReadsLoaded(ReadEntry(e, friendly), friendly)
  {
    PartsAreLoaded(StripEach(Split(Strip(e), ':')), friendly);
  }

  lemma ItemIsLoaded(j: Json, friendly: bool)
    ensures ReadsLoaded(ReadItem(j, friendly), friendly)
  {
    var r := ReadItem(j, friendly);
    if r.Ok? {
      var address := Field(j.fields, "address");
      var a := NormalizeAddress(if address.Some? then PyStr(address.value) else "").value;
      DetailsAreLoaded(a, j.fields, friendly);
    }
  }

  lemma FieldIsLoaded(f: (string, Json), friendly: bool)
    ensures ReadsLoaded(ReadField(f, friendly), friendly)
  {
    var r := ReadField(f, friendly);
    if r.Ok? {
      var a := NormalizeAddress(f.0).value;
      match f.1 {
        case Text(name) => BuiltIsLoaded(a, Some(name), friendly, Switch, None, None, None);
        case Object(fields, _) => DetailsAreLoaded(a, fields, friendly);
      }
    }
  }

  lemma {:induction false} ReadAllLoads<T(!new)>(items: seq<T>, read: T -> Result<Option<DeviceConfig>, Error>,
                                                 friendly: bool)
    requires forall i :: ReadsLoaded(read(i), friendly)
    ensures ReadAll(items, read).Ok? ==> AllLoaded(ReadAll(items, read).value, friendly)
    decreases |items|
  {
    if items != [] {
      ReadAllLoads(items[..|items| - 1], read, friendly);
      assert ReadsLoaded(read(items[|items| - 1]), friendly);
    }
  }

  lemma StringLoads(raw: Option<string>, friendly: bool)
    ensures FromString(raw, friendly).Ok? ==> AllLoaded(FromString(raw, friendly).value, friendly)
  {
    if raw.Some? {
      forall e
        ensures ReadsLoaded(EntryReader(friendly)(e), friendly)
      {
        EntryIsLoaded(e, friendly);
      }
      ReadAllLoads(Split(raw.value, ','), EntryReader(friendly), friendly);
    }
  }

  lemma JsonLoads(raw: Json, friendly: bool)
    ensures FromJson(raw, friendly).Ok? ==> AllLoaded(FromJson(raw, friendly).value, friendly)
  {
    match raw
    case Text(s) => StringLoads(Some(s), friendly);
    case List(items, _) =>
      forall j
        ensures ReadsLoaded(ItemReader(friendly)(j), friendly)
      {
        ItemIsLoaded(j, friendly);
      }
      ReadAllLoads(items, ItemReader(friendly), friendly);
    case Object(fields, _) =>
      forall f
        ensures ReadsLoaded(FieldReader(friendly)(f), friendly)
      {
        FieldIsLoaded(f, friendly);
      }
      ReadAllLoads(fields, FieldReader(friendly), friendly);
    case _ =>
  }

  // Writing a device.

  function TypeName(t: DeviceType): string {
    match t
    case Light => "light"
    case Switch => "switch"
    case Chime => "chime"
  }

  /** _device_to_file_payload */
  function DeviceFields(d: DeviceConfig): seq<(string, Json)> {
    [("address", Text(d.address)), ("name", Text(d.name)), ("type", Text(TypeName(d.entityType))),
     ("command_repeats", Int(d.repeats)), ("command_repeat_delay_ms", Int(d.repeatDelayMs))]
    + (if d.profile.Some? then [("profile", Text(d.profile.value))] else [])
  }

  function DevicePayload(d: DeviceConfig): Json {
    Object(DeviceFields(d), "")
  }

  lemma WrittenFields(d: DeviceConfig)
    ensures var f := DeviceFields(d);
            && Field(f, "address") == Some(Text(d.address)) && Field(f, "name") == Some(Text(d.name))
            && Field(f, "type") == Some(Text(TypeName(d.entityType)))
            && Field(f, "command_repeats") == Some(Int(d.repeats))
            && Field(f, "command_repeat_delay_ms") == Some(Int(d.repeatDelayMs))
            && Field(f, "profile") == if d.profile.Some? then Some(Text(d.profile.value)) else None
  {
    var f := DeviceFields(d);
    FieldAt(f, 0);
    FieldAt(f, 1);
    FieldAt(f, 2);
    FieldAt(f, 3);
    FieldAt(f, 4);
    if d.profile.Some? {
      FieldAt(f, 5);
    } else {
      FieldMissing(f, "profile");
    }
  }

  lemma TypeNameIsRead(t: DeviceType)
    ensures Keyword(TypeName(t)) == TypeName(t) && ParseType(TypeName(t)) == Ok(t)
    ensures Lookup(TypeName(t)) == None
  {
    var s := TypeName(t);
    forall i | 0 <= i < |s|
      ensures s[i] !in SPACES && LowerChar(s[i]) == s[i]
    {
      SmallIsPlain(s[i]);
    }
    TrimmedIsFixed(SPACES, s);
    assert Lower(s) == s;
  }

  lemma SmallIsPlain(c: char)
    requires 'a' <= c <= 'z'
    ensures c !in SPACES && LowerChar(c) == c
  {
  }

  lemma WrittenKind(d: DeviceConfig)
    ensures ReadKind(DeviceFields(d)) == Ok((d.entityType, d.profile))
  {
    WrittenFields(d);
    TypeNameIsRead(d.entityType);
  }

  lemma WrittenNumber(n: int, lo: int, hi: int)
    requires 0 <= lo <= n <= hi
    ensures ParseBounded(PyStr(Int(n)), lo, hi) == Ok(n)
  {
    ParseDecimal(n);
  }

  lemma WrittenBuild(d: DeviceConfig, friendly: bool)
    requires Loaded(d, friendly)
    ensures BuildDevice(d.address, d.name, d.entityType, Some(PyStr(Int(d.repeats))), Some(PyStr(Int(d.repeatDelayMs))),
                        d.profile) == Ok(d)
  {
    WrittenNumber(d.repeats, 1, MAX_REPEATS);
    WrittenNumber(d.repeatDelayMs, 0, MAX_DELAY_MS);
  }

  /** A written device is read back exactly, derived fields and all. */
  lemma DeviceRoundTrip(d: DeviceConfig, friendly: bool)
    requires Loaded(d, friendly)
    ensures ReadItem(DevicePayload(d), friendly) == Ok(Some(d))
  {
    var f := DeviceFields(d);
    WrittenFields(d);
    WrittenKind(d);
    WrittenBuild(d, friendly);
    CanonicalIsNormal(d.address);
    if friendly {
      TrimmedIsFixed(SPACES, d.name);
    }
    assert DisplayName(d.address, Some(d.name), friendly) == d.name;
    assert ReadDetails(d.address, f, friendly) == Ok(d);
  }

  // Writing all devices, sorted by address.

  /** Lexicographic order, as Python compares strings. */
  predicate Before(a: string, b: string) {
    b != "" && (a == "" || a[0] < b[0] || (a[0] == b[0] && Before(a[1..], b[1..])))
  }

  lemma {:induction false} BeforeTotal(a: string, b: string)
    ensures Before(a, b) || a == b || Before(b, a)
    decreases |a|
  {
    if a != "" && b != "" && a[0] == b[0] {
      BeforeTotal(a[1..], b[1..]);
      assert a == [a[0]] + a[1..] && b == [b[0]] + b[1..];
    }
  }

  lemma {:induction false} BeforeTransitive(a: string, b: string, c: string)
    requires Before(a, b) && Before(b, c)
    ensures Before(a, c)
    decreases |a|
  {
    if a != "" && a[0] == b[0] && b[0] == c[0] {
      BeforeTransitive(a[1..], b[1..], c[1..]);
    }
  }

  predicate Ascending(list: seq<DeviceConfig>) {
    forall i, j :: 0 <= i < j < |list| ==> Before(list[i].address, list[j].address)
  }

  /** The list holds each device of the map once and nothing else. */
  ghost predicate Lists(list: seq<DeviceConfig>, m: Devices) {
    && (forall d :: d in list ==> d.address in m && m[d.address] == d)
    && (forall a :: a in m ==> m[a] in list)
    && (forall i, j :: 0 <= i < j < |list| ==> list[i].address != list[j].address)
  }

  function Inserted(list: seq<DeviceConfig>, d: DeviceConfig): seq<DeviceConfig> {
    if list == [] || Before(d.address, list[0].address) then [d] + list else [list[0]] + Inserted(list[1..], d)
  }

  lemma {:induction false} InsertedHolds(list: seq<DeviceConfig>, d: DeviceConfig)
    ensures forall e :: e in Inserted(list, d) <==> e in list || e == d
  {
    if list != [] && !Before(d.address, list[0].address) {
      InsertedHolds(list[1..], d);
      assert list == [list[0]] + list[1..];
    }
  }

  lemma FrontIsFirst(front: DeviceConfig, rest: seq<DeviceConfig>)
    requires Ascending(rest) && forall e :: e in rest ==> Before(front.address, e.address)
    ensures Ascending([front] + rest)
  {
    assert forall j :: 0 <= j < |rest| ==> rest[j] in rest;
  }

  lemma {:induction false} InsertedAscends(list: seq<DeviceConfig>, d: DeviceConfig)
    requires Ascending(list) && forall e :: e in list ==> e.address != d.address
    ensures Ascending(Inserted(list, d))
  {
    if list != [] {
      var e, rest := list[0], list[1..];
      assert e in list;
      assert forall x :: x in rest ==> Before(e.address, x.address);
      if Before(d.address, e.address) {
        forall x | x in list
          ensures Before(d.address, x.address)
        {
          if x != e {
            assert x in rest;
            BeforeTransitive(d.address, e.address, x.address);
          }
        }
        FrontIsFirst(d, list);
      } else {
        BeforeTotal(d.address, e.address);
        InsertedAscends(rest, d);
        InsertedHolds(rest, d);
        FrontIsFirst(e, Inserted(rest, d));
      }
    }
  }

  lemma {:induction false} NotBeforeItself(a: string)
    ensures !Before(a, a)
  {
    if a != "" {
      NotBeforeItself(a[1..]);
    }
  }

  lemma AscendingDiffers(list: seq<DeviceConfig>)
    requires Ascending(list)
    ensures forall i, j :: 0 <= i < j < |list| ==> list[i].address != list[j].address
  {
    forall i, j | 0 <= i < j < |list|
      ensures list[i].address != list[j].address
    {
      NotBeforeItself(list[i].address);
    }
  }

  /** `sorted(devices.values(), key=address)` */
  method SortedDevices(m: Devices) returns (list: seq<DeviceConfig>)
    requires forall a :: a in m ==> m[a].address == a
    ensures Lists(list, m) && Ascending(list)
  {
    list := [];
    var left := m.Keys;
    while left != {}
      invariant left <= m.Keys && Ascending(list)
      invariant forall d :: d in list <==> d.address in m && d.address !in left && m[d.address] == d
      decreases |left|
    {
      var a :| a in left;
      InsertedAscends(list, m[a]);
      InsertedHolds(list, m[a]);
      list := Inserted(list, m[a]);
      left := left - {a};
    }
    AscendingDiffers(list);
  }

  function Payloads(list: seq<DeviceConfig>): (r: seq<Json>)
    ensures |r| == |list| && forall i :: 0 <= i < |r| ==> r[i] == DevicePayload(list[i])
  {
    seq(|list|, i requires 0 <= i < |list| => DevicePayload(list[i]))
  }

  /** Reading a list of written devices gives the map it was made from. */
  lemma DevicesRoundTrip(list: seq<DeviceConfig>, m: Devices, friendly: bool)
    requires AllLoaded(m, friendly) && Lists(list, m)
    ensures ReadAll(Payloads(list), ItemReader(friendly)) == Ok(m)
  {
    var items, read := Payloads(list), ItemReader(friendly);
    forall k | 0 <= k < |list|
      ensures read(items[k]) == Ok(Some(list[k]))
    {
      assert list[k] in list;
      DeviceRoundTrip(list[k], friendly);
    }
    LastEntryWins(items, read);
    var n := ReadAll(items, read).value;
    ReadMapIsListed(items, read, list, n);
    ListedMapIsUnique(list, m, n);
  }

  /** Entries with different addresses are all kept. */
  lemma ReadMapIsListed<T(!new)>(items: seq<T>, read: T -> Result<Option<DeviceConfig>, Error>, list: seq<DeviceConfig>,
                                 n: Devices)
    requires |items| == |list| && forall k :: 0 <= k < |list| ==> read(items[k]) == Ok(Some(list[k]))
    requires forall i, j :: 0 <= i < j < |list| ==> list[i].address != list[j].address
    requires LastRead(items, read, n)
    ensures forall a :: a in n ==> n[a] in list && n[a].address == a
    ensures forall k :: 0 <= k < |list| ==> list[k].address in n && n[list[k].address] == list[k]
  {
    forall k: nat | k < |list|
      ensures Configures(items, read, k, list[k].address)
    {
    }
    forall a | a in n
      ensures n[a] in list && n[a].address == a
    {
      var k: nat :| Configures(items, read, k, a);
      assert list[k] in list;
    }
  }

  lemma ListedMapIsUnique(list: seq<DeviceConfig>, m: Devices, n: Devices)
    requires Lists(list, m)
    requires forall a :: a in n ==> n[a] in list && n[a].address == a
    requires forall k :: 0 <= k < |list| ==> list[k].address in n && n[list[k].address] == list[k]
    requires forall a :: a in m ==> m[a].address == a
    ensures n == m
  {
    assert forall a :: a in m ==> m[a] in list;
  }

  // Whole files.

  datatype Settings = Settings(friendly: bool, devices: Devices)

  function FileBool(fields: seq<(string, Json)>, key: string, default: bool): Result<bool, Error> {
    match Field(fields, key)
    case None => Ok(default)
    case Some(Bool(b)) => Ok(b)
    case Some(Text(s)) =>
      if Keyword(s) in {"1", "true", "yes", "on"} then Ok(true)
      else if Keyword(s) in {"0", "false", "no", "off"} then Ok(false)
      else Err(NotABoolean)
    case _ => Err(NotABoolean)
  }

  /** _devices_from_sources, with the value of X10_DEVICES */
  function FromSources(fields: seq<(string, Json)>, env: Option<string>, friendly: bool): Result<Devices, Error> {
    var devices, x10 := Field(fields, "devices"), Field(fields, "x10_devices");
    if devices.Some? && x10.Some? then Err(TwoSources)
    else if devices.Some? then FromJson(devices.value, friendly)
    else if x10.Some? then FromString(Some(PyStr(x10.value)), friendly)
    else FromString(env, friendly)
  }

  /** What load_config takes from a config file and two environment variables. */
  function Load(fields: seq<(string, Json)>, envFriendly: bool, env: Option<string>): Result<Settings, Error> {
    var friendly :- FileBool(fields, "use_friendly_names", envFriendly);
    var devices :- FromSources(fields, env, friendly);
    Ok(Settings(friendly, devices))
  }

  /** _config_file_payload, given the sorted devices */
  function FileFields(friendly: bool, list: seq<DeviceConfig>): seq<(string, Json)> {
    [("use_friendly_names", Bool(friendly)), ("devices", List(Payloads(list), ""))]
  }

  lemma LoadLoads(fields: seq<(string, Json)>, envFriendly: bool, env: Option<string>)
    ensures var r := Load(fields, envFriendly, env); r.Ok? ==> AllLoaded(r.value.devices, r.value.friendly)
  {
    var friendly := FileBool(fields, "use_friendly_names", envFriendly);
    if friendly.Ok? {
      var devices, x10 := Field(fields, "devices"), Field(fields, "x10_devices");
      if devices.Some? {
        JsonLoads(devices.value, friendly.value);
      } else {
        StringLoads(if x10.Some? then Some(PyStr(x10.value)) else env, friendly.value);
      }
    }
  }

  lemma WrittenFile(friendly: bool, list: seq<DeviceConfig>)
    ensures var f := FileFields(friendly, list);
            && Field(f, "use_friendly_names") == Some(Bool(friendly)) && Field(f, "devices") == Some(List(Payloads(list), ""))
            && Field(f, "x10_devices") == None
  {
    var f := FileFields(friendly, list);
    FieldAt(f, 0);
    FieldAt(f, 1);
    FieldMissing(f, "x10_devices");
  }

  lemma WrittenSettingsLoad(s: Settings, list: seq<DeviceConfig>, laterFriendly: bool, later: Option<string>)
    requires AllLoaded(s.devices, s.friendly) && Lists(list, s.devices)
    ensures Load(FileFields(s.friendly, list), laterFriendly, later) == Ok(s)
  {
    WrittenFile(s.friendly, list);
    DevicesRoundTrip(list, s.devices, s.friendly);
  }

  /** Whatever source the active settings came from, the file written for them loads as exactly the same settings, under
      any environment. */
  lemma ConfigFileRoundTrip(fields: seq<(string, Json)>, envFriendly: bool, env: Option<string>, s: Settings,
                            list: seq<DeviceConfig>, laterFriendly: bool, later: Option<string>)
    requires Load(fields, envFriendly, env) == Ok(s) && Lists(list, s.devices)
    ensures Load(FileFields(s.friendly, list), laterFriendly, later) == Ok(s)
  {
    LoadLoads(fields, envFriendly, env);
    WrittenSettingsLoad(s, list, laterFriendly, later);
  }
}
