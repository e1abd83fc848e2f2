/** Reading device configurations: from the X10_DEVICES string and from decoded JSON (config.py). */
module DeviceParsers {
  import opened Text
  import opened Models
  import opened Addresses
  import opened Profiles
  import opened JsonValues

  datatype Error =
    | BadAddress | BadType | BadProfile | NotAnInteger | OutOfRange
    | BadEntry | BadItem | BadField | NotDevices | NotABoolean | TwoSources

  // Pieces of a device.

  function ParseAddress(s: string): Result<string, Error> {
    match NormalizeAddress(s)
    case Some(a) => Ok(a)
    case None => Err(BadAddress)
  }

  function Keyword(s: string): string { Lower(Strip(s)) }

  function ParseType(s: string): Result<DeviceType, Error> {
    var k := Keyword(s);
    if k == "light" then Ok(Light) else if k == "switch" then Ok(Switch) else if k == "chime" then Ok(Chime)
    else Err(BadType)
  }

  /** A type field may also name a profile. */
  function ParseTypeOrProfile(s: string): Result<(DeviceType, Option<string>), Error> {
    match Lookup(Keyword(s))
    case Some(p) => Ok((p.entityType, Some(p.id)))
    case None =>
      var t :- ParseType(s);
      Ok((t, None))
  }

  function DisplayName(address: string, name: Option<string>, friendly: bool): string {
    if !friendly || name.None? || Strip(name.value) == "" then address else Strip(name.value)
  }

  function ParseBounded(s: string, lo: int, hi: int): (r: Result<int, Error>)
    ensures r.Ok? ==> lo <= r.value <= hi && ParseInt(s) == Some(r.value)
  {
    match ParseInt(s)
    case None => Err(NotAnInteger)
    case Some(n) => if n < lo || n > hi then Err(OutOfRange) else Ok(n)
  }

  function ParseRepeats(s: Option<string>): (r: Result<int, Error>)
    ensures r.Ok? ==> 1 <= r.value <= MAX_REPEATS
  {
    match s
    case None => Ok(1)
    case Some(t) => ParseBounded(t, 1, MAX_REPEATS)
  }

  function ParseDelay(s: Option<string>): (r: Result<int, Error>)
    ensures r.Ok? ==> 0 <= r.value <= MAX_DELAY_MS
  {
    match s
    case None => Ok(150)
    case Some(t) => ParseBounded(t, 0, MAX_DELAY_MS)
  }

  /** _device_config */
  function BuildDevice(address: string, name: string, t: DeviceType, repeats: Option<string>, delay: Option<string>,
                       profile: Option<string>): Result<DeviceConfig, Error> {
    var r :- ParseRepeats(repeats);
    var d :- ParseDelay(delay);
    var device := MakeDevice(address, name, t, r, d);
    match profile
    case None => Ok(device)
    case Some(id) =>
      match GetProfile(id)
      case None => Err(BadProfile)
      case Some(p) => Ok(ApplyProfile(device, p))
  }

  // One entry of each kind.

  function NonBlank(s: string): Option<string> { if s == "" then None else Some(s) }

  /** The colon-separated parts of one X10_DEVICES entry. */
  function ReadParts(parts: seq<string>, friendly: bool): Result<DeviceConfig, Error>
    requires |parts| >= 1
  {
    if |parts| > 5 then Err(BadEntry)
    else
      var a :- ParseAddress(parts[0]);
      var name := DisplayName(a, if |parts| > 1 then Some(parts[1]) else None, friendly);
      if |parts| <= 2 then BuildDevice(a, name, Switch, None, None, None)
      else
        var (t, profile) :- ParseTypeOrProfile(parts[2]);
        BuildDevice(a, name, t,
                    if |parts| >= 4 then NonBlank(parts[3]) else None,
                    if |parts| >= 5 then NonBlank(parts[4]) else None, profile)
  }

  function StripEach(parts: seq<string>): (r: seq<string>)
    ensures |r| == |parts| && forall i :: 0 <= i < |r| ==> r[i] == Strip(parts[i])
  {
    seq(|parts|, i requires 0 <= i < |parts| => Strip(parts[i]))
  }

  function ReadEntry(entry: string, friendly: bool): Result<Option<DeviceConfig>, Error> {
    if Strip(entry) == "" then Ok(None)
    else
      var d :- ReadParts(StripEach(Split(Strip(entry), ':')), friendly);
      Ok(Some(d))
  }

  function TextOf(j: Option<Json>): Option<string> {
    if j.Some? then Some(PyStr(j.value)) else None
  }

  function TypeText(fields: seq<(string, Json)>): string {
    var j := FieldOr(fields, "type", "entity_type");
    if j.Some? then PyStr(j.value) else "switch"
  }

  predicate Given(j: Option<Json>) { j.Some? && !j.value.Null? }

  function ReadKind(fields: seq<(string, Json)>): Result<(DeviceType, Option<string>), Error> {
    var profile := Field(fields, "profile");
    if !Given(profile) then ParseTypeOrProfile(TypeText(fields))
    else
      var t :- ParseType(TypeText(fields));
      Ok((t, Some(PyStr(profile.value))))
  }

  /** The object that describes a device, in a list or under its address. */
  function ReadDetails(a: string, fields: seq<(string, Json)>, friendly: bool): Result<DeviceConfig, Error> {
    var (t, profile) :- ReadKind(fields);
    var name := Field(fields, "name");
    BuildDevice(a, DisplayName(a, if Given(name) then Some(PyStr(name.value)) else None, friendly), t,
                TextOf(FieldOr(fields, "command_repeats", "repeats")),
                TextOf(FieldOr(fields, "command_repeat_delay_ms", "repeat_delay_ms")), profile)
  }

  function ReadItem(j: Json, friendly: bool): Result<Option<DeviceConfig>, Error> {
    match j
    case Object(fields, _) =>
      var address := Field(fields, "address");
      var a :- ParseAddress(if address.Some? then PyStr(address.value) else "");
      var d :- ReadDetails(a, fields, friendly);
      Ok(Some(d))
    case _ => Err(BadItem)
  }

  function ReadField(f: (string, Json), friendly: bool): Result<Option<DeviceConfig>, Error> {
    var a :- ParseAddress(f.0);
    match f.1
    case Text(name) =>
      var d :- BuildDevice(a, DisplayName(a, Some(name), friendly), Switch, None, None, None);
      Ok(Some(d))
    case Object(fields, _) =>
      var d :- ReadDetails(a, fields, friendly);
      Ok(Some(d))
    case _ => Err(BadField)
  }

  // Whole sources.

  /** Reading entries in order: the first bad one is the outcome, a blank one is skipped, a repeated address is
      overwritten. */
  function ReadAll<T(!new)>(items: seq<T>, read: T -> Result<Option<DeviceConfig>, Error>): Result<Devices, Error>
    decreases |items|
  {
    if items == [] then Ok(map[])
    else
      var before :- ReadAll(items[..|items| - 1], read);
      var d :- read(items[|items| - 1]);
      Ok(With(before, d))
  }

  function With(devices: Devices, d: Option<DeviceConfig>): Devices {
    if d.Some? then devices[d.value.address := d.value] else devices
  }

  function EntryReader(friendly: bool): string -> Result<Option<DeviceConfig>, Error> {
    (e: string) => ReadEntry(e, friendly)
  }

  function ItemReader(friendly: bool): Json -> Result<Option<DeviceConfig>, Error> {
    (j: Json) => ReadItem(j, friendly)
  }

  function FieldReader(friendly: bool): ((string, Json)) -> Result<Option<DeviceConfig>, Error> {
    (f: (string, Json)) => ReadField(f, friendly)
  }

  /** The loop all three parsers share. */
  method ParseEach<T(!new)>(items: seq<T>, read: T -> Result<Option<DeviceConfig>, Error>)
    returns (r: Result<Devices, Error>)
    ensures r == ReadAll(items, read)
  {
    var devices: Devices := map[];
    for k := 0 to |items|
      invariant ReadAll(items[..k], read) == Ok(devices)
    {
      assert items[..k + 1][..k] == items[..k];
      var one := read(items[k]);
      if one.Err? {
        ErrorStops(items, read, k, one.error);
        return Err(one.error);
      }
      if one.value.Some? {
        devices := devices[one.value.value.address := one.value.value];
      }
    }
    assert items[..|items|] == items;
    return Ok(devices);
  }

  lemma {:induction false} ErrorStops<T(!new)>(items: seq<T>, read: T -> Result<Option<DeviceConfig>, Error>, k: nat,
                                               e: Error)
    requires k < |items| && ReadAll(items[..k], read).Ok? && read(items[k]) == Err(e)
    ensures ReadAll(items, read) == Err(e)
    decreases |items|
  {
    var init := items[..|items| - 1];
    if k == |items| - 1 {
      assert items[..k] == init;
    } else {
      assert init[..k] == items[..k];
      ErrorStops(init, read, k, e);
    }
  }

  method ParseDevices(raw: Option<string>, friendly: bool) returns (r: Result<Devices, Error>)
    ensures r == FromString(raw, friendly)
  {
    if raw.None? || raw.value == "" {
      return Ok(map[]);
    }
    r := ParseEach(Split(raw.value, ','), EntryReader(friendly));
  }

  function FromString(raw: Option<string>, friendly: bool): Result<Devices, Error> {
    if raw.None? || raw.value == "" then Ok(map[]) else ReadAll(Split(raw.value, ','), EntryReader(friendly))
  }

  /** parse_device_config */
  function FromJson(raw: Json, friendly: bool): Result<Devices, Error> {
    match raw
    case Null => Ok(map[])
    case Text(s) => FromString(Some(s), friendly)
    case List(items, _) => ReadAll(items, ItemReader(friendly))
    case Object(fields, _) => ReadAll(fields, FieldReader(friendly))
    case _ => Err(NotDevices)
  }

  method ParseDeviceConfig(raw: Json, friendly: bool) returns (r: Result<Devices, Error>)
    ensures r == FromJson(raw, friendly)
  {
    match raw {
      case Null => return Ok(map[]);
      case Text(s) => r := ParseDevices(Some(s), friendly);
      case List(items, _) => r := ParseEach(items, ItemReader(friendly));
      case Object(fields, _) => r := ParseEach(fields, FieldReader(friendly));
      case _ => return Err(NotDevices);
    }
  }

  // What reading many entries amounts to.

  /** Entry k is the last to configure address a. */
  ghost predicate Configures<T(!new)>(items: seq<T>, read: T -> Result<Option<DeviceConfig>, Error>, k: nat, a: string) {
    && k < |items| && Reads(read(items[k]), a)
    && forall j :: k < j < |items| ==> !Reads(read(items[j]), a)
  }

  predicate Reads(r: Result<Option<DeviceConfig>, Error>, a: string) {
    r.Ok? && r.value.Some? && r.value.value.address == a
  }

  /** The devices are the last ones read for each address. */
  ghost predicate LastRead<T(!new)>(items: seq<T>, read: T -> Result<Option<DeviceConfig>, Error>, m: Devices) {
    && (forall a :: a in m <==> exists k: nat :: Configures(items, read, k, a))
    && (forall k: nat, a :: Configures(items, read, k, a) ==> a in m && read(items[k]) == Ok(Some(m[a])))
  }

  lemma ConfiguresLast<T(!new)>(items: seq<T>, last: T, read: T -> Result<Option<DeviceConfig>, Error>, k: nat, a: string)
    ensures Configures(items + [last], read, k, a) <==>
      if Reads(read(last), a) then k == |items| else Configures(items, read, k, a)
  {
    var all := items + [last];
    assert all[|items|] == last;
    assert forall j :: 0 <= j < |items| ==> all[j] == items[j];
  }

  lemma LastReadStep<T(!new)>(items: seq<T>, last: T, read: T -> Result<Option<DeviceConfig>, Error>, m: Devices)
    requires LastRead(items, read, m) && read(last).Ok?
    ensures LastRead(items + [last], read, With(m, read(last).value))
  {
    var all, next := items + [last], With(m, read(last).value);
    forall k: nat, a
      ensures Configures(all, read, k, a) <==> if Reads(read(last), a) then k == |items| else Configures(items, read, k, a)
    {
      ConfiguresLast(items, last, read, k, a);
    }
    forall a
      ensures a in next <==> exists k: nat :: Configures(all, read, k, a)
    {
      if Reads(read(last), a) {
        assert Configures(all, read, |items|, a);
      } else {
        assert (exists k: nat :: Configures(all, read, k, a)) <==> exists k: nat :: Configures(items, read, k, a);
      }
    }
    forall k: nat, a | Configures(all, read, k, a)
      ensures a in next && read(all[k]) == Ok(Some(next[a]))
    {
    }
  }

  /** A source is accepted exactly when every one of its entries is; and then each address has the configuration that its
      last entry gives it. */
  lemma {:induction false} LastEntryWins<T(!new)>(items: seq<T>, read: T -> Result<Option<DeviceConfig>, Error>)
    ensures ReadAll(items, read).Ok? <==> forall i :: i in items ==> read(i).Ok?
    ensures ReadAll(items, read).Ok? ==> LastRead(items, read, ReadAll(items, read).value)
    decreases |items|
  {
    if items != [] {
      var init, last := items[..|items| - 1], items[|items| - 1];
      LastEntryWins(init, read);
      assert items == init + [last];
      if ReadAll(init, read).Ok? && read(last).Ok? {
        LastReadStep(init, last, read, ReadAll(init, read).value);
      }
    }
  }
}
