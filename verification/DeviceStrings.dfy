/** The X10_DEVICES string can express every loader-built device whose name has no comma or colon (config.py). */
module DeviceStrings {
  import opened Text
  import opened Models
  import opened Addresses
  import opened Profiles
  import opened JsonValues
  import opened DeviceParsers
  import opened ConfigFile

  /** The third part of an entry: the profile, or else the entity type. */
  function KindText(d: DeviceConfig): string {
    if d.profile.Some? then d.profile.value else TypeName(d.entityType)
  }

  function EntryParts(d: DeviceConfig): seq<string> {
    [d.address, d.name, KindText(d), PyStr(Int(d.repeats)), PyStr(Int(d.repeatDelayMs))]
  }

  function EntryText(d: DeviceConfig): string {
    Join(EntryParts(d), ':')
  }

  predicate IsPlain(s: string) { ':' !in s && ',' !in s }

  predicate IsWordChar(c: char) { 'a' <= c <= 'z' || IsDigit(c) || c == '_' }

  predicate IsLampProfile(id: string) {
    || id == "generic_switch" || id == "generic_light" || id == "lm15a_socket_rocket" || id == "um506_momentary"
    || id == "um506_continuous" || id == "sc546a_chime"
  }

  predicate IsSensorProfile(id: string) {
    || id == "ms13a_motion" || id == "ms14a_motion" || id == "ms16a_activeeye" || id == "pr511_motion_monitor"
    || id == "powerflash_mode_1" || id == "powerflash_mode_2"
  }

  predicate IsOtherProfile(id: string) {
    || id == "powerflash_mode_3" || id == "powerhorn" || id == "rr501_unit_1" || id == "rr501_unit_9"
    || id == "grouped_address_function"
  }

  lemma LampProfileIsWord(id: string, i: nat)
    requires IsLampProfile(id) && i < |id|
    ensures IsWordChar(id[i])
  {
  }

  lemma SensorProfileIsWord(id: string, i: nat)
    requires IsSensorProfile(id) && i < |id|
    ensures IsWordChar(id[i])
  {
  }

  lemma OtherProfileIsWord(id: string, i: nat)
    requires IsOtherProfile(id) && i < |id|
    ensures IsWordChar(id[i])
  {
  }

  lemma ProfilesAreListed(id: string)
    requires Lookup(id).Some?
    ensures IsLampProfile(id) || IsSensorProfile(id) || IsOtherProfile(id)
  {
  }

  lemma ProfileIsWord(id: string, i: nat)
    requires Lookup(id).Some? && i < |id|
    ensures IsWordChar(id[i])
  {
    ProfilesAreListed(id);
    if IsLampProfile(id) {
      LampProfileIsWord(id, i);
    } else if IsSensorProfile(id) {
      SensorProfileIsWord(id, i);
    } else {
      OtherProfileIsWord(id, i);
    }
  }

  lemma TypeNameIsWord(t: DeviceType, i: nat)
    requires i < |TypeName(t)|
    ensures IsWordChar(TypeName(t)[i])
  {
  }

  lemma WordCharIsPlain(c: char)
    requires IsWordChar(c) || IsHouse(c)
    ensures c !in SPACES && c != ':' && c != ','
  {
  }

  /** Neither separators nor spaces at the ends. */
  predicate IsPart(s: string) { s != "" && IsPlain(s) && Trimmed(SPACES, s) }

  lemma KindIsPart(d: DeviceConfig)
    requires Derived(d)
    ensures IsPart(KindText(d))
  {
    var k := KindText(d);
    forall i | 0 <= i < |k|
      ensures k[i] !in SPACES && k[i] != ':' && k[i] != ','
    {
      if d.profile.Some? {
        ProfileIsWord(k, i);
      } else {
        TypeNameIsWord(d.entityType, i);
      }
      WordCharIsPlain(k[i]);
    }
  }

  lemma NumberIsPart(n: nat)
    ensures IsPart(PyStr(Int(n)))
  {
    var s := Decimal(n);
    forall i | 0 <= i < |s|
      ensures s[i] !in SPACES && s[i] != ':' && s[i] != ','
    {
      WordCharIsPlain(s[i]);
    }
  }

  lemma AddressIsPart(a: string)
    requires Canonical(a)
    ensures IsPart(a)
  {
    forall i | 0 <= i < |a|
      ensures a[i] !in SPACES && a[i] != ':' && a[i] != ','
    {
      assert i > 0 ==> a[i] == a[1..][i - 1];
      WordCharIsPlain(a[i]);
    }
  }

  ghost predicate Sayable(d: DeviceConfig, friendly: bool) {
    Loaded(d, friendly) && IsPlain(d.name)
  }

  lemma PartsAreParts(d: DeviceConfig, friendly: bool)
    requires Sayable(d, friendly)
    ensures forall p :: p in EntryParts(d) ==> IsPart(p)
  {
    AddressIsPart(d.address);
    KindIsPart(d);
    NumberIsPart(d.repeats);
    NumberIsPart(d.repeatDelayMs);
  }

  lemma StripKeepsParts(parts: seq<string>)
    requires forall p :: p in parts ==> IsPart(p)
    ensures StripEach(parts) == parts
  {
    forall i | 0 <= i < |parts|
      ensures Strip(parts[i]) == parts[i]
    {
      assert parts[i] in parts;
      TrimmedIsFixed(SPACES, parts[i]);
    }
  }

  /** Parts joined by a colon: no comma, nothing to strip. */
  lemma {:induction false} JoinedParts(parts: seq<string>)
    requires parts != [] && forall p :: p in parts ==> IsPart(p)
    ensures var s := Join(parts, ':'); s != "" && ',' !in s && Trimmed(SPACES, s)
    decreases |parts|
  {
    assert parts[0] in parts;
    if |parts| > 1 {
      JoinedParts(parts[1..]);
    }
  }

  lemma KindIsRead(d: DeviceConfig)
    requires Derived(d)
    ensures ParseTypeOrProfile(KindText(d)) == Ok((d.entityType, d.profile))
  {
    TypeNameIsRead(d.entityType);
  }

  lemma PartsAreRead(d: DeviceConfig, friendly: bool)
    requires Sayable(d, friendly)
    ensures ReadParts(EntryParts(d), friendly) == Ok(d)
  {
    CanonicalIsNormal(d.address);
    KindIsRead(d);
    WrittenBuild(d, friendly);
    NumberIsPart(d.repeats);
    NumberIsPart(d.repeatDelayMs);
    if friendly {
      TrimmedIsFixed(SPACES, d.name);
    }
  }

  /** An entry in full is read back exactly. */
  lemma EntryRoundTrip(d: DeviceConfig, friendly: bool)
    requires Sayable(d, friendly)
    ensures ReadEntry(EntryText(d), friendly) == Ok(Some(d))
  {
    PartsAreParts(d, friendly);
    JoinedParts(EntryParts(d));
    TrimmedIsFixed(SPACES, EntryText(d));
    SplitJoin(EntryParts(d), ':');
    StripKeepsParts(EntryParts(d));
    PartsAreRead(d, friendly);
  }

  // Shorter entries.

  /** The device has the default for every part after the first n: its address for a name, a switch without profile, one
      repeat, and a delay of 150 ms. */
  predicate Defaults(d: DeviceConfig, n: nat) {
    && (n < 2 ==> d.name == d.address) && (n < 3 ==> d.entityType.Switch? && d.profile == None)
    && (n < 4 ==> d.repeats == 1) && (n < 5 ==> d.repeatDelayMs == 150)
  }

  lemma DefaultsBuild(d: DeviceConfig, friendly: bool, repeats: Option<string>, delay: Option<string>)
    requires Loaded(d, friendly)
    requires repeats == Some(PyStr(Int(d.repeats))) || (repeats == None && d.repeats == 1)
    requires delay == Some(PyStr(Int(d.repeatDelayMs))) || (delay == None && d.repeatDelayMs == 150)
    ensures BuildDevice(d.address, d.name, d.entityType, repeats, delay, d.profile) == Ok(d)
  {
    WrittenNumber(d.repeats, 1, MAX_REPEATS);
    WrittenNumber(d.repeatDelayMs, 0, MAX_DELAY_MS);
  }

  lemma ShortNameIsRead(d: DeviceConfig, friendly: bool, name: Option<string>)
    requires Loaded(d, friendly) && (name == Some(d.name) || (name == None && d.name == d.address))
    ensures DisplayName(d.address, name, friendly) == d.name
  {
    if friendly {
      TrimmedIsFixed(SPACES, d.name);
    }
  }

  lemma ShortPartsAreRead(d: DeviceConfig, friendly: bool, n: nat)
    requires Sayable(d, friendly) && 1 <= n <= 5 && Defaults(d, n)
    ensures ReadParts(EntryParts(d)[..n], friendly) == Ok(d)
  {
    var parts := EntryParts(d)[..n];
    CanonicalIsNormal(d.address);
    NumberIsPart(d.repeats);
    NumberIsPart(d.repeatDelayMs);
    ShortNameIsRead(d, friendly, if n > 1 then Some(d.name) else None);
    if n <= 2 {
      DefaultsBuild(d, friendly, None, None);
    } else {
      KindIsRead(d);
      DefaultsBuild(d, friendly, if n >= 4 then Some(parts[3]) else None, if n >= 5 then Some(parts[4]) else None);
    }
  }

  /** So are its first n parts alone if the device has the default for each of the others. */
  lemma ShortEntryRoundTrip(d: DeviceConfig, friendly: bool, n: nat)
    requires Sayable(d, friendly) && 1 <= n <= 5 && Defaults(d, n)
    ensures ReadEntry(Join(EntryParts(d)[..n], ':'), friendly) == Ok(Some(d))
  {
    var parts := EntryParts(d)[..n];
    PartsAreParts(d, friendly);
    assert forall p :: p in parts ==> p in EntryParts(d);
    JoinedParts(parts);
    TrimmedIsFixed(SPACES, Join(parts, ':'));
    SplitJoin(parts, ':');
    StripKeepsParts(parts);
    ShortPartsAreRead(d, friendly, n);
  }

  function EntryTexts(list: seq<DeviceConfig>): (r: seq<string>)
    ensures |r| == |list| && forall i :: 0 <= i < |r| ==> r[i] == EntryText(list[i])
  {
    seq(|list|, i requires 0 <= i < |list| => EntryText(list[i]))
  }

  /** Any loader-built devices with plain names, written as one X10_DEVICES string, are read back exactly. */
  lemma StringRoundTrip(list: seq<DeviceConfig>, m: Devices, friendly: bool)
    requires list != [] && AllLoaded(m, friendly) && Lists(list, m) && forall d :: d in list ==> IsPlain(d.name)
    ensures FromString(Some(Join(EntryTexts(list), ',')), friendly) == Ok(m)
  {
    var items, read := EntryTexts(list), EntryReader(friendly);
    forall k | 0 <= k < |list|
      ensures read(items[k]) == Ok(Some(list[k])) && ',' !in items[k] && items[k] != ""
    {
      assert list[k] in list;
      EntryRoundTrip(list[k], friendly);
      PartsAreParts(list[k], friendly);
      JoinedParts(EntryParts(list[k]));
    }
    SplitJoin(items, ',');
    assert items[0] != "" && Join(items, ',') != "";
    LastEntryWins(items, read);
    var n := ReadAll(items, read).value;
    ReadMapIsListed(items, read, list, n);
    ListedMapIsUnique(list, m, n);
  }
}
