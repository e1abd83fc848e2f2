/** The protocol parser meets the assumptions that the state manager and the bridge make about its events. */
module ParserGuarantees {
  import opened Text
  import opened Models
  import opened Addresses
  import opened ProtocolParser
  import StateSpec
  import StateDetails
  import StateMeaning
  import BridgeDiscovery
  import BridgeDisagreement

  lemma NamesOfReadings(rs: seq<Reading>)
    requires forall r :: r in rs ==> GoodReading(r)
    ensures forall n :: n in BridgeDiscovery.NamesIn(rs) ==> Canonical(n)
    ensures StateDetails.OnOffOnly(rs)
  {
    forall k | 0 <= k < |rs|
      ensures Normal(rs[k].0) == rs[k].0 && GoodReading(rs[k])
    {
      assert rs[k] in rs;
      CanonicalIsNormal(rs[k].0);
    }
  }

  lemma KeysStayDifferent(rs: seq<Reading>)
    requires KeysDiffer(rs) && forall r :: r in rs ==> GoodReading(r)
    ensures BridgeDisagreement.Different(rs)
  {
    forall i, j | 0 <= i < j < |rs|
      ensures Normal(rs[i].0) != Normal(rs[j].0)
    {
      assert rs[i] in rs && rs[j] in rs;
      CanonicalIsNormal(rs[i].0);
      CanonicalIsNormal(rs[j].0);
    }
  }

  /** Whatever lines mochad sends, each parsed event names only canonical addresses and a snapshot holds only ON and OFF,
      once per device, so the theorems about parser-built events hold for every stream of lines. */
  lemma ParserFeedsTheBridge(lines: seq<ProtocolParser.Input>, k: nat, now: int)
    requires k < |lines|
    ensures var i := StateSpec.Observe(ParseAll(FRESH, lines).results[k], now);
            && StateDetails.ParserBuilt(i) && BridgeDisagreement.Orderly(i)
            && forall n :: n in BridgeDiscovery.Names(i) ==> Canonical(n)
  {
    var r := ParseAll(FRESH, lines).results[k];
    EventsAreWellFormed(lines, k);
    match r
    case Some(DeviceEvent(_, _, _, _, a)) => CanonicalIsNormal(a);
    case Some(StatusSnapshot(rs)) =>
      NamesOfReadings(rs);
      KeysStayDifferent(rs);
    case _ =>
  }

  // From the bits of a status report to the states of the devices.

  lemma {:induction false} LookupFinds(d: seq<Reading>, a: string)
    ensures match Lookup(d, a)
            case None => forall i :: 0 <= i < |d| ==> d[i].0 != a
            case Some(c) => exists i :: 0 <= i < |d| && d[i] == (a, c)
  {
    if d != [] && d[0].0 != a {
      LookupFinds(d[1..], a);
      if Lookup(d[1..], a).Some? {
        var i :| 0 <= i < |d| - 1 && d[1..][i] == (a, Lookup(d[1..], a).value);
        assert d[i + 1] == (a, Lookup(d, a).value);
      }
    }
  }

  lemma KeysAreNormal(d: seq<Reading>)
    requires GoodEvent(StatusSnapshot(d))
    ensures forall i :: 0 <= i < |d| ==> Normal(d[i].0) == d[i].0
  {
    forall i | 0 <= i < |d|
      ensures Normal(d[i].0) == d[i].0
    {
      assert d[i] in d;
      CanonicalIsNormal(d[i].0);
    }
  }

  lemma SnapshotSwitches(d: seq<Reading>, s: StateSpec.Manager, codes: Option<set<string>>, now: int, n: string)
    requires GoodEvent(StatusSnapshot(d)) && s.allowed == StateSpec.HouseFilter(codes)
    requires Canonical(n) && (StateMeaning.Restrictive(codes) ==> StateMeaning.Lists(codes, n[..1]))
    requires n in s.configs ==> s.configs[n].stateful
    ensures var t := StateSpec.Step(s, StateSpec.Observe(Some(StatusSnapshot(d)), now)).next;
            match Lookup(d, n)
            case None => StateSpec.Get(t, n) == StateSpec.Get(s, n)
            case Some(c) => n in t.devices && t.devices[n].current == Some(c)
  {
    LookupFinds(d, n);
    KeysAreNormal(d);
    CanonicalIsNormal(n);
    if Lookup(d, n) == None {
      StateMeaning.SnapshotsLeaveOthersAlone(s, StatusSnapshot(d), now, n);
    } else {
      var i :| 0 <= i < |d| && d[i] == (n, Lookup(d, n).value);
      assert d[i] in d && GoodReading(d[i]);
      StateMeaning.SnapshotsLeaveTheirStates(s, codes, StatusSnapshot(d), now, i);
    }
  }

  /** When a status report is complete, every device that keeps a state and whose house is heard is ON if the last bit
      printed for it since "Device selected" is 1 and OFF if it is 0; a device for which none was printed stays as it was. */
  lemma StatusReportsSwitchDevices(lines: seq<Input>, k: nat, j: nat, s: StateSpec.Manager, codes: Option<set<string>>,
                                   now: int, n: string)
    requires k < |lines| && IsSnapshot(ParseAll(FRESH, lines).results[k]) && Open(Kinds(lines)[..k], j)
    requires s.allowed == StateSpec.HouseFilter(codes)
    requires Canonical(n) && (StateMeaning.Restrictive(codes) ==> StateMeaning.Lists(codes, n[..1]))
    requires n in s.configs ==> s.configs[n].stateful
    ensures var t := StateSpec.Step(s, StateSpec.Observe(ParseAll(FRESH, lines).results[k], now)).next;
            var bit := LastBit(Bits(lines[j + 1..k]), n);
            && (bit == Some('1') ==> n in t.devices && t.devices[n].current == Some(On))
            && (bit == Some('0') ==> n in t.devices && t.devices[n].current == Some(Off))
            && (bit == None ==> StateSpec.Get(t, n) == StateSpec.Get(s, n))
  {
    var r := ParseAll(FRESH, lines).results[k];
    var d := r.value.devices;
    assert r == Some(StatusSnapshot(d));
    EventsAreWellFormed(lines, k);
    SnapshotsShowTheLastBits(lines, k, j, n);
    SnapshotSwitches(d, s, codes, now, n);
  }
}
