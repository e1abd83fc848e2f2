/** Collecting status reports while events go by (protocol/status.py and protocol/parser.py). */
module ProtocolParser {
  import opened Text
  import opened Models
  import opened Addresses
  import opened LineGrammar

  type Reading = (string, Command)

  // What kind of line it is.

  datatype Line =
    | Blank
    | Selected
    | Remark
    | Houses(readings: seq<Reading>)
    | End
    | Event(heard: Heard)
    | Stray

  predicate IsStatus(l: Line) { l.Selected? || l.Remark? || l.Houses? || l.End? }

  /** The reports of a strict house line. */
  function StrictReports(line: string): Option<seq<Reading>> {
    match StrictHouse(line)
    case Some((h, text)) => Some(Reports(h, Entries(text).value))
    case None => None
  }

  /** The kind of a line that is no status line. */
  function SortEvent(line: string): (l: Line)
    ensures l.Event? || l.Stray?
  {
    match DeviceEventLine(line)
    case Some(e) => Event(e)
    case None =>
      match HouseEventLine(line)
      case Some(e) => Event(e)
      case None => Stray
  }

  /** The kind of a stripped line. */
  function Sort(line: string): (l: Line)
    ensures l.Houses? ==> StrictReports(line) == Some(l.readings)
  {
    if line == "" then Blank
    else if IsSelected(line) then Selected
    else if IsDeviceStatus(line) || IsSecurityStatus(line) || IsHouseCount(line) then Remark
    else
      match StrictReports(line)
      case Some(rs) => Houses(rs)
      case None => if IsEnd(line) then End else SortEvent(line)
  }

  // The snapshot under collection: a dictionary that remembers insertion order.

  /** `d[a] = c` */
  function Upsert(d: seq<Reading>, a: string, c: Command): seq<Reading> {
    if d == [] then [(a, c)]
    else if d[0].0 == a then [(a, c)] + d[1..]
    else [d[0]] + Upsert(d[1..], a, c)
  }

  function UpsertAll(d: seq<Reading>, rs: seq<Reading>): seq<Reading>
    decreases |rs|
  {
    if rs == [] then d
    else
      var last := rs[|rs| - 1];
      Upsert(UpsertAll(d, rs[..|rs| - 1]), last.0, last.1)
  }

  /** `d.get(a)` */
  function Lookup(d: seq<Reading>, a: string): Option<Command> {
    if d == [] then None else if d[0].0 == a then Some(d[0].1) else Lookup(d[1..], a)
  }

  predicate KeysDiffer(d: seq<Reading>) {
    forall i, j :: 0 <= i < j < |d| ==> d[i].0 != d[j].0
  }

  /** What the last report about the address said. */
  function LastReport(rs: seq<Reading>, a: string): Option<Command>
    decreases |rs|
  {
    if rs == [] then None
    else if rs[|rs| - 1].0 == a then Some(rs[|rs| - 1].1)
    else LastReport(rs[..|rs| - 1], a)
  }

  lemma {:induction false} UpsertKeeps(d: seq<Reading>, a: string, c: Command)
    requires KeysDiffer(d)
    ensures KeysDiffer(Upsert(d, a, c))
    ensures forall b :: Lookup(Upsert(d, a, c), b) == if b == a then Some(c) else Lookup(d, b)
    ensures forall r :: r in Upsert(d, a, c) ==> r in d || r == (a, c)
  {
    if d != [] && d[0].0 != a {
      UpsertKeeps(d[1..], a, c);
      var t := Upsert(d[1..], a, c);
      assert KeysDiffer([d[0]] + t) by {
        forall j | 0 <= j < |t|
          ensures t[j].0 != d[0].0
        {
          assert t[j] in d[1..] || t[j] == (a, c);
        }
      }
    }
  }

  /** Collecting reports keeps one entry per address, and it is the last one reported. */
  lemma {:induction false} LastWriterWins(rs: seq<Reading>)
    ensures var d := UpsertAll([], rs);
            && KeysDiffer(d)
            && (forall a :: Lookup(d, a) == LastReport(rs, a))
            && (forall r :: r in d ==> r in rs)
    decreases |rs|
  {
    if rs != [] {
      LastWriterWins(rs[..|rs| - 1]);
      var last := rs[|rs| - 1];
      UpsertKeeps(UpsertAll([], rs[..|rs| - 1]), last.0, last.1);
    }
  }

  lemma {:induction false} UpsertAllAppend(d: seq<Reading>, a: seq<Reading>, b: seq<Reading>)
    ensures UpsertAll(UpsertAll(d, a), b) == UpsertAll(d, a + b)
    decreases |b|
  {
    if b == [] {
      assert a + b == a;
    } else {
      assert (a + b)[..|a + b| - 1] == a + b[..|b| - 1];
      UpsertAllAppend(d, a, b[..|b| - 1]);
    }
  }

  // The parsers' state and what a line does to it.

  datatype Collection = Collection(snapshot: seq<Reading>, active: bool)

  datatype Capabilities = Capabilities(rf: bool, pl: bool, status: bool)

  datatype Parser = Parser(collection: Collection, capabilities: Capabilities)

  const IDLE := Collection([], false)
  const FRESH := Parser(IDLE, Capabilities(false, false, false))

  /** StatusParser.feed: the new collection and the snapshot it completes. */
  function Collect(c: Collection, l: Line): (Collection, Option<Models.Event>) {
    match l
    case Selected => (Collection([], true), None)
    case Houses(rs) => (if c.active then c.(snapshot := UpsertAll(c.snapshot, rs)) else c, None)
    case End => if c.active then (IDLE, Some(StatusSnapshot(c.snapshot))) else (c, None)
    case _ => (c, None)
  }

  function EventOf(h: Heard, now: int): Models.Event {
    match h
    case HeardDevice(d, t, c, a) => DeviceEvent(now, d, t, c, a)
    case HeardHouse(d, t, c, a) => HouseEvent(now, d, t, c, a)
  }

  function Noted(k: Capabilities, t: Transport): Capabilities {
    if t.Rf? then k.(rf := true) else k.(pl := true)
  }

  /** ProtocolParser.parse_line */
  function Parse(p: Parser, text: string, now: int): (Parser, Option<Models.Event>) {
    var line := Strip(text);
    match Sort(line)
    case Blank => (p, None)
    case Event(h) => (p.(capabilities := Noted(p.capabilities, h.transport)), Some(EventOf(h, now)))
    case Stray => (p, Some(UnknownEvent(now, line)))
    case l =>
      var (c, done) := Collect(p.collection, l);
      (Parser(c, if done.Some? then p.capabilities.(status := true) else p.capabilities), done)
  }

  // The classes.

  lemma StripTwice(s: string)
    ensures Strip(Strip(s)) == Strip(s)
  {
    StripIsTrimmed(SPACES, s);
    TrimmedIsFixed(SPACES, Strip(s));
  }

  lemma PiecesAreReadings(house: char, text: string)
    requires IsHouse(house) && Entries(text).Some?
    ensures |Split(text, ',')| == |Reports(house, Entries(text).value)|
  {
    SplitReadsEntries(house, "", text);
    assert "" + text == text;
  }

  lemma PieceIsReading(house: char, text: string, k: nat)
    requires IsHouse(house) && Entries(text).Some? && k < |Split(text, ',')|
    ensures k < |Entries(text).value|
    ensures ReadPiece(house, Split(text, ',')[k]) == Some(Reports(house, Entries(text).value)[k])
  {
    SplitReadsEntries(house, "", text);
    assert "" + text == text;
  }

  lemma UpsertNext(d: seq<Reading>, rs: seq<Reading>, k: nat)
    requires k < |rs|
    ensures UpsertAll(d, rs[..k + 1]) == Upsert(UpsertAll(d, rs[..k]), rs[k].0, rs[k].1)
  {
    assert rs[..k + 1][..k] == rs[..k];
  }

  class StatusParser {
    var snapshot: seq<Reading>
    var active: bool

    ghost function Model(): Collection
      reads this
    {
      Collection(snapshot, active)
    }

    constructor ()
      ensures Model() == IDLE
    {
      snapshot, active := [], false;
    }

    method Reset()
      modifies this
      ensures Model() == IDLE
    {
      snapshot, active := [], false;
    }

    static predicate IsStatusLine(text: string) {
      var line := Strip(text);
      || IsSelected(line) || IsDeviceStatus(line) || IsSecurityStatus(line)
      || IsHouseCount(line) || StrictHouse(line).Some? || IsEnd(line)
    }

    /** The loop over the comma-separated entries of a strict house line. */
    method Record(house: char, text: string)
      requires IsHouse(house) && Entries(text).Some?
      modifies this`snapshot
      ensures snapshot == UpsertAll(old(snapshot), Reports(house, Entries(text).value))
    {
      var pieces := Split(text, ',');
      ghost var rs := Reports(house, Entries(text).value);
      PiecesAreReadings(house, text);
      for k := 0 to |pieces|
        invariant snapshot == UpsertAll(old(snapshot), rs[..k])
      {
        PieceIsReading(house, text, k);
        UpsertNext(old(snapshot), rs, k);
        var r := ReadPiece(house, pieces[k]).value;
        snapshot := Upsert(snapshot, r.0, r.1);
      }
      assert rs[..|pieces|] == rs;
    }

    method Feed(text: string) returns (done: Option<Models.Event>)
      modifies this
      ensures (Model(), done) == Collect(old(Model()), Sort(Strip(text)))
    {
      var line := Strip(text);
      if IsSelected(line) {
        Reset();
        active := true;
        return None;
      }
      if IsDeviceStatus(line) || IsSecurityStatus(line) {
        return None;
      }
      if IsHouseCount(line) {
        return None;
      }
      if !active {
        return None;
      }
      var strict := StrictHouse(line);
      if strict.Some? {
        Record(strict.value.0, strict.value.1);
        return None;
      }
      if IsEnd(line) {
        done := Some(StatusSnapshot(snapshot));
        Reset();
        return;
      }
      return None;
    }
  }

  class LineParser {
    var capabilities: Capabilities
    const status: StatusParser

    ghost function Model(): Parser
      reads this, status
    {
      Parser(status.Model(), capabilities)
    }

    constructor ()
      ensures Model() == FRESH && fresh(status)
    {
      capabilities := Capabilities(false, false, false);
      status := new StatusParser();
    }

    method ParseLine(text: string, now: int) returns (r: Option<Models.Event>)
      modifies this, status
      ensures (Model(), r) == Parse(old(Model()), text, now)
    {
      var line := Strip(text);
      StripTwice(text);
      if line == "" {
        return None;
      }
      if StatusParser.IsStatusLine(line) {
        r := status.Feed(line);
        if r.Some? {
          capabilities := capabilities.(status := true);
        }
        return;
      }
      var heard := DeviceEventLine(line);
      if heard.None? {
        heard := HouseEventLine(line);
      }
      if heard.None? {
        return Some(UnknownEvent(now, line));
      }
      capabilities := Noted(capabilities, heard.value.transport);
      return Some(EventOf(heard.value, now));
    }
  }

  // Whole runs.

  type Input = (string, int)

  function KindOf(i: Input): Line { Sort(Strip(i.0)) }

  datatype Parsed = Parsed(parser: Parser, results: seq<Option<Models.Event>>)

  function ParseAll(p: Parser, lines: seq<Input>): (r: Parsed)
    ensures |r.results| == |lines|
    decreases |lines|
  {
    if lines == [] then Parsed(p, [])
    else
      var before := ParseAll(p, lines[..|lines| - 1]);
      var last := lines[|lines| - 1];
      var (q, r) := Parse(before.parser, last.0, last.1);
      Parsed(q, before.results + [r])
  }

  /** The status lines, or the other lines, in order. */
  function Only(lines: seq<Input>, status: bool): seq<Input>
    decreases |lines|
  {
    if lines == [] then []
    else
      var last := lines[|lines| - 1];
      Only(lines[..|lines| - 1], status) + (if IsStatus(KindOf(last)) == status then [last] else [])
  }

  /** The snapshots, or the events and unknown lines, that came out. */
  function Produced(results: seq<Option<Models.Event>>, snapshots: bool): seq<Models.Event>
    decreases |results|
  {
    if results == [] then []
    else
      var last := results[|results| - 1];
      Produced(results[..|results| - 1], snapshots)
      + (if last.Some? && last.value.StatusSnapshot? == snapshots then [last.value] else [])
  }

  lemma ProducedLast(results: seq<Option<Models.Event>>, r: Option<Models.Event>, snapshots: bool)
    ensures Produced(results + [r], snapshots)
         == Produced(results, snapshots) + (if r.Some? && r.value.StatusSnapshot? == snapshots then [r.value] else [])
  {
    assert (results + [r])[..|results|] == results;
  }

  lemma ParseLast(p: Parser, lines: seq<Input>, i: Input)
    ensures var before := ParseAll(p, lines); var (q, r) := Parse(before.parser, i.0, i.1);
            ParseAll(p, lines + [i]) == Parsed(q, before.results + [r])
  {
    assert (lines + [i])[..|lines|] == lines;
  }

  /** A line that is not a status line is read the same in every state and leaves the collection alone. */
  lemma EventsIgnoreState(p: Parser, q: Parser, i: Input)
    requires !IsStatus(KindOf(i))
    ensures Parse(p, i.0, i.1).1 == Parse(q, i.0, i.1).1
    ensures Parse(p, i.0, i.1).0.collection == p.collection
    ensures var r := Parse(p, i.0, i.1).1; r.Some? ==> !r.value.StatusSnapshot?
  {
  }

  /** A status line yields a snapshot or nothing, and only the collection matters to it. */
  lemma StatusIgnoresEvents(p: Parser, q: Parser, i: Input)
    requires IsStatus(KindOf(i)) && p.collection == q.collection
    ensures Parse(p, i.0, i.1).1 == Parse(q, i.0, i.1).1
    ensures Parse(p, i.0, i.1).0.collection == Parse(q, i.0, i.1).0.collection
    ensures var r := Parse(p, i.0, i.1).1; r.Some? ==> r.value.StatusSnapshot?
  {
  }

  /** Events and unknown lines come out as if there had been no status lines, whatever the parser was collecting. */
  lemma {:induction false} EventsAreIsolated(p: Parser, q: Parser, lines: seq<Input>)
    ensures Produced(ParseAll(p, lines).results, false) == Produced(ParseAll(q, Only(lines, false)).results, false)
    decreases |lines|
  {
    if lines != [] {
      var init, last := lines[..|lines| - 1], lines[|lines| - 1];
      var p1, q1 := ParseAll(p, init), ParseAll(q, Only(init, false));
      EventsAreIsolated(p, q, init);
      ProducedLast(p1.results, Parse(p1.parser, last.0, last.1).1, false);
      if IsStatus(KindOf(last)) {
        StatusIgnoresEvents(p1.parser, p1.parser, last);
        assert Only(lines, false) == Only(init, false);
      } else {
        EventsIgnoreState(p1.parser, q1.parser, last);
        ParseLast(q, Only(init, false), last);
        ProducedLast(q1.results, Parse(q1.parser, last.0, last.1).1, false);
      }
    }
  }

  /** Snapshots come out as if there had been nothing but status lines. */
  lemma {:induction false} SnapshotsAreIsolated(p: Parser, lines: seq<Input>)
    ensures var r, s := ParseAll(p, lines), ParseAll(p, Only(lines, true));
            Produced(r.results, true) == Produced(s.results, true) && r.parser.collection == s.parser.collection
    decreases |lines|
  {
    if lines != [] {
      var init, last := lines[..|lines| - 1], lines[|lines| - 1];
      var p1, q1 := ParseAll(p, init), ParseAll(p, Only(init, true));
      SnapshotsAreIsolated(p, init);
      ProducedLast(p1.results, Parse(p1.parser, last.0, last.1).1, true);
      if IsStatus(KindOf(last)) {
        StatusIgnoresEvents(p1.parser, q1.parser, last);
        ParseLast(p, Only(init, true), last);
        ProducedLast(q1.results, Parse(q1.parser, last.0, last.1).1, true);
      } else {
        EventsIgnoreState(p1.parser, p1.parser, last);
        assert Only(lines, true) == Only(init, true);
      }
    }
  }

  // What a snapshot holds.

  function Kinds(lines: seq<Input>): (r: seq<Line>)
    ensures |r| == |lines| && forall i :: 0 <= i < |r| ==> r[i] == KindOf(lines[i])
  {
    seq(|lines|, i requires 0 <= i < |lines| => KindOf(lines[i]))
  }

  /** Everything the house lines report, in order. */
  function Readings(ls: seq<Line>): seq<Reading>
    decreases |ls|
  {
    if ls == [] then []
    else
      var l := ls[|ls| - 1];
      Readings(ls[..|ls| - 1]) + (if l.Houses? then l.readings else [])
  }

  /** Line j is the latest "Device selected", and no "End status" has come since. */
  ghost predicate Open(ls: seq<Line>, j: nat) {
    && j < |ls| && ls[j].Selected?
    && forall i :: j < i < |ls| ==> !ls[i].Selected? && !ls[i].End?
  }

  /** The parser is collecting exactly while a selection is open, and holds the reports since then. */
  ghost predicate Holds(c: Collection, ls: seq<Line>) {
    && (c.active <==> exists j :: Open(ls, j))
    && (!c.active ==> c.snapshot == [])
    && forall j :: Open(ls, j) ==> c.snapshot == UpsertAll([], Readings(ls[j + 1..]))
  }

  lemma OpenLast(ls: seq<Line>, l: Line, j: nat)
    ensures Open(ls + [l], j) <==> if l.Selected? then j == |ls| else !l.End? && Open(ls, j)
  {
    var all := ls + [l];
    assert all[|ls|] == l;
    assert forall k :: 0 <= k < |ls| ==> all[k] == ls[k];
  }

  lemma ReadingsLast(ls: seq<Line>, l: Line)
    ensures Readings(ls + [l]) == Readings(ls) + (if l.Houses? then l.readings else [])
  {
    assert (ls + [l])[..|ls|] == ls;
  }

  lemma SelectionHolds(ls: seq<Line>)
    ensures Holds(Collection([], true), ls + [Selected])
  {
    var all := ls + [Selected];
    forall j: nat
      ensures Open(all, j) <==> j == |ls|
    {
      OpenLast(ls, Selected, j);
    }
    assert Open(all, |ls|);
    assert all[|ls| + 1..] == [];
  }

  lemma EndHolds(ls: seq<Line>)
    ensures Holds(IDLE, ls + [End])
  {
    forall j: nat
      ensures !Open(ls + [End], j)
    {
      OpenLast(ls, End, j);
    }
  }

  lemma ReadingsHold(c: Collection, ls: seq<Line>, l: Line)
    requires Holds(c, ls) && !l.Selected? && !l.End?
    ensures Holds(Collect(c, l).0, ls + [l])
  {
    var all, d := ls + [l], Collect(c, l).0;
    forall j: nat
      ensures Open(all, j) <==> Open(ls, j)
    {
      OpenLast(ls, l, j);
    }
    assert (exists j :: Open(all, j)) <==> (exists j :: Open(ls, j));
    forall j | Open(all, j)
      ensures d.snapshot == UpsertAll([], Readings(all[j + 1..]))
    {
      assert Open(ls, j);
      assert all[j + 1..] == ls[j + 1..] + [l];
      ReadingsLast(ls[j + 1..], l);
      CollectGrows(c, Readings(ls[j + 1..]), l);
    }
  }

  /** A line adds its readings, if it has any, to what has been collected. */
  lemma CollectGrows(c: Collection, rs: seq<Reading>, l: Line)
    requires c.active && c.snapshot == UpsertAll([], rs) && !l.Selected? && !l.End?
    ensures Collect(c, l).0.snapshot == UpsertAll([], rs + (if l.Houses? then l.readings else []))
  {
    if l.Houses? {
      UpsertAllAppend([], rs, l.readings);
    } else {
      assert rs + [] == rs;
    }
  }

  lemma CollectHolds(c: Collection, ls: seq<Line>, l: Line)
    requires Holds(c, ls)
    ensures Holds(Collect(c, l).0, ls + [l])
  {
    if l.Selected? {
      SelectionHolds(ls);
    } else if l.End? {
      EndHolds(ls);
    } else {
      ReadingsHold(c, ls, l);
    }
  }

  /** What the status parser alone makes of the lines. */
  function CollectAll(ls: seq<Line>): Collection
    decreases |ls|
  {
    if ls == [] then IDLE else Collect(CollectAll(ls[..|ls| - 1]), ls[|ls| - 1]).0
  }

  lemma {:induction false} CollectionHolds(ls: seq<Line>)
    ensures Holds(CollectAll(ls), ls)
    decreases |ls|
  {
    if ls != [] {
      var init, last := ls[..|ls| - 1], ls[|ls| - 1];
      CollectionHolds(init);
      CollectHolds(CollectAll(init), init, last);
      assert init + [last] == ls;
    }
  }

  lemma ParseCollects(p: Parser, i: Input)
    ensures var (q, r) := Parse(p, i.0, i.1);
            && q.collection == Collect(p.collection, KindOf(i)).0
            && (r.Some? && r.value.StatusSnapshot? <==> KindOf(i).End? && p.collection.active)
            && (r.Some? && r.value.StatusSnapshot? ==> r.value == StatusSnapshot(p.collection.snapshot))
  {
  }

  lemma {:induction false} RunCollects(lines: seq<Input>)
    ensures ParseAll(FRESH, lines).parser.collection == CollectAll(Kinds(lines))
    decreases |lines|
  {
    if lines != [] {
      var init := lines[..|lines| - 1];
      RunCollects(init);
      ParseCollects(ParseAll(FRESH, init).parser, lines[|lines| - 1]);
      assert Kinds(lines)[..|lines| - 1] == Kinds(init);
    }
  }

  lemma {:induction false} ResultAt(p: Parser, lines: seq<Input>, k: nat)
    requires k < |lines|
    ensures ParseAll(p, lines).results[k] == Parse(ParseAll(p, lines[..k]).parser, lines[k].0, lines[k].1).1
    decreases |lines|
  {
    if k < |lines| - 1 {
      ResultAt(p, lines[..|lines| - 1], k);
      assert lines[..|lines| - 1][..k] == lines[..k];
    }
  }

  /** In every run, line k yields a snapshot exactly when it is an "End status" with a selection open before it; and then
      the snapshot is the collection of every report since that selection. */
  lemma SnapshotsAreExact(lines: seq<Input>, k: nat)
    requires k < |lines|
    ensures var r, ls := ParseAll(FRESH, lines).results[k], Kinds(lines);
            && (r.Some? && r.value.StatusSnapshot? <==> ls[k].End? && exists j :: Open(ls[..k], j))
            && (r.Some? && r.value.StatusSnapshot? ==>
                  forall j :: Open(ls[..k], j) ==> r.value.devices == UpsertAll([], Readings(ls[j + 1..k])))
  {
    var ls := Kinds(lines);
    ResultAt(FRESH, lines, k);
    RunCollects(lines[..k]);
    assert Kinds(lines[..k]) == ls[..k];
    CollectionHolds(ls[..k]);
    ParseCollects(ParseAll(FRESH, lines[..k]).parser, lines[k]);
    assert forall j :: Open(ls[..k], j) ==> ls[..k][j + 1..] == ls[j + 1..k];
  }

  // What a snapshot shows, in terms of the bits of the lines.

  /** The bits of a strict house line, each with the address it is about. */
  function LineBits(line: string): (r: seq<(string, char)>)
    requires StrictHouse(line).Some?
    ensures var (h, text) := StrictHouse(line).value; var es := Entries(text).value;
            |r| == |es| && forall k :: 0 <= k < |es| ==> r[k] == ([h] + es[k].unit, es[k].bit)
  {
    var (h, text) := StrictHouse(line).value;
    var es := Entries(text).value;
    seq(|es|, k requires 0 <= k < |es| => ([h] + es[k].unit, es[k].bit))
  }

  /** All bits of all house lines, in order. */
  function Bits(lines: seq<Input>): seq<(string, char)>
    decreases |lines|
  {
    if lines == [] then []
    else
      var last := Strip(lines[|lines| - 1].0);
      Bits(lines[..|lines| - 1]) + (if Sort(last).Houses? then LineBits(last) else [])
  }

  function LastBit(bits: seq<(string, char)>, a: string): Option<char>
    decreases |bits|
  {
    if bits == [] then None
    else if bits[|bits| - 1].0 == a then Some(bits[|bits| - 1].1)
    else LastBit(bits[..|bits| - 1], a)
  }

  /** Readings that say what bits say. */
  predicate Rendered(bits: seq<(string, char)>, rs: seq<Reading>) {
    && |rs| == |bits|
    && forall k :: 0 <= k < |bits| ==>
         bits[k].1 in {'0', '1'} && rs[k] == (bits[k].0, if bits[k].1 == '1' then On else Off)
  }

  lemma LineIsRendered(line: string)
    requires Sort(line).Houses?
    ensures StrictHouse(line).Some? && Rendered(LineBits(line), Sort(line).readings)
  {
    var (h, text) := StrictHouse(line).value;
    var es := Entries(text).value;
    forall k | 0 <= k < |es|
      ensures es[k].bit in {'0', '1'}
    {
      assert es[k] in es;
    }
  }

  lemma RenderedFurther(bits: seq<(string, char)>, rs: seq<Reading>, more: seq<(string, char)>, further: seq<Reading>)
    requires Rendered(bits, rs) && Rendered(more, further)
    ensures Rendered(bits + more, rs + further)
  {
  }

  /** The bits and the readings of one more line. */
  lemma OneMoreLine(init: seq<Input>, last: Input)
    ensures var line, all := Strip(last.0), init + [last];
            && Bits(all) == Bits(init) + (if Sort(line).Houses? then LineBits(line) else [])
            && Readings(Kinds(all)) == Readings(Kinds(init)) + if Sort(line).Houses? then Sort(line).readings else []
  {
    var all := init + [last];
    assert all[..|all| - 1] == init;
    assert Kinds(all)[..|all| - 1] == Kinds(init) && Kinds(all)[|all| - 1] == KindOf(last);
  }

  lemma {:induction false} LinesAreRendered(lines: seq<Input>)
    ensures Rendered(Bits(lines), Readings(Kinds(lines)))
    decreases |lines|
  {
    if lines != [] {
      var init, last := lines[..|lines| - 1], lines[|lines| - 1];
      LinesAreRendered(init);
      assert lines == init + [last];
      OneMoreLine(init, last);
      if Sort(Strip(last.0)).Houses? {
        LineIsRendered(Strip(last.0));
        RenderedFurther(Bits(init), Readings(Kinds(init)), LineBits(Strip(last.0)), Sort(Strip(last.0)).readings);
      }
    }
  }

  lemma {:induction false} LastBitIsLastReport(bits: seq<(string, char)>, rs: seq<Reading>, a: string)
    requires Rendered(bits, rs)
    ensures LastReport(rs, a) == (match LastBit(bits, a) case None => None case Some(b) => Some(if b == '1' then On else Off))
    ensures LastBit(bits, a).Some? ==> LastBit(bits, a).value in {'0', '1'}
    decreases |bits|
  {
    if bits != [] {
      LastBitIsLastReport(bits[..|bits| - 1], rs[..|rs| - 1], a);
    }
  }

  /** A snapshot holds ON for an address if and only if the last bit printed for it since the selection is 1, OFF if and
      only if it is 0, and nothing if and only if there is none. */
  lemma SnapshotsShowTheLastBits(lines: seq<Input>, k: nat, j: nat, a: string)
    requires k < |lines| && IsSnapshot(ParseAll(FRESH, lines).results[k]) && Open(Kinds(lines)[..k], j)
    ensures var shown, bit := Lookup(ParseAll(FRESH, lines).results[k].value.devices, a), LastBit(Bits(lines[j + 1..k]), a);
            && (shown == Some(On) <==> bit == Some('1')) && (shown == Some(Off) <==> bit == Some('0'))
            && (shown == None <==> bit == None)
  {
    var since := lines[j + 1..k];
    SnapshotsAreExact(lines, k);
    assert Kinds(lines)[j + 1..k] == Kinds(since);
    LinesAreRendered(since);
    LastWriterWins(Readings(Kinds(since)));
    LastBitIsLastReport(Bits(since), Readings(Kinds(since)), a);
  }

  // What comes out is well formed.

  predicate GoodReading(r: Reading) {
    Canonical(r.0) && r.1 in {On, Off}
  }

  ghost predicate GoodEvent(e: Models.Event) {
    match e
    case DeviceEvent(_, _, _, _, a) => Canonical(a)
    case HouseEvent(_, _, _, _, h) => |h| == 1 && IsHouse(h[0])
    case StatusSnapshot(rs) => KeysDiffer(rs) && forall r :: r in rs ==> GoodReading(r)
    case UnknownEvent(_, _) => true
  }

  lemma StrictReportsAreGood(line: string)
    requires StrictReports(line).Some?
    ensures forall r :: r in StrictReports(line).value ==> GoodReading(r)
  {
    var (h, text) := StrictHouse(line).value;
    ReportsAreGood(h, Entries(text).value);
  }

  lemma HousesAreGood(line: string)
    ensures Sort(line).Houses? ==> forall r :: r in Sort(line).readings ==> GoodReading(r)
  {
    if Sort(line).Houses? {
      StrictReportsAreGood(line);
    }
  }

  lemma ReportsAreGood(h: char, es: seq<Entry>)
    requires IsHouse(h) && forall e :: e in es ==> IsEntry(e)
    ensures forall r :: r in Reports(h, es) ==> GoodReading(r)
  {
    forall k | 0 <= k < |es|
      ensures GoodReading(Reports(h, es)[k])
    {
      assert es[k] in es;
      assert ([h] + es[k].unit)[1..] == es[k].unit;
    }
  }

  ghost predicate GoodLines(ls: seq<Line>) {
    forall l :: l in ls && l.Houses? ==> forall r :: r in l.readings ==> GoodReading(r)
  }

  lemma {:induction false} ReadingsAreGood(ls: seq<Line>)
    requires GoodLines(ls)
    ensures forall r :: r in Readings(ls) ==> GoodReading(r)
    decreases |ls|
  {
    if ls != [] {
      assert ls[|ls| - 1] in ls;
      ReadingsAreGood(ls[..|ls| - 1]);
    }
  }

  lemma CollectedIsGood(ls: seq<Line>)
    requires GoodLines(ls)
    ensures GoodEvent(StatusSnapshot(UpsertAll([], Readings(ls))))
  {
    ReadingsAreGood(ls);
    LastWriterWins(Readings(ls));
  }

  lemma KindsAreGood(lines: seq<Input>)
    ensures GoodLines(Kinds(lines))
  {
    forall k | 0 <= k < |lines|
      ensures KindOf(lines[k]).Houses? ==> forall r :: r in KindOf(lines[k]).readings ==> GoodReading(r)
    {
      HousesAreGood(Strip(lines[k].0));
    }
  }

  lemma HeardIsGood(line: string, now: int)
    ensures Sort(line).Event? ==> GoodEvent(EventOf(Sort(line).heard, now))
  {
    var d := DeviceEventLine(line);
    if d.Some? {
      var t := Spaced(AfterWord(AfterOrigin(line).value.2, "HouseUnit:")).value;
      AddressIsCanonical(t);
    }
  }

  lemma CollectionIsGood(ls: seq<Line>)
    requires GoodLines(ls)
    ensures GoodEvent(StatusSnapshot(CollectAll(ls).snapshot))
  {
    CollectionHolds(ls);
    if CollectAll(ls).active {
      var j :| Open(ls, j);
      assert GoodLines(ls[j + 1..]);
      CollectedIsGood(ls[j + 1..]);
    }
  }

  lemma SnapshotIsWellFormed(lines: seq<Input>, k: nat)
    requires k < |lines| && IsSnapshot(ParseAll(FRESH, lines).results[k])
    ensures GoodEvent(ParseAll(FRESH, lines).results[k].value)
  {
    ResultAt(FRESH, lines, k);
    RunCollects(lines[..k]);
    ParseCollects(ParseAll(FRESH, lines[..k]).parser, lines[k]);
    KindsAreGood(lines[..k]);
    CollectionIsGood(Kinds(lines[..k]));
  }

  lemma ParsedIsWellFormed(p: Parser, i: Input)
    ensures var r := Parse(p, i.0, i.1).1; r.Some? && !IsSnapshot(r) ==> GoodEvent(r.value)
  {
    HeardIsGood(Strip(i.0), i.1);
  }

  /** Every event of every run is well formed: canonical addresses, one entry per address in a snapshot, ON or OFF. */
  lemma EventsAreWellFormed(lines: seq<Input>, k: nat)
    requires k < |lines|
    ensures var r := ParseAll(FRESH, lines).results[k]; r.Some? ==> GoodEvent(r.value)
  {
    if IsSnapshot(ParseAll(FRESH, lines).results[k]) {
      SnapshotIsWellFormed(lines, k);
    } else {
      ResultAt(FRESH, lines, k);
      ParsedIsWellFormed(ParseAll(FRESH, lines[..k]).parser, lines[k]);
    }
  }

  // Capabilities.

  predicate Shows(r: Option<Models.Event>, t: Transport) {
    r.Some? && (r.value.DeviceEvent? || r.value.HouseEvent?) && r.value.transport == t
  }

  predicate IsSnapshot(r: Option<Models.Event>) { r.Some? && r.value.StatusSnapshot? }

  lemma CapabilitiesNoteTheResult(p: Parser, i: Input)
    ensures var (q, r) := Parse(p, i.0, i.1);
            q.capabilities == Capabilities(p.capabilities.rf || Shows(r, Rf), p.capabilities.pl || Shows(r, Pl),
                                           p.capabilities.status || IsSnapshot(r))
  {
  }

  ghost predicate Exactly(k: Capabilities, results: seq<Option<Models.Event>>) {
    && (k.rf <==> exists r :: r in results && Shows(r, Rf))
    && (k.pl <==> exists r :: r in results && Shows(r, Pl))
    && (k.status <==> exists r :: r in results && IsSnapshot(r))
  }

  lemma ExactlyOneMore(k: Capabilities, results: seq<Option<Models.Event>>, r: Option<Models.Event>)
    requires Exactly(k, results)
    ensures Exactly(Capabilities(k.rf || Shows(r, Rf), k.pl || Shows(r, Pl), k.status || IsSnapshot(r)), results + [r])
  {
    assert forall x :: x in results + [r] <==> x in results || x == r;
    assert r in results + [r];
  }

  /** The capability flags say exactly what has been seen. */
  lemma {:induction false} CapabilitiesAreExact(lines: seq<Input>)
    ensures Exactly(ParseAll(FRESH, lines).parser.capabilities, ParseAll(FRESH, lines).results)
    decreases |lines|
  {
    if lines != [] {
      var last := lines[|lines| - 1];
      var before := ParseAll(FRESH, lines[..|lines| - 1]);
      CapabilitiesAreExact(lines[..|lines| - 1]);
      CapabilitiesNoteTheResult(before.parser, last);
      ExactlyOneMore(before.parser.capabilities, before.results, Parse(before.parser, last.0, last.1).1);
    }
  }
}
