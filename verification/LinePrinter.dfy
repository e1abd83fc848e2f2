/** The lines mochad prints, and that the parser reads each of them back as what it says. */
module LinePrinter {
  import opened Text
  import opened Models
  import opened Addresses
  import opened LineGrammar
  import opened ProtocolParser

  /** Two texts with a space between them. */
  function Beside(left: string, right: string): string {
    left + " " + right
  }

  predicate Visible(s: string) { s != "" && s[0] !in SPACES }

  /** A run of white space. */
  predicate IsGap(s: string) { s != "" && AllSpace(s) }

  /** A date and a time with the white space behind each. */
  datatype Stamp = Stamp(date: string, gap: string, time: string, room: string)

  ghost predicate IsStamp(s: Stamp) {
    Fits(s.date, DATE) && IsGap(s.gap) && Fits(s.time, TIME) && IsGap(s.room)
  }

  function StampLine(s: Stamp, text: string): string {
    s.date + (s.gap + (s.time + (s.room + text)))
  }

  // Matching what was printed.

  /** Any run of white space is read like a single space. */
  lemma GapIsRead(gap: string, s: string)
    requires IsGap(gap) && Visible(s)
    ensures AfterSpaces(gap + s) == Some(s)
  {
    assert gap[0] in gap;
    LeftPadding(gap, s);
    assert LeftStrip(SPACES, s) == s;
  }

  lemma SpaceIsRead(s: string)
    requires Visible(s)
    ensures AfterSpaces(" " + s) == Some(s)
  {
    GapIsRead(" ", s);
  }

  lemma WordIsRead(word: string, rest: string)
    requires Visible(rest)
    ensures Spaced(AfterWord(Beside(word, rest), word)) == Some(rest)
  {
    var s := Beside(word, rest);
    assert s[..|word|] == word && s[|word|..] == " " + rest;
    SpaceIsRead(rest);
  }

  lemma ShapeIsRead(text: string, shape: string, gap: string, rest: string)
    requires Fits(text, shape) && IsGap(gap) && Visible(rest)
    ensures Spaced(AfterShape(text + (gap + rest), shape)) == Some(rest)
  {
    var s := text + (gap + rest);
    assert s[..|text|] == text && s[|text|..] == gap + rest;
    GapIsRead(gap, rest);
  }

  lemma DigitsAreVisible(s: string, shape: string)
    requires shape != "" && shape[0] == '9' && Fits(s, shape)
    ensures Visible(s)
  {
    DigitIsNotSpace(s[0]);
  }

  lemma StampIsRead(s: Stamp, text: string)
    requires IsStamp(s) && Visible(text)
    ensures AfterTimestamp(StampLine(s, text)) == Some(text)
  {
    DigitsAreVisible(s.time, TIME);
    ShapeIsRead(s.date, DATE, s.gap, s.time + (s.room + text));
    ShapeIsRead(s.time, TIME, s.room, text);
  }

  /** A line printed without space at its end is not changed by stripping. */
  lemma LineIsTrimmed(s: Stamp, text: string)
    requires IsStamp(s) && text != "" && Trimmed(SPACES, text)
    ensures Strip(StampLine(s, text)) == StampLine(s, text)
  {
    DigitsAreVisible(s.date, DATE);
    TrimmedIsFixed(SPACES, StampLine(s, text));
  }

  lemma NotSaid(s: Stamp, text: string, other: string)
    requires IsStamp(s) && Visible(text) && other != "" && UpperChar(text[0]) != UpperChar(other[0])
    ensures !Says(StampLine(s, text), other)
  {
    StampIsRead(s, text);
    assert Upper(text)[0] != Upper(other)[0];
  }

  // Banner lines.

  /** "Device selected" and "End status" are recognised, and the two headings are passed over. */
  lemma BannersAreRead(s: Stamp)
    requires IsStamp(s)
    ensures Sort(Strip(StampLine(s, "Device selected"))) == Selected
    ensures Sort(Strip(StampLine(s, "End status"))) == End
    ensures Sort(Strip(StampLine(s, "Device status"))) == Sort(Strip(StampLine(s, "Security sensor status"))) == Remark
  {
    HeadingsAreRead(s);
    EndIsRead(s);
    SelectedIsRead(s);
  }

  lemma SelectedIsRead(s: Stamp)
    requires IsStamp(s)
    ensures Sort(Strip(StampLine(s, "Device selected"))) == Selected
  {
    LineIsTrimmed(s, "Device selected");
    StampIsRead(s, "Device selected");
  }

  lemma EndIsRead(s: Stamp)
    requires IsStamp(s)
    ensures Sort(Strip(StampLine(s, "End status"))) == End
  {
    LineIsTrimmed(s, "End status");
    StampIsRead(s, "End status");
    NotSaid(s, "End status", "Device selected");
    NotSaid(s, "End status", "Device status");
    NotSaid(s, "End status", "Security sensor status");
    IsNotHouse("End status");
  }

  lemma HeadingsAreRead(s: Stamp)
    requires IsStamp(s)
    ensures Sort(Strip(StampLine(s, "Device status"))) == Remark
    ensures Sort(Strip(StampLine(s, "Security sensor status"))) == Remark
  {
    LineIsTrimmed(s, "Device status");
    StampIsRead(s, "Device status");
    assert |Upper("Device status")| != |Upper("Device selected")|;
    LineIsTrimmed(s, "Security sensor status");
    StampIsRead(s, "Security sensor status");
    NotSaid(s, "Security sensor status", "Device selected");
  }

  /** The number of reports that a house line may hold instead is passed over as well. */
  lemma CountsAreRead(s: Stamp, h: char, count: string)
    requires IsStamp(s) && IsHouse(h) && count != "" && forall c :: c in count ==> IsDigit(c)
    ensures Sort(Strip(StampLine(s, Beside("House", Beside([h] + ":", count))))) == Remark
  {
    var text := Beside("House", Beside([h] + ":", count));
    assert count[0] in count && count[|count| - 1] in count;
    DigitIsNotSpace(count[0]);
    DigitIsNotSpace(count[|count| - 1]);
    LastOfBeside([h] + ":", count);
    LastOfBeside("House", Beside([h] + ":", count));
    LineIsTrimmed(s, text);
    HouseIsNoBanner(s, Beside([h] + ":", count));
    HouseHeadIsRead(s, h, count);
  }

  // Event lines.

  function DirectionText(d: Direction): string { if d.Tx? then "Tx" else "Rx" }

  function TransportText(t: Transport): string { if t.Rf? then "RF" else "PL" }

  function OriginText(d: Direction, t: Transport, rest: string): string {
    Beside(DirectionText(d), Beside(TransportText(t), rest))
  }

  function DeviceLine(s: Stamp, d: Direction, t: Transport, a: string, name: string): string {
    StampLine(s, OriginText(d, t, Beside("HouseUnit:", Beside(a, Beside("Func:", name)))))
  }

  function HouseLine(s: Stamp, d: Direction, t: Transport, h: char, name: string): string {
    StampLine(s, OriginText(d, t, Beside("House:", Beside([h], Beside("Func:", name)))))
  }

  lemma TwoLetters()
    ensures AfterWord("Tx", "Rx") == None && AfterWord("Rx", "Tx") == None
    ensures AfterWord("RF", "PL") == None && AfterWord("PL", "RF") == None
  {
    assert Upper("Tx")[0] != Upper("Rx")[0];
    assert Upper("RF")[0] != Upper("PL")[0];
  }

  lemma TwoLettersRead(word: string, other: string, rest: string)
    requires |word| == 2 && |other| == 2 && AfterWord(word, other) == None && Visible(rest)
    ensures var s := Beside(word, rest);
            AfterWord(s, word).Some? && AfterWord(s, other) == None && |s| >= 2 && AfterSpaces(s[2..]) == Some(rest)
  {
    WordIsRead(word, rest);
    assert Beside(word, rest)[..2] == word == word[..2];
  }

  lemma DirectionIsRead(d: Direction, rest: string)
    requires Visible(rest)
    ensures var s := Beside(DirectionText(d), rest);
            && AfterWord(s, "Tx").Some? == d.Tx? && AfterWord(s, "Rx").Some? == d.Rx?
            && |s| >= 2 && AfterSpaces(s[2..]) == Some(rest)
  {
    TwoLetters();
    TwoLettersRead(DirectionText(d), if d.Tx? then "Rx" else "Tx", rest);
  }

  lemma TransportIsRead(t: Transport, rest: string)
    requires Visible(rest)
    ensures var s := Beside(TransportText(t), rest);
            && AfterWord(s, "RF").Some? == t.Rf? && AfterWord(s, "PL").Some? == t.Pl?
            && |s| >= 2 && AfterSpaces(s[2..]) == Some(rest)
  {
    TwoLetters();
    TwoLettersRead(TransportText(t), if t.Rf? then "PL" else "RF", rest);
  }

  lemma OriginIsRead(s: Stamp, d: Direction, t: Transport, rest: string)
    requires IsStamp(s) && Visible(rest)
    ensures AfterOrigin(StampLine(s, OriginText(d, t, rest))) == Some((d, t, rest))
  {
    StampIsRead(s, OriginText(d, t, rest));
    DirectionIsRead(d, Beside(TransportText(t), rest));
    TransportIsRead(t, rest);
  }

  predicate IsName(name: string) {
    name != "" && Trimmed(SPACES, name) && '\n' !in name
  }

  lemma FuncIsRead(name: string)
    requires IsName(name)
    ensures AfterFunc(Some(Beside("Func:", name))) == Some(name)
  {
    WordIsRead("Func:", name);
  }

  lemma CanonicalIsVisible(a: string, rest: string)
    requires Canonical(a)
    ensures Visible(Beside(a, rest)) && UnitWidth(Beside(a, rest)[1..]) == |a| - 1 && Upper(a) == a
  {
    CanonicalIsNormal(a);
    HouseIsPlain(a[0]);
    var u := Beside(a, rest)[1..];
    assert u == a[1..] + " " + rest;
    forall i | 0 <= i < |a|
      ensures UpperChar(a[i]) == a[i]
    {
      assert i > 0 ==> a[i] == a[1..][i - 1];
    }
  }

  lemma AddressIsRead(a: string, rest: string)
    requires Canonical(a) && Visible(rest)
    ensures AfterAddress(Beside(a, rest)) == Some((a, rest))
  {
    var s := Beside(a, rest);
    CanonicalIsVisible(a, rest);
    assert s[..|a|] == a && s[|a|..] == " " + rest;
    SpaceIsRead(rest);
  }

  predicate IsNoStatus(line: string) {
    && line != "" && !IsSelected(line) && !IsDeviceStatus(line) && !IsSecurityStatus(line) && !IsEnd(line)
    && AfterHouse(line) == None
  }

  lemma IsNotHouse(text: string)
    requires text != "" && UpperChar(text[0]) != 'H'
    ensures AfterWord(text, "House") == None
  {
    if |text| >= 5 {
      assert Upper(text[..5])[0] != Upper("House")[0];
    }
  }

  /** A line that starts with a direction is no status line. */
  lemma EventsAreNoStatus(s: Stamp, d: Direction, t: Transport, rest: string)
    requires IsStamp(s)
    ensures IsNoStatus(StampLine(s, OriginText(d, t, rest)))
  {
    var text := OriginText(d, t, rest);
    NotSaid(s, text, "Device selected");
    NotSaid(s, text, "Device status");
    NotSaid(s, text, "Security sensor status");
    NotSaid(s, text, "End status");
    StampIsRead(s, text);
    IsNotHouse(text);
  }

  lemma ParsedEvent(p: Parser, line: string, h: Heard, now: int)
    requires Strip(line) == line && IsNoStatus(line)
    requires DeviceEventLine(line) == Some(h) || (DeviceEventLine(line) == None && HouseEventLine(line) == Some(h))
    ensures Parse(p, line, now).1 == Some(EventOf(h, now))
  {
  }

  lemma DeviceLineIsRead(s: Stamp, d: Direction, t: Transport, a: string, name: string)
    requires IsStamp(s) && Canonical(a) && IsName(name)
    ensures DeviceEventLine(DeviceLine(s, d, t, a, name)) == Some(HeardDevice(d, t, CommandFor(Token(name)), a))
  {
    var func := Beside("Func:", name);
    CanonicalIsVisible(a, func);
    OriginIsRead(s, d, t, Beside("HouseUnit:", Beside(a, func)));
    WordIsRead("HouseUnit:", Beside(a, func));
    AddressIsRead(a, func);
    FuncIsRead(name);
  }

  lemma HouseIsNotHouseUnit(rest: string)
    ensures AfterWord(Beside("House:", rest), "HouseUnit:") == None
  {
    var text := Beside("House:", rest);
    if |text| >= 10 {
      assert Upper(text[..10])[5] != Upper("HouseUnit:")[5];
    }
  }

  lemma HouseLetterIsRead(h: char, name: string)
    requires IsHouse(h) && IsName(name)
    ensures var rest := Beside([h], Beside("Func:", name));
            Visible(rest) && IsHouseLetter(rest) && Upper(rest[..1]) == [h] && AfterFunc(AfterSpaces(rest[1..])) == Some(name)
  {
    var func := Beside("Func:", name);
    HouseIsPlain(h);
    assert Beside([h], func)[1..] == " " + func;
    SpaceIsRead(func);
    FuncIsRead(name);
  }

  lemma HouseLineIsRead(s: Stamp, d: Direction, t: Transport, h: char, name: string)
    requires IsStamp(s) && IsHouse(h) && IsName(name)
    ensures HouseEventLine(HouseLine(s, d, t, h, name)) == Some(HeardHouse(d, t, CommandFor(Token(name)), [h]))
    ensures DeviceEventLine(HouseLine(s, d, t, h, name)) == None
  {
    var rest := Beside([h], Beside("Func:", name));
    HouseLetterIsRead(h, name);
    OriginIsRead(s, d, t, Beside("House:", rest));
    WordIsRead("House:", rest);
    HouseIsNotHouseUnit(rest);
  }

  lemma LastOfBeside(left: string, right: string)
    requires right != ""
    ensures var s := Beside(left, right); s[|s| - 1] == right[|right| - 1]
  {
  }

  lemma OriginIsTrimmed(d: Direction, t: Transport, head: string, a: string, name: string)
    requires IsName(name)
    ensures Trimmed(SPACES, OriginText(d, t, Beside(head, Beside(a, Beside("Func:", name)))))
  {
    var func := Beside("Func:", name);
    LastOfBeside("Func:", name);
    LastOfBeside(a, func);
    LastOfBeside(head, Beside(a, func));
    LastOfBeside(TransportText(t), Beside(head, Beside(a, func)));
    LastOfBeside(DirectionText(d), Beside(TransportText(t), Beside(head, Beside(a, func))));
  }

  // Command names.

  function WordsOf(c: Command): seq<string> {
    match c
    case On => ["ON"]
    case Off => ["OFF"]
    case Dim => ["DIM"]
    case Bright => ["BRIGHT"]
    case AllLightsOn => ["ALL", "LIGHTS", "ON"]
    case AllLightsOff => ["ALL", "LIGHTS", "OFF"]
    case AllUnitsOff => ["ALL", "UNITS", "OFF"]
    case StatusOn => ["STATUS", "ON"]
    case StatusOff => ["STATUS", "OFF"]
    case StatusRequest => ["STATUS", "REQUEST"]
    case UnknownCommand => ["UNKNOWN"]
  }

  function NameOf(c: Command): string {
    match c
    case On => "ON"
    case Off => "OFF"
    case Dim => "DIM"
    case Bright => "BRIGHT"
    case AllLightsOn => "ALL LIGHTS ON"
    case AllLightsOff => "ALL LIGHTS OFF"
    case AllUnitsOff => "ALL UNITS OFF"
    case StatusOn => "STATUS ON"
    case StatusOff => "STATUS OFF"
    case StatusRequest => "STATUS REQUEST"
    case UnknownCommand => "UNKNOWN"
  }

  lemma JoinTwo(a: string, b: string)
    ensures Join([a, b], ' ') == a + " " + b
  {
    assert [a, b][1..] == [b];
  }

  lemma JoinThree(a: string, b: string, c: string)
    ensures Join([a, b, c], ' ') == a + " " + (b + " " + c)
  {
    assert [a, b, c][1..] == [b, c];
    JoinTwo(b, c);
  }

  lemma LongNamesAreJoined(c: Command)
    requires c.AllLightsOn? || c.AllLightsOff? || c.AllUnitsOff?
    ensures Join(WordsOf(c), ' ') == NameOf(c)
  {
    match c
    case AllLightsOn => JoinThree("ALL", "LIGHTS", "ON");
    case AllLightsOff => JoinThree("ALL", "LIGHTS", "OFF");
    case AllUnitsOff => JoinThree("ALL", "UNITS", "OFF");
  }

  lemma NamesAreJoined(c: Command)
    ensures Join(WordsOf(c), ' ') == NameOf(c)
  {
    match c
    case StatusOn => JoinTwo("STATUS", "ON");
    case StatusOff => JoinTwo("STATUS", "OFF");
    case StatusRequest => JoinTwo("STATUS", "REQUEST");
    case AllLightsOn => LongNamesAreJoined(c);
    case AllLightsOff => LongNamesAreJoined(c);
    case AllUnitsOff => LongNamesAreJoined(c);
    case _ =>
  }

  lemma NamesAreDistinct(c: Command)
    ensures CommandFor(NameOf(c)) == c
  {
  }

  predicate IsWord(w: string) {
    w != "" && forall c :: c in w ==> c !in SPACES && UpperChar(c) == c
  }

  ghost predicate AreWords(ws: seq<string>) {
    ws != [] && forall w :: w in ws ==> IsWord(w)
  }

  lemma {:induction false} WordEndIsFirst(w: string, rest: string)
    requires IsWord(w) && (rest == "" || rest[0] in SPACES)
    ensures WordEnd(w + rest) == |w|
    decreases |w|
  {
    assert (w + rest)[1..] == w[1..] + rest;
    if |w| > 1 {
      assert forall c :: c in w[1..] ==> c in w;
      WordEndIsFirst(w[1..], rest);
    }
  }

  /** The first word of a text. */
  lemma FirstWord(w: string, rest: string)
    requires IsWord(w) && (rest == "" || rest[0] in SPACES)
    ensures Words(w + rest) == [w] + Words(rest)
  {
    WordEndIsFirst(w, rest);
    assert w[0] in w;
    assert LeftStrip(SPACES, w + rest) == w + rest;
    assert (w + rest)[..|w|] == w && (w + rest)[|w|..] == rest;
  }

  lemma {:induction false} JoinedWordsSplit(ws: seq<string>)
    requires AreWords(ws)
    ensures Words(Join(ws, ' ')) == ws
    decreases |ws|
  {
    assert ws[0] in ws && ws == [ws[0]] + ws[1..];
    if |ws| == 1 {
      FirstWord(ws[0], "");
      assert ws[0] + "" == ws[0];
    } else {
      var rest := Join(ws[1..], ' ');
      assert Join(ws, ' ') == ws[0] + (" " + rest);
      FirstWord(ws[0], " " + rest);
      LeadingSpace(rest);
      JoinedWordsSplit(ws[1..]);
    }
  }

  lemma LeadingSpace(s: string)
    ensures Words(" " + s) == Words(s)
  {
    assert (" " + s)[1..] == s;
  }

  /** Upper case, visible at both ends, no line break. */
  ghost predicate IsUpperName(s: string) {
    IsName(s) && forall c :: c in s ==> UpperChar(c) == c
  }

  lemma WordIsUpperName(w: string)
    requires IsWord(w)
    ensures IsUpperName(w)
  {
    assert w[0] in w && w[|w| - 1] in w;
  }

  lemma NamesBeside(a: string, b: string)
    requires IsUpperName(a) && IsUpperName(b)
    ensures IsUpperName(Beside(a, b))
  {
    assert forall c :: c in Beside(a, b) ==> c in a || c == ' ' || c in b;
  }

  lemma {:induction false} JoinedWordsAreUpper(ws: seq<string>)
    requires AreWords(ws)
    ensures IsUpperName(Join(ws, ' '))
    decreases |ws|
  {
    assert ws[0] in ws;
    WordIsUpperName(ws[0]);
    if |ws| > 1 {
      JoinedWordsAreUpper(ws[1..]);
      NamesBeside(ws[0], Join(ws[1..], ' '));
    }
  }

  lemma TokenOfWords(ws: seq<string>)
    requires AreWords(ws)
    ensures IsName(Join(ws, ' ')) && Token(Join(ws, ' ')) == Join(ws, ' ')
  {
    var s := Join(ws, ' ');
    JoinedWordsAreUpper(ws);
    TrimmedIsFixed(SPACES, s);
    assert forall i :: 0 <= i < |s| ==> s[i] in s;
    assert Upper(s) == s;
    JoinedWordsSplit(ws);
  }

  lemma NamesAreWords(c: Command)
    ensures AreWords(WordsOf(c))
  {
    var ws := WordsOf(c);
    forall k, i | 0 <= k < |ws| && 0 <= i < |ws[k]|
      ensures ws[k][i] !in SPACES && UpperChar(ws[k][i]) == ws[k][i]
    {
      CapitalIsPlain(ws[k][i]);
    }
  }

  lemma CapitalIsPlain(c: char)
    requires 'A' <= c <= 'Z'
    ensures c !in SPACES && UpperChar(c) == c
  {
  }

  lemma NamesAreRead(c: Command)
    ensures IsName(NameOf(c)) && CommandFor(Token(NameOf(c))) == c
  {
    NamesAreWords(c);
    TokenOfWords(WordsOf(c));
    NamesAreJoined(c);
    NamesAreDistinct(c);
  }

  // Whole lines.

  /** A printed device event is read back, whatever the parser was doing. */
  lemma DeviceEventRoundTrip(p: Parser, s: Stamp, d: Direction, t: Transport, a: string, c: Command, now: int)
    requires IsStamp(s) && Canonical(a)
    ensures Parse(p, DeviceLine(s, d, t, a, NameOf(c)), now).1 == Some(DeviceEvent(now, d, t, c, a))
  {
    NamesAreRead(c);
    OriginIsTrimmed(d, t, "HouseUnit:", a, NameOf(c));
    var rest := Beside("HouseUnit:", Beside(a, Beside("Func:", NameOf(c))));
    LineIsTrimmed(s, OriginText(d, t, rest));
    EventsAreNoStatus(s, d, t, rest);
    DeviceLineIsRead(s, d, t, a, NameOf(c));
    ParsedEvent(p, DeviceLine(s, d, t, a, NameOf(c)), HeardDevice(d, t, c, a), now);
  }

  /** So is a printed house event. */
  lemma HouseEventRoundTrip(p: Parser, s: Stamp, d: Direction, t: Transport, h: char, c: Command, now: int)
    requires IsStamp(s) && IsHouse(h)
    ensures Parse(p, HouseLine(s, d, t, h, NameOf(c)), now).1 == Some(HouseEvent(now, d, t, c, [h]))
  {
    NamesAreRead(c);
    OriginIsTrimmed(d, t, "House:", [h], NameOf(c));
    var rest := Beside("House:", Beside([h], Beside("Func:", NameOf(c))));
    LineIsTrimmed(s, OriginText(d, t, rest));
    EventsAreNoStatus(s, d, t, rest);
    HouseLineIsRead(s, d, t, h, NameOf(c));
    ParsedEvent(p, HouseLine(s, d, t, h, NameOf(c)), HeardHouse(d, t, c, [h]), now);
  }

  // House status lines.

  /** The spaces before and after a comma. */
  type Gap = (string, string)

  /** One gap between each two entries. */
  ghost predicate Spacing(gaps: seq<Gap>, es: seq<Entry>) {
    |gaps| + 1 == |es| && forall g :: g in gaps ==> AllSpace(g.0) && AllSpace(g.1)
  }

  function CommaText(g: Gap, rest: string): string {
    g.0 + ("," + (g.1 + rest))
  }

  function EntriesText(es: seq<Entry>, gaps: seq<Gap>): string
    requires |gaps| + 1 == |es|
  {
    if |es| == 1 then EntryText(es[0]) else EntryText(es[0]) + CommaText(gaps[0], EntriesText(es[1..], gaps[1..]))
  }

  function StatusLine(s: Stamp, h: char, es: seq<Entry>, gaps: seq<Gap>): string
    requires |gaps| + 1 == |es|
  {
    StampLine(s, Beside("House", Beside([h] + ":", EntriesText(es, gaps))))
  }

  lemma UnitIsRead(u: string, rest: string)
    requires IsUnit(u) && rest != "" && !IsDigit(rest[0])
    ensures UnitWidth(u + rest) == |u|
  {
  }

  lemma PaddingIsRead(p: string, rest: string)
    requires AllSpace(p) && Visible(rest)
    ensures Padding(p + rest) == (p, rest)
  {
    LeftPadding(p, rest);
    assert LeftStrip(SPACES, rest) == rest;
    assert Padding(p + rest).0 == p;
  }

  lemma GapIsNoDigit(e: Entry, rest: string)
    requires IsEntry(e)
    ensures var x := e.gap + ("=" + (e.room + ([e.bit] + rest))); x != "" && !IsDigit(x[0])
  {
    if e.gap != "" {
      assert e.gap[0] in e.gap;
      if IsDigit(e.gap[0]) {
        DigitIsNotSpace(e.gap[0]);
      }
    }
  }

  lemma EntryRegroups(e: Entry, rest: string)
    ensures EntryText(e) + rest == e.unit + (e.gap + ("=" + (e.room + ([e.bit] + rest))))
  {
  }

  lemma EntryIsRead(e: Entry, rest: string)
    requires IsEntry(e)
    ensures AfterEntry(EntryText(e) + rest) == Some((e, rest))
  {
    var s := EntryText(e) + rest;
    var w := [e.bit] + rest;
    var t := "=" + (e.room + w);
    EntryRegroups(e, rest);
    GapIsNoDigit(e, rest);
    UnitIsRead(e.unit, e.gap + t);
    assert s[..|e.unit|] == e.unit && s[|e.unit|..] == e.gap + t;
    PaddingIsRead(e.gap, t);
    assert t[1..] == e.room + w;
    DigitIsNotSpace(e.bit);
    PaddingIsRead(e.room, w);
    assert w[1..] == rest;
  }

  lemma CommaIsRead(g: Gap, rest: string)
    requires AllSpace(g.0) && AllSpace(g.1) && Visible(rest)
    ensures AfterComma(CommaText(g, rest)) == Some((g.0, g.1, rest))
  {
    PaddingIsRead(g.0, "," + (g.1 + rest));
    assert ("," + (g.1 + rest))[1..] == g.1 + rest;
    PaddingIsRead(g.1, rest);
  }

  lemma EntriesOneMore(e: Entry, g: Gap, rest: string, es: seq<Entry>)
    requires IsEntry(e) && AllSpace(g.0) && AllSpace(g.1) && Visible(rest) && Entries(rest) == Some(es)
    ensures Entries(EntryText(e) + CommaText(g, rest)) == Some([e] + es)
  {
    EntryIsRead(e, CommaText(g, rest));
    CommaIsRead(g, rest);
  }

  lemma EntriesStart(es: seq<Entry>, gaps: seq<Gap>)
    requires |gaps| + 1 == |es| && IsEntry(es[0])
    ensures Visible(EntriesText(es, gaps))
  {
    UnitIsPlain(es[0].unit);
  }

  lemma OneEntryIsRead(e: Entry)
    requires IsEntry(e)
    ensures Entries(EntryText(e)) == Some([e])
  {
    assert EntryText(e) + "" == EntryText(e);
    EntryIsRead(e, "");
  }

  lemma {:induction false} EntriesAreRead(es: seq<Entry>, gaps: seq<Gap>)
    requires Spacing(gaps, es) && forall e :: e in es ==> IsEntry(e)
    ensures Entries(EntriesText(es, gaps)) == Some(es)
    decreases |es|
  {
    var e, rest := es[0], es[1..];
    assert e in es;
    if |es| == 1 {
      OneEntryIsRead(e);
      assert es == [e];
    } else {
      assert es == [e] + rest && rest[0] in es && gaps[0] in gaps;
      EntriesAreRead(rest, gaps[1..]);
      EntriesStart(rest, gaps[1..]);
      EntriesOneMore(e, gaps[0], EntriesText(rest, gaps[1..]), rest);
    }
  }

  lemma HouseHeadIsRead(s: Stamp, h: char, text: string)
    requires IsStamp(s) && IsHouse(h) && Visible(text)
    ensures AfterHouse(StampLine(s, Beside("House", Beside([h] + ":", text)))) == Some((h, text))
  {
    var body := Beside([h] + ":", text);
    HouseIsPlain(h);
    StampIsRead(s, Beside("House", body));
    WordIsRead("House", body);
    assert body[1..] == Beside(":", text);
    WordIsRead(":", text);
  }

  lemma {:induction false} EntriesEnd(es: seq<Entry>, gaps: seq<Gap>)
    requires |gaps| + 1 == |es| && forall e :: e in es ==> IsEntry(e)
    ensures var s := EntriesText(es, gaps); '=' in s && s != "" && s[|s| - 1] !in SPACES
    decreases |es|
  {
    assert es[0] in es;
    DigitIsNotSpace(es[0].bit);
    if |es| > 1 {
      EntriesEnd(es[1..], gaps[1..]);
    }
  }

  lemma HouseIsNoBanner(s: Stamp, rest: string)
    requires IsStamp(s)
    ensures var line := StampLine(s, Beside("House", rest));
            !IsSelected(line) && !IsDeviceStatus(line) && !IsSecurityStatus(line) && line != ""
  {
    NotSaid(s, Beside("House", rest), "Device selected");
    NotSaid(s, Beside("House", rest), "Device status");
    NotSaid(s, Beside("House", rest), "Security sensor status");
  }

  lemma SortedHouses(line: string, h: char, text: string, es: seq<Entry>)
    requires line != "" && !IsSelected(line) && !IsDeviceStatus(line) && !IsSecurityStatus(line)
    requires AfterHouse(line) == Some((h, text)) && '=' in text && Entries(text) == Some(es)
    ensures Sort(line) == Houses(Reports(h, es))
  {
    assert !IsDigit('=');
    assert !IsHouseCount(line);
  }

  lemma StatusLineIsTrimmed(s: Stamp, h: char, es: seq<Entry>, gaps: seq<Gap>)
    requires IsStamp(s) && |gaps| + 1 == |es| && forall e :: e in es ==> IsEntry(e)
    ensures Strip(StatusLine(s, h, es, gaps)) == StatusLine(s, h, es, gaps)
  {
    var text := EntriesText(es, gaps);
    EntriesEnd(es, gaps);
    LastOfBeside([h] + ":", text);
    LastOfBeside("House", Beside([h] + ":", text));
    LineIsTrimmed(s, Beside("House", Beside([h] + ":", text)));
  }

  /** A printed house status line, with any spaces around its commas and equal signs, reports exactly its entries, ON for a
      1 and OFF for a 0, and its bits are those that were printed. */
  lemma StatusRoundTrip(s: Stamp, h: char, es: seq<Entry>, gaps: seq<Gap>)
    requires IsStamp(s) && IsHouse(h) && Spacing(gaps, es) && forall e :: e in es ==> IsEntry(e)
    ensures var line := Strip(StatusLine(s, h, es, gaps));
            && Sort(line).Houses? && |Sort(line).readings| == |LineBits(line)| == |es|
            && forall k :: 0 <= k < |es| ==>
                 && LineBits(line)[k] == ([h] + es[k].unit, es[k].bit)
                 && (es[k].bit == '1' ==> Sort(line).readings[k] == ([h] + es[k].unit, On))
                 && (es[k].bit == '0' ==> Sort(line).readings[k] == ([h] + es[k].unit, Off))
  {
    var text := EntriesText(es, gaps);
    assert es[0] in es;
    EntriesStart(es, gaps);
    EntriesAreRead(es, gaps);
    EntriesEnd(es, gaps);
    StatusLineIsTrimmed(s, h, es, gaps);
    HouseIsNoBanner(s, Beside([h] + ":", text));
    HouseHeadIsRead(s, h, text);
    SortedHouses(StatusLine(s, h, es, gaps), h, text, es);
    assert StrictHouse(StatusLine(s, h, es, gaps)) == Some((h, text));
  }
}
