/** The line grammars of protocol/regex.py and the tokens of protocol/mappings.py, as matchers over text. */
module LineGrammar {
  import opened Text
  import opened Models
  import opened Addresses

  // Padding.

  predicate AllSpace(s: string) {
    forall c :: c in s ==> c in SPACES
  }

  lemma {:induction false} LeftStripIsSuffix(s: string)
    ensures var t := LeftStrip(SPACES, s);
            |t| <= |s| && s == s[..|s| - |t|] + t && AllSpace(s[..|s| - |t|])
  {
    if s != "" && s[0] in SPACES {
      LeftStripIsSuffix(s[1..]);
      var t := LeftStrip(SPACES, s[1..]);
      var p := s[1..][..|s| - 1 - |t|];
      assert s[..|s| - |t|] == [s[0]] + p;
      assert s == [s[0]] + (p + t);
    }
  }

  /** `\s*`: the leading spaces and what follows them. */
  function Padding(s: string): (r: (string, string))
    ensures s == r.0 + r.1 && AllSpace(r.0) && r.1 == LeftStrip(SPACES, s)
  {
    LeftStripIsSuffix(s);
    var t := LeftStrip(SPACES, s);
    (s[..|s| - |t|], t)
  }

  // Matchers: what is left of a text after a match.

  /** `\s+` */
  function AfterSpaces(s: string): Option<string> {
    if s != "" && s[0] in SPACES then Some(LeftStrip(SPACES, s)) else None
  }

  /** A literal, in any case. */
  function AfterWord(s: string, word: string): Option<string> {
    if |word| <= |s| && Upper(s[..|word|]) == Upper(word) then Some(s[|word|..]) else None
  }

  predicate Fits(s: string, shape: string) {
    |s| == |shape| && forall i :: 0 <= i < |s| ==> if shape[i] == '9' then IsDigit(s[i]) else s[i] == shape[i]
  }

  /** A shape in which 9 stands for any digit. */
  function AfterShape(s: string, shape: string): Option<string> {
    if |shape| <= |s| && Fits(s[..|shape|], shape) then Some(s[|shape|..]) else None
  }

  function Spaced(o: Option<string>): Option<string> {
    if o.Some? then AfterSpaces(o.value) else None
  }

  function Literal(o: Option<string>, word: string): Option<string> {
    if o.Some? then AfterWord(o.value, word) else None
  }

  const DATE := "99/99"
  const TIME := "99:99:99"

  /** The timestamp and the space behind it. */
  function AfterTimestamp(line: string): Option<string> {
    match Spaced(AfterShape(line, DATE))
    case None => None
    case Some(t) => Spaced(AfterShape(t, TIME))
  }

  // Status lines.

  predicate Says(line: string, text: string) {
    var rest := AfterTimestamp(line);
    rest.Some? && Upper(rest.value) == Upper(text)
  }

  predicate IsSelected(line: string) { Says(line, "Device selected") }

  predicate IsDeviceStatus(line: string) { Says(line, "Device status") }

  predicate IsSecurityStatus(line: string) { Says(line, "Security sensor status") }

  predicate IsEnd(line: string) { Says(line, "End status") }

  predicate IsHouseLetter(s: string) {
    s != "" && IsHouse(UpperChar(s[0]))
  }

  /** `House X:` and the text behind it. */
  function AfterHouse(line: string): Option<(char, string)> {
    match Spaced(Literal(AfterTimestamp(line), "House"))
    case None => None
    case Some(t) =>
      if !IsHouseLetter(t) then None
      else
        match Spaced(AfterWord(t[1..], ":"))
        case None => None
        case Some(rest) => Some((UpperChar(t[0]), rest))
  }

  predicate IsHouseCount(line: string) {
    var h := AfterHouse(line);
    h.Some? && h.value.1 != "" && forall c :: c in h.value.1 ==> IsDigit(c)
  }

  /** How many characters of the text a unit number takes, 0 if it does not start with one. */
  function UnitWidth(s: string): (n: nat)
    ensures n <= |s| && (n > 0 ==> IsUnit(s[..n]))
  {
    if |s| >= 2 && s[0] == '1' && '0' <= s[1] <= '6' then 2
    else if |s| >= 1 && '1' <= s[0] <= '9' then 1
    else 0
  }

  /** One `unit = bit` with the spaces around its equal sign. */
  datatype Entry = Entry(unit: string, gap: string, room: string, bit: char)

  function EntryText(e: Entry): string {
    e.unit + (e.gap + ("=" + (e.room + [e.bit])))
  }

  predicate IsEntry(e: Entry) {
    IsUnit(e.unit) && AllSpace(e.gap) && AllSpace(e.room) && e.bit in {'0', '1'}
  }

  lemma Reassemble(s: string, k: nat, gap: string, t: string, room: string, w: string)
    requires k <= |s| && s[k..] == gap + t && t != "" && t[0] == '=' && t[1..] == room + w && w != ""
    ensures s == EntryText(Entry(s[..k], gap, room, w[0])) + w[1..]
  {
    assert t == "=" + (room + w);
    assert w == [w[0]] + w[1..];
    assert s == s[..k] + (gap + t);
    assert t == ("=" + (room + [w[0]])) + w[1..];
    assert gap + t == (gap + ("=" + (room + [w[0]]))) + w[1..];
  }

  /** An entry and the text behind it. */
  function AfterEntry(s: string): (r: Option<(Entry, string)>)
    ensures r.Some? ==> IsEntry(r.value.0) && |r.value.1| < |s|
  {
    var k := UnitWidth(s);
    var (gap, t) := Padding(s[k..]);
    if k == 0 || t == "" || t[0] != '=' then None
    else
      var (room, w) := Padding(t[1..]);
      if w == "" || w[0] !in {'0', '1'} then None else Some((Entry(s[..k], gap, room, w[0]), w[1..]))
  }

  lemma EntryIsText(s: string)
    requires AfterEntry(s).Some?
    ensures s == EntryText(AfterEntry(s).value.0) + AfterEntry(s).value.1
  {
    var k := UnitWidth(s);
    var (gap, t) := Padding(s[k..]);
    var (room, w) := Padding(t[1..]);
    Reassemble(s, k, gap, t, room, w);
  }

  /** A comma with the spaces around it, and the text behind it. */
  function AfterComma(s: string): (r: Option<(string, string, string)>)
    ensures r.Some? ==> AllSpace(r.value.0) && AllSpace(r.value.1) && |r.value.2| < |s|
  {
    var (before, t) := Padding(s);
    if t == "" || t[0] != ',' then None
    else
      var (after, next) := Padding(t[1..]);
      Some((before, after, next))
  }

  lemma CommaIsText(s: string)
    requires AfterComma(s).Some?
    ensures var (before, after, next) := AfterComma(s).value; s == before + "," + (after + next)
  {
    var t := Padding(s).1;
    assert t == "," + t[1..];
  }

  /** A whole text of comma-separated entries. */
  function Entries(s: string): (r: Option<seq<Entry>>)
    ensures r.Some? ==> forall e :: e in r.value ==> IsEntry(e)
    decreases |s|
  {
    match AfterEntry(s)
    case None => None
    case Some((e, rest)) =>
      if rest == "" then Some([e])
      else
        match AfterComma(rest)
        case None => None
        case Some((_, _, next)) =>
          match Entries(next)
          case None => None
          case Some(es) => Some([e] + es)
  }

  /** A strict house line: the house and the text of its entries. */
  function StrictHouse(line: string): Option<(char, string)> {
    match AfterHouse(line)
    case Some((h, text)) => if Entries(text).Some? then Some((h, text)) else None
    case None => None
  }

  // Event lines.

  predicate IsText(s: string) { s != "" && '\n' !in s }

  /** `Tx|Rx`, `RF|PL` and the space behind each. */
  function AfterOrigin(line: string): Option<(Direction, Transport, string)> {
    match AfterTimestamp(line)
    case None => None
    case Some(t) =>
      var direction := if AfterWord(t, "Tx").Some? then Some(Tx) else if AfterWord(t, "Rx").Some? then Some(Rx) else None;
      match (direction, if |t| >= 2 then AfterSpaces(t[2..]) else None)
      case (Some(d), Some(u)) =>
        var transport := if AfterWord(u, "RF").Some? then Some(Rf) else if AfterWord(u, "PL").Some? then Some(Pl) else None;
        (match (transport, if |u| >= 2 then AfterSpaces(u[2..]) else None)
         case (Some(p), Some(v)) => Some((d, p, v))
         case _ => None)
      case _ => None
  }

  /** `Func:` and the command text, which runs to the end of the line. */
  function AfterFunc(o: Option<string>): Option<string> {
    match Spaced(Literal(o, "Func:"))
    case Some(text) => if IsText(text) then Some(text) else None
    case None => None
  }

  /** An address and the space behind it. */
  function AfterAddress(s: string): Option<(string, string)> {
    if !IsHouseLetter(s) || UnitWidth(s[1..]) == 0 then None
    else
      var n := 1 + UnitWidth(s[1..]);
      match AfterSpaces(s[n..])
      case Some(rest) => Some((Upper(s[..n]), rest))
      case None => None
  }

  datatype Heard =
    | HeardDevice(direction: Direction, transport: Transport, command: Command, address: string)
    | HeardHouse(direction: Direction, transport: Transport, command: Command, house: string)

  function DeviceEventLine(line: string): (r: Option<Heard>)
    ensures r.Some? ==> r.value.HeardDevice?
  {
    match AfterOrigin(line)
    case None => None
    case Some((d, p, t)) =>
      match Spaced(AfterWord(t, "HouseUnit:"))
      case None => None
      case Some(u) =>
        match AfterAddress(u)
        case None => None
        case Some((a, v)) =>
          match AfterFunc(Some(v))
          case None => None
          case Some(text) => Some(HeardDevice(d, p, CommandFor(Token(text)), a))
  }

  function HouseEventLine(line: string): (r: Option<Heard>)
    ensures r.Some? ==> r.value.HeardHouse?
  {
    match AfterOrigin(line)
    case None => None
    case Some((d, p, t)) =>
      match Spaced(AfterWord(t, "House:"))
      case None => None
      case Some(u) =>
        if !IsHouseLetter(u) then None
        else
          match AfterFunc(AfterSpaces(u[1..]))
          case None => None
          case Some(text) => Some(HeardHouse(d, p, CommandFor(Token(text)), Upper(u[..1])))
  }

  // Command tokens.

  function WordEnd(s: string): (n: nat)
    ensures n <= |s| && (n > 0 <==> s != "" && s[0] !in SPACES)
  {
    if s == "" || s[0] in SPACES then 0 else 1 + WordEnd(s[1..])
  }

  /** `s.split()` */
  function Words(s: string): seq<string>
    decreases |s|
  {
    LeftStripEnds(SPACES, s);
    var t := Padding(s).1;
    if t == "" then [] else [t[..WordEnd(t)]] + Words(t[WordEnd(t)..])
  }

  /** normalize_token: upper case, single spaces. */
  function Token(s: string): string {
    var words := Words(Normal(s));
    if words == [] then "" else Join(words, ' ')
  }

  function CommandFor(token: string): Command {
    if token == "ON" then On
    else if token == "OFF" then Off
    else if token == "DIM" then Dim
    else if token == "BRIGHT" then Bright
    else if token == "ALL LIGHTS ON" then AllLightsOn
    else if token == "ALL LIGHTS OFF" then AllLightsOff
    else if token == "ALL UNITS OFF" then AllUnitsOff
    else if token == "STATUS ON" then StatusOn
    else if token == "STATUS OFF" then StatusOff
    else if token == "STATUS REQUEST" then StatusRequest
    else UnknownCommand
  }

  lemma {:induction false} LeftPadding(p: string, s: string)
    requires AllSpace(p)
    ensures LeftStrip(SPACES, p + s) == LeftStrip(SPACES, s)
  {
    if p == "" {
      assert p + s == s;
    } else {
      assert (p + s)[1..] == p[1..] + s;
      LeftPadding(p[1..], s);
    }
  }

  lemma {:induction false} RightPadding(s: string, p: string)
    requires AllSpace(p)
    ensures RightStrip(SPACES, s + p) == RightStrip(SPACES, s)
    decreases |p|
  {
    if p == "" {
      assert s + p == s;
    } else {
      assert (s + p)[..|s + p| - 1] == s + p[..|p| - 1];
      RightPadding(s, p[..|p| - 1]);
    }
  }

  lemma StripPadded(p: string, s: string, q: string)
    requires AllSpace(p) && AllSpace(q) && s != "" && Trimmed(SPACES, s)
    ensures Strip(p + s + q) == s
  {
    assert p + s + q == p + (s + q);
    LeftPadding(p, s + q);
    assert LeftStrip(SPACES, s + q) == s + q;
    RightPadding(s, q);
  }

  // The text of a strict house line, read the way feed reads it.

  /** What feed makes of one comma-separated piece; None where it would raise. */
  function ReadPiece(house: char, piece: string): Option<(string, Command)> {
    if '=' !in piece then None
    else
      var i := IndexOf(piece, '=');
      match NormalizeAddress([house] + Strip(piece[..i]))
      case None => None
      case Some(a) => Some((a, if Strip(piece[i + 1..]) == "1" then On else Off))
  }

  lemma UnitIsPlain(u: string)
    requires IsUnit(u)
    ensures Trimmed(SPACES, u) && u != "" && '=' !in u && ',' !in u
  {
    forall c | c in u
      ensures c !in SPACES && c != '=' && c != ','
    {
      assert IsDigit(c);
    }
  }

  lemma CutAtEqual(left: string, right: string)
    requires '=' !in left
    ensures var s := left + "=" + right; var i := IndexOf(s, '='); s[..i] == left && s[i + 1..] == right
  {
    var s := left + "=" + right;
    assert s[|left|] == '=' && IndexOf(s, '=') == |left|;
  }

  /** A piece in two halves. */
  lemma HalvesAreRead(house: char, unit: string, bit: char, left: string, right: string)
    requires IsHouse(house) && IsUnit(unit) && '=' !in left && Strip(left) == unit && Strip(right) == [bit]
    ensures ReadPiece(house, left + "=" + right) == Some(([house] + unit, if bit == '1' then On else Off))
  {
    CutAtEqual(left, right);
    assert ([house] + unit)[1..] == unit;
    CanonicalIsNormal([house] + unit);
  }

  lemma PieceRegroups(a: string, e: Entry, b: string)
    ensures a + EntryText(e) + b == (a + e.unit + e.gap) + "=" + (e.room + [e.bit] + b)
  {
  }

  lemma SpacesArePlain(s: string)
    requires AllSpace(s)
    ensures '=' !in s && ',' !in s
  {
  }

  lemma PieceIsRead(house: char, a: string, e: Entry, b: string)
    requires IsHouse(house) && IsEntry(e) && AllSpace(a) && AllSpace(b)
    ensures var piece := a + EntryText(e) + b;
            ',' !in piece && ReadPiece(house, piece) == Some(([house] + e.unit, if e.bit == '1' then On else Off))
  {
    PieceRegroups(a, e, b);
    UnitIsPlain(e.unit);
    SpacesArePlain(a);
    SpacesArePlain(e.gap);
    SpacesArePlain(e.room);
    SpacesArePlain(b);
    StripPadded(a, e.unit, e.gap);
    DigitIsNotSpace(e.bit);
    StripPadded(e.room, [e.bit], b);
    HalvesAreRead(house, e.unit, e.bit, a + e.unit + e.gap, e.room + [e.bit] + b);
  }

  lemma FirstPiece(s: string, rest: string)
    requires ',' !in s
    ensures Split(s + "," + rest, ',') == [s] + Split(rest, ',')
  {
    var all := s + "," + rest;
    var i := IndexOf(all, ',');
    assert all[|s|] == ',' && i == |s|;
    SplitFirst(all, ',');
    assert all[..i] == s && all[i + 1..] == rest;
  }

  /** Each piece is read as its entry says: a 1 is ON and a 0 is OFF. */
  predicate ReadAs(house: char, pieces: seq<string>, es: seq<Entry>) {
    && |pieces| == |es|
    && forall k :: 0 <= k < |es| ==>
         ReadPiece(house, pieces[k]) == Some(([house] + es[k].unit, if es[k].bit == '1' then On else Off))
  }

  /** What the entries of a house line report. */
  function Reports(house: char, es: seq<Entry>): (r: seq<(string, Command)>)
    ensures |r| == |es|
    ensures forall k :: 0 <= k < |es| ==> r[k] == ([house] + es[k].unit, if es[k].bit == '1' then On else Off)
  {
    seq(|es|, k requires 0 <= k < |es| => ([house] + es[k].unit, if es[k].bit == '1' then On else Off))
  }

  lemma ReadOneMore(house: char, piece: string, rest: string, e: Entry, es: seq<Entry>)
    requires ',' !in piece && ReadPiece(house, piece) == Some(([house] + e.unit, if e.bit == '1' then On else Off))
    requires ReadAs(house, Split(rest, ','), es)
    ensures ReadAs(house, Split(piece + "," + rest, ','), [e] + es)
  {
    FirstPiece(piece, rest);
  }

  lemma Regroup(a: string, s: string, entry: string, rest: string, before: string, tail: string)
    requires s == entry + rest && rest == before + "," + tail
    ensures a + s == (a + entry + before) + "," + tail
  {
  }

  lemma LastPieceIsRead(house: char, a: string, e: Entry, s: string)
    requires IsHouse(house) && IsEntry(e) && AllSpace(a) && s == EntryText(e) + ""
    ensures ReadAs(house, Split(a + s, ','), [e])
  {
    PieceIsRead(house, a, e, "");
    assert a + s == a + EntryText(e) + "";
    SplitWithout(a + s, ',');
  }

  /** Splitting at the commas and the equal signs recovers exactly the entries the pattern matched, so reading a strict
      house line never raises. */
  lemma {:induction false} SplitReadsEntries(house: char, a: string, s: string)
    requires IsHouse(house) && AllSpace(a) && Entries(s).Some?
    ensures ReadAs(house, Split(a + s, ','), Entries(s).value)
    decreases |s|
  {
    var (e, rest) := AfterEntry(s).value;
    EntryIsText(s);
    if rest == "" {
      LastPieceIsRead(house, a, e, s);
    } else {
      var (before, after, next) := AfterComma(rest).value;
      CommaIsText(rest);
      PieceIsRead(house, a, e, before);
      SplitReadsEntries(house, after, next);
      ReadOneMore(house, a + EntryText(e) + before, after + next, e, Entries(next).value);
      Regroup(a, s, EntryText(e), rest, before, after + next);
    }
  }

  lemma AddressIsCanonical(s: string)
    requires AfterAddress(s).Some?
    ensures Canonical(AfterAddress(s).value.0)
  {
    var n := 1 + UnitWidth(s[1..]);
    var a := AfterAddress(s).value.0;
    assert a == Upper(s[..n]);
    assert a[1..] == s[1..][..n - 1];
  }
}
