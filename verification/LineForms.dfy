/** The line grammars ignore the case of letters: a line and its upper-case form are read alike. */
module LineForms {
  import opened Text
  import opened Models
  import opened Addresses
  import opened LineGrammar
  import opened ProtocolParser

  function Raised(o: Option<string>): Option<string> {
    if o.Some? then Some(Upper(o.value)) else None
  }

  lemma UpperOnce(c: char)
    ensures UpperChar(UpperChar(c)) == UpperChar(c)
    ensures UpperChar(c) in SPACES <==> c in SPACES
    ensures c in SPACES || IsDigit(c) || c in {'=', ',', ':', '/', '\n'} ==> UpperChar(c) == c
    ensures UpperChar(c) in SPACES || IsDigit(UpperChar(c)) || UpperChar(c) in {'=', ',', ':', '/', '\n'} ==> UpperChar(c) == c
  {
  }

  lemma UpperTwice(s: string)
    ensures Upper(Upper(s)) == Upper(s)
  {
    forall i | 0 <= i < |s|
      ensures UpperChar(UpperChar(s[i])) == UpperChar(s[i])
    {
      UpperOnce(s[i]);
    }
  }

  lemma UpperFrom(s: string, k: nat)
    requires k <= |s|
    ensures Upper(s)[k..] == Upper(s[k..]) && Upper(s)[..k] == Upper(s[..k])
  {
  }

  lemma SpacesHaveNoCase(s: string)
    requires AllSpace(s)
    ensures Upper(s) == s
  {
    forall i | 0 <= i < |s|
      ensures UpperChar(s[i]) == s[i]
    {
      UpperOnce(s[i]);
    }
  }

  lemma SmallLetter(c: char)
    requires IsHouse(c) || IsDigit(c)
    ensures LowerChar(c) !in SPACES && UpperChar(LowerChar(c)) == c
  {
  }

  lemma SmallAddress(a: string)
    requires Canonical(a)
    ensures Upper(Lower(a)) == a && Lower(a) != "" && Trimmed(SPACES, Lower(a))
  {
    forall i | 0 <= i < |a|
      ensures LowerChar(a[i]) !in SPACES && UpperChar(LowerChar(a[i])) == a[i]
    {
      assert i > 0 ==> a[i] == a[1..][i - 1];
      SmallLetter(a[i]);
    }
  }

  /** An address is recognised in small letters and with spaces around it. */
  lemma AddressesAreFolded(p: string, a: string, q: string)
    requires Canonical(a) && AllSpace(p) && AllSpace(q)
    ensures NormalizeAddress(p + Lower(a) + q) == Some(a)
  {
    SmallAddress(a);
    StripPadded(p, Lower(a), q);
  }

  // Spaces.

  lemma {:induction false} LeftStripRaised(s: string)
    ensures LeftStrip(SPACES, Upper(s)) == Upper(LeftStrip(SPACES, s))
  {
    if s != "" {
      UpperOnce(s[0]);
      if s[0] in SPACES {
        UpperFrom(s, 1);
        LeftStripRaised(s[1..]);
      }
    }
  }

  lemma {:induction false} RightStripRaised(s: string)
    ensures RightStrip(SPACES, Upper(s)) == Upper(RightStrip(SPACES, s))
  {
    if s != "" {
      UpperOnce(s[|s| - 1]);
      if s[|s| - 1] in SPACES {
        UpperFrom(s, |s| - 1);
        RightStripRaised(s[..|s| - 1]);
      }
    }
  }

  lemma StripRaised(s: string)
    ensures Strip(Upper(s)) == Upper(Strip(s))
  {
    LeftStripRaised(s);
    RightStripRaised(LeftStrip(SPACES, s));
  }

  lemma PaddingRaised(s: string)
    ensures Padding(Upper(s)).0 == Padding(s).0 && Padding(Upper(s)).1 == Upper(Padding(s).1)
  {
    var (p, t) := Padding(s);
    LeftStripRaised(s);
    SpacesHaveNoCase(p);
    UpperFrom(s, |p|);
    assert Upper(s)[..|p|] == Padding(Upper(s)).0;
    assert s[..|p|] == p;
  }

  lemma SpacesRaised(s: string)
    ensures AfterSpaces(Upper(s)) == Raised(AfterSpaces(s))
  {
    if s != "" {
      UpperOnce(s[0]);
      LeftStripRaised(s);
    }
  }

  lemma SpacedRaised(o: Option<string>)
    ensures Spaced(Raised(o)) == Raised(Spaced(o))
  {
    if o.Some? {
      SpacesRaised(o.value);
    }
  }

  // Words and timestamps.

  lemma WordRaised(s: string, word: string)
    ensures AfterWord(Upper(s), word) == Raised(AfterWord(s, word))
  {
    if |word| <= |s| {
      UpperFrom(s, |word|);
      UpperTwice(s[..|word|]);
    }
  }

  lemma LiteralRaised(o: Option<string>, word: string)
    ensures Literal(Raised(o), word) == Raised(Literal(o, word))
  {
    if o.Some? {
      WordRaised(o.value, word);
    }
  }

  lemma FitsRaised(s: string, shape: string)
    requires forall c :: c in shape ==> IsDigit(c) || c == ':' || c == '/'
    ensures Fits(Upper(s), shape) <==> Fits(s, shape)
  {
    if |s| == |shape| {
      forall i | 0 <= i < |s|
        ensures (if shape[i] == '9' then IsDigit(UpperChar(s[i])) else UpperChar(s[i]) == shape[i])
           <==> (if shape[i] == '9' then IsDigit(s[i]) else s[i] == shape[i])
      {
        assert shape[i] in shape;
        UpperOnce(s[i]);
      }
    }
  }

  lemma ShapeRaised(s: string, shape: string)
    requires forall c :: c in shape ==> IsDigit(c) || c == ':' || c == '/'
    ensures AfterShape(Upper(s), shape) == Raised(AfterShape(s, shape))
  {
    if |shape| <= |s| {
      UpperFrom(s, |shape|);
      FitsRaised(s[..|shape|], shape);
    }
  }

  lemma TimestampRaised(line: string)
    ensures AfterTimestamp(Upper(line)) == Raised(AfterTimestamp(line))
  {
    ShapeRaised(line, DATE);
    SpacedRaised(AfterShape(line, DATE));
    match Spaced(AfterShape(line, DATE))
    case None =>
    case Some(t) =>
      ShapeRaised(t, TIME);
      SpacedRaised(AfterShape(t, TIME));
  }

  // Status lines.

  lemma SaysRaised(line: string, text: string)
    ensures Says(Upper(line), text) <==> Says(line, text)
  {
    TimestampRaised(line);
    if AfterTimestamp(line).Some? {
      UpperTwice(AfterTimestamp(line).value);
    }
  }

  lemma HouseLetterRaised(s: string)
    ensures IsHouseLetter(Upper(s)) <==> IsHouseLetter(s)
    ensures s != "" ==> UpperChar(Upper(s)[0]) == UpperChar(s[0])
  {
    if s != "" {
      UpperOnce(s[0]);
    }
  }

  lemma HouseRaised(line: string)
    ensures AfterHouse(Upper(line))
         == match AfterHouse(line) case None => None case Some((h, rest)) => Some((h, Upper(rest)))
  {
    TimestampRaised(line);
    LiteralRaised(AfterTimestamp(line), "House");
    SpacedRaised(Literal(AfterTimestamp(line), "House"));
    match Spaced(Literal(AfterTimestamp(line), "House"))
    case None =>
    case Some(t) =>
      HouseLetterRaised(t);
      if t != "" {
        UpperFrom(t, 1);
        WordRaised(t[1..], ":");
        SpacedRaised(AfterWord(t[1..], ":"));
      }
  }

  lemma DigitsRaised(s: string)
    ensures (forall c :: c in Upper(s) ==> IsDigit(c)) <==> (forall c :: c in s ==> IsDigit(c))
  {
    forall i | 0 <= i < |s|
      ensures IsDigit(Upper(s)[i]) <==> IsDigit(s[i])
      ensures Upper(s)[i] in Upper(s) && s[i] in s
    {
      UpperOnce(s[i]);
    }
  }

  lemma CountRaised(line: string)
    ensures IsHouseCount(Upper(line)) <==> IsHouseCount(line)
  {
    HouseRaised(line);
    if AfterHouse(line).Some? {
      DigitsRaised(AfterHouse(line).value.1);
    }
  }

  lemma UnitRaised(s: string)
    ensures UnitWidth(Upper(s)) == UnitWidth(s)
    ensures Upper(s)[..UnitWidth(s)] == s[..UnitWidth(s)]
  {
    if |s| >= 1 {
      UpperOnce(s[0]);
    }
    if |s| >= 2 {
      UpperOnce(s[1]);
    }
  }

  lemma BitRaised(t: string)
    requires t != ""
    ensures Padding(Upper(t)[1..]).0 == Padding(t[1..]).0
    ensures var w, v := Padding(t[1..]).1, Padding(Upper(t)[1..]).1;
            |v| == |w| && (w != "" ==> (v[0] in {'0', '1'} <==> w[0] in {'0', '1'})
                                       && (w[0] in {'0', '1'} ==> v[0] == w[0]) && v[1..] == Upper(w[1..]))
  {
    UpperFrom(t, 1);
    PaddingRaised(t[1..]);
    var w := Padding(t[1..]).1;
    if w != "" {
      UpperOnce(w[0]);
      UpperFrom(w, 1);
    }
  }

  lemma EntryPieces(s: string, k: nat, gap: string, t: string)
    requires UnitWidth(s) == k && Padding(s[k..]) == (gap, t)
    ensures k == 0 || t == "" || t[0] != '=' ==> AfterEntry(s) == None
    ensures k > 0 && t != "" && t[0] == '=' ==>
      var (room, w) := Padding(t[1..]);
      if w == "" || w[0] !in {'0', '1'} then AfterEntry(s) == None
      else AfterEntry(s) == Some((Entry(s[..k], gap, room, w[0]), w[1..]))
  {
  }

  lemma EntryRaised(s: string)
    ensures match AfterEntry(s)
            case None => AfterEntry(Upper(s)) == None
            case Some((e, rest)) => AfterEntry(Upper(s)) == Some((e, Upper(rest)))
  {
    var k := UnitWidth(s);
    UnitRaised(s);
    UpperFrom(s, k);
    PaddingRaised(s[k..]);
    var (gap, t) := Padding(s[k..]);
    EntryPieces(s, k, gap, t);
    EntryPieces(Upper(s), k, gap, Upper(t));
    if t != "" {
      UpperOnce(t[0]);
      BitRaised(t);
    }
  }

  lemma CommaRaised(s: string)
    ensures match AfterComma(s)
            case None => AfterComma(Upper(s)) == None
            case Some((b, a, next)) => AfterComma(Upper(s)) == Some((b, a, Upper(next)))
  {
    PaddingRaised(s);
    var t := Padding(s).1;
    if t != "" {
      UpperOnce(t[0]);
      UpperFrom(t, 1);
      PaddingRaised(t[1..]);
    }
  }

  lemma EntriesStop(s: string)
    requires AfterEntry(s) == None || (AfterEntry(s).value.1 != "" && AfterComma(AfterEntry(s).value.1) == None)
    ensures LineGrammar.Entries(s) == None
  {
  }

  lemma EntriesGoOn(s: string, e: Entry, rest: string, before: string, after: string, next: string)
    requires AfterEntry(s) == Some((e, rest)) && rest != "" && AfterComma(rest) == Some((before, after, next))
    ensures |next| < |s|
    ensures var es := LineGrammar.Entries(next);
            LineGrammar.Entries(s) == if es.Some? then Some([e] + es.value) else None
  {
  }

  lemma {:induction false} EntriesRaised(s: string)
    ensures LineGrammar.Entries(Upper(s)) == LineGrammar.Entries(s)
    decreases |s|
  {
    EntryRaised(s);
    if AfterEntry(s) == None {
      EntriesStop(s);
      EntriesStop(Upper(s));
    } else if AfterEntry(s).value.1 != "" {
      var (e, rest) := AfterEntry(s).value;
      CommaRaised(rest);
      if AfterComma(rest) == None {
        EntriesStop(s);
        EntriesStop(Upper(s));
      } else {
        var (before, after, next) := AfterComma(rest).value;
        EntriesGoOn(s, e, rest, before, after, next);
        EntriesGoOn(Upper(s), e, Upper(rest), before, after, Upper(next));
        EntriesRaised(next);
      }
    }
  }

  lemma StrictRaised(line: string)
    ensures StrictReports(Upper(line)) == StrictReports(line)
  {
    HouseRaised(line);
    if AfterHouse(line).Some? {
      EntriesRaised(AfterHouse(line).value.1);
    }
  }

  // Event lines.

  lemma OriginRaised(line: string)
    ensures AfterOrigin(Upper(line))
         == match AfterOrigin(line) case None => None case Some((d, p, rest)) => Some((d, p, Upper(rest)))
  {
    TimestampRaised(line);
    match AfterTimestamp(line)
    case None =>
    case Some(t) =>
      WordRaised(t, "Tx");
      WordRaised(t, "Rx");
      if |t| >= 2 {
        UpperFrom(t, 2);
        SpacesRaised(t[2..]);
        TransportRaised(AfterSpaces(t[2..]));
      }
  }

  lemma TransportRaised(o: Option<string>)
    ensures o.Some? ==>
      && AfterWord(Upper(o.value), "RF") == Raised(AfterWord(o.value, "RF"))
      && AfterWord(Upper(o.value), "PL") == Raised(AfterWord(o.value, "PL"))
      && (|o.value| >= 2 ==> AfterSpaces(Upper(o.value)[2..]) == Raised(AfterSpaces(o.value[2..])))
  {
    if o.Some? {
      WordRaised(o.value, "RF");
      WordRaised(o.value, "PL");
      if |o.value| >= 2 {
        UpperFrom(o.value, 2);
        SpacesRaised(o.value[2..]);
      }
    }
  }

  lemma TextRaised(s: string)
    ensures IsText(Upper(s)) <==> IsText(s)
  {
    forall i | 0 <= i < |s|
      ensures Upper(s)[i] == '\n' <==> s[i] == '\n'
    {
      UpperOnce(s[i]);
    }
    if '\n' in s {
      var i :| 0 <= i < |s| && s[i] == '\n';
      assert Upper(s)[i] == '\n';
    }
  }

  lemma FuncRaised(o: Option<string>)
    ensures AfterFunc(Raised(o)) == Raised(AfterFunc(o))
  {
    LiteralRaised(o, "Func:");
    SpacedRaised(Literal(o, "Func:"));
    if Spaced(Literal(o, "Func:")).Some? {
      TextRaised(Spaced(Literal(o, "Func:")).value);
    }
  }

  lemma AddressRaised(s: string)
    ensures AfterAddress(Upper(s))
         == match AfterAddress(s) case None => None case Some((a, rest)) => Some((a, Upper(rest)))
  {
    HouseLetterRaised(s);
    if s != "" {
      UpperFrom(s, 1);
      UnitRaised(s[1..]);
      var n := 1 + UnitWidth(s[1..]);
      UpperFrom(s, n);
      SpacesRaised(s[n..]);
      UpperTwice(s[..n]);
    }
  }

  lemma TokenRaised(s: string)
    ensures Token(Upper(s)) == Token(s)
  {
    StripRaised(s);
    UpperTwice(Strip(s));
  }

  lemma DeviceEventRaised(line: string)
    ensures DeviceEventLine(Upper(line)) == DeviceEventLine(line)
  {
    OriginRaised(line);
    match AfterOrigin(line)
    case None =>
    case Some((d, p, t)) =>
      WordRaised(t, "HouseUnit:");
      SpacedRaised(AfterWord(t, "HouseUnit:"));
      match Spaced(AfterWord(t, "HouseUnit:"))
      case None =>
      case Some(u) => AddressedRaised(u);
  }

  lemma AddressedRaised(u: string)
    ensures match AfterAddress(u)
            case None => AfterAddress(Upper(u)) == None
            case Some((a, v)) =>
              && AfterAddress(Upper(u)) == Some((a, Upper(v))) && AfterFunc(Some(Upper(v))) == Raised(AfterFunc(Some(v)))
              && (AfterFunc(Some(v)).Some? ==> Token(Upper(AfterFunc(Some(v)).value)) == Token(AfterFunc(Some(v)).value))
  {
    AddressRaised(u);
    if AfterAddress(u).Some? {
      var v := AfterAddress(u).value.1;
      FuncRaised(Some(v));
      if AfterFunc(Some(v)).Some? {
        TokenRaised(AfterFunc(Some(v)).value);
      }
    }
  }

  lemma HouseEventRaised(line: string)
    ensures HouseEventLine(Upper(line)) == HouseEventLine(line)
  {
    OriginRaised(line);
    match AfterOrigin(line)
    case None =>
    case Some((d, p, t)) =>
      WordRaised(t, "House:");
      SpacedRaised(AfterWord(t, "House:"));
      match Spaced(AfterWord(t, "House:"))
      case None =>
      case Some(u) =>
        HouseLetterRaised(u);
        if u != "" {
          LetteredRaised(u);
        }
  }

  lemma LetteredRaised(u: string)
    requires u != ""
    ensures Upper(Upper(u)[..1]) == Upper(u[..1])
    ensures AfterFunc(AfterSpaces(Upper(u)[1..])) == Raised(AfterFunc(AfterSpaces(u[1..])))
    ensures AfterFunc(AfterSpaces(u[1..])).Some? ==>
      Token(Upper(AfterFunc(AfterSpaces(u[1..])).value)) == Token(AfterFunc(AfterSpaces(u[1..])).value)
  {
    UpperFrom(u, 1);
    UpperTwice(u[..1]);
    SpacesRaised(u[1..]);
    FuncRaised(AfterSpaces(u[1..]));
    if AfterFunc(AfterSpaces(u[1..])).Some? {
      TokenRaised(AfterFunc(AfterSpaces(u[1..])).value);
    }
  }

  // Whole lines.

  lemma StatusRaised(line: string)
    ensures IsSelected(Upper(line)) == IsSelected(line) && IsEnd(Upper(line)) == IsEnd(line)
    ensures IsDeviceStatus(Upper(line)) == IsDeviceStatus(line) && IsSecurityStatus(Upper(line)) == IsSecurityStatus(line)
  {
    SaysRaised(line, "Device selected");
    SaysRaised(line, "Device status");
    SaysRaised(line, "Security sensor status");
    SaysRaised(line, "End status");
  }

  lemma SortEventRaised(line: string)
    ensures SortEvent(Upper(line)) == SortEvent(line)
  {
    DeviceEventRaised(line);
    HouseEventRaised(line);
  }

  lemma SortRaised(line: string)
    ensures Sort(Upper(line)) == Sort(line)
  {
    StatusRaised(line);
    CountRaised(line);
    StrictRaised(line);
    SortEventRaised(line);
  }

  /** Two lines that differ only in the case of their letters do the same to the parser and give the same event, except
      that an unknown line is passed on as it was written. */
  lemma CaseDoesNotMatter(p: Parser, one: string, other: string, now: int)
    requires Upper(one) == Upper(other)
    ensures Parse(p, one, now).0 == Parse(p, other, now).0
    ensures if Sort(Strip(one)).Stray?
            then && Parse(p, one, now).1 == Some(UnknownEvent(now, Strip(one)))
                 && Parse(p, other, now).1 == Some(UnknownEvent(now, Strip(other)))
            else Parse(p, one, now).1 == Parse(p, other, now).1
  {
    StripRaised(one);
    StripRaised(other);
    SortRaised(Strip(one));
    SortRaised(Strip(other));
  }
}
