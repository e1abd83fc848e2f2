/** The list of allowed house codes, X10_HOUSECODES (config.py). */
module HouseCodes {
  import opened Text
  import opened Addresses
  import opened LineGrammar
  import opened LinePrinter
  import StateSpec
  import StateMeaning

  datatype Error = BadHouse | BadRange

  // Reading the list.

  /** Commas separate like spaces. */
  function Spaced(s: string): (r: string)
    ensures |r| == |s| && forall i :: 0 <= i < |s| ==> r[i] == if s[i] == ',' then ' ' else s[i]
  {
    seq(|s|, i requires 0 <= i < |s| => if s[i] == ',' then ' ' else s[i])
  }

  /** The non-empty pieces between runs of spaces and commas. */
  function Pieces(s: string): seq<string> {
    Words(Spaced(s))
  }

  /** _parse_housecode_range */
  function ReadRange(piece: string): Result<set<char>, Error> {
    var parts := Split(piece, '-');
    if |parts| != 2 then Err(BadRange)
    else
      var start, end := Strip(parts[0]), Strip(parts[1]);
      if |start| != 1 || |end| != 1 || !IsHouse(start[0]) || !IsHouse(end[0]) || start[0] > end[0] then Err(BadRange)
      else Ok(set c | IsHouse(c) && start[0] <= c <= end[0])
  }

  function ReadPiece(piece: string): Result<set<char>, Error> {
    if '-' in piece then ReadRange(piece)
    else if forall c :: c in piece ==> IsHouse(c) then Ok(set c | c in piece)
    else Err(BadHouse)
  }

  function ReadPieces(pieces: seq<string>): Result<set<char>, Error>
    decreases |pieces|
  {
    if pieces == [] then Ok({})
    else
      var before :- ReadPieces(pieces[..|pieces| - 1]);
      var more :- ReadPiece(pieces[|pieces| - 1]);
      Ok(before + more)
  }

  const EVERYTHING: set<string> := {"*", "A-P", "A...P"}

  /** parse_housecodes: None stands for no restriction. */
  function ParseHouseCodes(raw: Option<string>): Result<Option<set<char>>, Error> {
    if raw.None? || raw.value == "" || Normal(raw.value) in EVERYTHING then Ok(None)
    else
      var codes :- ReadPieces(Pieces(Normal(raw.value)));
      Ok(if codes == {} then None else Some(codes))
  }

  /** The loop over the letters of a piece without a dash. */
  method ReadLetters(piece: string) returns (r: Result<set<char>, Error>)
    requires '-' !in piece
    ensures r == ReadPiece(piece)
  {
    var codes: set<char> := {};
    for i := 0 to |piece|
      invariant codes == set c | c in piece[..i]
      invariant forall c :: c in piece[..i] ==> IsHouse(c)
    {
      if !IsHouse(piece[i]) {
        assert piece[i] in piece;
        return Err(BadHouse);
      }
      codes := codes + {piece[i]};
    }
    assert piece[..|piece|] == piece;
    return Ok(codes);
  }

  method ReadList(raw: Option<string>) returns (r: Result<Option<set<char>>, Error>)
    ensures r == ParseHouseCodes(raw)
  {
    if raw.None? || raw.value == "" {
      return Ok(None);
    }
    var value := Normal(raw.value);
    if value in EVERYTHING {
      return Ok(None);
    }
    var pieces, codes: set<char> := Pieces(value), {};
    for k := 0 to |pieces|
      invariant ReadPieces(pieces[..k]) == Ok(codes)
    {
      assert pieces[..k + 1][..k] == pieces[..k];
      var one: Result<set<char>, Error>;
      if '-' in pieces[k] {
        one := ReadRange(pieces[k]);
      } else {
        one := ReadLetters(pieces[k]);
      }
      if one.Err? {
        ErrorStops(pieces, k, one.error);
        return Err(one.error);
      }
      codes := codes + one.value;
    }
    assert pieces[..|pieces|] == pieces;
    return Ok(if codes == {} then None else Some(codes));
  }

  lemma {:induction false} ErrorStops(pieces: seq<string>, k: nat, e: Error)
    requires k < |pieces| && ReadPieces(pieces[..k]).Ok? && ReadPiece(pieces[k]) == Err(e)
    ensures ReadPieces(pieces) == Err(e)
    decreases |pieces|
  {
    var init := pieces[..|pieces| - 1];
    if k == |pieces| - 1 {
      assert pieces[..k] == init;
    } else {
      assert init[..k] == pieces[..k];
      ErrorStops(init, k, e);
    }
  }

  // What a piece means.

  /** Two letters with a dash between them. */
  predicate IsRange(p: string) { |p| == 3 && p[1] == '-' }

  /** The piece is a range of houses in order, or a run of houses. */
  predicate IsPiece(p: string) {
    if '-' in p then IsRange(p) && IsHouse(p[0]) && IsHouse(p[2]) && p[0] <= p[2]
    else forall i :: 0 <= i < |p| ==> IsHouse(p[i])
  }

  /** The house lies in the range, or is one of the run. */
  predicate Names(p: string, h: char) {
    if '-' in p then IsRange(p) && p[0] <= h <= p[2] else h in p
  }

  predicate IsSolid(s: string) { s != "" && forall c :: c in s ==> c !in SPACES }

  lemma SolidIsFixed(s: string)
    requires forall c :: c in s ==> c !in SPACES
    ensures Strip(s) == s
  {
    TrimmedIsFixed(SPACES, s);
  }

  lemma TwoParts(p: string, a: string, b: string)
    ensures Split(p, '-') == [a, b] <==> '-' !in a && '-' !in b && p == a + "-" + b
  {
    assert [a, b][1..] == [b];
    assert Join([a, b], '-') == a + "-" + b;
    SplitPieces(p, '-');
    if Split(p, '-') == [a, b] {
      assert a in Split(p, '-') && b in Split(p, '-');
    }
    if '-' !in a && '-' !in b {
      SplitJoin([a, b], '-');
    }
  }

  lemma RangeMeans(p: string)
    requires IsSolid(p) && '-' in p
    ensures ReadRange(p).Ok? <==> IsPiece(p)
    ensures ReadRange(p).Ok? ==> forall h :: h in ReadRange(p).value <==> Names(p, h)
  {
    var parts := Split(p, '-');
    if |parts| == 2 {
      var a, b := parts[0], parts[1];
      assert parts == [a, b];
      TwoParts(p, a, b);
      assert forall c :: c in a || c in b ==> c in p;
      SolidIsFixed(a);
      SolidIsFixed(b);
    }
    if IsPiece(p) {
      TwoParts(p, p[..1], p[2..]);
      assert p == p[..1] + "-" + p[2..];
    }
  }

  lemma PieceMeans(p: string)
    requires IsSolid(p)
    ensures ReadPiece(p).Ok? <==> IsPiece(p)
    ensures ReadPiece(p).Ok? ==> forall h :: h in ReadPiece(p).value <==> Names(p, h)
  {
    if '-' in p {
      RangeMeans(p);
    } else {
      assert (forall c :: c in p ==> IsHouse(c)) <==> forall i :: 0 <= i < |p| ==> IsHouse(p[i]);
    }
  }

  lemma {:induction false} PiecesMean(pieces: seq<string>)
    requires forall p :: p in pieces ==> IsSolid(p)
    ensures ReadPieces(pieces).Ok? <==> forall p :: p in pieces ==> IsPiece(p)
    ensures ReadPieces(pieces).Ok? ==> forall h :: h in ReadPieces(pieces).value <==> exists p :: p in pieces && Names(p, h)
    decreases |pieces|
  {
    if pieces != [] {
      var init, last := pieces[..|pieces| - 1], pieces[|pieces| - 1];
      assert pieces == init + [last];
      PiecesMean(init);
      PieceMeans(last);
    }
  }

  // What the list means.

  lemma {:induction false} WordEndIsSolid(s: string)
    ensures forall c :: c in s[..WordEnd(s)] ==> c !in SPACES
  {
    if s != "" && s[0] !in SPACES {
      WordEndIsSolid(s[1..]);
      assert s[..WordEnd(s)] == [s[0]] + s[1..][..WordEnd(s[1..])];
    }
  }

  lemma {:induction false} WordsAreSolid(s: string)
    ensures forall w :: w in Words(s) ==> IsSolid(w)
    decreases |s|
  {
    LeftStripEnds(SPACES, s);
    var t := Padding(s).1;
    if t != "" {
      WordEndIsSolid(t);
      WordsAreSolid(t[WordEnd(t)..]);
    }
  }

  /** Nothing is restricted: there is no list, it says so, or it holds only separators. */
  predicate Unrestricted(raw: Option<string>) {
    raw.None? || raw.value == "" || Normal(raw.value) in {"*", "A-P", "A...P"} || Pieces(Normal(raw.value)) == []
  }

  lemma SomeHouseIsNamed(p: string)
    requires IsSolid(p) && IsPiece(p)
    ensures Names(p, p[0])
  {
  }

  /** A list is accepted exactly if it restricts nothing or each of its pieces is a run or an ordered range of houses; and
      then its houses are those that some piece names. */
  lemma HouseCodesExactly(raw: Option<string>)
    ensures ParseHouseCodes(raw).Ok?
       <==> Unrestricted(raw) || forall p :: p in Pieces(Normal(raw.value)) ==> IsPiece(p)
    ensures ParseHouseCodes(raw).Ok? ==> (ParseHouseCodes(raw).value == None <==> Unrestricted(raw))
    ensures ParseHouseCodes(raw).Ok? && !Unrestricted(raw) ==>
      forall h :: h in ParseHouseCodes(raw).value.value <==> exists p :: p in Pieces(Normal(raw.value)) && Names(p, h)
  {
    if raw.Some? && raw.value != "" && Normal(raw.value) !in EVERYTHING {
      var pieces := Pieces(Normal(raw.value));
      WordsAreSolid(Spaced(Normal(raw.value)));
      PiecesMean(pieces);
      if pieces != [] {
        assert pieces[0] in pieces;
        if IsPiece(pieces[0]) {
          SomeHouseIsNamed(pieces[0]);
        }
      }
    }
  }

  /** A piece names only houses. */
  lemma NamedAreHouses(p: string, h: char)
    requires IsPiece(p) && Names(p, h)
    ensures IsHouse(h)
  {
  }

  // The list and the state manager.

  /** The codes as one-letter texts, which is how the state manager gets them. */
  function Letters(codes: Option<set<char>>): Option<set<string>> {
    match codes
    case None => None
    case Some(cs) => Some(set c | c in cs :: [c])
  }

  lemma LetterIsListed(codes: Option<set<char>>, h: char)
    requires codes.Some? && forall c :: c in codes.value ==> IsHouse(c)
    ensures StateMeaning.Lists(Letters(codes), [h]) <==> h in codes.value
  {
    forall c | c in codes.value
      ensures Strip([c]) == [c] && Normal([c]) == [c]
    {
      HouseIsPlain(c);
      TrimmedIsFixed(SPACES, [c]);
      assert Upper([c]) == [c];
    }
    if h in codes.value {
      assert [h] in Letters(codes).value;
    }
  }

  lemma CodesAreHouses(raw: Option<string>)
    ensures var r := ParseHouseCodes(raw); r.Ok? && r.value.Some? ==>
      r.value.value != {} && forall c :: c in r.value.value ==> IsHouse(c)
  {
    HouseCodesExactly(raw);
    var r := ParseHouseCodes(raw);
    if r.Ok? && r.value.Some? {
      forall c | c in r.value.value
        ensures IsHouse(c)
      {
        var p :| p in Pieces(Normal(raw.value)) && Names(p, c);
        NamedAreHouses(p, c);
      }
    }
  }

  /** From the text of the setting to what is heard: a state manager created with an accepted list permits an address exactly
      if the list restricts nothing or one of its pieces names the address's house. */
  lemma ListedHousesAreHeard(raw: Option<string>, a: string)
    requires ParseHouseCodes(raw).Ok? && Canonical(a)
    ensures StateSpec.Permitted(StateSpec.HouseFilter(Letters(ParseHouseCodes(raw).value)), a)
       <==> Unrestricted(raw) || exists p :: p in Pieces(Normal(raw.value)) && Names(p, a[0])
  {
    var codes := ParseHouseCodes(raw).value;
    HouseCodesExactly(raw);
    CodesAreHouses(raw);
    CanonicalIsNormal(a);
    StateMeaning.PermittedMeans(Letters(codes), a);
    if codes.Some? {
      var h :| h in codes.value;
      LetterIsListed(codes, h);
      LetterIsListed(codes, a[0]);
      assert a[..1] == [a[0]];
      assert StateMeaning.Restrictive(Letters(codes));
    }
  }

  // Written lists.

  lemma {:induction false} SpacedJoin(ps: seq<string>)
    requires ps != [] && forall p :: p in ps ==> ',' !in p
    ensures Spaced(Join(ps, ',')) == Join(ps, ' ')
    decreases |ps|
  {
    assert ps[0] in ps;
    if |ps| > 1 {
      SpacedJoin(ps[1..]);
      assert Join(ps, ',') == ps[0] + [','] + Join(ps[1..], ',');
    }
  }

  /** A list written with commas consists of the pieces it was written from. */
  lemma WrittenPieces(ps: seq<string>)
    requires AreWords(ps) && forall p :: p in ps ==> ',' !in p
    ensures Pieces(Join(ps, ',')) == ps
  {
    SpacedJoin(ps);
    JoinedWordsSplit(ps);
  }
}
