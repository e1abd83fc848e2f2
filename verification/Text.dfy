/** Text operations the bridge borrows from Python strings, over ASCII. */
module Text {

  datatype Option<+T> = None | Some(value: T)

  datatype Result<+T, +E> = Ok(value: T) | Err(error: E) {
    predicate IsFailure() { Err? }

    function PropagateFailure<U>(): Result<U, E>
      requires IsFailure()
    {
      Err(error)
    }

    function Extract(): T
      requires !IsFailure()
    {
      value
    }
  }

  /** The characters that `str.strip()` removes. */
  const SPACES: set<char> := {
    '\t', '\n', '\U{00000B}', '\U{00000C}', '\r', '\U{00001C}', '\U{00001D}', '\U{00001E}', '\U{00001F}', ' '
  }

  const LINE_ENDS: set<char> := {'\r', '\n'}

  function LeftStrip(cs: set<char>, s: string): string {
    if s != "" && s[0] in cs then LeftStrip(cs, s[1..]) else s
  }

  function RightStrip(cs: set<char>, s: string): string {
    if s != "" && s[|s| - 1] in cs then RightStrip(cs, s[..|s| - 1]) else s
  }

  function StripOf(cs: set<char>, s: string): string {
    RightStrip(cs, LeftStrip(cs, s))
  }

  function Strip(s: string): string {
    StripOf(SPACES, s)
  }

  /** Nothing left to strip at either end. */
  predicate Trimmed(cs: set<char>, s: string) {
    s == "" || (s[0] !in cs && s[|s| - 1] !in cs)
  }

  lemma {:induction false} LeftStripEnds(cs: set<char>, s: string)
    ensures LeftStrip(cs, s) == "" || LeftStrip(cs, s)[0] !in cs
  {
    if s != "" && s[0] in cs {
      LeftStripEnds(cs, s[1..]);
    }
  }

  lemma {:induction false} RightStripEnds(cs: set<char>, s: string)
    ensures RightStrip(cs, s) <= s
    ensures RightStrip(cs, s) == "" || RightStrip(cs, s)[|RightStrip(cs, s)| - 1] !in cs
  {
    if s != "" && s[|s| - 1] in cs {
      RightStripEnds(cs, s[..|s| - 1]);
    }
  }

  lemma StripIsTrimmed(cs: set<char>, s: string)
    ensures Trimmed(cs, StripOf(cs, s))
  {
    LeftStripEnds(cs, s);
    RightStripEnds(cs, LeftStrip(cs, s));
  }

  lemma TrimmedIsFixed(cs: set<char>, s: string)
    requires Trimmed(cs, s)
    ensures StripOf(cs, s) == s
  {
  }

  function UpperChar(c: char): char {
    if 'a' <= c <= 'z' then (c as int - 32) as char else c
  }

  function LowerChar(c: char): char {
    if 'A' <= c <= 'Z' then (c as int + 32) as char else c
  }

  function Upper(s: string): (r: string)
    ensures |r| == |s|
    ensures forall i :: 0 <= i < |s| ==> r[i] == UpperChar(s[i])
  {
    seq(|s|, i requires 0 <= i < |s| => UpperChar(s[i]))
  }

  function Lower(s: string): (r: string)
    ensures |r| == |s|
    ensures forall i :: 0 <= i < |s| ==> r[i] == LowerChar(s[i])
  {
    seq(|s|, i requires 0 <= i < |s| => LowerChar(s[i]))
  }

  /** Small letters, and only those, have capitals. */
  lemma SmallLettersFold()
    ensures Upper("abcdefghijklmnopqrstuvwxyz") == "ABCDEFGHIJKLMNOPQRSTUVWXYZ"
    ensures forall c: char :: !('a' <= c <= 'z') ==> UpperChar(c) == c
  {
  }

  /** And the other way round. */
  lemma CapitalsFold()
    ensures Lower("ABCDEFGHIJKLMNOPQRSTUVWXYZ") == "abcdefghijklmnopqrstuvwxyz"
    ensures forall c: char :: !('A' <= c <= 'Z') ==> LowerChar(c) == c
  {
  }

  /** `strip().upper()`, the form in which addresses and house codes are compared. */
  function Normal(s: string): string {
    Upper(Strip(s))
  }

  lemma UpperKeepsNonSpace(c: char)
    requires c !in SPACES
    ensures UpperChar(c) !in SPACES
  {
  }

  lemma NormalIdempotent(s: string)
    ensures Normal(Normal(s)) == Normal(s)
  {
    var t, n := Strip(s), Normal(s);
    StripIsTrimmed(SPACES, s);
    if n != "" {
      UpperKeepsNonSpace(t[0]);
      UpperKeepsNonSpace(t[|t| - 1]);
    }
    TrimmedIsFixed(SPACES, n);
    assert Upper(n) == n;
  }

  /** `s.split(c)`: always at least one piece. */
  function Split(s: string, c: char): (parts: seq<string>)
    ensures |parts| >= 1
  {
    if s == "" then [""]
    else
      var rest := Split(s[1..], c);
      if s[0] == c then [""] + rest else [[s[0]] + rest[0]] + rest[1..]
  }

  function Join(parts: seq<string>, c: char): string
    requires |parts| >= 1
  {
    if |parts| == 1 then parts[0] else parts[0] + [c] + Join(parts[1..], c)
  }

  /** Two lists of pieces joined at the seam: the last piece of one meets the first of the other. */
  function Glue(x: seq<string>, y: seq<string>): seq<string>
    requires |x| >= 1 && |y| >= 1
  {
    x[..|x| - 1] + [x[|x| - 1] + y[0]] + y[1..]
  }

  lemma GlueTail(h: string, x: seq<string>, y: seq<string>)
    requires |x| >= 1 && |y| >= 1
    ensures Glue([h] + x, y) == [h] + Glue(x, y)
  {
    assert ([h] + x)[..|x|] == [h] + x[..|x| - 1];
  }

  lemma GlueHead(h: string, x: seq<string>, y: seq<string>)
    requires |x| >= 1 && |y| >= 1
    ensures Glue([h + x[0]] + x[1..], y) == [h + Glue(x, y)[0]] + Glue(x, y)[1..]
  {
    if |x| == 1 {
      assert h + (x[0] + y[0]) == (h + x[0]) + y[0];
    }
  }

  lemma {:induction false} SplitAppend(a: string, b: string, c: char)
    ensures Split(a + b, c) == Glue(Split(a, c), Split(b, c))
  {
    var y := Split(b, c);
    if a == "" {
      assert a + b == b;
      assert "" + y[0] == y[0];
    } else {
      var x := Split(a[1..], c);
      SplitAppend(a[1..], b, c);
      assert (a + b)[1..] == a[1..] + b;
      if a[0] == c {
        GlueTail("", x, y);
      } else {
        GlueHead([a[0]], x, y);
      }
    }
  }

  lemma {:induction false} SplitPieces(s: string, c: char)
    ensures forall p :: p in Split(s, c) ==> c !in p
    ensures Join(Split(s, c), c) == s
  {
    if s != "" {
      SplitPieces(s[1..], c);
      var rest := Split(s[1..], c);
      var all := Split(s, c);
      if s[0] == c {
        assert all[1..] == rest;
        assert [s[0]] + s[1..] == s;
      } else {
        assert all[1..] == rest[1..];
        assert rest[0] in rest;
        if |rest| > 1 {
          assert s == [s[0]] + (rest[0] + [c] + Join(rest[1..], c));
        }
      }
    }
  }

  lemma {:induction false} SplitWithout(s: string, c: char)
    requires c !in s
    ensures Split(s, c) == [s]
  {
    if s != "" {
      SplitWithout(s[1..], c);
      assert [s[0]] + s[1..] == s;
    }
  }

  function IndexOf(s: string, c: char): (i: nat)
    requires c in s
    ensures i < |s| && s[i] == c && c !in s[..i]
  {
    if s[0] == c then 0 else 1 + IndexOf(s[1..], c)
  }

  lemma {:induction false} SplitFirst(s: string, c: char)
    requires c in s
    ensures var i := IndexOf(s, c); Split(s, c) == [s[..i]] + Split(s[i + 1..], c)
  {
    if s[0] != c {
      var i := IndexOf(s[1..], c);
      SplitFirst(s[1..], c);
      assert s[1..][i + 1..] == s[i + 2..];
      assert [s[0]] + s[1..][..i] == s[..i + 1];
    }
  }

  lemma {:induction false} SplitJoin(parts: seq<string>, c: char)
    requires |parts| >= 1
    requires forall p :: p in parts ==> c !in p
    ensures Split(Join(parts, c), c) == parts
  {
    SplitWithout(parts[0], c);
    if |parts| > 1 {
      SplitJoin(parts[1..], c);
      var tail := [c] + Join(parts[1..], c);
      assert tail[1..] == Join(parts[1..], c);
      SplitAppend(parts[0], tail, c);
      assert parts[0] + [c] + Join(parts[1..], c) == parts[0] + tail;
      assert Split(tail, c) == [""] + parts[1..];
      assert parts[0] + "" == parts[0];
      assert parts == [parts[0]] + parts[1..];
    }
  }

  function DigitChar(d: int): char
    requires 0 <= d < 10
  {
    ('0' as int + d) as char
  }

  predicate IsDigit(c: char) { '0' <= c <= '9' }

  /** `str(n)` for a natural number. */
  function Decimal(n: nat): (s: string)
    ensures s != "" && forall c :: c in s ==> IsDigit(c)
  {
    if n < 10 then [DigitChar(n)] else Decimal(n / 10) + [DigitChar(n % 10)]
  }

  /** The value of a run of digits in which single underscores may separate digits. */
  function DigitsValue(s: string): Option<nat>
    decreases |s|
  {
    if s == "" || !IsDigit(s[|s| - 1]) then None
    else
      var d := s[|s| - 1] as int - '0' as int;
      if |s| == 1 then Some(d)
      else
        var before := if s[|s| - 2] == '_' then s[..|s| - 2] else s[..|s| - 1];
        match DigitsValue(before)
        case None => None
        case Some(v) => Some(10 * v + d)
  }

  /** `int(s.strip())`. */
  function ParseInt(s: string): Option<int>
  {
    var t := Strip(s);
    if t != "" && t[0] in {'+', '-'} then
      match DigitsValue(t[1..])
      case None => None
      case Some(v) => var sign: int := if t[0] == '-' then -1 else 1; Some(sign * v)
    else
      match DigitsValue(t)
      case None => None
      case Some(v) => Some(v)
  }

  lemma {:induction false} DigitsOfDecimal(n: nat)
    ensures DigitsValue(Decimal(n)) == Some(n)
  {
    if n >= 10 {
      DigitsOfDecimal(n / 10);
      var s := Decimal(n);
      assert s[..|s| - 1] == Decimal(n / 10);
      assert IsDigit(s[|s| - 2]);
    }
  }

  lemma DigitIsNotSpace(c: char)
    requires IsDigit(c)
    ensures c !in SPACES
  {
  }

  lemma ParseDecimal(n: nat)
    ensures ParseInt(Decimal(n)) == Some(n)
  {
    DigitsOfDecimal(n);
    var s := Decimal(n);
    assert IsDigit(s[0]) && IsDigit(s[|s| - 1]);
    DigitIsNotSpace(s[0]);
    DigitIsNotSpace(s[|s| - 1]);
    TrimmedIsFixed(SPACES, s);
  }

  lemma DecimalInjective(m: nat, n: nat)
    requires Decimal(m) == Decimal(n)
    ensures m == n
  {
    DigitsOfDecimal(m);
    DigitsOfDecimal(n);
  }
}
