/** Cutting the mochad byte stream into lines (MochadClient._read_loop), over decoded text. */
module LineFramer {
  import opened Text

  /** What the reader has handed to the line callback so far, and what it still holds back. */
  datatype Framing = Framing(lines: seq<string>, buffer: string)

  function StripAll(pieces: seq<string>): (r: seq<string>)
    ensures |r| == |pieces|
    ensures forall i :: 0 <= i < |r| ==> r[i] == StripOf(LINE_ENDS, pieces[i])
  {
    seq(|pieces|, i requires 0 <= i < |pieces| => StripOf(LINE_ENDS, pieces[i]))
  }

  /** The framing of a whole text: its newline-terminated pieces, stripped, and the unterminated rest. */
  function Frame(text: string): Framing {
    FramePieces(Split(text, '\n'))
  }

  function FramePieces(parts: seq<string>): Framing
    requires |parts| >= 1
  {
    Framing(StripAll(parts[..|parts| - 1]), parts[|parts| - 1])
  }

  lemma FramePiecesAppend(x: seq<string>, y: seq<string>)
    requires |y| >= 1
    ensures FramePieces(x + y) == Framing(StripAll(x) + FramePieces(y).lines, FramePieces(y).buffer)
  {
    assert (x + y)[..|x + y| - 1] == x + y[..|y| - 1];
  }

  function Concat(chunks: seq<string>): string {
    if chunks == [] then "" else Concat(chunks[..|chunks| - 1]) + chunks[|chunks| - 1]
  }

  /** One received chunk. */
  function Feed(f: Framing, chunk: string): Framing {
    var g := Frame(f.buffer + chunk);
    Framing(f.lines + g.lines, g.buffer)
  }

  function FeedAll(chunks: seq<string>): Framing {
    if chunks == [] then Framing([], "") else Feed(FeedAll(chunks[..|chunks| - 1]), chunks[|chunks| - 1])
  }

  lemma FrameAppend(a: string, b: string)
    ensures Feed(Frame(a), b) == Frame(a + b)
  {
    var x, y := Split(a, '\n'), Split(b, '\n');
    var n := |x| - 1;
    SplitPieces(a, '\n');
    SplitWithout(x[n], '\n');
    SplitAppend(x[n], b, '\n');
    SplitAppend(a, b, '\n');
    GlueSplitsOff(x, y);
    FramePiecesAppend(x[..n], Glue([x[n]], y));
  }

  lemma GlueSplitsOff(x: seq<string>, y: seq<string>)
    requires |x| >= 1 && |y| >= 1
    ensures Glue(x, y) == x[..|x| - 1] + Glue([x[|x| - 1]], y)
  {
  }

  /** Chunk by chunk, the reader arrives at the framing of the whole text. */
  lemma {:induction false} FeedAllFramesTheText(chunks: seq<string>)
    ensures FeedAll(chunks) == Frame(Concat(chunks))
  {
    if chunks != [] {
      var init := chunks[..|chunks| - 1];
      FeedAllFramesTheText(init);
      FrameAppend(Concat(init), chunks[|chunks| - 1]);
    }
  }

  /** Two ways of cutting the same text deliver the same lines and hold back the same rest. */
  lemma ChunkBoundariesDoNotMatter(one: seq<string>, other: seq<string>)
    requires Concat(one) == Concat(other)
    ensures FeedAll(one) == FeedAll(other)
  {
    FeedAllFramesTheText(one);
    FeedAllFramesTheText(other);
  }

  /** However the text came about, the lines are the only newline-free pieces that spell it. */
  lemma FramingIsTheOnlyReading(chunks: seq<string>, pieces: seq<string>, rest: string)
    requires forall p :: p in pieces ==> '\n' !in p
    requires '\n' !in rest
    requires Concat(chunks) == Join(pieces + [rest], '\n')
    ensures FeedAll(chunks) == Framing(StripAll(pieces), rest)
  {
    FeedAllFramesTheText(chunks);
    SplitJoin(pieces + [rest], '\n');
  }

  /** Each line with a carriage return behind it. */
  function Returned(lines: seq<string>): (r: seq<string>)
    ensures |r| == |lines| && forall i :: 0 <= i < |r| ==> r[i] == lines[i] + "\r"
  {
    seq(|lines|, i requires 0 <= i < |lines| => lines[i] + "\r")
  }

  lemma ReturnIsStripped(line: string)
    requires '\r' !in line && '\n' !in line
    ensures StripOf(LINE_ENDS, line + "\r") == line
  {
    var s := line + "\r";
    if line == "" {
      assert s[0] == '\r' && LeftStrip(LINE_ENDS, s) == LeftStrip(LINE_ENDS, s[1..]) == "";
    } else {
      assert line[0] in line && line[|line| - 1] in line && s[0] == line[0];
      assert LeftStrip(LINE_ENDS, s) == s && s[..|s| - 1] == line;
      assert RightStrip(LINE_ENDS, s) == RightStrip(LINE_ENDS, line) == line;
    }
  }

  /** Lines sent with carriage returns and newlines are delivered without either, however the text was cut. */
  lemma LinesAreDelivered(chunks: seq<string>, lines: seq<string>)
    requires forall l :: l in lines ==> '\r' !in l && '\n' !in l
    requires Concat(chunks) == Join(Returned(lines) + [""], '\n')
    ensures FeedAll(chunks) == Framing(lines, "")
  {
    var sent := Returned(lines);
    forall i | 0 <= i < |lines|
      ensures '\n' !in sent[i] && StripOf(LINE_ENDS, sent[i]) == lines[i]
    {
      assert lines[i] in lines;
      ReturnIsStripped(lines[i]);
    }
    FramingIsTheOnlyReading(chunks, sent, "");
    assert StripAll(sent) == lines;
  }

  lemma BufferHasNoNewline(chunks: seq<string>)
    ensures '\n' !in FeedAll(chunks).buffer
  {
    FeedAllFramesTheText(chunks);
    var parts := Split(Concat(chunks), '\n');
    SplitPieces(Concat(chunks), '\n');
    assert parts[|parts| - 1] in parts;
  }

  /** One turn of the inner loop takes off the first line. */
  lemma FrameFirstLine(s: string)
    requires '\n' in s
    ensures var i := IndexOf(s, '\n');
            var g := Frame(s[i + 1..]);
            Frame(s) == Framing([StripOf(LINE_ENDS, s[..i])] + g.lines, g.buffer)
  {
    var i := IndexOf(s, '\n');
    SplitFirst(s, '\n');
    FrameOneMore(s[..i], Split(s[i + 1..], '\n'));
  }

  lemma FrameOneMore(piece: string, rest: seq<string>)
    requires |rest| >= 1
    ensures var g := FramePieces(rest); FramePieces([piece] + rest) == Framing([StripOf(LINE_ENDS, piece)] + g.lines, g.buffer)
  {
    FramePiecesAppend([piece], rest);
    assert StripAll([piece]) == [StripOf(LINE_ENDS, piece)];
  }

  lemma FrameWithoutNewline(s: string)
    requires '\n' !in s
    ensures Frame(s) == Framing([], s)
  {
    SplitWithout(s, '\n');
  }

  /** The reading loop over the chunks received before the connection ended. */
  method ReadLoop(chunks: seq<string>) returns (lines: seq<string>, buffer: string)
    ensures Framing(lines, buffer) == FeedAll(chunks)
    ensures '\n' !in buffer
  {
    lines, buffer := [], "";
    for k := 0 to |chunks|
      invariant Framing(lines, buffer) == FeedAll(chunks[..k])
    {
      assert chunks[..k + 1][..k] == chunks[..k];
      buffer := buffer + chunks[k];
      while '\n' in buffer
        invariant var g := Frame(buffer); Framing(lines + g.lines, g.buffer) == FeedAll(chunks[..k + 1])
        decreases |buffer|
      {
        FrameFirstLine(buffer);
        var i := IndexOf(buffer, '\n');
        lines := lines + [StripOf(LINE_ENDS, buffer[..i])];
        buffer := buffer[i + 1..];
      }
      FrameWithoutNewline(buffer);
      assert lines + [] == lines;
    }
    assert chunks[..|chunks|] == chunks;
    BufferHasNoNewline(chunks);
  }
}
