/**
  Reading the printed list of results back, by the reader's own line ends: a line feed, a carriage
  return, or both.
*/
module MarkdownListing {
  import opened Options
  import opened Text
  import opened Markdown
  import opened MarkdownRoundTrip

  // ---------------------------------------------------------------------------
  // Line ends
  // ---------------------------------------------------------------------------

  predicate EndsInReturn(s: string) {
    s != "" && s[|s| - 1] == '\r'
  }

  // The text with each of its line ends as one line feed.
  function Unified(s: string): string {
    if s == "" then ""
    else
      var front, c := s[..|s| - 1], s[|s| - 1];
      if c == '\n' && EndsInReturn(front) then Unified(front)
      else Unified(front) + [if c == '\r' then '\n' else c]
  }

  // The lines of a text, as section 2.1 of the CommonMark Spec ends them.
  function LinesOf(text: string): seq<string> {
    Split(Unified(text))
  }

  // Without a carriage return at its end, which makes one line end with a line feed behind it.
  function Chop(s: string): string {
    if EndsInReturn(s) then s[..|s| - 1] else s
  }

  lemma {:induction false} UnifiedPlain(s: string)
    requires '\r' !in s
    ensures Unified(s) == s
  {
    if s != "" {
      UnifiedPlain(s[..|s| - 1]);
    }
  }

  lemma {:induction false} UnifiedConcat(a: string, b: string)
    requires EndsInReturn(a) ==> b == "" || b[0] != '\n'
    ensures Unified(a + b) == Unified(a) + Unified(b)
  {
    if b == "" {
      assert a + b == a;
    } else {
      var front := b[..|b| - 1];
      assert (a + b)[..|a + b| - 1] == a + front;
      UnifiedConcat(a, front);
      assert front != "" ==> (a + front)[|a + front| - 1] == front[|front| - 1];
      assert front == "" ==> a + front == a;
    }
  }

  lemma UnifiedNewline(a: string)
    ensures Unified(a + "\n") == Unified(Chop(a)) + "\n"
  {
    assert (a + "\n")[..|a|] == a;
  }

  // A line feed behind a carriage return makes no second line end.
  lemma UnifiedTwo(a: string, b: string)
    ensures Unified(a + "\n" + b) == Unified(Chop(a)) + "\n" + Unified(b)
  {
    UnifiedNewline(a);
    UnifiedConcat(a + "\n", b);
  }

  lemma UnifiedFeed(b: string)
    ensures Unified("\n" + b) == "\n" + Unified(b)
  {
    UnifiedPlain("\n");
    UnifiedConcat("\n", b);
  }

  lemma UnifiedParted(a: string, b: string)
    ensures Unified(a + "\n\n" + b) == Unified(Chop(a)) + "\n\n" + Unified(b)
  {
    UnifiedFeed(b);
    UnifiedTwo(a, "\n" + b);
    Regroup(a, b);
    Regroup(Unified(Chop(a)), Unified(b));
  }

  lemma Regroup(a: string, b: string)
    ensures a + "\n" + ("\n" + b) == a + "\n\n" + b
  {
  }

  lemma UnifiedWithReturn(a: string)
    requires EndsInReturn(a)
    ensures Unified(a) == Unified(Chop(a)) + "\n"
  {
  }

  // Line ends do not touch the runs of backticks.
  lemma {:induction false} UnifiedRuns(s: string)
    ensures Trailing(Unified(s)) == Trailing(s) && LongestRun(Unified(s)) == LongestRun(s)
  {
    if s != "" {
      var front, c := s[..|s| - 1], s[|s| - 1];
      UnifiedRuns(front);
      if !(c == '\n' && EndsInReturn(front)) {
        RunsOfLonger(Unified(front), if c == '\r' then '\n' else c);
      }
    }
  }

  lemma RunsOfLonger(front: string, c: char)
    ensures Trailing(front + [c]) == if c == '`' then Trailing(front) + 1 else 0
    ensures LongestRun(front + [c]) ==
            if Trailing(front + [c]) > LongestRun(front) then Trailing(front + [c]) else LongestRun(front)
  {
    assert (front + [c])[..|front|] == front;
  }

  lemma UnifiedFence(snippet: string)
    ensures FenceFor(Unified(Chop(snippet))) == FenceFor(snippet)
  {
    UnifiedRuns(Chop(snippet));
    if EndsInReturn(snippet) {
      assert Trailing(snippet) == 0;
    }
  }

  lemma UnifiedBetween(a: string, text: string, b: string)
    requires '\r' !in a && '\r' !in b
    ensures Unified(a + "\n" + (text + "\n" + b)) == a + "\n" + (Unified(Chop(text)) + "\n" + b)
  {
    UnifiedPlain(a);
    UnifiedPlain(b);
    UnifiedTwo(a, text + "\n" + b);
    UnifiedTwo(text, b);
    assert Chop(a) == a;
  }

  lemma FencedIs(language: string, snippet: string)
    ensures Fenced(language, snippet) ==
            FenceFor(snippet) + language + "\n" + (snippet + "\n" + FenceFor(snippet))
    ensures !EndsInReturn(Fenced(language, snippet))
  {
  }

  lemma UnifiedFenced(language: string, snippet: string)
    requires '\r' !in language
    ensures Unified(Fenced(language, snippet)) == Fenced(language, Unified(Chop(snippet)))
    ensures !EndsInReturn(Fenced(language, snippet))
  {
    UnifiedFence(snippet);
    FencedIs(language, snippet);
    FencedIs(language, Unified(Chop(snippet)));
    UnifiedBetween(FenceFor(snippet) + language, snippet, FenceFor(snippet));
  }

  // ---------------------------------------------------------------------------
  // Parts with any line ends
  // ---------------------------------------------------------------------------

  predicate PartSound(p: Part) {
    p.Code? ==> TagOk(p.language) && '\r' !in p.language
  }

  // The part as it reads before another one.
  function UnifiedPart(p: Part): Part {
    match p
    case Prose(prose) => Prose(Unified(Chop(prose)))
    case Code(language, snippet) => Code(language, Unified(Chop(snippet)))
  }

  // The part as it reads at the end of the document.
  function UnifiedLast(p: Part): Part {
    match p
    case Prose(prose) => Prose(Unified(prose))
    case Code(language, snippet) => Code(language, Unified(Chop(snippet)))
  }

  function UnifiedParts(parts: seq<Part>): (r: seq<Part>)
    ensures |r| == |parts|
  {
    seq(|parts|, i requires 0 <= i < |parts| => UnifiedPart(parts[i]))
  }

  function UnifiedAll(parts: seq<Part>): (r: seq<Part>)
    ensures |r| == |parts|
  {
    if parts == [] then [] else UnifiedParts(parts[..|parts| - 1]) + [UnifiedLast(parts[|parts| - 1])]
  }

  lemma PartUnified(p: Part)
    requires PartSound(p)
    ensures Unified(Chop(p.Text())) == UnifiedPart(p).Text()
    ensures Unified(p.Text()) == UnifiedLast(p).Text()
  {
    if p.Code? {
      UnifiedFenced(p.language, p.snippet);
    }
  }

  lemma ChopParted(a: string, b: string)
    ensures Chop(a + "\n\n" + b) == a + "\n\n" + Chop(b)
  {
  }

  lemma UnifiedOneMore(front: seq<Part>, last: Part)
    ensures UnifiedParts(front + [last]) == UnifiedParts(front) + [UnifiedPart(last)]
  {
  }

  lemma JoinLonger(front: seq<Part>, last: Part)
    requires front != []
    ensures JoinParts(Texts(front + [last])) == JoinParts(Texts(front)) + "\n\n" + last.Text()
  {
    JoinOneMore(front + [last]);
    assert (front + [last])[..|front|] == front;
  }

  lemma {:induction false} JoinUnified(parts: seq<Part>)
    requires forall i :: 0 <= i < |parts| ==> PartSound(parts[i])
    ensures Unified(Chop(JoinParts(Texts(parts)))) == JoinParts(Texts(UnifiedParts(parts)))
  {
    if |parts| == 1 {
      PartUnified(parts[0]);
    } else if |parts| > 1 {
      var front, last := parts[..|parts| - 1], parts[|parts| - 1];
      assert parts == front + [last];
      JoinUnified(front);
      PartUnified(last);
      JoinLonger(front, last);
      UnifiedOneMore(front, last);
      JoinLonger(UnifiedParts(front), UnifiedPart(last));
      ChopParted(JoinParts(Texts(front)), last.Text());
      UnifiedParted(JoinParts(Texts(front)), Chop(last.Text()));
    }
  }

  lemma DocUnified(parts: seq<Part>)
    requires forall i :: 0 <= i < |parts| ==> PartSound(parts[i])
    ensures Unified(JoinParts(Texts(parts))) == JoinParts(Texts(UnifiedAll(parts)))
  {
    if |parts| == 1 {
      PartUnified(parts[0]);
    } else if |parts| > 1 {
      var front, last := parts[..|parts| - 1], parts[|parts| - 1];
      assert parts == front + [last];
      JoinUnified(front);
      PartUnified(last);
      JoinLonger(front, last);
      JoinLonger(UnifiedParts(front), UnifiedLast(last));
      UnifiedParted(JoinParts(Texts(front)), last.Text());
    }
  }

  // No line of the text opens a fence, however its lines end.
  predicate QuietLines(text: string) {
    QuietText(Unified(text))
  }

  // A blank line more or less opens nothing.
  lemma QuietChop(text: string)
    ensures QuietText(Unified(Chop(text))) <==> QuietLines(text)
  {
    if EndsInReturn(text) {
      UnifiedWithReturn(text);
      SplitNewLine(Unified(Chop(text)), "");
      assert Unified(Chop(text)) + "\n" + "" == Unified(Chop(text)) + "\n";
      assert Opens("").None?;
    }
  }

  predicate QuietProse(parts: seq<Part>) {
    forall p :: p in parts && p.Prose? ==> QuietLines(p.prose)
  }

  lemma QuietProseOneMore(front: seq<Part>, last: Part)
    ensures QuietProse(front + [last]) <==> QuietProse(front) && (last.Prose? ==> QuietLines(last.prose))
  {
    assert last in front + [last];
  }

  lemma QuietPartsOneMore(front: seq<Part>, last: Part)
    ensures QuietParts(front + [last]) <==> QuietParts(front) && (last.Prose? ==> QuietText(last.prose))
  {
    assert last in front + [last];
  }

  lemma {:induction false} QuietUnified(parts: seq<Part>)
    ensures QuietParts(UnifiedParts(parts)) <==> QuietProse(parts)
  {
    if parts != [] {
      var front, last := parts[..|parts| - 1], parts[|parts| - 1];
      assert parts == front + [last];
      QuietUnified(front);
      UnifiedOneMore(front, last);
      QuietProseOneMore(front, last);
      QuietPartsOneMore(UnifiedParts(front), UnifiedPart(last));
      if last.Prose? {
        QuietChop(last.prose);
      }
    }
  }

  lemma QuietAll(parts: seq<Part>)
    ensures QuietParts(UnifiedAll(parts)) <==> QuietProse(parts)
  {
    if parts != [] {
      var front, last := parts[..|parts| - 1], parts[|parts| - 1];
      assert parts == front + [last];
      QuietUnified(front);
      QuietProseOneMore(front, last);
      QuietPartsOneMore(UnifiedParts(front), UnifiedLast(last));
    }
  }

  // A snippet as it reads: with line feeds, and without a carriage return at its end.
  function AsRead(snippet: string): string {
    Unified(Chop(snippet))
  }

  function CodeAsRead(parts: seq<Part>): seq<string> {
    if parts == [] then []
    else
      var p := parts[|parts| - 1];
      CodeAsRead(parts[..|parts| - 1]) + (if p.Code? then [AsRead(p.snippet)] else [])
  }

  lemma {:induction false} CodeUnified(parts: seq<Part>)
    ensures CodeOf(UnifiedParts(parts)) == CodeAsRead(parts)
  {
    if parts != [] {
      CodeUnified(parts[..|parts| - 1]);
      assert UnifiedParts(parts)[..|parts| - 1] == UnifiedParts(parts[..|parts| - 1]);
    }
  }

  lemma CodeAll(parts: seq<Part>)
    ensures CodeOf(UnifiedAll(parts)) == CodeAsRead(parts)
  {
    if parts != [] {
      CodeUnified(parts[..|parts| - 1]);
      assert UnifiedAll(parts)[..|parts| - 1] == UnifiedParts(parts[..|parts| - 1]);
    }
  }

  lemma AllOk(parts: seq<Part>)
    requires forall i :: 0 <= i < |parts| ==> PartSound(parts[i])
    ensures forall i :: 0 <= i < |parts| ==> PartOk(UnifiedAll(parts)[i])
  {
  }

  /** With sound language tags the reader finds exactly the fenced snippets of the printed parts
      if and only if no line of their prose opens a fence, whatever ends the lines. */
  lemma ReadsBackAnyEnds(parts: seq<Part>)
    requires forall i :: 0 <= i < |parts| ==> PartSound(parts[i])
    ensures Read(LinesOf(JoinParts(Texts(parts))), Outside) == CodeAsRead(parts) <==> QuietProse(parts)
  {
    DocUnified(parts);
    AllOk(parts);
    ReadsBackExactly(UnifiedAll(parts));
    QuietAll(parts);
    CodeAll(parts);
  }

  // ---------------------------------------------------------------------------
  // The printed results
  // ---------------------------------------------------------------------------

  // The snippets of the results, in order, as they read.
  function Snippets(chunks: seq<Chunk>): seq<string> {
    if chunks == [] then []
    else
      var c := chunks[|chunks| - 1];
      Snippets(chunks[..|chunks| - 1]) + (if c.snippet.Some? then [AsRead(c.snippet.value)] else [])
  }

  // A snippet with line feeds only reads as it is.
  lemma AsReadPlain(snippet: string)
    requires '\r' !in snippet
    ensures AsRead(snippet) == snippet
  {
    UnifiedPlain(snippet);
  }

  // No line of the value behind its first one opens a fence.
  predicate LaterLinesQuiet(value: string) {
    forall i :: 1 <= i < |LinesOf(value)| ==> Opens(LinesOf(value)[i]).None?
  }

  lemma {:induction false} JoinPrefix(prefix: string, lines: seq<string>)
    requires lines != []
    ensures Join([prefix + lines[0]] + lines[1..]) == prefix + Join(lines)
  {
    var longer := [prefix + lines[0]] + lines[1..];
    if |lines| > 1 {
      var front := lines[..|lines| - 1];
      JoinPrefix(prefix, front);
      assert longer[..|longer| - 1] == [prefix + front[0]] + front[1..];
    }
  }

  lemma SplitBehind(prefix: string, value: string)
    requires OneLine(prefix)
    ensures Split(prefix + value) == [prefix + Split(value)[0]] + Split(value)[1..]
  {
    var lines := Split(value);
    JoinOfSplit(value);
    JoinPrefix(prefix, lines);
    assert lines[0] in lines;
    SplitOfJoin([prefix + lines[0]] + lines[1..]);
  }

  lemma LabelledQuiet(prefix: string, value: string)
    requires NoBreaks(prefix) && prefix != "" && prefix[0] != ' ' && prefix[0] != '`' && prefix[0] != '~'
    ensures QuietLines(prefix + value) <==> LaterLinesQuiet(value)
  {
    var lines := LinesOf(value);
    NoReturn(prefix);
    UnifiedPlain(prefix);
    UnifiedConcat(prefix, value);
    SplitBehind(prefix, Unified(value));
    PlainStart(prefix + lines[0]);
    assert forall i :: 1 <= i < |lines| ==> lines[i] == Split(prefix + Unified(value))[i];
  }

  lemma NoReturn(line: string)
    requires NoBreaks(line)
    ensures OneLine(line) && '\r' !in line
  {
  }

  lemma OneLineQuiet(line: string)
    requires NoBreaks(line) && line != "" && line[0] != ' ' && line[0] != '`' && line[0] != '~'
    ensures QuietLines(line)
  {
    NoReturn(line);
    UnifiedPlain(line);
    SplitOneLine(line);
    PlainStart(line);
  }

  lemma NoBreaksConcat(a: string, b: string)
    requires NoBreaks(a) && NoBreaks(b)
    ensures NoBreaks(a + b)
  {
  }

  lemma RangeNoBreaks(c: Chunk)
    requires Printable(c)
    ensures NoBreaks("### " + MdOneLine(c.filePath) + ":" + c.startLine + "-" + c.endLine)
  {
    MdOneLineIsOneLine(c.filePath);
    NoBreaksConcat("### ", MdOneLine(c.filePath));
    NoBreaksConcat("### " + MdOneLine(c.filePath), ":");
    NoBreaksConcat("### " + MdOneLine(c.filePath) + ":", c.startLine);
    NoBreaksConcat("### " + MdOneLine(c.filePath) + ":" + c.startLine, "-");
    NoBreaksConcat("### " + MdOneLine(c.filePath) + ":" + c.startLine + "-", c.endLine);
  }

  lemma HeadingNoBreaks(c: Chunk)
    requires Printable(c)
    ensures NoBreaks(Heading(c)) && Heading(c) != "" && Heading(c)[0] == '#'
  {
    var range := "### " + MdOneLine(c.filePath) + ":" + c.startLine + "-" + c.endLine;
    RangeNoBreaks(c);
    MdOneLineIsOneLine(c.citation);
    NoBreaksConcat(range, " (score ");
    NoBreaksConcat(range + " (score ", c.score);
    NoBreaksConcat(range + " (score " + c.score, ")");
    NoBreaksConcat(" — ", MdOneLine(c.citation));
    NoBreaksConcat(range + " (score " + c.score + ")", " — " + MdOneLine(c.citation));
    NoBreaksConcat(range + " (score " + c.score + ")", "");
  }

  lemma HeadingQuiet(c: Chunk)
    requires Printable(c)
    ensures QuietLines(Heading(c))
  {
    HeadingNoBreaks(c);
    OneLineQuiet(Heading(c));
  }

  // The handle that a result is printed with, if any.
  function Handle(c: Chunk): string {
    if c.snippet.Some? then "" else c.hitId
  }

  lemma QuietProseConcat(a: seq<Part>, b: seq<Part>)
    ensures QuietProse(a + b) <==> QuietProse(a) && QuietProse(b)
  {
  }

  lemma QuietProseOne(p: Part)
    ensures QuietProse([p]) <==> (p.Prose? ==> QuietLines(p.prose))
  {
    assert p in [p];
  }

  lemma ChunkQuiet(c: Chunk)
    requires Printable(c)
    ensures QuietProse(Parts(c)) <==> LaterLinesQuiet(Handle(c))
  {
    HeadingQuiet(c);
    if c.header != "" {
      MdOneLineIsOneLine(c.header);
      OneLineQuiet(MdOneLine(c.header));
    }
    LabelledQuiet("hit_id: ", c.hitId);
    if c.snippet.None? && c.hitId != "" {
      assert Parts(c)[|Parts(c)| - 1] == Prose("hit_id: " + c.hitId);
    }
  }

  lemma CodeAsReadConcat(a: seq<Part>, b: seq<Part>)
    ensures CodeAsRead(a + b) == CodeAsRead(a) + CodeAsRead(b)
  {
    if b == [] {
      assert a + b == a;
    } else {
      assert (a + b)[..|a + b| - 1] == a + b[..|b| - 1];
      CodeAsReadConcat(a, b[..|b| - 1]);
    }
  }

  lemma CodeOfChunk(c: Chunk)
    ensures CodeAsRead(Parts(c)) == if c.snippet.Some? then [AsRead(c.snippet.value)] else []
  {
    if c.snippet.Some? {
      assert Parts(c)[..1] == [Prose(Heading(c))];
      assert CodeAsRead([Prose(Heading(c))]) == [];
    } else {
      NoCode(Parts(c));
    }
  }

  lemma {:induction false} NoCode(parts: seq<Part>)
    requires forall i :: 0 <= i < |parts| ==> parts[i].Prose?
    ensures CodeAsRead(parts) == []
  {
    if parts != [] {
      NoCode(parts[..|parts| - 1]);
    }
  }

  // No line that a source id or a handle adds to the list opens a fence.
  predicate HandlesQuiet(sourceId: string, chunks: seq<Chunk>) {
    LaterLinesQuiet(sourceId) && forall c :: c in chunks ==> LaterLinesQuiet(Handle(c))
  }

  lemma HandlesQuietOneMore(sourceId: string, chunks: seq<Chunk>)
    requires chunks != []
    ensures HandlesQuiet(sourceId, chunks) <==>
            HandlesQuiet(sourceId, chunks[..|chunks| - 1]) && LaterLinesQuiet(Handle(chunks[|chunks| - 1]))
  {
    assert chunks == chunks[..|chunks| - 1] + [chunks[|chunks| - 1]];
  }

  lemma SourceQuiet(sourceId: string)
    ensures QuietProse(SourcePart(sourceId)) <==> LaterLinesQuiet(sourceId)
  {
    if sourceId != "" {
      LabelledQuiet("source: ", sourceId);
      QuietProseOne(Prose("source: " + sourceId));
    }
  }

  lemma {:induction false} AllPartsQuiet(sourceId: string, chunks: seq<Chunk>)
    requires forall i :: 0 <= i < |chunks| ==> Printable(chunks[i])
    ensures QuietProse(AllParts(sourceId, chunks)) <==> HandlesQuiet(sourceId, chunks)
  {
    if chunks == [] {
      SourceQuiet(sourceId);
    } else {
      var front, last := chunks[..|chunks| - 1], chunks[|chunks| - 1];
      AllPartsQuiet(sourceId, front);
      ChunkQuiet(last);
      QuietProseConcat(AllParts(sourceId, front), Parts(last));
      HandlesQuietOneMore(sourceId, chunks);
    }
  }

  lemma SoundConcat(a: seq<Part>, b: seq<Part>)
    requires forall i :: 0 <= i < |a| ==> PartSound(a[i])
    requires forall i :: 0 <= i < |b| ==> PartSound(b[i])
    ensures forall i :: 0 <= i < |a + b| ==> PartSound((a + b)[i])
  {
  }

  lemma {:induction false} AllPartsSound(sourceId: string, chunks: seq<Chunk>)
    requires forall i :: 0 <= i < |chunks| ==> Printable(chunks[i])
    ensures forall i :: 0 <= i < |AllParts(sourceId, chunks)| ==> PartSound(AllParts(sourceId, chunks)[i])
  {
    if chunks != [] {
      var front, last := chunks[..|chunks| - 1], chunks[|chunks| - 1];
      AllPartsSound(sourceId, front);
      SoundConcat(AllParts(sourceId, front), Parts(last));
    }
  }

  lemma {:induction false} AllPartsCode(sourceId: string, chunks: seq<Chunk>)
    ensures CodeAsRead(AllParts(sourceId, chunks)) == Snippets(chunks)
  {
    if chunks == [] {
      NoCode(SourcePart(sourceId));
    } else {
      var front, last := chunks[..|chunks| - 1], chunks[|chunks| - 1];
      AllPartsCode(sourceId, front);
      CodeOfChunk(last);
      CodeAsReadConcat(AllParts(sourceId, front), Parts(last));
    }
  }

  /** Reading the printed list by the fenced-code rules gives back exactly the snippets, in order
      and whatever they contain, if and only if no line that the source id or a printed handle
      runs on to opens a fence. Lines may end in any way. */
  lemma RoundTrip(sourceId: string, chunks: seq<Chunk>)
    requires forall i :: 0 <= i < |chunks| ==> Printable(chunks[i])
    ensures Read(LinesOf(JoinParts(Texts(AllParts(sourceId, chunks)))), Outside) == Snippets(chunks) <==>
            HandlesQuiet(sourceId, chunks)
  {
    AllPartsQuiet(sourceId, chunks);
    AllPartsSound(sourceId, chunks);
    AllPartsCode(sourceId, chunks);
    ReadsBackAnyEnds(AllParts(sourceId, chunks));
  }

  lemma BrokenLines(name: string, end: string, last: string)
    requires NoBreaks(name) && NoBreaks(last) && last != "" && end in {"\n", "\r", "\r\n"}
    ensures LinesOf(name + end + last) == [name, last]
  {
    NoReturn(name);
    NoReturn(last);
    UnifiedPlain(name);
    UnifiedPlain(last);
    UnifiedEnd(end);
    UnifiedConcat(name, end);
    UnifiedConcat(name + end, last);
    SplitNewLine(name, last);
    SplitOneLine(name);
  }

  lemma UnifiedEnd(end: string)
    requires end in {"\n", "\r", "\r\n"}
    ensures Unified(end) == "\n"
  {
    assert "\r\n"[..1] == "\r" && "\r"[..0] == "" && "\n"[..0] == "";
    assert Unified("\r") == "\n";
  }

  /** One path with a line break in it is enough: a result without a snippet at line 1 of a file
      whose name runs on to a line that opens a fence. The reader finds a block in a list that
      prints none. */
  lemma HandleOpensBlock(name: string, end: string, fence: string, c: Chunk)
    requires NoBreaks(name) && NoBreaks(fence) && end in {"\n", "\r", "\r\n"} && Opens(fence + ":1-2").Some?
    requires Printable(c) && c.snippet.None? && c.filePath == name + end + fence
    requires c.hitId == c.filePath + ":1-2"
    ensures Read(LinesOf(JoinParts(Texts(AllParts("", [c])))), Outside) != [] == Snippets([c])
    ensures NoBreaks(MdOneLine(c.filePath))
  {
    var last := fence + ":1-2";
    assert c.hitId == name + end + last;
    BrokenLines(name, end, last);
    assert LinesOf(c.hitId)[1] == last;
    assert !LaterLinesQuiet(Handle(c));
    assert c in [c];
    RoundTrip("", [c]);
    assert Snippets([c][..0]) == [];
    MdOneLineIsOneLine(c.filePath);
  }
}
