/**
  Reading printed parts back: when the reader finds exactly the fenced snippets, and when it does
  not.
*/
module MarkdownRoundTrip {
  import opened Options
  import opened Text
  import opened Markdown

  // ---------------------------------------------------------------------------
  // Fences of the printer
  // ---------------------------------------------------------------------------

  lemma {:induction false} LeadingTicks(n: nat, tail: string)
    requires '`' !in tail
    ensures Leading(Ticks(n) + tail, '`') == n
    ensures n > 0 ==> Leading(Ticks(n) + tail, ' ') == 0
  {
    if n > 0 {
      assert (Ticks(n) + tail)[1..] == Ticks(n - 1) + tail;
      LeadingTicks(n - 1, tail);
    } else {
      assert Ticks(0) + tail == tail;
    }
  }

  lemma FenceOpens(n: nat, language: string)
    requires n >= 3 && '`' !in language
    ensures Opens(Ticks(n) + language) == Some(Fence('`', n, 0))
  {
    LeadingTicks(n, language);
    assert (Ticks(n) + language)[0..] == Ticks(n) + language;
    assert (Ticks(n) + language)[n..] == language;
  }

  lemma FenceCloses(n: nat)
    requires n >= 3
    ensures Closes(Ticks(n), Fence('`', n, 0))
  {
    LeadingTicks(n, "");
    assert Ticks(n) + "" == Ticks(n) && Ticks(n)[0..] == Ticks(n);
  }

  lemma NoLineCloses(snippet: string)
    ensures forall i :: 0 <= i < |Split(snippet)| ==> !Closes(Split(snippet)[i], Fence('`', |FenceFor(snippet)|, 0))
  {
    forall i | 0 <= i < |Split(snippet)|
      ensures !Closes(Split(snippet)[i], Fence('`', |FenceFor(snippet)|, 0))
    {
      var a, b := LineOf(snippet, i);
      CannotClose(snippet, a, b, 0);
    }
  }

  lemma SplitFenced(language: string, snippet: string)
    requires OneLine(language)
    ensures Split(Fenced(language, snippet)) == [FenceFor(snippet) + language] + Split(snippet) + [FenceFor(snippet)]
  {
    var ticks := FenceFor(snippet);
    SplitOfTwo(ticks + language + "\n" + snippet, ticks);
    SplitOfTwo(ticks + language, snippet);
    SplitOneLine(ticks + language);
    SplitOneLine(ticks);
  }

  lemma SplitParted(a: string, b: string)
    ensures Split(a + "\n\n" + b) == Split(a) + [""] + Split(b)
  {
    SplitOfTwo(a + "\n", b);
    SplitOfTwo(a, "");
    assert a + "\n" + "" == a + "\n";
    assert a + "\n\n" + b == (a + "\n") + "\n" + b;
  }

  // A line that starts with none of the marks and no space opens nothing.
  lemma PlainStart(line: string)
    requires line != "" && line[0] != ' ' && line[0] != '`' && line[0] != '~'
    ensures Opens(line).None?
  {
    assert line[0..] == line;
  }

  // ---------------------------------------------------------------------------
  // The lines of the document, with what the printer meant by them
  // ---------------------------------------------------------------------------

  datatype Line =
    | Plain(text: string)
    | Opener(language: string, snippet: string)
    | Body(text: string)
    | Closer(snippet: string)
  {
    function Text(): string {
      match this
      case Plain(text) => text
      case Opener(language, snippet) => FenceFor(snippet) + language
      case Body(text) => text
      case Closer(snippet) => FenceFor(snippet)
    }
  }

  function LineTexts(d: seq<Line>): (lines: seq<string>)
    ensures |lines| == |d|
  {
    seq(|d|, i requires 0 <= i < |d| => d[i].Text())
  }

  function Bodies(lines: seq<string>): (d: seq<Line>)
    ensures |d| == |lines|
  {
    seq(|lines|, i requires 0 <= i < |lines| => Body(lines[i]))
  }

  function Plains(lines: seq<string>): (d: seq<Line>)
    ensures |d| == |lines|
  {
    seq(|lines|, i requires 0 <= i < |lines| => Plain(lines[i]))
  }

  function PartLines(p: Part): seq<Line> {
    match p
    case Prose(prose) => Plains(Split(prose))
    case Code(language, snippet) => [Opener(language, snippet)] + Bodies(Split(snippet)) + [Closer(snippet)]
  }

  function DocLines(parts: seq<Part>): seq<Line> {
    if parts == [] then [Plain("")]
    else if |parts| == 1 then PartLines(parts[0])
    else DocLines(parts[..|parts| - 1]) + [Plain("")] + PartLines(parts[|parts| - 1])
  }

  predicate TagOk(language: string) {
    OneLine(language) && '`' !in language
  }

  predicate PartOk(p: Part) {
    p.Code? ==> TagOk(p.language)
  }

  lemma LineTextsOfConcat(a: seq<Line>, b: seq<Line>)
    ensures LineTexts(a + b) == LineTexts(a) + LineTexts(b)
  {
  }

  lemma PartLinesAreLines(p: Part)
    requires PartOk(p)
    ensures LineTexts(PartLines(p)) == Split(p.Text())
  {
    match p
    case Prose(prose) =>
      assert LineTexts(Plains(Split(prose))) == Split(prose);
    case Code(language, snippet) =>
      SplitFenced(language, snippet);
      var lines := Split(snippet);
      assert LineTexts(Bodies(lines)) == lines;
      LineTextsOfConcat([Opener(language, snippet)], Bodies(lines));
      LineTextsOfConcat([Opener(language, snippet)] + Bodies(lines), [Closer(snippet)]);
  }

  lemma JoinOneMore(parts: seq<Part>)
    requires |parts| >= 2
    ensures JoinParts(Texts(parts)) ==
            JoinParts(Texts(parts[..|parts| - 1])) + "\n\n" + parts[|parts| - 1].Text()
  {
    assert Texts(parts)[..|parts| - 1] == Texts(parts[..|parts| - 1]);
  }

  lemma {:induction false} DocLinesAreLines(parts: seq<Part>)
    requires forall i :: 0 <= i < |parts| ==> PartOk(parts[i])
    ensures LineTexts(DocLines(parts)) == Split(JoinParts(Texts(parts)))
  {
    if parts == [] {
    } else if |parts| == 1 {
      PartLinesAreLines(parts[0]);
    } else {
      var front, last := parts[..|parts| - 1], parts[|parts| - 1];
      DocLinesAreLines(front);
      PartLinesAreLines(last);
      JoinOneMore(parts);
      SplitParted(JoinParts(Texts(front)), last.Text());
      LineTextsOfConcat(DocLines(front), [Plain("")]);
      LineTextsOfConcat(DocLines(front) + [Plain("")], PartLines(last));
    }
  }

  // A document: plain lines and whole fenced snippets.
  predicate Doc(d: seq<Line>)
    decreases |d|
  {
    d == [] ||
    (d[0].Plain? && Doc(d[1..])) ||
    (d[0].Opener? && TagOk(d[0].language) && WholeSnippet(d) && Doc(d[|Split(d[0].snippet)| + 2..]))
  }

  predicate WholeSnippet(d: seq<Line>)
    requires d != [] && d[0].Opener?
  {
    var n := |Split(d[0].snippet)|;
    |d| >= n + 2 && d[1..n + 1] == Bodies(Split(d[0].snippet)) && d[n + 1] == Closer(d[0].snippet)
  }

  // What is left of a document from somewhere inside a snippet on.
  predicate Tail(d: seq<Line>)
    decreases |d|
  {
    d != [] && ((d[0].Body? && Tail(d[1..])) || (d[0].Closer? && Doc(d[1..])))
  }

  // The snippets that begin in these lines.
  function Owed(d: seq<Line>): seq<string> {
    if d == [] then [] else (if d[0].Opener? then [d[0].snippet] else []) + Owed(d[1..])
  }

  // ---------------------------------------------------------------------------
  // What the reader makes of a block
  // ---------------------------------------------------------------------------

  // The first line that closes the fence, or the end.
  function CloseAt(lines: seq<string>, fence: Fence): (k: nat)
    ensures k <= |lines|
  {
    if lines == [] || Closes(lines[0], fence) then 0 else CloseAt(lines[1..], fence) + 1
  }

  function Unindented(lines: seq<string>, indent: nat): (r: seq<string>)
    ensures |r| == |lines|
  {
    seq(|lines|, i requires 0 <= i < |lines| => Unindent(lines[i], indent))
  }

  lemma UnindentedOneMore(lines: seq<string>, indent: nat, content: seq<string>, k: nat)
    requires 0 < k <= |lines|
    ensures content + Unindented(lines[..k], indent) ==
            (content + [Unindent(lines[0], indent)]) + Unindented(lines[1..][..k - 1], indent)
  {
    assert lines[..k] == [lines[0]] + lines[1..][..k - 1];
  }

  lemma {:induction false} ReadInside(lines: seq<string>, fence: Fence, content: seq<string>)
    ensures var k := CloseAt(lines, fence);
            Read(lines, Inside(fence, content)) ==
            [Join(content + Unindented(lines[..k], fence.indent))] +
            (if k < |lines| then Read(lines[k..][1..], Outside) else [])
  {
    var k := CloseAt(lines, fence);
    if lines == [] || Closes(lines[0], fence) {
      assert content + Unindented(lines[..0], fence.indent) == content;
      assert lines[0..] == lines;
    } else {
      ReadInside(lines[1..], fence, content + [Unindent(lines[0], fence.indent)]);
      UnindentedOneMore(lines, fence.indent, content, k);
      assert lines[k..] == lines[1..][k - 1..];
    }
  }

  lemma {:induction false} ClosesFirst(lines: seq<string>, closer: string, rest: seq<string>, fence: Fence)
    requires Closes(closer, fence) && forall i :: 0 <= i < |lines| ==> !Closes(lines[i], fence)
    ensures CloseAt(lines + [closer] + rest, fence) == |lines|
  {
    if lines == [] {
      assert (lines + [closer] + rest)[0] == closer;
    } else {
      assert (lines + [closer] + rest)[1..] == lines[1..] + [closer] + rest;
      ClosesFirst(lines[1..], closer, rest, fence);
    }
  }

  lemma WholeIs(d: seq<Line>)
    requires d != [] && d[0].Opener? && WholeSnippet(d)
    ensures var n := |Split(d[0].snippet)|;
            d[1..] == Bodies(Split(d[0].snippet)) + ([Closer(d[0].snippet)] + d[n + 2..])
  {
    var n := |Split(d[0].snippet)|;
    assert d[1..] == d[1..n + 1] + ([d[n + 1]] + d[n + 2..]);
  }

  lemma LineTextsOfBodies(lines: seq<string>)
    ensures LineTexts(Bodies(lines)) == lines
  {
  }

  lemma WholeLines(d: seq<Line>)
    requires d != [] && d[0].Opener? && WholeSnippet(d)
    ensures var n := |Split(d[0].snippet)|;
            LineTexts(d[1..]) == Split(d[0].snippet) + [FenceFor(d[0].snippet)] + LineTexts(d[n + 2..])
  {
    var lines, closer, rest := Split(d[0].snippet), [Closer(d[0].snippet)], d[|Split(d[0].snippet)| + 2..];
    WholeIs(d);
    LineTextsOfConcat(Bodies(lines), closer + rest);
    LineTextsOfConcat(closer, rest);
    LineTextsOfBodies(lines);
    assert LineTexts(closer) == [FenceFor(d[0].snippet)];
  }

  lemma ReadContent(snippet: string, rest: seq<string>)
    ensures var ticks := FenceFor(snippet);
            Read(Split(snippet) + [ticks] + rest, Inside(Fence('`', |ticks|, 0), [])) == [snippet] + Read(rest, Outside)
  {
    var ticks, n := FenceFor(snippet), |Split(snippet)|;
    var lines := Split(snippet) + [ticks] + rest;
    FenceCloses(|ticks|);
    NoLineCloses(snippet);
    ClosesFirst(Split(snippet), ticks, rest, Fence('`', |ticks|, 0));
    ReadInside(lines, Fence('`', |ticks|, 0), []);
    assert lines[..n] == Split(snippet) && lines[n..][1..] == rest;
    assert [] + Unindented(Split(snippet), 0) == Split(snippet);
    JoinOfSplit(snippet);
  }

  // A whole snippet reads as one block with exactly its content.
  lemma ReadWhole(d: seq<Line>)
    requires d != [] && d[0].Opener? && TagOk(d[0].language) && WholeSnippet(d)
    ensures Read(LineTexts(d), Outside) ==
            [d[0].snippet] + Read(LineTexts(d[|Split(d[0].snippet)| + 2..]), Outside)
  {
    var ticks := FenceFor(d[0].snippet);
    FenceOpens(|ticks|, d[0].language);
    LineTextsTail(d);
    WholeLines(d);
    ReadContent(d[0].snippet, LineTexts(d[|Split(d[0].snippet)| + 2..]));
    assert LineTexts(d)[0] == ticks + d[0].language;
  }

  // A block that swallows the opening line of a snippet is not that snippet.
  lemma {:induction false} JoinHolds(lines: seq<string>, i: nat) returns (a: nat)
    requires i < |lines|
    ensures a + |lines[i]| <= |Join(lines)| && Join(lines)[a..a + |lines[i]|] == lines[i]
  {
    var front, last := lines[..|lines| - 1], lines[|lines| - 1];
    if |lines| == 1 {
      a := 0;
    } else if i == |lines| - 1 {
      a := |Join(front)| + 1;
    } else {
      a := JoinHolds(front, i);
      assert Join(lines)[a..a + |lines[i]|] == Join(front)[a..a + |lines[i]|];
    }
  }

  lemma {:induction false} OwedHasOpener(d: seq<Line>, snippet: string) returns (i: nat)
    requires snippet in Owed(d)
    ensures i < |d| && d[i].Opener? && d[i].snippet == snippet
  {
    if d[0].Opener? && d[0].snippet == snippet {
      i := 0;
    } else {
      i := OwedHasOpener(d[1..], snippet);
      i := i + 1;
    }
  }

  lemma SwallowedDiffers(d: seq<Line>, indent: nat, snippet: string)
    requires snippet in Owed(d)
    ensures Join(Unindented(LineTexts(d), indent)) != snippet
  {
    var i := OwedHasOpener(d, snippet);
    var lines, n := Unindented(LineTexts(d), indent), |FenceFor(snippet)|;
    assert d[i].Text()[0] == '`';
    assert Leading(d[i].Text(), ' ') == 0;
    assert lines[i] == d[i].Text();
    var a := JoinHolds(lines, i);
    forall k | a <= k < a + n
      ensures Join(lines)[k] == '`'
    {
      assert Join(lines)[a..a + |lines[i]|][k - a] == FenceFor(snippet)[k - a];
    }
    assert RunAt(Join(lines), a, n);
    FenceIsShortest(snippet, n);
  }

  // ---------------------------------------------------------------------------
  // Exactly when the reader finds the snippets
  // ---------------------------------------------------------------------------

  predicate IsSuffix(t: seq<string>, s: seq<string>) {
    |t| <= |s| && t == s[|s| - |t|..]
  }

  // The reader, outside any block here, has found more than the printer wrote so far: what it
  // would still have to find is a proper suffix of the snippets to come, or it stands inside one.
  predicate Ahead(d: seq<Line>, t: seq<string>) {
    IsSuffix(t, Owed(d)) && ((Doc(d) && |t| < |Owed(d)|) || Tail(d))
  }

  lemma Rest(d: seq<Line>)
    requires d != [] && (Doc(d) || Tail(d))
    ensures Doc(d[1..]) || Tail(d[1..])
    ensures d[0].Opener? ==> Tail(d[1..])
    ensures d[0].Plain? ==> Doc(d[1..])
    ensures d[0].Body? ==> Tail(d[1..])
  {
    if d[0].Opener? {
      BodiesTail(d[1..], d[0].snippet, 0);
    }
  }

  lemma {:induction false} BodiesTail(d: seq<Line>, snippet: string, i: nat)
    requires var n := |Split(snippet)|;
      i <= n && |d| >= n + 1 && d[..n] == Bodies(Split(snippet)) && d[n] == Closer(snippet) && Doc(d[n + 1..])
    ensures Tail(d[i..])
    decreases |Split(snippet)| - i
  {
    var n := |Split(snippet)|;
    if i == n {
      assert d[n..][1..] == d[n + 1..];
    } else {
      BodiesTail(d, snippet, i + 1);
      assert d[..n][i] == d[i];
      assert d[i..][0] == d[i] && d[i..][1..] == d[i + 1..];
    }
  }

  lemma {:induction false} RestFrom(d: seq<Line>, k: nat)
    requires k <= |d| && (Doc(d) || Tail(d))
    ensures Doc(d[k..]) || Tail(d[k..])
  {
    if k > 0 {
      Rest(d);
      RestFrom(d[1..], k - 1);
      assert d[1..][k - 1..] == d[k..];
    } else {
      assert d[0..] == d;
    }
  }

  lemma {:induction false} OwedSplits(d: seq<Line>, k: nat)
    requires k <= |d|
    ensures Owed(d) == Owed(d[..k]) + Owed(d[k..])
  {
    if k > 0 {
      OwedSplits(d[1..], k - 1);
      assert d[1..][..k - 1] == d[..k][1..] && d[1..][k - 1..] == d[k..];
    } else {
      assert d[0..] == d;
    }
  }

  lemma NoOpenerIn(d: seq<Line>, i: nat)
    requires d != [] && d[0].Opener? && WholeSnippet(d) && i <= |Split(d[0].snippet)|
    ensures !d[1..][i].Opener?
  {
    var n := |Split(d[0].snippet)|;
    if i < n {
      assert d[1..n + 1][i] == d[i + 1];
    }
  }

  lemma NoBodiesOwe(d: seq<Line>, snippet: string)
    requires d != [] && d[0].Opener? && d[0].snippet == snippet && WholeSnippet(d)
    ensures Owed(d) == [snippet] + Owed(d[|Split(snippet)| + 2..])
  {
    var n := |Split(snippet)|;
    forall i: nat | i < n + 1
      ensures !d[1..][i].Opener?
    {
      NoOpenerIn(d, i);
    }
    OweNothing(d[1..], n + 1);
    assert d[1..][n + 1..] == d[n + 2..];
  }

  lemma {:induction false} OweNothing(d: seq<Line>, k: nat)
    requires k <= |d| && forall i :: 0 <= i < k ==> !d[i].Opener?
    ensures Owed(d) == Owed(d[k..])
  {
    if k > 0 {
      OweNothing(d[1..], k - 1);
      assert d[1..][k - 1..] == d[k..];
    } else {
      assert d[0..] == d;
    }
  }

  // A reader that is ahead finds more than the snippets to come.
  lemma {:induction false} NoExtra(d: seq<Line>, t: seq<string>)
    requires Ahead(d, t)
    ensures Read(LineTexts(d), Outside) != t
    decreases |d|, 1
  {
    if d[0].Opener? {
      var rest := d[|Split(d[0].snippet)| + 2..];
      ReadWhole(d);
      AheadSnippet(d, t);
      if t != [] {
        SameHead(t[0], Read(LineTexts(rest), Outside), t[1..]);
        NoExtra(rest, t[1..]);
      }
    } else if Opens(d[0].Text()).Some? {
      Foreign(d, t);
    } else {
      CloserOpens(d[0]);
      ReadQuiet(d);
      NoExtra(d[1..], t);
    }
  }

  lemma AheadSnippet(d: seq<Line>, t: seq<string>)
    requires Ahead(d, t) && d[0].Opener?
    ensures t == [] || (t == [t[0]] + t[1..] && Ahead(d[|Split(d[0].snippet)| + 2..], t[1..]))
  {
    NoBodiesOwe(d, d[0].snippet);
    if t != [] {
      SuffixAhead(t, d[0].snippet, Owed(d[|Split(d[0].snippet)| + 2..]));
    }
  }

  lemma SuffixAhead(t: seq<string>, x: string, s: seq<string>)
    requires t != [] && IsSuffix(t, [x] + s) && |t| <= |s|
    ensures IsSuffix(t[1..], s) && |t[1..]| < |s| && t == [t[0]] + t[1..]
  {
  }

  lemma CloserOpens(l: Line)
    ensures l.Closer? ==> Opens(l.Text()).Some?
  {
    if l.Closer? {
      var n := |FenceFor(l.snippet)|;
      FenceOpens(n, "");
      assert Ticks(n) + "" == l.Text();
    }
  }

  // A block that the printer did not open is one too many, whatever it swallows: it is not the
  // snippet of an opening line in it, and so that snippet is missing behind it.
  lemma {:induction false} Foreign(d: seq<Line>, t: seq<string>)
    requires d != [] && (Doc(d) || Tail(d)) && !d[0].Opener? && Opens(d[0].Text()).Some?
    requires IsSuffix(t, Owed(d))
    ensures Read(LineTexts(d), Outside) != t
    decreases |d|, 0
  {
    var fence := Opens(d[0].Text()).value;
    var k := CloseAt(LineTexts(d[1..]), fence);
    ReadForeign(d);
    if t != [] && t[0] == Join(Unindented(LineTexts(d[1..][..k]), fence.indent)) {
      if t[0] in Owed(d[1..][..k]) {
        SwallowedDiffers(d[1..][..k], fence.indent, t[0]);
      }
      AheadBehind(d, k, t);
      NoExtra(d[1..][k..][1..], t[1..]);
    }
  }

  lemma ReadForeign(d: seq<Line>)
    requires d != [] && Opens(d[0].Text()).Some?
    ensures var fence := Opens(d[0].Text()).value;
            var k := CloseAt(LineTexts(d[1..]), fence);
            Read(LineTexts(d), Outside) ==
            [Join(Unindented(LineTexts(d[1..][..k]), fence.indent))] +
            (if k < |d| - 1 then Read(LineTexts(d[1..][k..][1..]), Outside) else [])
  {
    var fence, lines := Opens(d[0].Text()).value, LineTexts(d[1..]);
    var k := CloseAt(lines, fence);
    LineTextsTail(d);
    ReadInside(lines, fence, []);
    UnindentedPart(d[1..], k, fence.indent);
    if k < |lines| {
      LineTextsBehind(d[1..], k);
    }
  }

  lemma LineTextsTail(d: seq<Line>)
    requires d != []
    ensures LineTexts(d)[1..] == LineTexts(d[1..])
  {
  }

  lemma LineTextsBehind(d: seq<Line>, k: nat)
    requires k < |d|
    ensures LineTexts(d)[k..][1..] == LineTexts(d[k..][1..])
  {
  }

  lemma UnindentedPart(d: seq<Line>, k: nat, indent: nat)
    requires k <= |d|
    ensures [] + Unindented(LineTexts(d)[..k], indent) == Unindented(LineTexts(d[..k]), indent)
  {
  }

  lemma AheadBehind(d: seq<Line>, k: nat, t: seq<string>)
    requires d != [] && (Doc(d) || Tail(d)) && !d[0].Opener? && k < |d|
    requires t != [] && IsSuffix(t, Owed(d)) && t[0] !in Owed(d[1..][..k])
    ensures k < |d| - 1 && Ahead(d[1..][k..][1..], t[1..])
  {
    OwedBehind(d, k, t);
    Rest(d);
    RestFrom(d[1..], k);
    AheadOne(d[1..][k..], t);
  }

  lemma OwedBehind(d: seq<Line>, k: nat, t: seq<string>)
    requires d != [] && !d[0].Opener? && k < |d|
    requires t != [] && IsSuffix(t, Owed(d)) && t[0] !in Owed(d[1..][..k])
    ensures k < |d| - 1 && IsSuffix(t, Owed(d[1..][k..]))
  {
    OwedOne(d);
    OwedSplits(d[1..], k);
    SuffixBehind(t, Owed(d[1..][..k]), Owed(d[1..][k..]));
    NothingOwed(d[1..][k..]);
  }

  lemma OwedOne(d: seq<Line>)
    requires d != []
    ensures Owed(d) == if d[0].Opener? then [d[0].snippet] + Owed(d[1..]) else Owed(d[1..])
  {
  }

  lemma SuffixBehind(t: seq<string>, a: seq<string>, b: seq<string>)
    requires t != [] && IsSuffix(t, a + b) && t[0] !in a
    ensures b != [] && IsSuffix(t, b)
  {
    NotAmong(t, a, b);
  }

  lemma NothingOwed(d: seq<Line>)
    requires Owed(d) != []
    ensures d != []
  {
  }

  lemma AheadOne(d: seq<Line>, t: seq<string>)
    requires d != [] && (Doc(d) || Tail(d)) && t != [] && IsSuffix(t, Owed(d))
    ensures Ahead(d[1..], t[1..])
  {
    Rest(d);
    OwedOne(d);
    if d[0].Opener? {
      SuffixDrops(t, d[0].snippet, Owed(d[1..]));
    } else {
      SuffixShortens(t, Owed(d[1..]));
    }
  }

  lemma SuffixShortens(t: seq<string>, s: seq<string>)
    requires t != [] && IsSuffix(t, s)
    ensures IsSuffix(t[1..], s) && |t[1..]| < |s|
  {
  }

  lemma SuffixDrops(t: seq<string>, x: string, s: seq<string>)
    requires t != [] && IsSuffix(t, [x] + s)
    ensures IsSuffix(t[1..], s)
  {
  }

  lemma NotAmong(t: seq<string>, a: seq<string>, b: seq<string>)
    requires t != [] && IsSuffix(t, a + b)
    ensures t[0] in a || IsSuffix(t, b)
  {
    if |t| > |b| {
      assert t[0] == (a + b)[|a + b| - |t|];
    }
  }

  // No plain line opens a fence.
  predicate Quiet(d: seq<Line>) {
    forall l :: l in d && l.Plain? ==> Opens(l.text).None?
  }

  // The reader finds exactly the snippets of these lines if and only if the lines are quiet.
  predicate ExactlyQuiet(d: seq<Line>) {
    Read(LineTexts(d), Outside) == Owed(d) <==> Quiet(d)
  }

  lemma {:induction false} QuietExactly(d: seq<Line>)
    requires Doc(d)
    ensures ExactlyQuiet(d)
    decreases |d|
  {
    if d == [] {
    } else if d[0].Opener? {
      QuietExactly(d[|Split(d[0].snippet)| + 2..]);
      ExactlySnippet(d);
    } else if Opens(d[0].Text()).Some? {
      Foreign(d, Owed(d));
      QuietFront(d);
    } else {
      QuietExactly(d[1..]);
      ExactlyPlain(d);
    }
  }

  lemma ExactlySnippet(d: seq<Line>)
    requires d != [] && d[0].Opener? && TagOk(d[0].language) && WholeSnippet(d)
    requires ExactlyQuiet(d[|Split(d[0].snippet)| + 2..])
    ensures ExactlyQuiet(d)
  {
    var rest := d[|Split(d[0].snippet)| + 2..];
    ReadWhole(d);
    NoBodiesOwe(d, d[0].snippet);
    SameHead(d[0].snippet, Read(LineTexts(rest), Outside), Owed(rest));
    QuietBehind(d);
  }

  lemma SameHead(x: string, a: seq<string>, b: seq<string>)
    ensures [x] + a == [x] + b <==> a == b
  {
    assert ([x] + a)[1..] == a && ([x] + b)[1..] == b;
  }

  lemma ExactlyPlain(d: seq<Line>)
    requires d != [] && d[0].Plain? && Opens(d[0].Text()).None? && ExactlyQuiet(d[1..])
    ensures ExactlyQuiet(d)
  {
    ReadQuiet(d);
    QuietFront(d);
  }

  lemma QuietFront(d: seq<Line>)
    requires d != [] && d[0].Plain?
    ensures Quiet(d) <==> Opens(d[0].Text()).None? && Quiet(d[1..])
  {
    assert d == [d[0]] + d[1..];
  }

  lemma ReadQuiet(d: seq<Line>)
    requires d != [] && Opens(d[0].Text()).None?
    ensures Read(LineTexts(d), Outside) == Read(LineTexts(d[1..]), Outside)
  {
    assert LineTexts(d)[1..] == LineTexts(d[1..]);
  }

  lemma QuietBehind(d: seq<Line>)
    requires d != [] && d[0].Opener? && WholeSnippet(d)
    ensures Quiet(d) <==> Quiet(d[|Split(d[0].snippet)| + 2..])
  {
    var bodies, rest := Bodies(Split(d[0].snippet)), d[|Split(d[0].snippet)| + 2..];
    WholeIs(d);
    assert d == [d[0]] + d[1..];
    QuietConcat([d[0]], d[1..]);
    QuietConcat(bodies, [Closer(d[0].snippet)] + rest);
    QuietConcat([Closer(d[0].snippet)], rest);
  }

  // ---------------------------------------------------------------------------
  // The printed parts
  // ---------------------------------------------------------------------------

  function CodeOf(parts: seq<Part>): seq<string> {
    if parts == [] then []
    else
      var p := parts[|parts| - 1];
      CodeOf(parts[..|parts| - 1]) + (if p.Code? then [p.snippet] else [])
  }

  lemma {:induction false} DocOfConcat(a: seq<Line>, b: seq<Line>)
    requires Doc(a) && Doc(b)
    ensures Doc(a + b)
    decreases |a|
  {
    if a == [] {
      assert a + b == b;
    } else if a[0].Plain? {
      DocOfConcat(a[1..], b);
      assert (a + b)[1..] == a[1..] + b;
    } else {
      DocOfConcat(a[|Split(a[0].snippet)| + 2..], b);
      WholeConcat(a, b);
    }
  }

  lemma WholeConcat(a: seq<Line>, b: seq<Line>)
    requires a != [] && a[0].Opener? && WholeSnippet(a)
    ensures WholeSnippet(a + b)
    ensures (a + b)[|Split(a[0].snippet)| + 2..] == a[|Split(a[0].snippet)| + 2..] + b
  {
    var n := |Split(a[0].snippet)|;
    assert (a + b)[1..n + 1] == a[1..n + 1];
  }

  lemma OwedConcat(a: seq<Line>, b: seq<Line>)
    ensures Owed(a + b) == Owed(a) + Owed(b)
  {
    OwedSplits(a + b, |a|);
    assert (a + b)[..|a|] == a && (a + b)[|a|..] == b;
  }

  lemma {:induction false} PlainsAreDoc(lines: seq<string>)
    ensures Doc(Plains(lines)) && Owed(Plains(lines)) == []
  {
    if lines != [] {
      PlainsAreDoc(lines[1..]);
      assert Plains(lines)[1..] == Plains(lines[1..]);
    }
  }

  lemma PartIsDoc(p: Part)
    requires PartOk(p)
    ensures Doc(PartLines(p)) && Owed(PartLines(p)) == if p.Code? then [p.snippet] else []
  {
    match p
    case Prose(prose) => PlainsAreDoc(Split(prose));
    case Code(language, snippet) =>
      var d, n := PartLines(p), |Split(snippet)|;
      assert d[1..n + 1] == Bodies(Split(snippet)) && d[n + 2..] == [];
      NoBodiesOwe(d, snippet);
  }

  lemma {:induction false} DocOfParts(parts: seq<Part>)
    requires forall i :: 0 <= i < |parts| ==> PartOk(parts[i])
    ensures Doc(DocLines(parts)) && Owed(DocLines(parts)) == CodeOf(parts)
  {
    PlainsAreDoc([""]);
    assert Plains([""]) == [Plain("")];
    if |parts| == 1 {
      PartIsDoc(parts[0]);
      assert CodeOf(parts[..0]) == [];
    } else if |parts| > 1 {
      var front, last := parts[..|parts| - 1], parts[|parts| - 1];
      DocOfParts(front);
      PartIsDoc(last);
      DocOfConcat(DocLines(front), [Plain("")]);
      DocOfConcat(DocLines(front) + [Plain("")], PartLines(last));
      OwedConcat(DocLines(front), [Plain("")]);
      OwedConcat(DocLines(front) + [Plain("")], PartLines(last));
    }
  }

  // No line of the text opens a fence.
  predicate QuietText(text: string) {
    forall line :: line in Split(text) ==> Opens(line).None?
  }

  predicate QuietParts(parts: seq<Part>) {
    forall p :: p in parts && p.Prose? ==> QuietText(p.prose)
  }

  lemma QuietPart(p: Part)
    ensures Quiet(PartLines(p)) <==> (p.Prose? ==> QuietText(p.prose))
  {
    if p.Prose? {
      var lines := Split(p.prose);
      forall line | line in lines
        ensures Plain(line) in Plains(lines)
      {
        var i :| 0 <= i < |lines| && lines[i] == line;
        assert Plains(lines)[i] == Plain(line);
      }
    }
  }

  lemma QuietConcat(a: seq<Line>, b: seq<Line>)
    ensures Quiet(a + b) <==> Quiet(a) && Quiet(b)
  {
  }

  lemma QuietPartsConcat(a: seq<Part>, b: seq<Part>)
    ensures QuietParts(a + b) <==> QuietParts(a) && QuietParts(b)
  {
  }

  lemma QuietPartsOne(p: Part)
    ensures QuietParts([p]) <==> (p.Prose? ==> QuietText(p.prose))
  {
    assert p in [p];
  }

  lemma QuietBlank()
    ensures Quiet([Plain("")])
  {
  }

  lemma QuietLonger(front: seq<Part>, last: Part)
    requires Quiet(DocLines(front)) <==> QuietParts(front)
    ensures Quiet(DocLines(front) + [Plain("")] + PartLines(last)) <==> QuietParts(front + [last])
  {
    QuietPart(last);
    QuietPartsOne(last);
    QuietPartsConcat(front, [last]);
    QuietBlank();
    QuietConcat(DocLines(front), [Plain("")]);
    QuietConcat(DocLines(front) + [Plain("")], PartLines(last));
  }

  lemma QuietDocOne(p: Part)
    ensures Quiet(DocLines([p])) <==> QuietParts([p])
  {
    QuietPart(p);
    QuietPartsOne(p);
  }

  lemma {:induction false} QuietDoc(parts: seq<Part>)
    ensures Quiet(DocLines(parts)) <==> QuietParts(parts)
  {
    if parts == [] {
      QuietBlank();
    } else if |parts| == 1 {
      QuietDocOne(parts[0]);
      assert parts == [parts[0]];
    } else {
      var front, last := parts[..|parts| - 1], parts[|parts| - 1];
      QuietDoc(front);
      QuietLonger(front, last);
      assert parts == front + [last];
    }
  }

  /** With sound language tags the reader finds exactly the fenced snippets of the printed parts
      if and only if no line of their prose opens a fence. */
  lemma ReadsBackExactly(parts: seq<Part>)
    requires forall i :: 0 <= i < |parts| ==> PartOk(parts[i])
    ensures Read(Split(JoinParts(Texts(parts))), Outside) == CodeOf(parts) <==> QuietParts(parts)
  {
    DocLinesAreLines(parts);
    DocOfParts(parts);
    QuietExactly(DocLines(parts));
    QuietDoc(parts);
  }
}
