/**
  The markdown list of search results, and the fenced-code rules of section 4.5 of the
  CommonMark Spec (version 0.31.2) that a reader applies to it.
*/
module Markdown {
  import opened Options
  import opened Text

  // ---------------------------------------------------------------------------
  // Fences
  // ---------------------------------------------------------------------------

  function Ticks(n: nat): (s: string)
    ensures |s| == n && forall i :: 0 <= i < n ==> s[i] == '`'
  {
    seq(n, _ => '`')
  }

  // How many backticks the text ends with.
  function Trailing(s: string): (n: nat)
    ensures n <= |s|
  {
    if s == "" || s[|s| - 1] != '`' then 0 else Trailing(s[..|s| - 1]) + 1
  }

  // The longest run of backticks.
  function LongestRun(s: string): nat {
    if s == "" then 0
    else if Trailing(s) > LongestRun(s[..|s| - 1]) then Trailing(s)
    else LongestRun(s[..|s| - 1])
  }

  predicate RunAt(s: string, i: nat, n: nat) {
    i + n <= |s| && forall k :: i <= k < i + n ==> s[k] == '`'
  }

  lemma {:induction false} TrailingIsRun(s: string, n: nat)
    requires n <= |s|
    ensures n <= Trailing(s) <==> RunAt(s, |s| - n, n)
  {
    if n > 0 {
      var front := s[..|s| - 1];
      TrailingIsRun(front, n - 1);
      assert forall k :: 0 <= k < |front| ==> front[k] == s[k];
      if RunAt(s, |s| - n, n) {
        assert RunAt(front, |front| - (n - 1), n - 1);
      }
    }
  }

  // `LongestRun` is the length of the longest run: no longer one exists, and it does.
  lemma {:induction false} LongestRunIsLongest(s: string, n: nat)
    ensures n <= LongestRun(s) <==> exists i :: 0 <= i <= |s| && RunAt(s, i, n)
  {
    if n == 0 {
      assert RunAt(s, 0, 0);
    } else if s != "" {
      var front := s[..|s| - 1];
      LongestRunIsLongest(front, n);
      if i :| 0 <= i <= |front| && RunAt(front, i, n) {
        assert RunAt(s, i, n);
      }
      if n <= |s| {
        TrailingIsRun(s, n);
      }
      if i :| 0 <= i <= |s| && RunAt(s, i, n) {
        if i + n == |s| {
          assert RunAt(s, |s| - n, n);
        } else {
          assert RunAt(front, i, n);
        }
      }
    }
  }

  /** `_fence_for` */
  function FenceFor(text: string): string {
    Ticks(if LongestRun(text) + 1 > 3 then LongestRun(text) + 1 else 3)
  }

  /** The fence is the shortest one of at least three backticks that exceeds every run. */
  lemma FenceIsShortest(text: string, n: nat)
    ensures |FenceFor(text)| <= n <==> n >= 3 && !exists i :: 0 <= i <= |text| && RunAt(text, i, n)
  {
    LongestRunIsLongest(text, n);
  }

  // ---------------------------------------------------------------------------
  // The reader: section 4.5
  // ---------------------------------------------------------------------------

  // How often the line starts with `c`.
  function Leading(line: string, c: char): (n: nat)
    ensures n <= |line| && forall i :: 0 <= i < n ==> line[i] == c
    ensures n < |line| ==> line[n] != c
  {
    if line == "" || line[0] != c then 0 else Leading(line[1..], c) + 1
  }

  datatype Fence = Fence(mark: char, length: nat, indent: nat)

  // A line that opens a fenced block: at most three spaces, at least three marks, and no
  // backtick behind a backtick fence.
  function Opens(line: string): Option<Fence> {
    var indent := Leading(line, ' ');
    var rest := line[indent..];
    if indent > 3 then None
    else if Leading(rest, '`') >= 3 && '`' !in rest[Leading(rest, '`')..] then
      Some(Fence('`', Leading(rest, '`'), indent))
    else if Leading(rest, '~') >= 3 then Some(Fence('~', Leading(rest, '~'), indent))
    else None
  }

  // A line that closes it: at most three spaces, as many of the same marks, then blanks only.
  predicate Closes(line: string, fence: Fence) {
    var indent := Leading(line, ' ');
    var rest := line[indent..];
    var marks := Leading(rest, fence.mark);
    indent <= 3 && marks >= fence.length && forall c :: c in rest[marks..] ==> c == ' ' || c == '\t'
  }

  // A content line without as much indentation as the opening fence has.
  function Unindent(line: string, indent: nat): string {
    line[if Leading(line, ' ') < indent then Leading(line, ' ') else indent..]
  }

  datatype Block = Outside | Inside(fence: Fence, content: seq<string>)

  /** The contents of the fenced blocks, in order. A block the document ends in is closed by its
      end. */
  function Read(lines: seq<string>, block: Block): seq<string> {
    if lines == [] then (if block.Inside? then [Join(block.content)] else [])
    else
      var line, rest := lines[0], lines[1..];
      match block
      case Outside =>
        if Opens(line).Some? then Read(rest, Inside(Opens(line).value, [])) else Read(rest, Outside)
      case Inside(fence, content) =>
        if Closes(line, fence) then [Join(content)] + Read(rest, Outside)
        else Read(rest, Inside(fence, content + [Unindent(line, fence.indent)]))
  }

  function Repeat(c: char, n: nat): (s: string)
    ensures |s| == n && forall i :: 0 <= i < n ==> s[i] == c
  {
    seq(n, _ => c)
  }

  predicate StartsWith(s: string, c: char) {
    s != "" && s[0] == c
  }

  lemma LeadingIs(c: char, n: nat, rest: string)
    requires !StartsWith(rest, c)
    ensures Leading(Repeat(c, n) + rest, c) == n && (Repeat(c, n) + rest)[n..] == rest
  {
    var line := Repeat(c, n) + rest;
    assert forall i :: 0 <= i < n ==> line[i] == c;
    assert rest != "" ==> line[n] == rest[0];
  }

  /** Which lines open a block, as section 4.5 has it: those that begin with at most three spaces and at
      least three marks, and if these are backticks have no other. */
  lemma OpensExactly(indent: nat, mark: char, length: nat, rest: string)
    requires mark != ' ' && length > 0 && !StartsWith(rest, mark)
    ensures
      Opens(Repeat(' ', indent) + (Repeat(mark, length) + rest)) ==
        if indent <= 3 && length >= 3 && ((mark == '`' && '`' !in rest) || mark == '~') then
          Some(Fence(mark, length, indent))
        else None
  {
    var marked := Repeat(mark, length) + rest;
    assert marked[0] == mark;
    LeadingIs(' ', indent, marked);
    LeadingIs(mark, length, rest);
  }

  /** Which lines close it: with at most three spaces, no fewer of the same marks, and then blanks only. */
  lemma ClosesExactly(indent: nat, mark: char, length: nat, rest: string, fence: Fence)
    requires mark != ' ' && length > 0 && !StartsWith(rest, mark) && fence.length > 0
    ensures
      Closes(Repeat(' ', indent) + (Repeat(mark, length) + rest), fence) <==>
        && indent <= 3 && mark == fence.mark && length >= fence.length
        && forall i :: 0 <= i < |rest| ==> rest[i] == ' ' || rest[i] == '\t'
  {
    var marked := Repeat(mark, length) + rest;
    assert marked[0] == mark;
    LeadingIs(' ', indent, marked);
    LeadingIs(mark, length, rest);
    OnlyBlanks(rest);
    if mark != fence.mark {
      assert Leading(marked, fence.mark) == 0;
    }
  }

  lemma OnlyBlanks(s: string)
    ensures (forall c :: c in s ==> c == ' ' || c == '\t') <==>
            forall i :: 0 <= i < |s| ==> s[i] == ' ' || s[i] == '\t'
  {
    assert forall i :: 0 <= i < |s| ==> s[i] in s;
    if forall i :: 0 <= i < |s| ==> s[i] == ' ' || s[i] == '\t' {
      forall c | c in s
        ensures c == ' ' || c == '\t'
      {
        var i :| 0 <= i < |s| && s[i] == c;
      }
    }
  }

  /** A content line loses as many leading spaces as the opening fence has, or all it has. */
  lemma UnindentExactly(blanks: nat, rest: string, indent: nat)
    requires !StartsWith(rest, ' ')
    ensures Unindent(Repeat(' ', blanks) + rest, indent) ==
            Repeat(' ', if blanks <= indent then 0 else blanks - indent) + rest
  {
    LeadingIs(' ', blanks, rest);
  }

  /** No stretch of the text, wherever a reader may see its line ends, closes the text's fence. */
  lemma CannotClose(text: string, a: nat, b: nat, indent: nat)
    requires a <= b <= |text|
    ensures !Closes(text[a..b], Fence('`', |FenceFor(text)|, indent))
  {
    var line, n := text[a..b], |FenceFor(text)|;
    FenceIsShortest(text, n);
    var from := Leading(line, ' ');
    if Leading(line[from..], '`') >= n {
      forall k | a + from <= k < a + from + n
        ensures text[k] == '`'
      {
        assert line[from..][k - a - from] == text[k];
      }
      assert RunAt(text, a + from, n);
    }
  }

  // Lines of the text are stretches of it.
  lemma {:induction false} LineOf(text: string, i: nat) returns (a: nat, b: nat)
    requires i < |Split(text)|
    ensures a <= b <= |text| && text[a..b] == Split(text)[i]
    ensures i == |Split(text)| - 1 ==> b == |text|
  {
    if text == "" {
      a, b := 0, 0;
    } else {
      var front, c := text[..|text| - 1], text[|text| - 1];
      if c == '\n' && i == |Split(front)| {
        a, b := |text|, |text|;
      } else {
        a, b := LineOf(front, i);
        if c != '\n' && i == |Split(front)| - 1 {
          StretchLonger(text, a);
          b := b + 1;
        } else {
          assert text[a..b] == front[a..b];
        }
      }
    }
  }

  lemma StretchLonger(text: string, a: nat)
    requires a < |text|
    ensures text[a..] == text[..|text| - 1][a..] + [text[|text| - 1]]
    ensures text[a..|text|] == text[a..] && text[..|text| - 1][a..|text| - 1] == text[..|text| - 1][a..]
  {
  }

  // ---------------------------------------------------------------------------
  // The printer
  // ---------------------------------------------------------------------------

  predicate Breaker(c: char) {
    c == '\r' || c == '\n' || c == '\U{2028}' || c == '\U{2029}'
  }

  predicate NoBreaks(s: string) {
    forall i :: 0 <= i < |s| ==> !Breaker(s[i])
  }

  /** `_md_one_line`: each run of line breaks becomes one space. */
  function MdOneLine(value: string): string {
    if value == "" then ""
    else
      var front, c := value[..|value| - 1], value[|value| - 1];
      if !Breaker(c) then MdOneLine(front) + [c]
      else if front != "" && Breaker(front[|front| - 1]) then MdOneLine(front)
      else MdOneLine(front) + " "
  }

  // The result is one line that starts as the value does, and is the value if that is one line.
  lemma {:induction false} MdOneLineIsOneLine(value: string)
    ensures NoBreaks(MdOneLine(value))
    ensures NoBreaks(value) ==> MdOneLine(value) == value
    ensures value != "" ==> MdOneLine(value) != ""
    ensures value != "" && !Breaker(value[0]) ==> MdOneLine(value)[0] == value[0]
  {
    if value != "" {
      MdOneLineIsOneLine(value[..|value| - 1]);
    }
  }

  // One result, its numbers already printed. `snippet` is absent in facet mode.
  datatype Chunk = Chunk(
    filePath: string, startLine: string, endLine: string, score: string, citation: string,
    language: string, snippet: Option<string>, header: string, hitId: string)

  // What the chunks are made of: printed numbers, language tags without backticks or line
  // breaks, and headers that start as a comment. Paths, citations, snippets and hit handles are
  // whatever the repository holds.
  predicate Printable(c: Chunk) {
    && NoBreaks(c.startLine) && NoBreaks(c.endLine) && NoBreaks(c.score)
    && NoBreaks(c.language) && '`' !in c.language
    && (c.header != "" ==> c.header[0] == '#' || c.header[0] == '/')
  }

  function Cited(citation: string): string {
    if citation != "" then " — " + MdOneLine(citation) else ""
  }

  function Heading(c: Chunk): string {
    "### " + MdOneLine(c.filePath) + ":" + c.startLine + "-" + c.endLine + " (score " + c.score + ")" +
    Cited(c.citation)
  }

  lemma LastOne(text: string, u: string, v: string, at: nat, sep: char)
    requires text == u + [sep] + v && sep !in v && at < |text| && text[at] == sep
    ensures at <= |u|
  {
    forall k | |u| < k < |text|
      ensures text[k] != sep
    {
      assert text[k] == v[k - |u| - 1];
    }
  }

  // Two texts cut at their last `sep`.
  lemma CutAtLast(u: string, v: string, a: string, b: string, sep: char)
    requires sep !in v && sep !in b
    ensures u + [sep] + v == a + [sep] + b <==> u == a && v == b
  {
    var text := u + [sep] + v;
    if text == a + [sep] + b {
      LastOne(text, u, v, |a|, sep);
      LastOne(text, a, b, |u|, sep);
      assert text[..|u|] == u && text[..|a|] == a;
      assert text[|u| + 1..] == v && text[|a| + 1..] == b;
    }
  }

  lemma SameAround(before: string, u: string, a: string, after: string)
    ensures before + u + after == before + a + after <==> u == a
  {
    if before + u + after == before + a + after {
      assert (before + u + after)[|before|..|before| + |u|] == u;
      assert (before + a + after)[|before|..|before| + |a|] == a;
    }
  }

  predicate Digits(s: string) {
    forall i :: 0 <= i < |s| ==> '0' <= s[i] <= '9'
  }

  // `path:start-end (score score)`, as one text and by its parts.
  function Located(path: string, start: string, end: string, score: string): string {
    path + ":" + start + "-" + end + " (score" + " " + score
  }

  lemma LinesRead(path: string, start: string, end: string, path': string, start': string, end': string)
    requires Digits(start) && Digits(end) && Digits(start') && Digits(end')
    ensures path + ":" + start + "-" + end == path' + ":" + start' + "-" + end' <==>
            path == path' && start == start' && end == end'
  {
    CutAtLast(path + ":" + start, end, path' + ":" + start', end', '-');
    CutAtLast(path, start, path', start', ':');
  }

  lemma LocatedReads(
    path: string, start: string, end: string, score: string,
    path': string, start': string, end': string, score': string)
    requires Digits(start) && Digits(end) && Digits(start') && Digits(end')
    requires ' ' !in score && ' ' !in score'
    ensures Located(path, start, end, score) == Located(path', start', end', score') <==>
            path == path' && start == start' && end == end' && score == score'
  {
    var u, a := path + ":" + start + "-" + end, path' + ":" + start' + "-" + end';
    CutAtLast(u + " (score", score, a + " (score", score', ' ');
    SameAround("", u, a, " (score");
    assert "" + u + " (score" == u + " (score" && "" + a + " (score" == a + " (score";
    LinesRead(path, start, end, path', start', end');
  }

  lemma HeadingIs(path: string, start: string, end: string, score: string, rest: string)
    ensures "### " + path + ":" + start + "-" + end + " (score " + score + ")" + rest ==
            "### " + Located(path, start, end, score) + (")" + rest)
  {
    assert " (score " == " (score" + " ";
    var a, b := "### " + path + ":" + start + "-" + end, path + ":" + start + "-" + end;
    assert a == "### " + b;
    assert a + " (score " + score == "### " + (b + " (score" + " " + score);
  }

  /** The heading of a chunk can be read in one way: its path on one line, its first and its last
      line and its score, with the citation behind them. */
  lemma HeadingReads(c: Chunk, path: string, start: string, end: string, score: string)
    requires Digits(c.startLine) && Digits(c.endLine) && Digits(start) && Digits(end)
    requires ' ' !in c.score && ' ' !in score
    ensures Heading(c) == "### " + path + ":" + start + "-" + end + " (score " + score + ")" +
              (if c.citation == "" then "" else " — " + MdOneLine(c.citation)) <==>
            MdOneLine(c.filePath) == path && c.startLine == start && c.endLine == end && c.score == score
  {
    HeadingIs(MdOneLine(c.filePath), c.startLine, c.endLine, c.score, Cited(c.citation));
    HeadingIs(path, start, end, score, Cited(c.citation));
    SameAround("### ", Located(MdOneLine(c.filePath), c.startLine, c.endLine, c.score),
      Located(path, start, end, score), ")" + Cited(c.citation));
    LocatedReads(MdOneLine(c.filePath), c.startLine, c.endLine, c.score, path, start, end, score);
  }

  function Fenced(language: string, snippet: string): string {
    FenceFor(snippet) + language + "\n" + snippet + "\n" + FenceFor(snippet)
  }

  // A part of the document: prose, or a fenced snippet.
  datatype Part = Prose(prose: string) | Code(language: string, snippet: string) {
    function Text(): string {
      if Prose? then prose else Fenced(language, snippet)
    }
  }

  function SourcePart(sourceId: string): seq<Part> {
    if sourceId != "" then [Prose("source: " + sourceId)] else []
  }

  // The parts of one result.
  function Parts(c: Chunk): seq<Part> {
    [Prose(Heading(c))] +
    if c.snippet.Some? then [Code(c.language, c.snippet.value)]
    else
      (if c.header != "" then [Prose(MdOneLine(c.header))] else []) +
      (if c.hitId != "" then [Prose("hit_id: " + c.hitId)] else [])
  }

  /** A result without a snippet shows its heading, its header on one line, and its handle, in this
      order, each of the last two exactly if there is one; a result with a snippet shows only that
      behind the heading. */
  lemma ShownInOrder(c: Chunk)
    ensures
      var parts := Parts(c);
      var handle := "hit_id: " + c.hitId;
      && parts != [] && parts[0] == Prose(Heading(c))
      && (c.snippet.Some? ==> parts[1..] == [Code(c.language, c.snippet.value)])
      && (c.snippet.None? && c.header == "" && c.hitId == "" ==> parts[1..] == [])
      && (c.snippet.None? && c.header != "" && c.hitId == "" ==> parts[1..] == [Prose(MdOneLine(c.header))])
      && (c.snippet.None? && c.header == "" && c.hitId != "" ==> parts[1..] == [Prose(handle)])
      && (c.snippet.None? && c.header != "" && c.hitId != "" ==>
            parts[1..] == [Prose(MdOneLine(c.header)), Prose(handle)])
  {
  }

  function AllParts(sourceId: string, chunks: seq<Chunk>): seq<Part> {
    if chunks == [] then SourcePart(sourceId)
    else AllParts(sourceId, chunks[..|chunks| - 1]) + Parts(chunks[|chunks| - 1])
  }

  function Texts(parts: seq<Part>): (texts: seq<string>)
    ensures |texts| == |parts|
  {
    seq(|parts|, i requires 0 <= i < |parts| => parts[i].Text())
  }

  // `"\n\n".join(parts)`
  function JoinParts(texts: seq<string>): string {
    if texts == [] then ""
    else if |texts| == 1 then texts[0]
    else JoinParts(texts[..|texts| - 1]) + "\n\n" + texts[|texts| - 1]
  }

  method AppendChunk(parts0: seq<string>, c: Chunk) returns (parts: seq<string>)
    ensures parts == parts0 + Texts(Parts(c))
  {
    parts := parts0 + [Heading(c)];
    if c.snippet.None? {
      if c.header != "" {
        parts := parts + [MdOneLine(c.header)];
      }
      if c.hitId != "" {
        parts := parts + ["hit_id: " + c.hitId];
      }
    } else {
      var fence := FenceFor(c.snippet.value);
      parts := parts + [fence + c.language + "\n" + c.snippet.value + "\n" + fence];
    }
  }

  lemma PartsNext(sourceId: string, chunks: seq<Chunk>, i: nat)
    requires i < |chunks|
    ensures Texts(AllParts(sourceId, chunks[..i + 1])) ==
            Texts(AllParts(sourceId, chunks[..i])) + Texts(Parts(chunks[i]))
  {
    assert chunks[..i + 1][..i] == chunks[..i];
    TextsAppend(AllParts(sourceId, chunks[..i]), Parts(chunks[i]));
  }

  lemma TextsAppend(a: seq<Part>, b: seq<Part>)
    ensures Texts(a + b) == Texts(a) + Texts(b)
  {
  }

  /** The chunk part of `_search_response_to_markdown`. */
  method SearchResponseToMarkdown(sourceId: string, chunks: seq<Chunk>) returns (markdown: string)
    ensures markdown == JoinParts(Texts(AllParts(sourceId, chunks)))
  {
    var parts: seq<string> := [];
    if sourceId != "" {
      parts := parts + ["source: " + sourceId];
    }
    for i := 0 to |chunks|
      invariant parts == Texts(AllParts(sourceId, chunks[..i]))
    {
      parts := AppendChunk(parts, chunks[i]);
      PartsNext(sourceId, chunks, i);
    }
    assert chunks[..|chunks|] == chunks;
    markdown := JoinParts(parts);
  }
}
