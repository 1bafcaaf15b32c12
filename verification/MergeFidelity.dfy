/**
  What merging keeps when the hits come from several sources: which lines of which source are
  covered, and whether a merged snippet is the text of the file it names.
*/
module MergeFidelity {
  import opened Options
  import opened Text
  import opened HitMerging

  // ---------------------------------------------------------------------------
  // Coverage, source by source
  // ---------------------------------------------------------------------------

  predicate InSource(h: Hit, source: SourceId, path: Path, n: int) {
    h.source == source && InRange(h, path, n)
  }

  predicate CoversSource(hits: seq<Hit>, source: SourceId, path: Path, n: int) {
    exists k :: 0 <= k < |hits| && InSource(hits[k], source, path, n)
  }

  // Two hits of one path are of one source.
  predicate OneSource(hits: seq<Hit>) {
    forall i, j :: 0 <= i < |hits| && 0 <= j < |hits| && hits[i].filePath == hits[j].filePath ==>
      hits[i].source == hits[j].source
  }

  // The hits that are merged are of one source.
  predicate OneSourceRuns(hits: seq<Hit>) {
    forall i: nat, j: nat :: i < |hits| && Merges(hits, i) && j in Group(hits, i) ==> hits[j].source == hits[i].source
  }

  lemma OneSourceSuffices(hits: seq<Hit>)
    requires OneSource(hits)
    ensures OneSourceRuns(hits)
  {
  }

  lemma ShownSource(hits: seq<Hit>, i: nat)
    requires i < |hits|
    ensures Merges(hits, i) ==>
              Best(Group(hits, i)) < |hits| && Shown(hits, i).source == hits[Best(Group(hits, i))].source
    ensures Shown(hits, i).filePath == hits[i].filePath
  {
    assert Best(Group(hits, i)) in Group(hits, i);
  }

  lemma OwnSource(hits: seq<Hit>, i: nat)
    requires i < |hits| && OneSourceRuns(hits)
    ensures Shown(hits, i).source == hits[i].source
  {
    ShownSource(hits, i);
    assert Best(Group(hits, i)) in Group(hits, i);
  }

  /** If the hits that are merged are of one source, the same lines of each source are covered before
      and after. */
  lemma SourceCoverage(hits: seq<Hit>, source: SourceId, path: Path, n: int)
    requires OneSourceRuns(hits)
    ensures CoversSource(Merged(hits), source, path, n) <==> CoversSource(hits, source, path, n)
  {
    var ranks := Survivors(ConsumedRanks(hits), |hits|);
    if CoversSource(Merged(hits), source, path, n) {
      var k :| 0 <= k < |Merged(hits)| && InSource(Merged(hits)[k], source, path, n);
      var j := ShownIsCovered(hits, ranks[k], path, n);
      OwnSource(hits, ranks[k]);
      assert InSource(hits[j], source, path, n);
    }
    if CoversSource(hits, source, path, n) {
      var i :| 0 <= i < |hits| && InSource(hits[i], source, path, n);
      ShownCoversItself(hits, i, path, n);
      OwnSource(hits, i);
      var k := ShownSurvives(hits, i);
      assert InSource(Merged(hits)[k], source, path, n);
    }
  }

  // Hits of one path that share a line are in one run.
  ghost predicate RunsApart(hits: seq<Hit>) {
    forall i: nat, j: nat, n: int ::
      i < |hits| && j < |hits| && InRange(hits[i], hits[j].filePath, n) && InRange(hits[j], hits[j].filePath, n) ==>
      Group(hits, i) == Group(hits, j)
  }

  ghost predicate SourcesKept(hits: seq<Hit>) {
    forall source, path, n :: CoversSource(Merged(hits), source, path, n) <==> CoversSource(hits, source, path, n)
  }

  // Of the survivors that cover a line of the run, none is of another source than its best member.
  lemma RunSource(hits: seq<Hit>, b: nat, r: nat, n: int)
    requires RunsApart(hits) && b < |hits| && r < |hits| && Merges(hits, b) && InRange(hits[b], hits[b].filePath, n)
    ensures InRange(Shown(hits, r), hits[b].filePath, n) ==>
      Best(Group(hits, b)) < |hits| && Shown(hits, r).source == hits[Best(Group(hits, b))].source
  {
    ShownSource(hits, r);
    ShownSource(hits, b);
    if InRange(Shown(hits, r), hits[b].filePath, n) {
      var j := ShownIsCovered(hits, r, hits[b].filePath, n);
      assert Group(hits, j) == Group(hits, b);
      if Merges(hits, r) {
        GroupOfMember(hits, r, j);
      }
    }
  }

  // The first line of a member of another source is lost.
  lemma ForeignLineLost(hits: seq<Hit>, b: nat)
    requires RunsApart(hits) && b < |hits| && Merges(hits, b) && hits[b].startLine <= hits[b].endLine
    requires Best(Group(hits, b)) < |hits| && hits[Best(Group(hits, b))].source != hits[b].source
    ensures CoversSource(hits, hits[b].source, hits[b].filePath, hits[b].startLine)
    ensures !CoversSource(Merged(hits), hits[b].source, hits[b].filePath, hits[b].startLine)
  {
    var h := hits[b];
    assert InSource(h, h.source, h.filePath, h.startLine);
    forall k | 0 <= k < |Merged(hits)|
      ensures !InSource(Merged(hits)[k], h.source, h.filePath, h.startLine)
    {
      RunSource(hits, b, Survivors(ConsumedRanks(hits), |hits|)[k], h.startLine);
    }
  }

  /** And only then, as long as no line of a path is in two runs. */
  lemma CoverageExactly(hits: seq<Hit>)
    requires RunsApart(hits) && forall i :: 0 <= i < |hits| ==> hits[i].startLine <= hits[i].endLine
    ensures SourcesKept(hits) <==> OneSourceRuns(hits)
  {
    if OneSourceRuns(hits) {
      forall source, path, n
        ensures CoversSource(Merged(hits), source, path, n) <==> CoversSource(hits, source, path, n)
      {
        SourceCoverage(hits, source, path, n);
      }
    } else {
      var i: nat, j: nat :| i < |hits| && Merges(hits, i) && j in Group(hits, i) && hits[j].source != hits[i].source;
      GroupOfMember(hits, i, j);
      ShownSource(hits, i);
      ForeignLineLost(hits, if hits[Best(Group(hits, i))].source != hits[i].source then i else j);
    }
  }

  // ---------------------------------------------------------------------------
  // Snippets and the files they name
  // ---------------------------------------------------------------------------

  // The lines of the files, source by source.
  type Content = (SourceId, Path, int) -> string

  ghost predicate LineWise(content: Content) {
    forall source, path, n :: OneLine(content(source, path, n))
  }

  // The lines `lo..hi` of a file.
  function Lines(content: Content, source: SourceId, path: Path, lo: int, hi: int): (lines: seq<string>)
    requires lo <= hi
    ensures |lines| == hi - lo + 1
  {
    seq(hi - lo + 1, k requires 0 <= k < hi - lo + 1 => content(source, path, lo + k))
  }

  lemma LinesAt(content: Content, source: SourceId, path: Path, lo: int, hi: int, n: int)
    requires lo <= n <= hi
    ensures Lines(content, source, path, lo, hi)[n - lo] == content(source, path, n)
  {
  }

  // The snippet is the text of its source's file from its first to its last line.
  predicate Faithful(h: Hit, content: Content) {
    h.startLine <= h.endLine && h.snippet == Join(Lines(content, h.source, h.filePath, h.startLine, h.endLine))
  }

  predicate AllFaithful(hits: seq<Hit>, content: Content) {
    forall i :: 0 <= i < |hits| ==> Faithful(hits[i], content)
  }

  lemma FaithfulLines(h: Hit, content: Content)
    requires LineWise(content) && Faithful(h, content)
    ensures Split(h.snippet) == Lines(content, h.source, h.filePath, h.startLine, h.endLine) && Fits(h)
  {
    SplitOfJoin(Lines(content, h.source, h.filePath, h.startLine, h.endLine));
  }

  lemma LineOfHit(h: Hit, n: int)
    requires Fits(h) && h.startLine <= n <= h.endLine
    ensures n in LinesOf(h) && LinesOf(h)[n] == Split(h.snippet)[n - h.startLine]
  {
  }

  lemma FaithfulLineOf(h: Hit, content: Content, n: int)
    requires LineWise(content) && Faithful(h, content) && h.startLine <= n <= h.endLine
    ensures n in LinesOf(h) && LinesOf(h)[n] == content(h.source, h.filePath, n)
  {
    FaithfulLines(h, content);
    LineOfHit(h, n);
    LinesAt(content, h.source, h.filePath, h.startLine, h.endLine, n);
  }

  // All members of the run of a faithful list fit, so a run of two or more is merged.
  lemma FaithfulMerges(hits: seq<Hit>, content: Content, i: nat)
    requires LineWise(content) && AllFaithful(hits, content) && i < |hits|
    ensures forall k :: 0 <= k < |Group(hits, i)| ==> Fits(hits[Group(hits, i)[k]])
    ensures Splice(hits, Group(hits, i)).Some?
  {
    var run := Group(hits, i);
    forall k | 0 <= k < |run|
      ensures Fits(hits[run[k]])
    {
      assert run[k] in run;
      FaithfulLines(hits[run[k]], content);
    }
    SpliceOfLines(hits, run);
  }

  // Line `n` of the merged run of `i`, as it was spliced, is line `n` of a hit of the source that
  // the merged hit names.
  predicate OwnLine(hits: seq<Hit>, i: nat, n: int)
    requires i < |hits|
  {
    var lines := LinesByNo(hits, Group(hits, i));
    exists j :: 0 <= j < |hits| && InSource(hits[j], Shown(hits, i).source, hits[i].filePath, n) &&
                n in lines && n in LinesOf(hits[j]) && lines[n] == LinesOf(hits[j])[n]
  }

  predicate InMerged(hits: seq<Hit>, i: nat, n: int)
    requires i < |hits|
  {
    Merges(hits, i) && Shown(hits, i).startLine <= n <= Shown(hits, i).endLine
  }

  ghost predicate OwnLines(hits: seq<Hit>) {
    forall i: nat, n: int :: i < |hits| && InMerged(hits, i, n) ==> OwnLine(hits, i, n)
  }

  // What a merged hit is.
  lemma MergedIs(hits: seq<Hit>, i: nat)
    requires i < |hits| && Merges(hits, i)
    ensures var lines, m := LinesByNo(hits, Group(hits, i)), Shown(hits, i);
            && m.startLine <= m.endLine && m.filePath == hits[i].filePath
            && (forall n :: m.startLine <= n <= m.endLine ==> n in lines)
            && m.snippet == Join(Pick(lines, m.startLine, m.endLine))
  {
    ShownSource(hits, i);
    SpliceOfLines(hits, Group(hits, i));
  }

  lemma {:induction false} LinesAreOne(hits: seq<Hit>, run: seq<nat>)
    requires Indexes(run, hits)
    ensures forall n :: n in LinesByNo(hits, run) ==> OneLine(LinesByNo(hits, run)[n])
  {
    if run != [] {
      LinesAreOne(hits, run[..|run| - 1]);
      var h := hits[run[|run| - 1]];
      forall n | n in LinesOf(h)
        ensures OneLine(LinesOf(h)[n])
      {
        assert LinesOf(h)[n] in Split(h.snippet);
      }
    }
  }

  predicate LinesAgree(lines: map<int, string>, content: Content, h: Hit) {
    forall n :: h.startLine <= n <= h.endLine ==> n in lines && lines[n] == content(h.source, h.filePath, n)
  }

  // A merged hit is faithful exactly if each of its lines is its own file's.
  lemma MergedFaithfully(hits: seq<Hit>, i: nat, content: Content)
    requires i < |hits| && Merges(hits, i) && LineWise(content)
    ensures Shown(hits, i).filePath == hits[i].filePath
    ensures Faithful(Shown(hits, i), content) <==> LinesAgree(LinesByNo(hits, Group(hits, i)), content, Shown(hits, i))
  {
    MergedIs(hits, i);
    LinesAreOne(hits, Group(hits, i));
    SameText(LinesByNo(hits, Group(hits, i)), content, Shown(hits, i));
  }

  lemma SameText(lines: map<int, string>, content: Content, h: Hit)
    requires h.startLine <= h.endLine && LineWise(content)
    requires forall n :: n in lines ==> OneLine(lines[n])
    requires forall n :: h.startLine <= n <= h.endLine ==> n in lines
    ensures Join(Pick(lines, h.startLine, h.endLine)) ==
            Join(Lines(content, h.source, h.filePath, h.startLine, h.endLine)) <==>
            LinesAgree(lines, content, h)
  {
    JoinInjective(Pick(lines, h.startLine, h.endLine), Lines(content, h.source, h.filePath, h.startLine, h.endLine));
    SameLines(lines, content, h);
  }

  lemma JoinInjective(a: seq<string>, b: seq<string>)
    requires a != [] && b != [] && (forall line :: line in a ==> OneLine(line)) &&
             (forall line :: line in b ==> OneLine(line))
    ensures Join(a) == Join(b) <==> a == b
  {
    SplitOfJoin(a);
    SplitOfJoin(b);
  }

  lemma SameLines(lines: map<int, string>, content: Content, h: Hit)
    requires h.startLine <= h.endLine && forall n :: h.startLine <= n <= h.endLine ==> n in lines
    ensures Pick(lines, h.startLine, h.endLine) == Lines(content, h.source, h.filePath, h.startLine, h.endLine) <==>
            LinesAgree(lines, content, h)
  {
    var picked, own := Pick(lines, h.startLine, h.endLine),
      Lines(content, h.source, h.filePath, h.startLine, h.endLine);
    if picked == own {
      forall n | h.startLine <= n <= h.endLine
        ensures lines[n] == content(h.source, h.filePath, n)
      {
        assert picked[n - h.startLine] == own[n - h.startLine];
      }
    }
  }

  lemma ShownInMerged(hits: seq<Hit>, content: Content)
    ensures AllFaithful(Merged(hits), content) <==> forall i :: 0 <= i < |hits| ==> Faithful(Shown(hits, i), content)
  {
    if AllFaithful(Merged(hits), content) {
      forall i | 0 <= i < |hits|
        ensures Faithful(Shown(hits, i), content)
      {
        var k := ShownSurvives(hits, i);
      }
    }
  }

  /** If every merged line is a line of the source the merged hit names, faithful hits stay faithful. */
  lemma OwnLinesFaithful(hits: seq<Hit>, content: Content)
    requires LineWise(content) && AllFaithful(hits, content) && OwnLines(hits)
    ensures AllFaithful(Merged(hits), content)
  {
    forall i | 0 <= i < |hits|
      ensures Faithful(Shown(hits, i), content)
    {
      if Merges(hits, i) {
        MergedFaithfully(hits, i, content);
        forall n | Shown(hits, i).startLine <= n <= Shown(hits, i).endLine
          ensures n in LinesByNo(hits, Group(hits, i))
          ensures LinesByNo(hits, Group(hits, i))[n] == content(Shown(hits, i).source, Shown(hits, i).filePath, n)
        {
          OwnLineIs(hits, i, content, n);
        }
      }
    }
    ShownInMerged(hits, content);
  }

  lemma OwnLineIs(hits: seq<Hit>, i: nat, content: Content, n: int)
    requires LineWise(content) && AllFaithful(hits, content) && i < |hits| && OwnLines(hits) && InMerged(hits, i, n)
    ensures n in LinesByNo(hits, Group(hits, i))
    ensures LinesByNo(hits, Group(hits, i))[n] == content(Shown(hits, i).source, hits[i].filePath, n)
  {
    assert OwnLine(hits, i, n);
    var j :| 0 <= j < |hits| && InSource(hits[j], Shown(hits, i).source, hits[i].filePath, n) &&
             n in LinesOf(hits[j]) && LinesByNo(hits, Group(hits, i))[n] == LinesOf(hits[j])[n];
    FaithfulLineOf(hits[j], content, n);
  }

  // The files with another text in one line.
  function Changed(content: Content, source: SourceId, path: Path, n: int, text: string): Content {
    (s: SourceId, p: Path, k: int) => if s == source && p == path && k == n then text else content(s, p, k)
  }

  lemma ChangedElsewhere(h: Hit, content: Content, source: SourceId, path: Path, n: int, text: string)
    requires Faithful(h, content) && !InSource(h, source, path, n)
    ensures Faithful(h, Changed(content, source, path, n, text))
  {
    assert Lines(Changed(content, source, path, n, text), h.source, h.filePath, h.startLine, h.endLine)
        == Lines(content, h.source, h.filePath, h.startLine, h.endLine);
  }

  lemma AllChangedElsewhere(hits: seq<Hit>, content: Content, source: SourceId, path: Path, n: int, text: string)
    requires LineWise(content) && AllFaithful(hits, content) && !CoversSource(hits, source, path, n) && OneLine(text)
    ensures LineWise(Changed(content, source, path, n, text)) &&
            AllFaithful(hits, Changed(content, source, path, n, text))
  {
    forall j | 0 <= j < |hits|
      ensures Faithful(hits[j], Changed(content, source, path, n, text))
    {
      assert !InSource(hits[j], source, path, n);
      ChangedElsewhere(hits[j], content, source, path, n, text);
    }
  }

  lemma UnfaithfulAt(hits: seq<Hit>, content: Content, i: nat, n: int)
    requires LineWise(content) && i < |hits| && InMerged(hits, i, n) && n in LinesByNo(hits, Group(hits, i))
    requires LinesByNo(hits, Group(hits, i))[n] != content(Shown(hits, i).source, hits[i].filePath, n)
    ensures !AllFaithful(Merged(hits), content)
  {
    MergedFaithfully(hits, i, content);
    ShownInMerged(hits, content);
  }

  // Where a merged line is no line of its own source, there are files to which the hits are
  // faithful and the merged hit is not.
  lemma ForeignLineShows(hits: seq<Hit>, content0: Content, i: nat, n: int) returns (content: Content)
    requires LineWise(content0) && AllFaithful(hits, content0) && i < |hits| && InMerged(hits, i, n) &&
             !OwnLine(hits, i, n)
    ensures LineWise(content) && AllFaithful(hits, content) && !AllFaithful(Merged(hits), content)
  {
    var source, path, lines := Shown(hits, i).source, hits[i].filePath, LinesByNo(hits, Group(hits, i));
    MergedIs(hits, i);
    if CoversSource(hits, source, path, n) {
      var j :| 0 <= j < |hits| && InSource(hits[j], source, path, n);
      content := content0;
      FaithfulLineOf(hits[j], content, n);
    } else {
      var text := if lines[n] == "" then "x" else "";
      content := Changed(content0, source, path, n, text);
      AllChangedElsewhere(hits, content0, source, path, n, text);
    }
    UnfaithfulAt(hits, content, i, n);
  }

  // Whatever files the hits are faithful to, the merged hits are.
  ghost predicate StaysFaithful(hits: seq<Hit>) {
    forall content: Content :: LineWise(content) && AllFaithful(hits, content) ==> AllFaithful(Merged(hits), content)
  }

  /** Faithful hits stay faithful, whatever the files hold, if and only if every line of a merged
      run is a line that some hit of the named source has. */
  lemma FaithfulExactly(hits: seq<Hit>, content0: Content)
    requires LineWise(content0) && AllFaithful(hits, content0)
    ensures StaysFaithful(hits) <==> OwnLines(hits)
  {
    if OwnLines(hits) {
      forall content: Content | LineWise(content) && AllFaithful(hits, content)
        ensures AllFaithful(Merged(hits), content)
      {
        OwnLinesFaithful(hits, content);
      }
    } else {
      var i: nat, n: int :| i < |hits| && InMerged(hits, i, n) && !OwnLine(hits, i, n);
      var content := ForeignLineShows(hits, content0, i, n);
    }
  }

  lemma {:induction false} LineOfMember(hits: seq<Hit>, run: seq<nat>, n: int) returns (k: nat)
    requires Indexes(run, hits) && n in LinesByNo(hits, run)
    ensures k < |run| && n in LinesOf(hits[run[k]]) && LinesOf(hits[run[k]])[n] == LinesByNo(hits, run)[n]
  {
    if n in LinesOf(hits[run[|run| - 1]]) {
      k := |run| - 1;
    } else {
      k := LineOfMember(hits, run[..|run| - 1], n);
    }
  }

  lemma OneSourceOwns(hits: seq<Hit>, i: nat, n: int)
    requires OneSourceRuns(hits) && i < |hits| && InMerged(hits, i, n)
    ensures OwnLine(hits, i, n)
  {
    var run := Group(hits, i);
    MergedIs(hits, i);
    OwnSource(hits, i);
    var k := LineOfMember(hits, run, n);
    assert run[k] in run;
    assert InSource(hits[run[k]], Shown(hits, i).source, hits[i].filePath, n);
  }

  /** So faithful snippets stay faithful, for the range the merged hit claims, if the hits that are
      merged are of one source; and every run of two or more is merged. */
  lemma MergeIsFaithful(hits: seq<Hit>, content: Content)
    requires LineWise(content) && AllFaithful(hits, content)
    ensures OneSourceRuns(hits) ==> AllFaithful(Merged(hits), content)
    ensures forall i :: 0 <= i < |hits| && |Group(hits, i)| >= 2 ==> Merges(hits, i)
  {
    forall i | 0 <= i < |hits|
      ensures |Group(hits, i)| >= 2 ==> Merges(hits, i)
    {
      FaithfulMerges(hits, content, i);
    }
    if OneSourceRuns(hits) {
      forall i: nat, n: int | i < |hits| && InMerged(hits, i, n)
        ensures OwnLine(hits, i, n)
      {
        OneSourceOwns(hits, i, n);
      }
      OwnLinesFaithful(hits, content);
    }
  }

  // ---------------------------------------------------------------------------
  // Two sources with one path
  // ---------------------------------------------------------------------------

  lemma PairOrder(a: Hit, b: Hit)
    requires a.filePath == b.filePath && KeyAtMost(a, b)
    ensures FileOrder([a, b], a.filePath) == [0, 1]
  {
    var hits, path := [a, b], a.filePath;
    assert FileHits(hits, path, 0) == [];
    assert FileHits(hits, path, 1) == [0];
    assert FileHits(hits, path, 2) == [0, 1];
    assert SortByLines(hits, []) == [];
    assert [0, 1][..1] == [0] && [0][..0] == [];
    assert SortByLines(hits, [0]) == [0];
  }

  lemma PairRun(a: Hit, b: Hit)
    requires a.filePath == b.filePath && KeyAtMost(a, b) && b.startLine <= a.endLine + 1
    ensures Group([a, b], 0) == [0, 1] && Group([a, b], 1) == [0, 1]
  {
    var hits := [a, b];
    PairOrder(a, b);
    assert Linked(hits, [0, 1], 1);
    assert RunEnd(hits, [0, 1], 0) == 2;
    assert [0, 1][0..2] == [0, 1];
  }

  // The splice of two hits for one line is the second one's text.
  lemma PairSplice(a: Hit, b: Hit)
    requires Chain([0, 1], [a, b]) && OneLine(a.snippet) && OneLine(b.snippet)
    requires a.startLine == a.endLine == b.startLine == b.endLine
    ensures Splice([a, b], [0, 1]) == Some(b.snippet)
  {
    var hits, n := [a, b], b.startLine;
    SplitOneLine(a.snippet);
    SplitOneLine(b.snippet);
    SpliceOfLines(hits, [0, 1]);
    MaxEndIsMax(hits, [0, 1]);
    LineOfHit(b, n);
    PairLines(hits, b);
    PickOne(LinesByNo(hits, [0, 1]), n);
  }

  lemma PickOne(lines: map<int, string>, n: int)
    requires n in lines
    ensures Join(Pick(lines, n, n)) == lines[n]
  {
  }

  lemma PairLines(hits: seq<Hit>, b: Hit)
    requires |hits| == 2 && hits[1] == b
    ensures LinesByNo(hits, [0, 1]) == LinesByNo(hits, [0, 1][..1]) + LinesOf(b)
  {
  }

  lemma PairMerges(a: Hit, b: Hit)
    requires Group([a, b], 0) == [0, 1] && Group([a, b], 1) == [0, 1]
    requires Chain([0, 1], [a, b]) && Splice([a, b], [0, 1]) == Some(b.snippet)
    ensures Merges([a, b], 0) && Merges([a, b], 1)
    ensures Shown([a, b], 0) == MergeRun([a, b], [0, 1]) && Best([0, 1]) == 0
    ensures ConsumedRanks([a, b]) == {1}
  {
    assert [0, 1][..1] == [0];
    assert Best([0, 1]) == 0;
  }

  /** Two hits for one line of files of one name in two sources: the merged hit has the first one's
      source and the second one's text, and the second one's line is covered no more. */
  lemma TwoSourcesOnePath(a: Hit, b: Hit)
    requires a.filePath == b.filePath && a.source != b.source && OneLine(a.snippet) && OneLine(b.snippet)
    requires a.startLine == a.endLine == b.startLine == b.endLine
    ensures var merged := Merged([a, b]);
            && |merged| == 1 && merged[0].source == a.source && merged[0].snippet == b.snippet
            && CoversSource([a, b], b.source, b.filePath, b.startLine)
            && !CoversSource(merged, b.source, b.filePath, b.startLine)
  {
    var hits := [a, b];
    PairRun(a, b);
    PairSplice(a, b);
    PairMerges(a, b);
    assert InSource(hits[1], b.source, b.filePath, b.startLine);
    assert Survivors({1}, 1) == [0];
    assert Survivors({1}, 2) == [0];
  }
}
