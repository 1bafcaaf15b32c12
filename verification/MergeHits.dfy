/**
  `_merge_adjacent_hits` as it runs: one pass that groups the ranks by file, one that cuts each
  file's line order into runs, one that splices them, and one that builds the merged list.
*/
module MergeHits {
  import opened Options
  import opened Text
  import opened HitMerging

  // The first `n` hits are grouped by file.
  ghost predicate Grouped(hits: seq<Hit>, byFile: map<Path, seq<nat>>, n: nat)
    requires n <= |hits|
  {
    && (forall path :: path in byFile ==> byFile[path] == FileHits(hits, path, n) && byFile[path] != [])
    && (forall path :: path !in byFile ==> FileHits(hits, path, n) == [])
  }

  // `by_file.setdefault(path, []).append(i)`
  function Append(byFile: map<Path, seq<nat>>, path: Path, i: nat): map<Path, seq<nat>> {
    byFile[path := (if path in byFile then byFile[path] else []) + [i]]
  }

  lemma GroupedNext(hits: seq<Hit>, byFile: map<Path, seq<nat>>, n: nat)
    requires n < |hits| && Grouped(hits, byFile, n)
    ensures Grouped(hits, Append(byFile, hits[n].filePath, n), n + 1)
  {
    forall path
      ensures FileHits(hits, path, n + 1) == FileHits(hits, path, n) + (if hits[n].filePath == path then [n] else [])
    {
    }
  }

  method GroupByFile(hits: seq<Hit>) returns (byFile: map<Path, seq<nat>>)
    ensures Grouped(hits, byFile, |hits|)
  {
    byFile := map[];
    for i := 0 to |hits|
      invariant Grouped(hits, byFile, i)
    {
      GroupedNext(hits, byFile, i);
      byFile := Append(byFile, hits[i].filePath, i);
    }
  }

  /** `_splice_snippets`, on a run in line order. Every line number it reads is present. */
  method SpliceSnippets(hits: seq<Hit>, run: seq<nat>) returns (spliced: Option<string>)
    requires Chain(run, hits)
    ensures spliced == Splice(hits, run)
  {
    var linesByNo: map<int, string> := map[];
    for m := 0 to |run|
      invariant linesByNo == LinesByNo(hits, run[..m])
      invariant forall k :: 0 <= k < m ==> Fits(hits[run[k]])
    {
      var h := hits[run[m]];
      if |Split(h.snippet)| != h.endLine - h.startLine + 1 {
        return None;
      }
      linesByNo := AddLines(h, linesByNo);
      assert run[..m + 1][..m] == run[..m];
    }
    assert run[..|run|] == run;
    SpliceOfLines(hits, run);
    spliced := Some(Join(Pick(linesByNo, hits[run[0]].startLine, MaxEnd(hits, run))));
  }

  method AddLines(h: Hit, known: map<int, string>) returns (linesByNo: map<int, string>)
    ensures linesByNo == known + LinesOf(h)
  {
    var lines := Split(h.snippet);
    linesByNo := known;
    for off := 0 to |lines|
      invariant linesByNo == known + LinesUpTo(h, off)
    {
      linesByNo := linesByNo[h.startLine + off := lines[off]];
    }
  }

  function Runs(hits: seq<Hit>, order: seq<nat>, k: nat): (runs: seq<seq<nat>>)
    requires Indexes(order, hits) && k <= |order|
    decreases |order| - k
  {
    if k == |order| then [] else [order[k..RunEnd(hits, order, k)]] + Runs(hits, order, RunEnd(hits, order, k))
  }

  lemma {:induction false} RunEndAt(hits: seq<Hit>, order: seq<nat>, lo: nat, hi: nat)
    requires Indexes(order, hits) && lo < hi <= |order|
    requires forall k :: lo < k < hi ==> Linked(hits, order, k)
    requires hi < |order| ==> !Linked(hits, order, hi)
    ensures RunEnd(hits, order, lo) == hi
    decreases hi - lo
  {
    if lo + 1 < hi {
      RunEndAt(hits, order, lo + 1, hi);
    }
  }

  // One more run cut off at `i`.
  lemma RunCut(hits: seq<Hit>, order: seq<nat>, lo: nat, i: nat, runs: seq<seq<nat>>)
    requires Indexes(order, hits) && lo < i <= |order|
    requires forall k :: lo < k < i ==> Linked(hits, order, k)
    requires i < |order| ==> !Linked(hits, order, i)
    ensures (runs + [order[lo..i]]) + Runs(hits, order, i) == runs + Runs(hits, order, lo)
  {
    RunEndAt(hits, order, lo, i);
  }

  method CutRuns(hits: seq<Hit>, order: seq<nat>) returns (runs: seq<seq<nat>>)
    requires Indexes(order, hits) && order != []
    ensures runs == Runs(hits, order, 0)
  {
    var run := [order[0]];
    runs := [];
    ghost var lo := 0;
    for i := 1 to |order|
      invariant lo < i && run == order[lo..i]
      invariant forall k :: lo < k < i ==> Linked(hits, order, k)
      invariant runs + Runs(hits, order, lo) == Runs(hits, order, 0)
    {
      if hits[order[i]].startLine <= hits[run[|run| - 1]].endLine + 1 {
        run := run + [order[i]];
      } else {
        RunCut(hits, order, lo, i, runs);
        runs := runs + [run];
        run := [order[i]];
        lo := i;
      }
    }
    RunCut(hits, order, lo, |order|, runs);
    runs := runs + [run];
  }

  // What becomes of one hit.
  datatype Fate = Same | Gone | Becomes(merged: Hit)

  function FateOf(hits: seq<Hit>, i: nat): Fate
    requires i < |hits|
  {
    if !Merges(hits, i) then Same
    else if i == Best(Group(hits, i)) then Becomes(MergeRun(hits, Group(hits, i)))
    else Gone
  }

  function Fates(hits: seq<Hit>): (fates: seq<Fate>)
    ensures |fates| == |hits|
  {
    seq(|hits|, i requires 0 <= i < |hits| => FateOf(hits, i))
  }

  // The two dictionaries say of hit `i` what becomes of it.
  predicate Decided(fates: seq<Fate>, i: nat, replaced: map<nat, Hit>, consumed: set<nat>) {
    && i < |fates|
    && (i in consumed <==> fates[i].Gone?)
    && (i in replaced <==> fates[i].Becomes?)
    && (i in replaced ==> replaced[i] == fates[i].merged)
  }

  predicate Untouched(i: nat, replaced: map<nat, Hit>, consumed: set<nat>) {
    i !in consumed && i !in replaced
  }

  // The dictionaries differ for members of `idxs` only.
  ghost predicate Within(idxs: seq<nat>, replaced: map<nat, Hit>, consumed: set<nat>, replaced0: map<nat, Hit>,
      consumed0: set<nat>) {
    && (forall i: nat :: i !in idxs ==> (i in consumed <==> i in consumed0))
    && (forall i: nat :: i !in idxs ==> (i in replaced <==> i in replaced0))
    && (forall i: nat :: i !in idxs && i in replaced && i in replaced0 ==> replaced[i] == replaced0[i])
  }

  function RunFate(hits: seq<Hit>, run: seq<nat>, i: nat): Fate
    requires Chain(run, hits)
  {
    if |run| < 2 || Splice(hits, run).None? then Same
    else if i == Best(run) then Becomes(MergeRun(hits, run))
    else Gone
  }

  // The merged hit at the best rank; the other ranks of the run are consumed.
  method Record(run: seq<nat>, best: nat, merged: Hit, replaced0: map<nat, Hit>, consumed0: set<nat>)
    returns (replaced: map<nat, Hit>, consumed: set<nat>)
    requires best in run
    ensures forall i: nat :: i in consumed <==> i in consumed0 || (i in run && i != best)
    ensures replaced == replaced0[best := merged]
  {
    replaced := replaced0[best := merged];
    consumed := consumed0 + (set i | i in run && i != best);
  }

  predicate FatedRun(hits: seq<Hit>, run: seq<nat>, fates: seq<Fate>)
    requires Chain(run, hits)
  {
    forall i :: i in run ==> i < |fates| && fates[i] == RunFate(hits, run, i)
  }

  /** One run: its best member gets the merged hit, the others are consumed. */
  method MergeOneRun(hits: seq<Hit>, run: seq<nat>, ghost fates: seq<Fate>, replaced0: map<nat, Hit>,
      consumed0: set<nat>)
    returns (replaced: map<nat, Hit>, consumed: set<nat>)
    requires Chain(run, hits)
    requires FatedRun(hits, run, fates)
    requires forall i :: i in run ==> Untouched(i, replaced0, consumed0)
    ensures forall i :: i in run ==> Decided(fates, i, replaced, consumed)
    ensures Within(run, replaced, consumed, replaced0, consumed0)
  {
    replaced, consumed := replaced0, consumed0;
    if |run| < 2 {
      return;
    }
    var spliced := SpliceSnippets(hits, run);
    if spliced.Some? {
      var best, merged := Best(run), MergeRun(hits, run);
      replaced, consumed := Record(run, best, merged, replaced0, consumed0);
    }
  }

  lemma NextRunOf(hits: seq<Hit>, path: Path, order: seq<nat>, k: nat, i: nat)
    requires order == FileOrder(hits, path) && k < |order|
    requires i in order[RunEnd(hits, order, k)..]
    ensures i in order[k..]
    ensures RunOf(hits, order, RunEnd(hits, order, k), i) == RunOf(hits, order, k, i)
  {
    FileOrderLists(hits, path);
    var end := RunEnd(hits, order, k);
    SlicesApart(order, k, end, i);
    assert order[k..] == order[k..end] + order[end..];
  }

  // At position `k` a run begins.
  ghost predicate AtRun(hits: seq<Hit>, order: seq<nat>, k: nat)
    requires Indexes(order, hits) && k <= |order|
  {
    forall i :: i in order[k..] ==> RunOf(hits, order, 0, i) == RunOf(hits, order, k, i)
  }

  lemma SliceMember(order: seq<nat>, k: nat, end: nat, i: nat)
    requires k <= end <= |order| && i in order[k..end]
    ensures i in order[k..] && i in order
  {
    var b :| 0 <= b < |order[k..end]| && order[k..end][b] == i;
    assert order[k..][b] == i && order[k + b] == i;
  }

  lemma GroupAt(hits: seq<Hit>, path: Path, order: seq<nat>, k: nat, i: nat)
    requires order == FileOrder(hits, path) && k < |order| && AtRun(hits, order, k)
    requires i in order[k..RunEnd(hits, order, k)]
    ensures i < |hits| && Group(hits, i) == order[k..RunEnd(hits, order, k)]
  {
    SliceMember(order, k, RunEnd(hits, order, k), i);
    FileOrderLists(hits, path);
    assert RunOf(hits, order, k, i) == order[k..RunEnd(hits, order, k)];
  }

  lemma RunAtIsChain(hits: seq<Hit>, path: Path, order: seq<nat>, k: nat)
    requires order == FileOrder(hits, path) && k < |order|
    ensures Chain(order[k..RunEnd(hits, order, k)], hits)
  {
    FileOrderLists(hits, path);
    FileOrderSorted(hits, path);
    RunIsChain(hits, path, order, k);
  }

  lemma NextAtRun(hits: seq<Hit>, path: Path, order: seq<nat>, k: nat)
    requires order == FileOrder(hits, path) && k < |order| && AtRun(hits, order, k)
    ensures AtRun(hits, order, RunEnd(hits, order, k))
  {
    forall i | i in order[RunEnd(hits, order, k)..]
      ensures RunOf(hits, order, 0, i) == RunOf(hits, order, RunEnd(hits, order, k), i)
    {
      NextRunOf(hits, path, order, k, i);
    }
  }

  // The rest of the order is outside the run.
  lemma RunApart(order: seq<nat>, k: nat, end: nat)
    requires k <= end <= |order| && forall a, b :: 0 <= a < b < |order| ==> order[a] != order[b]
    ensures forall j :: 0 <= j < |order| && !(k <= j < end) ==> order[j] !in order[k..end]
    ensures forall j :: k <= j < end ==> order[j] in order[k..end]
  {
    assert forall b :: 0 <= b < |order[k..end]| ==> order[k..end][b] == order[k + b];
    forall j | k <= j < end
      ensures order[j] in order[k..end]
    {
      assert order[k..end][j - k] == order[j];
    }
  }

  // The fates of a file's hits are those of its runs.
  ghost predicate Fated(hits: seq<Hit>, order: seq<nat>, fates: seq<Fate>)
    requires Indexes(order, hits)
  {
    forall k :: 0 <= k < |order| && AtRun(hits, order, k) ==>
      var run := order[k..RunEnd(hits, order, k)];
      Chain(run, hits) && FatedRun(hits, run, fates)
  }

  lemma FatesAreFated(hits: seq<Hit>, path: Path)
    ensures Fated(hits, FileOrder(hits, path), Fates(hits))
  {
    var order := FileOrder(hits, path);
    forall k | 0 <= k < |order| && AtRun(hits, order, k)
      ensures var run := order[k..RunEnd(hits, order, k)];
              Chain(run, hits) && FatedRun(hits, run, Fates(hits))
    {
      var run := order[k..RunEnd(hits, order, k)];
      RunAtIsChain(hits, path, order, k);
      forall i | i in run
        ensures i < |hits| && Fates(hits)[i] == RunFate(hits, run, i)
      {
        GroupAt(hits, path, order, k, i);
        assert Fates(hits)[i] == FateOf(hits, i);
      }
    }
  }

  // The first `k` of the order are decided, the others untouched.
  predicate DecidedUpTo(fates: seq<Fate>, order: seq<nat>, k: nat, replaced: map<nat, Hit>, consumed: set<nat>)
    requires k <= |order|
  {
    && (forall j :: 0 <= j < k ==> Decided(fates, order[j], replaced, consumed))
    && (forall j :: k <= j < |order| ==> Untouched(order[j], replaced, consumed))
  }

  /** The runs of one file. */
  method MergeRuns(hits: seq<Hit>, ghost path: Path, order: seq<nat>, ghost fates: seq<Fate>,
                   replaced0: map<nat, Hit>, consumed0: set<nat>)
    returns (replaced: map<nat, Hit>, consumed: set<nat>)
    requires order == FileOrder(hits, path) && order != [] && Fated(hits, order, fates)
    requires forall j :: 0 <= j < |order| ==> Untouched(order[j], replaced0, consumed0)
    ensures DecidedUpTo(fates, order, |order|, replaced, consumed)
    ensures Within(order, replaced, consumed, replaced0, consumed0)
  {
    replaced, consumed := replaced0, consumed0;
    var runs := CutRuns(hits, order);
    ghost var k: nat := 0;
    for r := 0 to |runs|
      invariant k <= |order| && runs[r..] == Runs(hits, order, k)
      invariant AtRun(hits, order, k)
      invariant DecidedUpTo(fates, order, k, replaced, consumed)
      invariant Within(order, replaced, consumed, replaced0, consumed0)
    {
      assert runs[r..][0] == runs[r] && runs[r..][1..] == runs[r + 1..];
      replaced, consumed := MergeRunAt(hits, path, order, k, runs[r], fates, replaced, consumed);
      k := RunEnd(hits, order, k);
    }
  }

  method MergeRunAt(hits: seq<Hit>, ghost path: Path, ghost order: seq<nat>, ghost k: nat, run: seq<nat>,
                    ghost fates: seq<Fate>, replaced0: map<nat, Hit>, consumed0: set<nat>)
    returns (replaced: map<nat, Hit>, consumed: set<nat>)
    requires order == FileOrder(hits, path) && k < |order| && AtRun(hits, order, k) && Fated(hits, order, fates)
    requires run == order[k..RunEnd(hits, order, k)]
    requires DecidedUpTo(fates, order, k, replaced0, consumed0)
    ensures AtRun(hits, order, RunEnd(hits, order, k))
    ensures DecidedUpTo(fates, order, RunEnd(hits, order, k), replaced, consumed)
    ensures Within(order, replaced, consumed, replaced0, consumed0)
  {
    NextAtRun(hits, path, order, k);
    FileOrderLists(hits, path);
    RunApart(order, k, RunEnd(hits, order, k));
    assert forall i :: i in run ==> i in order;
    replaced, consumed := MergeOneRun(hits, run, fates, replaced0, consumed0);
  }

  // The hits of the files in `left` are untouched, all others decided.
  predicate FilesDone(hits: seq<Hit>, fates: seq<Fate>, left: set<Path>, replaced: map<nat, Hit>, consumed: set<nat>) {
    && (forall i: nat :: i < |hits| && hits[i].filePath !in left ==> Decided(fates, i, replaced, consumed))
    && (forall i: nat :: i < |hits| && hits[i].filePath in left ==> Untouched(i, replaced, consumed))
    && (forall i :: i in consumed ==> i < |hits|)
    && (forall i :: i in replaced ==> i < |hits|)
  }

  /** The hits of one file. */
  method MergeNextFile(hits: seq<Hit>, path: Path, idxs: seq<nat>, ghost left: set<Path>,
                       ghost fates: seq<Fate>, replaced0: map<nat, Hit>, consumed0: set<nat>)
    returns (replaced: map<nat, Hit>, consumed: set<nat>)
    requires idxs == FileHits(hits, path, |hits|) && idxs != [] && path in left
    requires Fated(hits, FileOrder(hits, path), fates)
    requires FilesDone(hits, fates, left, replaced0, consumed0)
    ensures FilesDone(hits, fates, left - {path}, replaced, consumed)
  {
    var order := SortByLines(hits, idxs);
    FileOrderLists(hits, path);
    assert idxs[0] in multiset(order);
    replaced, consumed := MergeRuns(hits, path, order, fates, replaced0, consumed0);
    forall i: nat | i < |hits| && hits[i].filePath !in left - {path}
      ensures Decided(fates, i, replaced, consumed)
    {
      if hits[i].filePath == path {
        assert i in order;
      } else {
        assert Decided(fates, i, replaced0, consumed0);
      }
    }
  }

  method DecideAll(hits: seq<Hit>, ghost fates: seq<Fate>) returns (replaced: map<nat, Hit>, consumed: set<nat>)
    requires forall path :: Fated(hits, FileOrder(hits, path), fates)
    ensures FilesDone(hits, fates, {}, replaced, consumed)
  {
    var byFile := GroupByFile(hits);
    replaced, consumed := map[], {};
    var left := byFile.Keys;
    forall i | 0 <= i < |hits|
      ensures hits[i].filePath in left
    {
      FileHitsAre(hits, hits[i].filePath, |hits|);
      assert i in FileHits(hits, hits[i].filePath, |hits|);
    }
    while left != {}
      invariant left <= byFile.Keys
      invariant FilesDone(hits, fates, left, replaced, consumed)
      decreases left
    {
      var path :| path in left;
      replaced, consumed := MergeNextFile(hits, path, byFile[path], left, fates, replaced, consumed);
      left := left - {path};
    }
  }

  /** `_merge_adjacent_hits`. The files are taken in any order. */
  method MergeAdjacentHits(hits: seq<Hit>) returns (out: seq<Hit>)
    ensures out == Merged(hits)
  {
    ghost var fates := AllFated(hits);
    var replaced, consumed := DecideAll(hits, fates);
    out := BuildMerged(hits, replaced, consumed);
    BuiltIsMerged(hits, fates, replaced, consumed, out);
  }

  lemma AllFated(hits: seq<Hit>) returns (fates: seq<Fate>)
    ensures fates == Fates(hits)
    ensures forall path :: Fated(hits, FileOrder(hits, path), fates)
  {
    fates := Fates(hits);
    forall path
      ensures Fated(hits, FileOrder(hits, path), fates)
    {
      FatesAreFated(hits, path);
    }
  }

  // `out` has at each survivor's place its merged hit, if it has one, or itself.
  ghost predicate Built(hits: seq<Hit>, replaced: map<nat, Hit>, consumed: set<nat>, out: seq<Hit>) {
    && |out| == |Survivors(consumed, |hits|)|
    && forall k :: 0 <= k < |out| ==>
      var i := Survivors(consumed, |hits|)[k];
      out[k] == if i in replaced then replaced[i] else hits[i]
  }

  lemma BuiltIsMerged(hits: seq<Hit>, fates: seq<Fate>, replaced: map<nat, Hit>, consumed: set<nat>, out: seq<Hit>)
    requires fates == Fates(hits) && FilesDone(hits, fates, {}, replaced, consumed)
    requires Built(hits, replaced, consumed, out)
    ensures out == Merged(hits)
  {
    FatesAreMerged(hits, consumed, replaced);
    SurvivorsAre(consumed, |hits|);
    var ranks := Survivors(consumed, |hits|);
    forall k | 0 <= k < |out|
      ensures out[k] == Merged(hits)[k]
    {
      assert ranks[k] in ranks;
    }
  }

  lemma FatesAreMerged(hits: seq<Hit>, consumed: set<nat>, replaced: map<nat, Hit>)
    requires FilesDone(hits, Fates(hits), {}, replaced, consumed)
    ensures consumed == ConsumedRanks(hits)
    ensures forall i: nat :: i < |hits| && i !in consumed ==> Shown(hits, i) == if i in replaced then replaced[i]
            else hits[i]
  {
    forall i: nat | i < |hits|
      ensures i in consumed <==> Consumed(hits, i)
      ensures i !in consumed ==> Shown(hits, i) == if i in replaced then replaced[i] else hits[i]
    {
      assert Decided(Fates(hits), i, replaced, consumed);
    }
  }

  method BuildMerged(hits: seq<Hit>, replaced: map<nat, Hit>, consumed: set<nat>) returns (out: seq<Hit>)
    ensures Built(hits, replaced, consumed, out)
  {
    out := [];
    ghost var ranks: seq<nat> := [];
    for i := 0 to |hits|
      invariant ranks == Survivors(consumed, i) && |out| == |ranks|
      invariant forall k :: 0 <= k < |out| ==> ranks[k] < |hits|
      invariant forall k :: 0 <= k < |out| ==> out[k] == if ranks[k] in replaced then replaced[ranks[k]]
        else hits[ranks[k]]
    {
      if i !in consumed {
        out := out + [if i in replaced then replaced[i] else hits[i]];
        ranks := ranks + [i];
      }
    }
  }
}
