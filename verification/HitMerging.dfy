/**
  Merging the hits of one file whose line ranges touch or overlap: what the merged list is, and
  what it keeps of the list it came from.
*/
module HitMerging {
  import opened Options
  import opened Text

  datatype Path = Path(name: string)

  // The indexed source a hit comes from, or that it has none.
  type SourceId = nat

  // A chunk hit. `rest` stands for the other fields a merge takes from the best member unchanged.
  datatype Hit = Hit(
    source: SourceId, filePath: Path, startLine: int, endLine: int, snippet: string, score: real,
    graphEnhanced: bool, rest: nat)

  // ---------------------------------------------------------------------------
  // The hits of a file in line order, and its runs
  // ---------------------------------------------------------------------------

  predicate Indexes(order: seq<nat>, hits: seq<Hit>) {
    forall k :: 0 <= k < |order| ==> order[k] < |hits|
  }

  // `sorted` by (start_line, end_line): an index goes behind those whose key is at most its own.
  predicate KeyAtMost(a: Hit, b: Hit) {
    a.startLine < b.startLine || (a.startLine == b.startLine && a.endLine <= b.endLine)
  }

  function Insert(order: seq<nat>, i: nat, hits: seq<Hit>): (r: seq<nat>)
    requires i < |hits| && Indexes(order, hits)
    ensures Indexes(r, hits) && multiset(r) == multiset(order) + multiset{i}
  {
    if order == [] || KeyAtMost(hits[order[|order| - 1]], hits[i]) then order + [i]
    else
      assert order == order[..|order| - 1] + [order[|order| - 1]];
      Insert(order[..|order| - 1], i, hits) + [order[|order| - 1]]
  }

  function SortByLines(hits: seq<Hit>, idxs: seq<nat>): (order: seq<nat>)
    requires Indexes(idxs, hits)
    ensures Indexes(order, hits) && multiset(order) == multiset(idxs)
  {
    if idxs == [] then []
    else
      assert idxs == idxs[..|idxs| - 1] + [idxs[|idxs| - 1]];
      Insert(SortByLines(hits, idxs[..|idxs| - 1]), idxs[|idxs| - 1], hits)
  }

  // The ranks below `n` of the hits in `path`, ascending.
  function FileHits(hits: seq<Hit>, path: Path, n: nat): (idxs: seq<nat>)
    requires n <= |hits|
    ensures Indexes(idxs, hits)
  {
    if n == 0 then []
    else FileHits(hits, path, n - 1) + (if hits[n - 1].filePath == path then [n - 1] else [])
  }

  // The ranks of the hits in `path`, in line order.
  function FileOrder(hits: seq<Hit>, path: Path): (order: seq<nat>)
    ensures Indexes(order, hits)
  {
    SortByLines(hits, FileHits(hits, path, |hits|))
  }

  lemma {:induction false} FileHitsAre(hits: seq<Hit>, path: Path, n: nat)
    requires n <= |hits|
    ensures forall i: nat :: i in FileHits(hits, path, n) <==> i < n && hits[i].filePath == path
    ensures Ascending(FileHits(hits, path, n), n)
  {
    if n > 0 {
      FileHitsAre(hits, path, n - 1);
    }
  }

  predicate Ascending(idxs: seq<nat>, n: nat) {
    && (forall a, b :: 0 <= a < b < |idxs| ==> idxs[a] < idxs[b])
    && (forall a :: 0 <= a < |idxs| ==> idxs[a] < n)
  }

  lemma {:induction false} AscendingOnce(idxs: seq<nat>, n: nat, i: nat)
    requires Ascending(idxs, n)
    ensures multiset(idxs)[i] <= 1
    ensures i >= n ==> multiset(idxs)[i] == 0
  {
    if idxs != [] {
      var front, last := idxs[..|idxs| - 1], idxs[|idxs| - 1];
      assert idxs == front + [last];
      AscendingOnce(front, last, i);
    }
  }

  // Rearranging an ascending list lists the same, each once.
  lemma RearrangedOnce(idxs: seq<nat>, n: nat, order: seq<nat>)
    requires Ascending(idxs, n) && multiset(order) == multiset(idxs)
    ensures forall i: nat :: i in order <==> i in idxs
    ensures forall a, b :: 0 <= a < b < |order| ==> order[a] != order[b]
  {
    forall i: nat
      ensures i in order <==> i in idxs
    {
      assert i in order <==> i in multiset(order);
      assert i in idxs <==> i in multiset(idxs);
    }
    forall a, b | 0 <= a < b < |order|
      ensures order[a] != order[b]
    {
      AscendingOnce(idxs, n, order[b]);
      assert order == order[..b] + [order[b]] + order[b + 1..];
      assert order[..b][a] == order[a];
      assert order[a] in multiset(order[..b]);
    }
  }

  ghost predicate Lists(order: seq<nat>, hits: seq<Hit>, path: Path) {
    && (forall i: nat :: i in order <==> i < |hits| && hits[i].filePath == path)
    && (forall a, b :: 0 <= a < b < |order| ==> order[a] != order[b])
  }

  // The order lists every hit of the file, once.
  lemma FileOrderLists(hits: seq<Hit>, path: Path)
    ensures Lists(FileOrder(hits, path), hits, path)
  {
    FileHitsAre(hits, path, |hits|);
    RearrangedOnce(FileHits(hits, path, |hits|), |hits|, FileOrder(hits, path));
  }

  predicate Sorted(order: seq<nat>, hits: seq<Hit>)
    requires Indexes(order, hits)
  {
    forall a, b :: 0 <= a < b < |order| ==> KeyAtMost(hits[order[a]], hits[order[b]])
  }

  lemma {:induction false} InsertSorts(order: seq<nat>, i: nat, hits: seq<Hit>)
    requires i < |hits| && Indexes(order, hits) && Sorted(order, hits)
    ensures Sorted(Insert(order, i, hits), hits)
  {
    if order != [] {
      var front, last := order[..|order| - 1], order[|order| - 1];
      if !KeyAtMost(hits[last], hits[i]) {
        InsertSorts(front, i, hits);
        var r := Insert(front, i, hits);
        forall a | 0 <= a < |r|
          ensures KeyAtMost(hits[r[a]], hits[last])
        {
          assert r[a] in multiset(r);
          if r[a] != i {
            assert r[a] in front;
            var k :| 0 <= k < |front| && front[k] == r[a];
            assert order[k] == front[k];
          }
        }
      } else {
        assert forall a :: 0 <= a < |order| - 1 ==> KeyAtMost(hits[order[a]], hits[last]);
      }
    }
  }

  lemma {:induction false} SortByLinesSorts(hits: seq<Hit>, idxs: seq<nat>)
    requires Indexes(idxs, hits)
    ensures Sorted(SortByLines(hits, idxs), hits)
  {
    if idxs != [] {
      SortByLinesSorts(hits, idxs[..|idxs| - 1]);
      InsertSorts(SortByLines(hits, idxs[..|idxs| - 1]), idxs[|idxs| - 1], hits);
    }
  }

  lemma FileOrderSorted(hits: seq<Hit>, path: Path)
    ensures Sorted(FileOrder(hits, path), hits)
  {
    SortByLinesSorts(hits, FileHits(hits, path, |hits|));
  }

  // `i` comes before `k`: it starts earlier, or there and ends earlier, or also there and ranks higher.
  predicate Before(hits: seq<Hit>, i: nat, k: nat)
    requires i < |hits| && k < |hits|
  {
    var a, b := hits[i], hits[k];
    a.startLine < b.startLine ||
      (a.startLine == b.startLine && (a.endLine < b.endLine || (a.endLine == b.endLine && i < k)))
  }

  predicate InOrder(order: seq<nat>, hits: seq<Hit>)
    requires Indexes(order, hits)
  {
    forall a, b :: 0 <= a < b < |order| ==> Before(hits, order[a], order[b])
  }

  lemma {:induction false} InsertInOrder(order: seq<nat>, i: nat, hits: seq<Hit>)
    requires i < |hits| && Indexes(order, hits) && InOrder(order, hits) && forall k :: 0 <= k < |order| ==> order[k] < i
    ensures InOrder(Insert(order, i, hits), hits)
  {
    if order != [] {
      var front, last := order[..|order| - 1], order[|order| - 1];
      if !KeyAtMost(hits[last], hits[i]) {
        InsertInOrder(front, i, hits);
        var r := Insert(front, i, hits);
        forall a | 0 <= a < |r|
          ensures Before(hits, r[a], last)
        {
          assert r[a] in multiset(r);
          if r[a] != i {
            assert r[a] in front;
            var k :| 0 <= k < |front| && front[k] == r[a];
            assert order[k] == front[k];
          }
        }
      } else {
        assert forall a :: 0 <= a < |order| - 1 ==> Before(hits, order[a], last);
      }
    }
  }

  lemma {:induction false} SortsInOrder(hits: seq<Hit>, idxs: seq<nat>, n: nat)
    requires Indexes(idxs, hits) && Ascending(idxs, n)
    ensures InOrder(SortByLines(hits, idxs), hits)
    ensures forall k :: 0 <= k < |SortByLines(hits, idxs)| ==> SortByLines(hits, idxs)[k] < n
  {
    if idxs != [] {
      var front, last := idxs[..|idxs| - 1], idxs[|idxs| - 1];
      SortsInOrder(hits, front, last);
      InsertInOrder(SortByLines(hits, front), last, hits);
      forall k | 0 <= k < |SortByLines(hits, idxs)|
        ensures SortByLines(hits, idxs)[k] < n
      {
        assert SortByLines(hits, idxs)[k] in multiset(idxs);
        var m :| 0 <= m < |idxs| && idxs[m] == SortByLines(hits, idxs)[k];
      }
    }
  }

  /** The order of a file's hits: by first line, then last line, then rank. */
  lemma FileOrderIs(hits: seq<Hit>, path: Path)
    ensures InOrder(FileOrder(hits, path), hits) && Lists(FileOrder(hits, path), hits, path)
  {
    FileHitsAre(hits, path, |hits|);
    SortsInOrder(hits, FileHits(hits, path, |hits|), |hits|);
    FileOrderLists(hits, path);
  }

  // The run goes on: the next hit starts no later than one line behind the hit before it.
  predicate Linked(hits: seq<Hit>, order: seq<nat>, k: nat)
    requires Indexes(order, hits) && 0 < k < |order|
  {
    hits[order[k]].startLine <= hits[order[k - 1]].endLine + 1
  }

  function RunEnd(hits: seq<Hit>, order: seq<nat>, k: nat): (end: nat)
    requires Indexes(order, hits) && k < |order|
    ensures k < end <= |order|
    ensures forall j :: k < j < end ==> Linked(hits, order, j)
    ensures end < |order| ==> !Linked(hits, order, end)
    decreases |order| - k
  {
    if k + 1 == |order| || !Linked(hits, order, k + 1) then k + 1 else RunEnd(hits, order, k + 1)
  }

  // A chain of hits of one file, in line order, each linked to the one before it.
  predicate Chain(run: seq<nat>, hits: seq<Hit>) {
    && run != []
    && Indexes(run, hits)
    && Sorted(run, hits)
    && (forall k :: 0 < k < |run| ==> Linked(hits, run, k))
    && (forall k :: 0 <= k < |run| ==> hits[run[k]].filePath == hits[run[0]].filePath)
  }

  lemma RunIsChain(hits: seq<Hit>, path: Path, order: seq<nat>, k: nat)
    requires Lists(order, hits, path) && Indexes(order, hits) && Sorted(order, hits) && k < |order|
    ensures Chain(order[k..RunEnd(hits, order, k)], hits)
  {
    var end := RunEnd(hits, order, k);
    var run := order[k..end];
    forall j | 0 <= j < |run|
      ensures hits[run[j]].filePath == path
      ensures j > 0 ==> Linked(hits, run, j)
    {
      assert run[j] == order[k + j] && order[k + j] in order;
      assert j > 0 ==> Linked(hits, order, k + j);
    }
  }

  // The run of `order[k..]` that holds `i`.
  function RunOf(hits: seq<Hit>, order: seq<nat>, k: nat, i: nat): seq<nat>
    requires Indexes(order, hits) && k <= |order|
    decreases |order| - k
  {
    if k == |order| then []
    else if i in order[k..RunEnd(hits, order, k)] then order[k..RunEnd(hits, order, k)]
    else RunOf(hits, order, RunEnd(hits, order, k), i)
  }

  lemma {:induction false} RunOfIsChain(hits: seq<Hit>, path: Path, order: seq<nat>, k: nat, i: nat)
    requires Lists(order, hits, path) && Indexes(order, hits) && Sorted(order, hits) && k <= |order|
    requires i in order[k..]
    ensures Chain(RunOf(hits, order, k, i), hits) && i in RunOf(hits, order, k, i)
    ensures forall j :: j in RunOf(hits, order, k, i) ==> j in order[k..]
    decreases |order| - k
  {
    var end := RunEnd(hits, order, k);
    assert order[k..] == order[k..end] + order[end..];
    RunIsChain(hits, path, order, k);
    if i !in order[k..end] {
      RunOfIsChain(hits, path, order, end, i);
    }
  }

  // The members of a run all have that run.
  lemma {:induction false} RunOfMember(hits: seq<Hit>, path: Path, order: seq<nat>, k: nat, i: nat, j: nat)
    requires Lists(order, hits, path) && Indexes(order, hits) && Sorted(order, hits) && k <= |order|
    requires i in order[k..] && j in RunOf(hits, order, k, i)
    ensures RunOf(hits, order, k, j) == RunOf(hits, order, k, i)
    decreases |order| - k
  {
    var end := RunEnd(hits, order, k);
    assert order[k..] == order[k..end] + order[end..];
    if i !in order[k..end] {
      RunOfIsChain(hits, path, order, end, i);
      SlicesApart(order, k, end, j);
      RunOfMember(hits, path, order, end, i, j);
    }
  }

  lemma SlicesApart(order: seq<nat>, k: nat, end: nat, j: nat)
    requires k <= end <= |order| && j in order[end..]
    requires forall a, b :: 0 <= a < b < |order| ==> order[a] != order[b]
    ensures j !in order[k..end]
  {
    var b :| 0 <= b < |order[end..]| && order[end..][b] == j;
    assert order[end + b] == j;
    forall a | 0 <= a < |order[k..end]|
      ensures order[k..end][a] != j
    {
      assert order[k + a] != order[end + b];
    }
  }

  lemma InSlice(order: seq<nat>, k: nat, end: nat, m: nat)
    requires k <= m < end <= |order|
    ensures order[m] in order[k..end]
  {
    assert order[k..end][m - k] == order[m];
  }

  // Where a run ends, its last member and the next hit have different runs.
  lemma RunsDiffer(hits: seq<Hit>, path: Path, order: seq<nat>, k: nat)
    requires Lists(order, hits, path) && Indexes(order, hits) && Sorted(order, hits) && k < |order|
    requires RunEnd(hits, order, k) < |order|
    ensures var end := RunEnd(hits, order, k);
            order[end - 1] !in RunOf(hits, order, end, order[end])
  {
    var end := RunEnd(hits, order, k);
    InSlice(order, end, |order|, end);
    assert order[end..|order|] == order[end..];
    RunOfIsChain(hits, path, order, end, order[end]);
    forall b | 0 <= b < |order[end..]|
      ensures order[end..][b] != order[end - 1]
    {
      assert order[end..][b] == order[end + b];
    }
  }

  // What is behind the run is found from there on.
  lemma RunOfLater(hits: seq<Hit>, path: Path, order: seq<nat>, k: nat, m: nat)
    requires Lists(order, hits, path) && Indexes(order, hits) && k < |order|
    requires RunEnd(hits, order, k) <= m < |order|
    ensures RunOf(hits, order, k, order[m]) == RunOf(hits, order, RunEnd(hits, order, k), order[m])
  {
    var end := RunEnd(hits, order, k);
    InSlice(order, end, |order|, m);
    assert order[end..|order|] == order[end..];
    SlicesApart(order, k, end, order[m]);
  }

  lemma RunOfHere(hits: seq<Hit>, order: seq<nat>, k: nat, m: nat)
    requires Indexes(order, hits) && k <= m < |order| && m < RunEnd(hits, order, k)
    ensures RunOf(hits, order, k, order[m]) == order[k..RunEnd(hits, order, k)]
  {
    InSlice(order, k, RunEnd(hits, order, k), m);
  }

  lemma DifferByMember(a: seq<nat>, b: seq<nat>, x: nat)
    requires x in a && x !in b
    ensures a != b
  {
  }

  // The last member of a run and the next hit are in two runs.
  lemma RunsMeet(hits: seq<Hit>, path: Path, order: seq<nat>, k: nat)
    requires Lists(order, hits, path) && Indexes(order, hits) && Sorted(order, hits)
    requires k < |order| && RunEnd(hits, order, k) < |order|
    ensures var end := RunEnd(hits, order, k);
            order[k..end] != RunOf(hits, order, end, order[end])
  {
    var end := RunEnd(hits, order, k);
    InSlice(order, k, end, end - 1);
    RunsDiffer(hits, path, order, k);
    DifferByMember(order[k..end], RunOf(hits, order, end, order[end]), order[end - 1]);
  }

  // The runs of the hits at positions `m - 1` and `m`, both at `k` or behind it.
  predicate ShareRun(hits: seq<Hit>, order: seq<nat>, k: nat, m: nat)
    requires Indexes(order, hits) && k < m < |order|
  {
    RunOf(hits, order, k, order[m - 1]) == RunOf(hits, order, k, order[m])
  }

  lemma ShareRunHere(hits: seq<Hit>, path: Path, order: seq<nat>, k: nat, m: nat)
    requires Lists(order, hits, path) && Indexes(order, hits) && Sorted(order, hits)
    requires k < m < |order| && m <= RunEnd(hits, order, k)
    ensures ShareRun(hits, order, k, m) <==> m < RunEnd(hits, order, k)
  {
    RunOfHere(hits, order, k, m - 1);
    if m < RunEnd(hits, order, k) {
      RunOfHere(hits, order, k, m);
    } else {
      RunsMeet(hits, path, order, k);
      RunOfLater(hits, path, order, k, m);
    }
  }

  lemma ShareRunLater(hits: seq<Hit>, path: Path, order: seq<nat>, k: nat, m: nat)
    requires Lists(order, hits, path) && Indexes(order, hits)
    requires k < |order| && RunEnd(hits, order, k) < m < |order|
    ensures ShareRun(hits, order, k, m) <==> ShareRun(hits, order, RunEnd(hits, order, k), m)
  {
    RunOfLater(hits, path, order, k, m);
    RunOfLater(hits, path, order, k, m - 1);
  }

  // Two neighbours in line order are in one run exactly when they are linked.
  lemma {:induction false} NeighboursShareRun(hits: seq<Hit>, path: Path, order: seq<nat>, k: nat, m: nat)
    requires Lists(order, hits, path) && Indexes(order, hits) && Sorted(order, hits)
    requires k < m < |order|
    ensures ShareRun(hits, order, k, m) <==> Linked(hits, order, m)
    decreases |order| - k
  {
    var end := RunEnd(hits, order, k);
    if m <= end {
      ShareRunHere(hits, path, order, k, m);
    } else {
      ShareRunLater(hits, path, order, k, m);
      NeighboursShareRun(hits, path, order, end, m);
    }
  }

  // The run of hit `i` in its file.
  function Group(hits: seq<Hit>, i: nat): (run: seq<nat>)
    requires i < |hits|
    ensures Chain(run, hits) && i in run
    ensures forall j :: j in run ==> j < |hits| && hits[j].filePath == hits[i].filePath
  {
    var order := FileOrder(hits, hits[i].filePath);
    FileOrderLists(hits, hits[i].filePath);
    FileOrderSorted(hits, hits[i].filePath);
    assert order[0..] == order;
    RunOfIsChain(hits, hits[i].filePath, order, 0, i);
    RunOf(hits, order, 0, i)
  }

  lemma GroupOfMember(hits: seq<Hit>, i: nat, j: nat)
    requires i < |hits| && j in Group(hits, i)
    ensures j < |hits| && Group(hits, j) == Group(hits, i)
  {
    var order := FileOrder(hits, hits[i].filePath);
    FileOrderLists(hits, hits[i].filePath);
    FileOrderSorted(hits, hits[i].filePath);
    assert order[0..] == order;
    RunOfMember(hits, hits[i].filePath, order, 0, i, j);
  }

  // The runs are maximal: line-order neighbours of a file share a run exactly when the second begins at
  // most one line behind the end of the first.
  lemma GroupsAreMaximal(hits: seq<Hit>, path: Path, m: nat)
    requires 0 < m < |FileOrder(hits, path)|
    ensures var order := FileOrder(hits, path);
            order[m - 1] < |hits| && order[m] < |hits| &&
            (Group(hits, order[m - 1]) == Group(hits, order[m]) <==>
             hits[order[m]].startLine <= hits[order[m - 1]].endLine + 1)
  {
    var order := FileOrder(hits, path);
    FileOrderLists(hits, path);
    FileOrderSorted(hits, path);
    assert order[m - 1] in order && order[m] in order;
    NeighboursShareRun(hits, path, order, 0, m);
  }

  // ---------------------------------------------------------------------------
  // Splicing
  // ---------------------------------------------------------------------------

  // The snippet has as many lines as the range says.
  predicate Fits(h: Hit) {
    |Split(h.snippet)| == h.endLine - h.startLine + 1
  }

  // The first `k` lines of the snippet by their numbers in the file.
  function LinesUpTo(h: Hit, k: nat): (lines: map<int, string>)
    requires k <= |Split(h.snippet)|
    ensures forall n :: n in lines <==> h.startLine <= n < h.startLine + k
    ensures forall n :: n in lines ==> lines[n] == Split(h.snippet)[n - h.startLine]
  {
    if k == 0 then map[] else LinesUpTo(h, k - 1)[h.startLine + k - 1 := Split(h.snippet)[k - 1]]
  }

  function LinesOf(h: Hit): map<int, string> {
    LinesUpTo(h, |Split(h.snippet)|)
  }

  // The lines of all members; where two overlap the later one's line counts.
  function LinesByNo(hits: seq<Hit>, run: seq<nat>): map<int, string>
    requires Indexes(run, hits)
  {
    if run == [] then map[] else LinesByNo(hits, run[..|run| - 1]) + LinesOf(hits[run[|run| - 1]])
  }

  function MaxEnd(hits: seq<Hit>, run: seq<nat>): int
    requires Indexes(run, hits) && run != []
  {
    var end := hits[run[|run| - 1]].endLine;
    if |run| == 1 || end > MaxEnd(hits, run[..|run| - 1]) then end else MaxEnd(hits, run[..|run| - 1])
  }

  lemma {:induction false} MaxEndIsMax(hits: seq<Hit>, run: seq<nat>)
    requires Indexes(run, hits) && run != []
    ensures forall k :: 0 <= k < |run| ==> hits[run[k]].endLine <= MaxEnd(hits, run)
    ensures exists k :: 0 <= k < |run| && hits[run[k]].endLine == MaxEnd(hits, run)
  {
    if |run| > 1 {
      var front := run[..|run| - 1];
      MaxEndIsMax(hits, front);
      var k :| 0 <= k < |front| && hits[front[k]].endLine == MaxEnd(hits, front);
      assert run[k] == front[k];
    }
    assert hits[run[|run| - 1]].endLine <= MaxEnd(hits, run);
  }

  lemma ChainFront(hits: seq<Hit>, run: seq<nat>)
    requires Chain(run, hits) && |run| > 1
    ensures Chain(run[..|run| - 1], hits)
  {
    var front := run[..|run| - 1];
    forall k | 0 < k < |front|
      ensures Linked(hits, front, k)
    {
      assert Linked(hits, run, k);
    }
  }

  // The splice knows the lines of the members, and no others.
  lemma {:induction false} LinesOfMembers(hits: seq<Hit>, run: seq<nat>, n: int)
    requires Indexes(run, hits) && forall k :: 0 <= k < |run| ==> Fits(hits[run[k]])
    ensures n in LinesByNo(hits, run) <==>
      exists k :: 0 <= k < |run| && hits[run[k]].startLine <= n <= hits[run[k]].endLine
  {
    if run != [] {
      var front, last := run[..|run| - 1], hits[run[|run| - 1]];
      LinesOfMembers(hits, front, n);
      assert n in LinesOf(last) <==> last.startLine <= n <= last.endLine;
      assert forall k :: 0 <= k < |front| ==> front[k] == run[k];
    }
  }

  // The last member starts no earlier than the first, and no later than one line behind the
  // greatest end before it.
  lemma NextInChain(hits: seq<Hit>, run: seq<nat>)
    requires Chain(run, hits) && |run| > 1
    ensures var last := hits[run[|run| - 1]];
            hits[run[0]].startLine <= last.startLine <= MaxEnd(hits, run[..|run| - 1]) + 1
  {
    var front := run[..|run| - 1];
    MaxEndIsMax(hits, front);
    assert hits[front[|front| - 1]].endLine <= MaxEnd(hits, front);
    assert Linked(hits, run, |run| - 1);
    assert KeyAtMost(hits[run[0]], hits[run[|run| - 1]]);
  }

  // A chain leaves no gap: it knows every line from the first start to the greatest end.
  lemma {:induction false} ChainCovers(hits: seq<Hit>, run: seq<nat>, n: int)
    requires Chain(run, hits) && forall k :: 0 <= k < |run| ==> Fits(hits[run[k]])
    ensures n in LinesByNo(hits, run) <==> hits[run[0]].startLine <= n <= MaxEnd(hits, run)
  {
    var last := hits[run[|run| - 1]];
    assert n in LinesOf(last) <==> last.startLine <= n <= last.endLine;
    if |run| > 1 {
      var front := run[..|run| - 1];
      ChainFront(hits, run);
      ChainCovers(hits, front, n);
      NextInChain(hits, run);
    } else {
      assert LinesByNo(hits, run[..0]) == map[];
    }
  }

  // The lines `lo..hi`, all of which must be known.
  function Pick(lines: map<int, string>, lo: int, hi: int): (picked: seq<string>)
    requires lo <= hi + 1 && forall n :: lo <= n <= hi ==> n in lines
    ensures |picked| == hi - lo + 1
  {
    seq(hi - lo + 1, k requires 0 <= k < hi - lo + 1 => lines[lo + k])
  }

  // `_splice_snippets`: the joined lines of the chain, unless some snippet does not fit.
  function Splice(hits: seq<Hit>, run: seq<nat>): Option<string>
    requires Chain(run, hits)
  {
    if exists k :: 0 <= k < |run| && !Fits(hits[run[k]]) then None
    else
      var lo, hi := hits[run[0]].startLine, MaxEnd(hits, run);
      var lines := LinesByNo(hits, run);
      assert forall n :: lo <= n <= hi ==> n in lines by {
        forall n | lo <= n <= hi
          ensures n in lines
        {
          ChainCovers(hits, run, n);
        }
      }
      MaxEndIsMax(hits, run);
      assert Fits(hits[run[0]]);
      Some(Join(Pick(lines, lo, hi)))
  }

  // ---------------------------------------------------------------------------
  // The merged list
  // ---------------------------------------------------------------------------

  // The earliest index, which is the best rank.
  function Best(run: seq<nat>): (best: nat)
    requires run != []
    ensures best in run && forall k :: 0 <= k < |run| ==> best <= run[k]
  {
    var last := run[|run| - 1];
    if |run| == 1 then last
    else
      var front := Best(run[..|run| - 1]);
      if last < front then last else front
  }

  function MaxScore(hits: seq<Hit>, run: seq<nat>): (score: real)
    requires Indexes(run, hits) && run != []
    ensures forall k :: 0 <= k < |run| ==> hits[run[k]].score <= score
    ensures exists k :: 0 <= k < |run| && hits[run[k]].score == score
  {
    var last := hits[run[|run| - 1]].score;
    if |run| == 1 then
      assert hits[run[0]].score == last;
      last
    else
      var front := MaxScore(hits, run[..|run| - 1]);
      assert exists k :: 0 <= k < |run| && hits[run[k]].score == front by {
        var k :| 0 <= k < |run[..|run| - 1]| && hits[run[..|run| - 1][k]].score == front;
        assert hits[run[k]].score == front;
      }
      if last > front then
        assert hits[run[|run| - 1]].score == last;
        last
      else front
  }

  predicate Merges(hits: seq<Hit>, i: nat)
    requires i < |hits|
  {
    |Group(hits, i)| >= 2 && Splice(hits, Group(hits, i)).Some?
  }

  function MergeRun(hits: seq<Hit>, run: seq<nat>): Hit
    requires Chain(run, hits) && Splice(hits, run).Some?
  {
    assert Best(run) in run;
    hits[Best(run)].(
      startLine := hits[run[0]].startLine,
      endLine := MaxEnd(hits, run),
      snippet := Splice(hits, run).value,
      score := MaxScore(hits, run),
      graphEnhanced := exists k :: 0 <= k < |run| && hits[run[k]].graphEnhanced)
  }

  predicate Consumed(hits: seq<Hit>, i: nat)
    requires i < |hits|
  {
    Merges(hits, i) && i != Best(Group(hits, i))
  }

  // What hit `i` turns into: its merged run, or itself.
  function Shown(hits: seq<Hit>, i: nat): Hit
    requires i < |hits|
  {
    if Merges(hits, i) then MergeRun(hits, Group(hits, i)) else hits[i]
  }

  function ConsumedRanks(hits: seq<Hit>): set<nat> {
    set i: nat | i < |hits| && Consumed(hits, i)
  }

  // The ranks below `n` outside `consumed`, ascending.
  function Survivors(consumed: set<nat>, n: nat): (ranks: seq<nat>)
    ensures forall k :: 0 <= k < |ranks| ==> ranks[k] < n
  {
    if n == 0 then [] else Survivors(consumed, n - 1) + (if n - 1 in consumed then [] else [n - 1])
  }

  lemma {:induction false} SurvivorsAre(consumed: set<nat>, n: nat)
    ensures forall i: nat :: i in Survivors(consumed, n) <==> i < n && i !in consumed
    ensures forall a, b :: 0 <= a < b < |Survivors(consumed, n)| ==>
            Survivors(consumed, n)[a] < Survivors(consumed, n)[b]
  {
    if n > 0 {
      SurvivorsAre(consumed, n - 1);
    }
  }

  /** The merged list: each survivor at its own rank. */
  function Merged(hits: seq<Hit>): (out: seq<Hit>) {
    var ranks := Survivors(ConsumedRanks(hits), |hits|);
    seq(|ranks|, k requires 0 <= k < |ranks| => Shown(hits, ranks[k]))
  }

  // ---------------------------------------------------------------------------
  // What merging keeps
  // ---------------------------------------------------------------------------

  // Every hit goes into exactly one survivor: its own run's best member, or itself.
  lemma OneSurvivor(hits: seq<Hit>, i: nat)
    requires i < |hits|
    ensures var best := if Merges(hits, i) then Best(Group(hits, i)) else i;
            best <= i && !Consumed(hits, best) && Shown(hits, best) == Shown(hits, i)
  {
    var run := Group(hits, i);
    if Merges(hits, i) {
      GroupOfMember(hits, i, Best(run));
      var k :| 0 <= k < |run| && run[k] == i;
      assert Best(run) <= run[k];
    }
  }

  lemma MergedRange(hits: seq<Hit>, i: nat, n: int)
    requires i < |hits| && Merges(hits, i)
    ensures var m := Shown(hits, i);
            m.filePath == hits[i].filePath &&
            (m.startLine <= n <= m.endLine <==>
             exists k :: 0 <= k < |Group(hits, i)| &&
               hits[Group(hits, i)[k]].startLine <= n <= hits[Group(hits, i)[k]].endLine)
  {
    ChainCovers(hits, Group(hits, i), n);
    LinesOfMembers(hits, Group(hits, i), n);
    assert Best(Group(hits, i)) in Group(hits, i);
  }

  predicate InRange(h: Hit, path: Path, n: int) {
    h.filePath == path && h.startLine <= n <= h.endLine
  }

  lemma ShownCoversItself(hits: seq<Hit>, i: nat, path: Path, n: int)
    requires i < |hits| && InRange(hits[i], path, n)
    ensures InRange(Shown(hits, i), path, n)
  {
    if Merges(hits, i) {
      MergedRange(hits, i, n);
      var run := Group(hits, i);
      var j :| 0 <= j < |run| && run[j] == i;
    }
  }

  lemma ShownIsCovered(hits: seq<Hit>, i: nat, path: Path, n: int) returns (j: nat)
    requires i < |hits| && InRange(Shown(hits, i), path, n)
    ensures j < |hits| && InRange(hits[j], path, n)
    ensures if Merges(hits, i) then j in Group(hits, i) else j == i
  {
    j := i;
    if Merges(hits, i) {
      MergedRange(hits, i, n);
      var run := Group(hits, i);
      var k :| 0 <= k < |run| && hits[run[k]].startLine <= n <= hits[run[k]].endLine;
      j := run[k];
      assert j in run;
    }
  }

  predicate Covers(hits: seq<Hit>, path: Path, n: int) {
    exists k :: 0 <= k < |hits| && InRange(hits[k], path, n)
  }

  lemma ShownSurvives(hits: seq<Hit>, i: nat) returns (k: nat)
    requires i < |hits|
    ensures k < |Merged(hits)| && Merged(hits)[k] == Shown(hits, i)
    ensures Survivors(ConsumedRanks(hits), |hits|)[k] <= i
  {
    OneSurvivor(hits, i);
    var best := if Merges(hits, i) then Best(Group(hits, i)) else i;
    var ranks := Survivors(ConsumedRanks(hits), |hits|);
    SurvivorsAre(ConsumedRanks(hits), |hits|);
    assert best in ranks;
    k :| 0 <= k < |ranks| && ranks[k] == best;
  }

  /** The lines covered under a path are the same before and after, whatever the hits are. */
  lemma CoverageUnchanged(hits: seq<Hit>, path: Path, n: int)
    ensures Covers(Merged(hits), path, n) <==> Covers(hits, path, n)
  {
    if Covers(Merged(hits), path, n) {
      var k :| 0 <= k < |Merged(hits)| && InRange(Merged(hits)[k], path, n);
      var j := ShownIsCovered(hits, Survivors(ConsumedRanks(hits), |hits|)[k], path, n);
    }
    if Covers(hits, path, n) {
      var i :| 0 <= i < |hits| && InRange(hits[i], path, n);
      ShownCoversItself(hits, i, path, n);
      var k := ShownSurvives(hits, i);
    }
  }

  // What a successful splice is, spelled out.
  lemma SpliceOfLines(hits: seq<Hit>, run: seq<nat>)
    requires Chain(run, hits) && forall k :: 0 <= k < |run| ==> Fits(hits[run[k]])
    ensures var lo, hi, lines := hits[run[0]].startLine, MaxEnd(hits, run), LinesByNo(hits, run);
            && lo <= hi
            && (forall n :: lo <= n <= hi ==> n in lines)
            && Splice(hits, run) == Some(Join(Pick(lines, lo, hi)))
  {
    MaxEndIsMax(hits, run);
    assert Fits(hits[run[0]]);
    var lo, hi, lines := hits[run[0]].startLine, MaxEnd(hits, run), LinesByNo(hits, run);
    forall n | lo <= n <= hi
      ensures n in lines
    {
      ChainCovers(hits, run, n);
    }
  }

  // A merged run keeps its best member's other fields and has the run's best score.
  lemma ShownFields(hits: seq<Hit>, i: nat)
    requires i < |hits|
    ensures Shown(hits, i).score >= hits[i].score
    ensures Shown(hits, i).filePath == hits[i].filePath
    ensures !Consumed(hits, i) ==> Shown(hits, i).rest == hits[i].rest && Shown(hits, i).source == hits[i].source
  {
    var run := Group(hits, i);
    var j :| 0 <= j < |run| && run[j] == i;
    assert MaxScore(hits, run) >= hits[run[j]].score;
    assert Best(run) in run;
  }

  // The two hits go into one survivor.
  predicate Together(hits: seq<Hit>, j: nat, i: nat) {
    i < |hits| && j < |hits| && Shown(hits, i) == Shown(hits, j)
  }

  lemma ShownTogether(hits: seq<Hit>, j: nat, k: nat)
    requires j < |hits| && Merges(hits, j) && k < |Group(hits, j)|
    ensures Group(hits, j)[k] < |hits| && Shown(hits, Group(hits, j)[k]) == Shown(hits, j)
  {
    assert Group(hits, j)[k] in Group(hits, j);
    GroupOfMember(hits, j, Group(hits, j)[k]);
  }

  lemma ScoreGiven(hits: seq<Hit>, j: nat)
    requires j < |hits|
    ensures exists i: nat :: Together(hits, j, i) && hits[i].score == Shown(hits, j).score
  {
    if Merges(hits, j) {
      var run := Group(hits, j);
      var k :| 0 <= k < |run| && hits[run[k]].score == MaxScore(hits, run);
      ShownTogether(hits, j, k);
      assert Together(hits, j, run[k]);
    } else {
      assert Together(hits, j, j);
    }
  }

  lemma StartGiven(hits: seq<Hit>, j: nat)
    requires j < |hits|
    ensures exists i: nat :: Together(hits, j, i) && hits[i].startLine == Shown(hits, j).startLine
  {
    if Merges(hits, j) {
      ShownTogether(hits, j, 0);
      assert Together(hits, j, Group(hits, j)[0]);
    } else {
      assert Together(hits, j, j);
    }
  }

  lemma EndGiven(hits: seq<Hit>, j: nat)
    requires j < |hits|
    ensures exists i: nat :: Together(hits, j, i) && hits[i].endLine == Shown(hits, j).endLine
  {
    if Merges(hits, j) {
      var run := Group(hits, j);
      MaxEndIsMax(hits, run);
      var k :| 0 <= k < |run| && hits[run[k]].endLine == MaxEnd(hits, run);
      ShownTogether(hits, j, k);
      assert Together(hits, j, run[k]);
    } else {
      assert Together(hits, j, j);
    }
  }

  lemma GraphTold(hits: seq<Hit>, i: nat)
    requires i < |hits| && hits[i].graphEnhanced
    ensures Shown(hits, i).graphEnhanced
  {
    if Merges(hits, i) {
      var k :| 0 <= k < |Group(hits, i)| && Group(hits, i)[k] == i;
      assert hits[Group(hits, i)[k]].graphEnhanced;
    }
  }

  lemma GraphGiven(hits: seq<Hit>, j: nat)
    requires j < |hits|
    ensures Shown(hits, j).graphEnhanced <==> exists i: nat :: Together(hits, j, i) && hits[i].graphEnhanced
  {
    forall i: nat | Together(hits, j, i) && hits[i].graphEnhanced
      ensures Shown(hits, j).graphEnhanced
    {
      GraphTold(hits, i);
    }
    if Shown(hits, j).graphEnhanced {
      if Merges(hits, j) {
        var run := Group(hits, j);
        var k :| 0 <= k < |run| && hits[run[k]].graphEnhanced;
        ShownTogether(hits, j, k);
        assert Together(hits, j, run[k]);
      } else {
        assert Together(hits, j, j);
      }
    }
  }

  /** A survivor's score, first and last line are those of hits that went into it, and it is
      marked as enhanced exactly if one of them is. */
  lemma FieldsGiven(hits: seq<Hit>, m: nat)
    requires m < |Merged(hits)|
    ensures
      var out := Merged(hits)[m];
      && (exists i :: 0 <= i < |hits| && Shown(hits, i) == out && hits[i].score == out.score)
      && (exists i :: 0 <= i < |hits| && Shown(hits, i) == out && hits[i].startLine == out.startLine)
      && (exists i :: 0 <= i < |hits| && Shown(hits, i) == out && hits[i].endLine == out.endLine)
      && (out.graphEnhanced <==> exists i :: 0 <= i < |hits| && Shown(hits, i) == out && hits[i].graphEnhanced)
  {
    var j := Survivors(ConsumedRanks(hits), |hits|)[m];
    ScoreGiven(hits, j);
    StartGiven(hits, j);
    EndGiven(hits, j);
    GraphGiven(hits, j);
    if Merged(hits)[m].graphEnhanced {
      var i: nat :| Together(hits, j, i) && hits[i].graphEnhanced;
    }
    forall i | 0 <= i < |hits| && Shown(hits, i) == Merged(hits)[m] && hits[i].graphEnhanced
      ensures Together(hits, j, i)
    {
    }
  }

  /** A run is merged exactly if it has two or more members and each snippet has as many lines as its range.
      Then only its best-ranked member survives; otherwise every member does, as it was. */
  lemma MergedExactly(hits: seq<Hit>, i: nat)
    requires i < |hits|
    ensures
      var run, ranks := Group(hits, i), Survivors(ConsumedRanks(hits), |hits|);
      var merges := |run| >= 2 &&
        forall j :: 0 <= j < |hits| && j in run ==>
          |Split(hits[j].snippet)| == hits[j].endLine - hits[j].startLine + 1;
      && (!merges ==> i in ranks && Shown(hits, i) == hits[i])
      && (merges ==> (i in ranks <==> forall j :: j in run ==> i <= j))
      && (merges ==> forall j :: 0 <= j < |hits| && j in run ==> Shown(hits, j) == Shown(hits, i))
  {
    var run := Group(hits, i);
    SurvivorsAre(ConsumedRanks(hits), |hits|);
    assert forall k :: 0 <= k < |run| ==> run[k] in run;
    FitsAll(hits, run);
    forall j | 0 <= j < |hits| && j in run
      ensures Group(hits, j) == run
    {
      GroupOfMember(hits, i, j);
    }
    BestIs(run, i);
  }

  lemma FitsAll(hits: seq<Hit>, run: seq<nat>)
    requires Chain(run, hits)
    ensures Splice(hits, run).Some? <==> forall j :: 0 <= j < |hits| && j in run ==> Fits(hits[j])
  {
    if forall j :: 0 <= j < |hits| && j in run ==> Fits(hits[j]) {
      forall k | 0 <= k < |run|
        ensures Fits(hits[run[k]])
      {
        assert run[k] in run;
      }
    }
  }

  lemma BestIs(run: seq<nat>, i: nat)
    requires i in run
    ensures i == Best(run) <==> forall j :: j in run ==> i <= j
  {
    assert Best(run) in run;
  }

  /** The survivors keep their rank order, each at its best member's rank, and every hit is in
      one at its own rank or a better one, with at least its score. */
  lemma RanksKept(hits: seq<Hit>)
    ensures
      var ranks, out := Survivors(ConsumedRanks(hits), |hits|), Merged(hits);
      && |out| == |ranks|
      && (forall a, b :: 0 <= a < b < |ranks| ==> ranks[a] < ranks[b])
      && (forall k :: 0 <= k < |ranks| ==>
            out[k].filePath == hits[ranks[k]].filePath && out[k].source == hits[ranks[k]].source &&
            out[k].rest == hits[ranks[k]].rest)
      && (forall i :: 0 <= i < |hits| ==>
            Shown(hits, i).score >= hits[i].score &&
            exists k :: 0 <= k < |ranks| && ranks[k] <= i && out[k] == Shown(hits, i))
  {
    var ranks := Survivors(ConsumedRanks(hits), |hits|);
    SurvivorsAre(ConsumedRanks(hits), |hits|);
    forall k | 0 <= k < |ranks|
      ensures Merged(hits)[k].filePath == hits[ranks[k]].filePath && Merged(hits)[k].source == hits[ranks[k]].source
      ensures Merged(hits)[k].rest == hits[ranks[k]].rest
    {
      assert ranks[k] in ranks;
      ShownFields(hits, ranks[k]);
    }
    forall i | 0 <= i < |hits|
      ensures Shown(hits, i).score >= hits[i].score
      ensures exists k :: 0 <= k < |ranks| && ranks[k] <= i && Merged(hits)[k] == Shown(hits, i)
    {
      ShownFields(hits, i);
      var k := ShownSurvives(hits, i);
    }
  }
}
