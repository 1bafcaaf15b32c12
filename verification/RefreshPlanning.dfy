/**
  Planning and enqueueing chunk-summary refreshes: which stale source ends up in which list of
  the plan, and that none is lost or doubled on the way.
*/
module RefreshPlanning {
  import opened Options
  import SummaryRefresh

  type SourceId = nat
  type JobId = nat

  // A source as the registry has it.
  datatype Source = Source(id: SourceId, recorded: Option<int>, target: Option<int>, chunkCount: nat)

  datatype Item = Item(
    source: SourceId, current: Option<int>, target: int, chunkCount: nat,
    job: Option<JobId>, blocking: Option<JobId>, refused: bool)

  // ---------------------------------------------------------------------------
  // What the lists have to hold
  // ---------------------------------------------------------------------------

  // The source is to be refreshed.
  predicate Wanted(s: Source, targetFor: SourceId -> Option<int>) {
    targetFor(s.id).Some? && SummaryRefresh.IsStale(s.recorded, s.target, targetFor(s.id).value)
  }

  function ItemOf(s: Source, targetFor: SourceId -> Option<int>): Item
    requires Wanted(s, targetFor)
  {
    Item(s.id, s.recorded, targetFor(s.id).value, s.chunkCount, None, None, false)
  }

  // The items of the wanted sources, in order.
  function StaleItems(sources: seq<Source>, targetFor: SourceId -> Option<int>): seq<Item> {
    if sources == [] then []
    else
      var s := sources[|sources| - 1];
      StaleItems(sources[..|sources| - 1], targetFor) + (if Wanted(s, targetFor) then [ItemOf(s, targetFor)] else [])
  }

  // The items as the gate refuses them.
  function Refused(items: seq<Item>): seq<Item> {
    if items == [] then []
    else
      var item := items[|items| - 1];
      Refused(items[..|items| - 1]) + [item.(refused := true)]
  }

  // The items without an active job, and those with one, which blocks them.
  function Free(items: seq<Item>, activeFor: SourceId -> Option<JobId>): seq<Item> {
    if items == [] then []
    else
      var item := items[|items| - 1];
      Free(items[..|items| - 1], activeFor) + (if activeFor(item.source).None? then [item] else [])
  }

  function Blocked(items: seq<Item>, activeFor: SourceId -> Option<JobId>): seq<Item> {
    if items == [] then []
    else
      var item := items[|items| - 1];
      Blocked(items[..|items| - 1], activeFor) +
        (if activeFor(item.source).Some? then [item.(blocking := activeFor(item.source))] else [])
  }

  // The items whose job was created, and those that lost the race for their source.
  function Created(items: seq<Item>, createJob: SourceId -> Option<JobId>): seq<Item> {
    if items == [] then []
    else
      var item := items[|items| - 1];
      Created(items[..|items| - 1], createJob) +
        (if createJob(item.source).Some? then [item.(job := createJob(item.source))] else [])
  }

  function Beaten(items: seq<Item>, createJob: SourceId -> Option<JobId>,
      winner: SourceId -> Option<JobId>): seq<Item> {
    if items == [] then []
    else
      var item := items[|items| - 1];
      Beaten(items[..|items| - 1], createJob, winner) +
        (if createJob(item.source).None? then [item.(blocking := winner(item.source))] else [])
  }

  function SourcesOf(items: seq<Item>): multiset<SourceId> {
    if items == [] then multiset{}
    else SourcesOf(items[..|items| - 1]) + multiset{items[|items| - 1].source}
  }

  function Chunks(items: seq<Item>): nat {
    if items == [] then 0 else Chunks(items[..|items| - 1]) + items[|items| - 1].chunkCount
  }

  lemma {:induction false} Totals(a: seq<Item>, b: seq<Item>)
    ensures SourcesOf(a + b) == SourcesOf(a) + SourcesOf(b)
    ensures Chunks(a + b) == Chunks(a) + Chunks(b)
  {
    if b == [] {
      assert a + b == a;
    } else {
      assert (a + b)[..|a + b| - 1] == a + b[..|b| - 1];
      Totals(a, b[..|b| - 1]);
    }
  }

  lemma TotalsAppend(a: seq<Item>, item: Item)
    ensures SourcesOf(a + [item]) == SourcesOf(a) + multiset{item.source}
    ensures Chunks(a + [item]) == Chunks(a) + item.chunkCount
  {
    assert (a + [item])[..|a|] == a;
  }

  lemma {:induction false} RefusedConserves(items: seq<Item>)
    ensures SourcesOf(Refused(items)) == SourcesOf(items) && Chunks(Refused(items)) == Chunks(items)
  {
    if items != [] {
      RefusedConserves(items[..|items| - 1]);
      TotalsAppend(Refused(items[..|items| - 1]), items[|items| - 1].(refused := true));
    }
  }

  // One list as the sum of two others.
  ghost predicate Sum(items: seq<Item>, a: seq<Item>, b: seq<Item>) {
    SourcesOf(a) + SourcesOf(b) == SourcesOf(items) && Chunks(a) + Chunks(b) == Chunks(items)
  }

  lemma SumAppend(items: seq<Item>, a: seq<Item>, b: seq<Item>, item: Item, x: Item)
    requires Sum(items, a, b) && x.source == item.source && x.chunkCount == item.chunkCount
    ensures Sum(items + [item], a + [x], b) && Sum(items + [item], a, b + [x])
  {
    TotalsAppend(items, item);
    TotalsAppend(a, x);
    TotalsAppend(b, x);
  }

  /** Sorting the stale items by whether their source has an active job loses none and doubles
      none. */
  lemma {:induction false} SortingConserves(items: seq<Item>, activeFor: SourceId -> Option<JobId>)
    ensures Sum(items, Free(items, activeFor), Blocked(items, activeFor))
  {
    if items != [] {
      var front, item := items[..|items| - 1], items[|items| - 1];
      SortingConserves(front, activeFor);
      assert items == front + [item];
      var x := if activeFor(item.source).None? then item else item.(blocking := activeFor(item.source));
      SumAppend(front, Free(front, activeFor), Blocked(front, activeFor), item, x);
      SortNext(front, item, activeFor);
    }
  }

  lemma SortNext(front: seq<Item>, item: Item, activeFor: SourceId -> Option<JobId>)
    ensures Refused(front + [item]) == Refused(front) + [item.(refused := true)]
    ensures activeFor(item.source).None? ==>
      Free(front + [item], activeFor) == Free(front, activeFor) + [item] &&
      Blocked(front + [item], activeFor) == Blocked(front, activeFor)
    ensures activeFor(item.source).Some? ==>
      Free(front + [item], activeFor) == Free(front, activeFor) &&
      Blocked(front + [item], activeFor) == Blocked(front, activeFor) + [item.(blocking := activeFor(item.source))]
  {
    assert (front + [item])[..|front|] == front;
  }

  /** Creating the jobs keeps every candidate, whichever of them lose the race for their source. */
  lemma {:induction false} RaceConserves(
    items: seq<Item>, createJob: SourceId -> Option<JobId>, winner: SourceId -> Option<JobId>)
    ensures Sum(items, Created(items, createJob), Beaten(items, createJob, winner))
  {
    if items != [] {
      var front, item := items[..|items| - 1], items[|items| - 1];
      RaceConserves(front, createJob, winner);
      assert items == front + [item];
      var x := if createJob(item.source).None? then item.(blocking := winner(item.source))
        else item.(job := createJob(item.source));
      SumAppend(front, Created(front, createJob), Beaten(front, createJob, winner), item, x);
      RaceNext(front, item, createJob, winner);
    }
  }

  lemma RaceNext(front: seq<Item>, item: Item, createJob: SourceId -> Option<JobId>, winner: SourceId -> Option<JobId>)
    ensures createJob(item.source).None? ==>
      Created(front + [item], createJob) == Created(front, createJob) &&
      Beaten(front + [item], createJob, winner) == Beaten(front, createJob, winner) +
        [item.(blocking := winner(item.source))]
    ensures createJob(item.source).Some? ==>
      Created(front + [item], createJob) == Created(front, createJob) + [item.(job := createJob(item.source))] &&
      Beaten(front + [item], createJob, winner) == Beaten(front, createJob, winner)
  {
    assert (front + [item])[..|front|] == front;
  }

  /** Enqueueing a plan keeps its sources and its chunk count: the winners and the losers of the
      races, with those deferred before, are the candidates and those deferred before. */
  lemma EnqueueConserves(
    items: seq<Item>, before: seq<Item>, createJob: SourceId -> Option<JobId>, winner: SourceId -> Option<JobId>)
    ensures SourcesOf(Created(items, createJob)) + SourcesOf(before + Beaten(items, createJob, winner)) ==
            SourcesOf(items) + SourcesOf(before)
    ensures Chunks(Created(items, createJob)) + Chunks(before + Beaten(items, createJob, winner)) ==
            Chunks(items) + Chunks(before)
  {
    RaceConserves(items, createJob, winner);
    Totals(before, Beaten(items, createJob, winner));
  }

  // ---------------------------------------------------------------------------
  // What is in the lists
  // ---------------------------------------------------------------------------

  // The source has a target version, and is marked as under refresh or recorded at another one;
  // the item says so and nothing else.
  predicate Plans(s: Source, targetFor: SourceId -> Option<int>, item: Item) {
    && targetFor(s.id).Some?
    && (s.target.Some? || (s.recorded.Some? && s.recorded.value != targetFor(s.id).value))
    && item.source == s.id && item.current == s.recorded && item.target == targetFor(s.id).value
    && item.chunkCount == s.chunkCount
    && item.job.None? && item.blocking.None? && !item.refused
  }

  /** The stale items are those of the sources to be refreshed. */
  lemma {:induction false} StaleExactly(sources: seq<Source>, targetFor: SourceId -> Option<int>, item: Item)
    ensures item in StaleItems(sources, targetFor) <==>
            exists k :: 0 <= k < |sources| && Plans(sources[k], targetFor, item)
  {
    if sources != [] {
      var front, last := sources[..|sources| - 1], |sources| - 1;
      StaleExactly(front, targetFor, item);
      if item in StaleItems(front, targetFor) {
        var k :| 0 <= k < |front| && Plans(front[k], targetFor, item);
        assert sources[k] == front[k];
      }
      if k :| 0 <= k < |sources| && Plans(sources[k], targetFor, item) {
        assert k < last ==> front[k] == sources[k];
        assert k == last ==> item == ItemOf(sources[last], targetFor);
      }
    }
  }

  /** Of the stale items those without an active job are enqueued as they are, and those with one
      are deferred with its id; a refused item is marked as such and nothing else. */
  lemma {:induction false} SortedExactly(items: seq<Item>, activeFor: SourceId -> Option<JobId>, item: Item)
    ensures item in Free(items, activeFor) <==> item in items && activeFor(item.source).None?
    ensures item in Blocked(items, activeFor) <==>
            exists k :: 0 <= k < |items| && activeFor(items[k].source).Some? &&
              item == items[k].(blocking := activeFor(items[k].source))
    ensures item in Refused(items) <==> exists k :: 0 <= k < |items| && item == items[k].(refused := true)
  {
    if items != [] {
      var front, last := items[..|items| - 1], items[|items| - 1];
      assert items == front + [last];
      SortedExactly(front, activeFor, item);
      SortNext(front, last, activeFor);
    }
  }

  /** The items whose job was created carry its id, and the beaten ones the winner's. */
  lemma {:induction false} RacedExactly(
    items: seq<Item>, createJob: SourceId -> Option<JobId>, winner: SourceId -> Option<JobId>, item: Item)
    ensures item in Created(items, createJob) <==>
            exists k :: 0 <= k < |items| && createJob(items[k].source).Some? &&
              item == items[k].(job := createJob(items[k].source))
    ensures item in Beaten(items, createJob, winner) <==>
            exists k :: 0 <= k < |items| && createJob(items[k].source).None? &&
              item == items[k].(blocking := winner(items[k].source))
  {
    if items != [] {
      var front, last := items[..|items| - 1], items[|items| - 1];
      assert items == front + [last];
      RacedExactly(front, createJob, winner, item);
      RaceNext(front, last, createJob, winner);
    }
  }

  // ---------------------------------------------------------------------------
  // The plan
  // ---------------------------------------------------------------------------

  class RefreshPlan {
    var enqueued: seq<Item>
    var deferred: seq<Item>
    var notEnqueued: seq<Item>
    var grouped: bool              // the jobs share a group

    constructor ()
      ensures enqueued == deferred == notEnqueued == [] && !grouped
    {
      enqueued, deferred, notEnqueued, grouped := [], [], [], false;
    }

    function AllSources(): multiset<SourceId>
      reads this
    {
      SourcesOf(enqueued) + SourcesOf(deferred) + SourcesOf(notEnqueued)
    }

    // `total_chunks`
    function TotalChunks(): nat
      reads this
    {
      Chunks(enqueued) + Chunks(deferred) + Chunks(notEnqueued)
    }

    /** `plan_refreshes`, on a new plan: every stale source is in exactly one list, by the gate
        and by whether it has an active job, in the order of the sources. */
    method Plan(sources: seq<Source>, targetFor: SourceId -> Option<int>, writable: bool,
        activeFor: SourceId -> Option<JobId>)
      requires enqueued == deferred == notEnqueued == []
      modifies this
      ensures AllSources() == SourcesOf(StaleItems(sources, targetFor))
      ensures TotalChunks() == Chunks(StaleItems(sources, targetFor))
      ensures !writable ==>
        enqueued == deferred == [] && notEnqueued == Refused(StaleItems(sources, targetFor))
      ensures writable ==>
        && notEnqueued == []
        && enqueued == Free(StaleItems(sources, targetFor), activeFor)
        && deferred == Blocked(StaleItems(sources, targetFor), activeFor)
    {
      var stale := CollectStale(sources, targetFor);
      SortStale(stale, writable, activeFor);
      if writable {
        SortingConserves(stale, activeFor);
      } else {
        RefusedConserves(stale);
      }
    }

    // The loop over the stale sources.
    method SortStale(stale: seq<Item>, writable: bool, activeFor: SourceId -> Option<JobId>)
      requires enqueued == deferred == notEnqueued == []
      modifies this
      ensures !writable ==> enqueued == deferred == [] && notEnqueued == Refused(stale)
      ensures writable ==>
        notEnqueued == [] && enqueued == Free(stale, activeFor) && deferred == Blocked(stale, activeFor)
    {
      for k := 0 to |stale|
        invariant !writable ==> enqueued == deferred == [] && notEnqueued == Refused(stale[..k])
        invariant writable ==>
          notEnqueued == [] && enqueued == Free(stale[..k], activeFor) && deferred == Blocked(stale[..k], activeFor)
      {
        var item := stale[k];
        SortNext(stale[..k], item, activeFor);
        assert stale[..k + 1] == stale[..k] + [item];
        if !writable {
          notEnqueued := notEnqueued + [item.(refused := true)];
        } else if activeFor(item.source).Some? {
          deferred := deferred + [item.(blocking := activeFor(item.source))];
        } else {
          enqueued := enqueued + [item];
        }
      }
      assert stale[..|stale|] == stale;
    }

    method CollectStale(sources: seq<Source>, targetFor: SourceId -> Option<int>) returns (stale: seq<Item>)
      ensures stale == StaleItems(sources, targetFor)
    {
      stale := [];
      for k := 0 to |sources|
        invariant stale == StaleItems(sources[..k], targetFor)
      {
        var s := sources[k];
        assert sources[..k + 1][..k] == sources[..k];
        if targetFor(s.id).Some? && SummaryRefresh.IsStale(s.recorded, s.target, targetFor(s.id).value) {
          stale := stale + [ItemOf(s, targetFor)];
        }
      }
      assert sources[..|sources|] == sources;
    }

    /** `enqueue_refreshes`: a source whose job loses the race for it moves to `deferred` with
        the winner's id; the others keep their order and get their job's id. `EnqueueConserves`
        says that no source is lost. */
    method Enqueue(createJob: SourceId -> Option<JobId>, winner: SourceId -> Option<JobId>, groupStore: bool)
      modifies this
      ensures notEnqueued == old(notEnqueued)
      ensures enqueued == Created(old(enqueued), createJob)
      ensures deferred == old(deferred) + Beaten(old(enqueued), createJob, winner)
      ensures grouped == (old(grouped) || (|old(enqueued)| >= 2 && groupStore))
    {
      var candidates := enqueued;
      if candidates == [] {
        return;
      }
      if |candidates| >= 2 && groupStore {
        grouped := true;
      }
      enqueued := CreateJobs(candidates, createJob, winner);
    }

    // The loop over the candidates.
    method CreateJobs(candidates: seq<Item>, createJob: SourceId -> Option<JobId>, winner: SourceId -> Option<JobId>)
      returns (still: seq<Item>)
      modifies this`deferred
      ensures still == Created(candidates, createJob)
      ensures deferred == old(deferred) + Beaten(candidates, createJob, winner)
    {
      still := [];
      ghost var before := deferred;
      ghost var beaten: seq<Item> := [];
      for k := 0 to |candidates|
        invariant still == Created(candidates[..k], createJob)
        invariant beaten == Beaten(candidates[..k], createJob, winner)
        invariant deferred == before + beaten
      {
        var item := candidates[k];
        RaceNext(candidates[..k], item, createJob, winner);
        assert candidates[..k + 1] == candidates[..k] + [item];
        if createJob(item.source).None? {
          Defer(item.(blocking := winner(item.source)), before, beaten);
          beaten := beaten + [item.(blocking := winner(item.source))];
        } else {
          still := still + [item.(job := createJob(item.source))];
        }
      }
      assert candidates[..|candidates|] == candidates;
    }

    // `plan.deferred.append(item)`
    method Defer(loser: Item, ghost before: seq<Item>, ghost beaten: seq<Item>)
      requires deferred == before + beaten
      modifies this`deferred
      ensures deferred == before + (beaten + [loser])
    {
      deferred := deferred + [loser];
    }
  }
}
