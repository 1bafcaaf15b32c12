/**
  The refresh marker: a job that rewrites a source's summary vectors batch by batch, and the
  mark that keeps a half-refreshed source from being reported as current.

  Between any two steps of the job other parties may act (the pin moves, index work starts to
  wait, the source is deleted and its rows with it), and every step may raise or crash the
  process, a batch write also half way.
*/
module SummaryRefresh {
  import opened Options
  import opened SummaryVectors

  type RowId = nat

  // A stored chunk: its text, its other fields, and its summary vector.
  datatype Row = Row(text: string, rest: nat, vector: Option<Embedding>)

  // `is_stale`.
  predicate IsStale(recorded: Option<int>, target: Option<int>, effective: int) {
    target.Some? || (recorded.Some? && recorded.value != effective)
  }

  datatype Ending =
    | Recorded                  // rewrote every row
    | Partly(errors: nat)       // rewrote the rows whose summary did not fail
    | Disabled
    | Current
    | Preempted(processed: nat)
    | Deleted
    | AllFailed(total: nat)
    | Miscounted(found: nat, total: nat)    // not as many rows as the snapshot had
    | BadBatchSize              // `range` refuses a step of 0
    | Raised
    | Crashed

  datatype Status = Going | Ended(why: Ending) {
    predicate IsFailure() { Ended? }

    function PropagateFailure(): Status { this }
  }

  // Rows were only lost.
  predicate Lost(rows: map<RowId, Row>, from: map<RowId, Row>) {
    forall id :: id in rows ==> id in from && rows[id] == from[id]
  }

  lemma FewerRows(rows: map<RowId, Row>, from: map<RowId, Row>)
    requires Lost(rows, from)
    ensures |rows| <= |from| && rows.Values <= from.Values
  {
    FewerKeys(rows.Keys, from.Keys);
    assert |rows| == |rows.Keys| && |from| == |from.Keys|;
  }

  lemma SameCount(rows: map<RowId, Row>, id: RowId, row: Row, key: RowId)
    requires key !in rows
    ensures |(rows - {id})[key := row]| == |rows| + if id in rows then 0 else 1
    ensures id in rows ==> |rows[id := row]| == |rows|
  {
    assert (rows - {id})[key := row].Keys == rows.Keys - {id} + {key};
    assert |(rows - {id})[key := row]| == |(rows - {id})[key := row].Keys| && |rows| == |rows.Keys|;
    if id in rows {
      assert rows[id := row].Keys == rows.Keys;
      assert |rows[id := row]| == |rows[id := row].Keys|;
    }
  }

  lemma FewerKeys(few: set<RowId>, many: set<RowId>)
    requires few <= many
    ensures |few| <= |many|
  {
    assert many == few + (many - few);
  }

  predicate Written(row: Row, fetched: seq<(RowId, Row)>, vectors: seq<Option<Embedding>>)
    requires |vectors| == |fetched|
  {
    exists k :: 0 <= k < |fetched| && row == fetched[k].1.(vector := vectors[k])
  }

  // The first `n` fetched rows are written, and every other row is the one there was.
  predicate SoFar(rows: map<RowId, Row>, from: map<RowId, Row>, fetched: seq<(RowId, Row)>,
      vectors: seq<Option<Embedding>>, n: nat)
    requires |vectors| == |fetched| && n <= |fetched|
  {
    forall id :: id in rows ==>
      Written(rows[id], fetched, vectors) || (id in from && rows[id] == from[id] && !Fetched(id, fetched[..n]))
  }

  lemma OneWritten(before: map<RowId, Row>, rows: map<RowId, Row>, from: map<RowId, Row>, fetched: seq<(RowId, Row)>,
      vectors: seq<Option<Embedding>>, n: nat)
    requires |vectors| == |fetched| && n < |fetched| && SoFar(before, from, fetched, vectors, n)
    requires forall id :: id in rows ==>
               rows[id] == fetched[n].1.(vector := vectors[n]) ||
               (id != fetched[n].0 && id in before && rows[id] == before[id])
    ensures SoFar(rows, from, fetched, vectors, n + 1)
  {
    assert forall k :: 0 <= k < n + 1 ==> fetched[..n + 1][k] == if k < n then fetched[..n][k] else fetched[n];
  }

  predicate Fetched(id: RowId, fetched: seq<(RowId, Row)>) {
    exists k :: 0 <= k < |fetched| && fetched[k].0 == id
  }

  class Source {
    const words: (string, int) -> string
    const embed: string -> Embedding
    const batchSize: nat
    const supported: bool          // summary vectors are enabled and the store has them
    const rekeys: bool             // Milvus: an upsert gives the row a new primary key
    var registered: bool              // the registry row
    var recorded: Option<int>      // summary_prompt_version
    var target: Option<int>        // summary_refresh_target
    var rows: map<RowId, Row>
    var nextId: nat
    var pin: int                   // the effective chunk_summary version
    var waiting: bool              // a job waits behind the refresh
    ghost var gone: nat            // how many rows have been deleted
    ghost var looked: bool         // the job has found no waiter since it last wrote
    ghost var fault: Option<Ending>    // the exception or crash that ended the job

    constructor (words: (string, int) -> string, embed: string -> Embedding, batchSize: nat, supported: bool,
        rekeys: bool)
      ensures Valid() && Consistent()
    {
      this.words, this.embed, this.batchSize, this.supported, this.rekeys := words, embed, batchSize, supported, rekeys;
      registered, recorded, target, rows, nextId, waiting, gone := true, None, None, map[], 0, false, 0;
      looked, fault := false, None;
    }

    ghost predicate Valid()
      reads this
    {
      forall id :: id in rows ==> id < nextId
    }

    // The rows there are and those that were deleted.
    ghost function AllRows(): nat
      reads this
    {
      |rows| + gone
    }

    predicate At(id: RowId, v: int)
      requires id in rows
      reads this
    {
      rows[id].vector == Expected(words, embed, rows[id].text, v)
    }

    // The rows there were, and each of them with its vector for version `v`.
    function Reach(from: map<RowId, Row>, v: int): (reach: set<Row>)
      ensures Within(from, reach) && Closed(reach, v)
    {
      (set id | id in from :: from[id]) +
      (set id | id in from :: from[id].(vector := Expected(words, embed, from[id].text, v)))
    }

    predicate Closed(allowed: set<Row>, v: int) {
      forall row :: row in allowed ==> row.(vector := Expected(words, embed, row.text, v)) in allowed
    }

    predicate Within(now: map<RowId, Row>, allowed: set<Row>) {
      forall id :: id in now ==> now[id] in allowed
    }

    // With no refresh under way, every row is at the recorded version.
    ghost predicate Consistent()
      reads this
    {
      registered && target.None? && recorded.Some? ==> forall id :: id in rows ==> At(id, recorded.value)
    }

    // The job ends so exactly if an awaited call raised or the process died.
    ghost predicate Faults(status: Status)
      reads this
    {
      fault == if status == Ended(Raised) || status == Ended(Crashed) then Some(status.why) else None
    }

    // What others delete meanwhile.
    method DeleteRows(lost: set<RowId>)
      modifies this`rows, this`gone
      ensures Lost(rows, old(rows)) && AllRows() == old(AllRows())
    {
      FewerRows(rows - lost, rows);
      gone := gone + |rows| - |rows - lost|;
      rows := rows - lost;
    }

    // An await: whatever the others do meanwhile, and how the awaited call ends. Anyone may read
    // the registry and the rows here, so this is where `Consistent` has to hold. No call is awaited once
    // one has raised.
    method Await() returns (status: Status)
      requires Valid() && Consistent() && fault.None?
      modifies this
      ensures Valid() && Consistent() && Faults(status)
      ensures recorded == old(recorded) && target == old(target) && nextId == old(nextId) && looked == old(looked)
      ensures Lost(rows, old(rows)) && AllRows() == old(AllRows())
      ensures registered ==> old(registered)
      ensures status == Going || status == Ended(Raised) || status == Ended(Crashed)
    {
      var lost: set<RowId>, deleted: bool, moved: int, arrived: bool := *, *, *, *;
      DeleteRows(lost);
      registered := registered && !deleted;
      pin := moved;
      waiting := arrived;
      var raises: bool, crashes: bool := *, *;
      status := if crashes then Ended(Crashed) else if raises then Ended(Raised) else Going;
      fault := if status.Ended? then Some(status.why) else None;
    }

    // A place where a call may await, or not.
    method Pause() returns (status: Status)
      requires Valid() && Consistent() && fault.None?
      modifies this
      ensures Valid() && Consistent() && Faults(status)
      ensures recorded == old(recorded) && target == old(target) && nextId == old(nextId) && looked == old(looked)
      ensures Lost(rows, old(rows)) && AllRows() == old(AllRows())
      ensures registered ==> old(registered)
      ensures status == Going || status == Ended(Raised) || status == Ended(Crashed)
    {
      var pause: bool := *;
      status := Going;
      if pause {
        status := Await();
      }
    }

    // A write to the registry row that takes effect or not, and may have raised before or after.
    method MarkSummaryRefresh(v: int, lands: bool) returns (status: Status)
      requires Valid() && Consistent() && fault.None?
      modifies this
      ensures Valid() && Consistent() && Faults(status)
      ensures recorded == old(recorded) && nextId == old(nextId)
      ensures target == if lands && old(registered) then Some(v) else old(target)
      ensures !lands ==> status != Going
      ensures Lost(rows, old(rows)) && AllRows() == old(AllRows())
      ensures registered ==> old(registered)
      ensures status == Going || status == Ended(Raised) || status == Ended(Crashed)
    {
      if lands && registered {
        target := Some(v);
      }
      status := Await();
      if !lands && status.Going? {
        status, fault := Ended(Raised), Some(Raised);
      }
    }

    // One UPDATE. A database error is logged and swallowed.
    method RecordSummaryVersion(v: int, lands: bool) returns (status: Status)
      requires Valid() && Consistent() && fault.None?
      requires registered ==> forall id :: id in rows ==> At(id, v)
      modifies this
      ensures Valid() && Consistent() && Faults(status)
      ensures recorded == if lands && old(registered) then Some(v) else old(recorded)
      ensures target == if lands && old(registered) then None else old(target)
      ensures nextId == old(nextId)
      ensures Lost(rows, old(rows)) && AllRows() == old(AllRows())
      ensures registered ==> old(registered)
      ensures status == Going || status == Ended(Raised) || status == Ended(Crashed)
    {
      if lands && registered {
        recorded, target := Some(v), None;
      }
      status := Await();
    }

    method FetchRows(ids: seq<RowId>) returns (fetched: seq<(RowId, Row)>)
      ensures forall k :: 0 <= k < |fetched| ==>
        fetched[k].0 in ids && fetched[k].0 in rows && fetched[k].1 == rows[fetched[k].0]
      ensures forall id :: id in ids && id in rows ==> Fetched(id, fetched)
      ensures |fetched| <= |ids|
    {
      fetched := [];
      for i := 0 to |ids|
        invariant forall k :: 0 <= k < |fetched| ==>
          fetched[k].0 in ids && fetched[k].0 in rows && fetched[k].1 == rows[fetched[k].0]
        invariant forall k :: 0 <= k < i && ids[k] in rows ==> Fetched(ids[k], fetched)
        invariant |fetched| <= i
      {
        if ids[i] in rows {
          ghost var before := fetched;
          fetched := fetched + [(ids[i], rows[ids[i]])];
          assert fetched[|before|].0 == ids[i];
          forall k | 0 <= k < i && ids[k] in rows
            ensures Fetched(ids[k], fetched)
          {
            var m :| 0 <= m < |before| && before[m].0 == ids[k];
            assert fetched[m] == before[m];
          }
        }
      }
    }

    // One row of the write: Milvus upserts the whole row under a new key, even if it has gone
    // meanwhile; LanceDB updates the row in place, if it is still there.
    method WriteRow(id: RowId, row: Row)
      requires Valid()
      modifies this`rows, this`nextId
      ensures Valid() && nextId >= old(nextId)
      ensures rekeys ==> rows == (old(rows) - {id})[old(nextId) := row]
      ensures !rekeys ==> rows == if id in old(rows) then old(rows)[id := row] else old(rows)
      ensures AllRows() == old(AllRows()) || (rekeys && id !in old(rows) && AllRows() == old(AllRows()) + 1)
    {
      SameCount(rows, id, row, nextId);
      if rekeys {
        rows := rows - {id};
        rows := rows[nextId := row];
        nextId := nextId + 1;
      } else if id in rows {
        rows := rows[id := row];
      }
    }

    /** Rewrites the vectors of the fetched rows, and may stop half way. The job does so only to a
        source it has just found registered, and once it has looked for waiters again. */
    method WriteSummaryVectors(fetched: seq<(RowId, Row)>, vectors: seq<Option<Embedding>>) returns (status: Status)
      requires Valid() && fault.None? && |vectors| == |fetched|
      requires registered && target.Some? && looked
      modifies this
      ensures Valid() && Consistent() && Faults(status) && nextId >= old(nextId)
      ensures recorded == old(recorded) && target == old(target)
      ensures AllRows() >= old(AllRows()) && (!rekeys ==> AllRows() == old(AllRows()))
      ensures registered ==> old(registered)
      ensures !looked
      ensures forall id :: id in rows ==>
        Written(rows[id], fetched, vectors) || (id in old(rows) && rows[id] == old(rows[id]))
      ensures status.Going? ==> forall id :: id in rows ==>
        Written(rows[id], fetched, vectors) || (id in old(rows) && rows[id] == old(rows[id]) && !Fetched(id, fetched))
      ensures status == Going || status == Ended(Raised) || status == Ended(Crashed)
    {
      looked := false;
      for i := 0 to |fetched|
        invariant Valid() && Consistent() && nextId >= old(nextId)
        invariant recorded == old(recorded) && target == old(target)
        invariant AllRows() >= old(AllRows()) && (!rekeys ==> AllRows() == old(AllRows()))
        invariant registered ==> old(registered)
        invariant !looked && fault.None?
        invariant SoFar(rows, old(rows), fetched, vectors, i)
      {
        :- Pause();
        ghost var before := rows;
        var row := fetched[i].1.(vector := vectors[i]);
        WriteRow(fetched[i].0, row);
        OneWritten(before, rows, old(rows), fetched, vectors, i);
      }
      assert fetched[..|fetched|] == fetched;
      status := Await();
    }

    // The summaries of the fetched rows and the vectors they give: any summary may come from
    // the cache, and any may fail.
    method NewVectors(fetched: seq<(RowId, Row)>, v: int) returns (vectors: seq<Option<Embedding>>, errors: nat)
      ensures |vectors| == |fetched|
      ensures forall k :: 0 <= k < |fetched| ==>
        vectors[k] == Expected(words, embed, fetched[k].1.text, v) || (errors > 0 && vectors[k] == fetched[k].1.vector)
      ensures errors <= |fetched|
      ensures errors == |fetched| ==> forall k :: 0 <= k < |fetched| ==> vectors[k] == fetched[k].1.vector
    {
      var known: set<string>, failing: set<nat> := *, *;
      var texts := seq(|fetched|, k requires 0 <= k < |fetched| => fetched[k].1.text);
      var had := seq(|fetched|, k requires 0 <= k < |fetched| => fetched[k].1.vector);
      var cached := map t | t in texts && t in known :: words(t, v);
      var generate := (k: nat) =>
        if k >= |texts| || k in failing then Outcome(None, Error)
        else if words(texts[k], v) == "" then Outcome(None, Rejected)
        else Outcome(Some(words(texts[k], v)), Generated);
      var outcomes := SummariesForChunks(texts, cached, generate);
      vectors, errors := BatchVectors(outcomes, had, embed);
      NoneOrAllFailed(outcomes);
      forall k | 0 <= k < |fetched|
        ensures vectors[k] == if outcomes[k].strategy.Error? then had[k] else Expected(words, embed, texts[k], v)
      {
        RowGetsItsVector(words, embed, v, texts, cached, generate, k, had[k]);
      }
    }

    // What a round that ends the job has found.
    predicate EndsForReason(status: Status, processed: nat)
      reads this
    {
      && (status == Ended(Preempted(processed)) ==> waiting)
      && (status == Ended(Deleted) ==> !registered)
    }

    // `find_waiting_after`
    method LookForWaiters(processed: nat) returns (status: Status)
      requires Valid() && Consistent() && fault.None?
      modifies this
      ensures Valid() && Consistent() && Faults(status) && nextId == old(nextId)
      ensures recorded == old(recorded) && target == old(target)
      ensures registered ==> old(registered)
      ensures Lost(rows, old(rows)) && AllRows() == old(AllRows())
      ensures status == Ended(Preempted(processed)) ==> waiting
      ensures status.Going? ==> !waiting && looked
      ensures status in {Going, Ended(Preempted(processed)), Ended(Raised), Ended(Crashed)}
    {
      status := Await();
      if status.Going? {
        looked := !waiting;
        status := if waiting then Ended(Preempted(processed)) else Going;
      }
    }

    // The first half of a round: the checks, the fetch, the summaries and the new vectors.
    method PrepareBatch(v: int, batch: seq<RowId>, processed: nat)
      returns (status: Status, fetched: seq<(RowId, Row)>, vectors: seq<Option<Embedding>>, errors: nat)
      requires Valid() && Consistent() && fault.None?
      modifies this
      ensures Valid() && Consistent() && Faults(status) && nextId == old(nextId)
      ensures recorded == old(recorded) && target == old(target)
      ensures registered ==> old(registered)
      ensures Lost(rows, old(rows)) && AllRows() == old(AllRows())
      ensures |vectors| == |fetched|
      ensures forall k :: 0 <= k < |fetched| ==>
        fetched[k].0 in batch && fetched[k].0 in old(rows) && fetched[k].1 == old(rows)[fetched[k].0]
      ensures status.Going? ==> forall id :: id in batch && id in rows ==> Fetched(id, fetched)
      ensures forall k :: 0 <= k < |fetched| ==>
        vectors[k] == Expected(words, embed, fetched[k].1.text, v) || (errors > 0 && vectors[k] == fetched[k].1.vector)
      ensures errors <= |fetched| <= |batch|
      ensures errors == |fetched| ==> forall k :: 0 <= k < |fetched| ==> vectors[k] == fetched[k].1.vector
      ensures EndsForReason(status, processed) && (status.Going? ==> registered && looked)
      ensures status in {Going, Ended(Preempted(processed)), Ended(Deleted), Ended(Raised), Ended(Crashed)}
    {
      fetched, vectors, errors := [], [], 0;
      status := LookForWaiters(processed);
      if status.Ended? {
        return;
      }
      :- Await();
      if !registered {
        return Ended(Deleted), [], [], 0;
      }
      var found := FetchRows(batch);
      :- Await();
      fetched := found;
      vectors, errors := NewVectors(found, v);
      :- Await();
      for k := 0 to errors
        invariant Valid() && Consistent() && nextId == old(nextId)
        invariant recorded == old(recorded) && target == old(target)
        invariant registered ==> old(registered)
        invariant looked && fault.None?
        invariant Lost(rows, old(rows)) && AllRows() == old(AllRows())
        invariant forall id :: id in batch && id in rows ==> Fetched(id, fetched)
      {
        :- Await();
      }
      :- Await();
      status := if registered then Going else Ended(Deleted);
    }

    /** One round of the batch loop. */
    method RefreshBatch(v: int, batch: seq<RowId>, processed: nat, ghost allowed: set<Row>)
        returns (status: Status, errors: nat)
      requires Valid() && Consistent() && fault.None?
      requires registered ==> target.Some?
      requires Within(rows, allowed) && Closed(allowed, v)
      modifies this
      ensures Valid() && Consistent() && Faults(status) && nextId >= old(nextId)
      ensures recorded == old(recorded) && target == old(target)
      ensures registered ==> old(registered)
      ensures Within(rows, allowed)
      ensures AllRows() >= old(AllRows()) && (!rekeys ==> AllRows() == old(AllRows()))
      ensures status.Going? && errors == 0 ==> forall id :: id in rows ==>
        At(id, v) || (id in old(rows) && rows[id] == old(rows[id]) && id !in batch)
      ensures errors <= |batch|
      ensures status.Going? && errors == |batch| ==> Within(rows, old(rows).Values)
      ensures EndsForReason(status, processed) && (status.Going? ==> registered)
      ensures status in {Going, Ended(Preempted(processed)), Ended(Deleted), Ended(Raised), Ended(Crashed)}
    {
      var fetched, vectors;
      status, fetched, vectors, errors := PrepareBatch(v, batch, processed);
      if status.Ended? {
        return;
      }
      forall k | 0 <= k < |fetched|
        ensures fetched[k].1.(vector := vectors[k]) in allowed
      {
        assert old(rows)[fetched[k].0] in allowed;
      }
      :- WriteSummaryVectors(fetched, vectors);
      :- Await();
      if !registered {
        var cleaned: bool := *;
        if cleaned {
          rows, gone := map[], gone + |rows|;
        }
        return Ended(Deleted), 0;
      }
      status := Going;
    }

    method SnapshotRowIds() returns (ids: seq<RowId>)
      ensures forall id :: id in ids <==> id in rows
      ensures forall i, k :: 0 <= i < k < |ids| ==> ids[i] != ids[k]
      ensures |ids| == |rows|
    {
      ids := [];
      var left := rows.Keys;
      while left != {}
        invariant left <= rows.Keys && |ids| + |left| == |rows.Keys|
        invariant forall id :: id in ids <==> id in rows && id !in left
        invariant forall i, k :: 0 <= i < k < |ids| ==> ids[i] != ids[k]
        decreases left
      {
        var id :| id in left;
        ids := ids + [id];
        left := left - {id};
      }
    }

    /** The batch loop over a snapshot of the row ids. */
    method RefreshBatches(v: int, ids: seq<RowId>, ghost allowed: set<Row>) returns (status: Status, errors: nat)
      requires Valid() && Consistent() && fault.None? && batchSize > 0
      requires registered ==> target == Some(v)
      requires Within(rows, allowed) && Closed(allowed, v)
      requires forall id :: id in rows ==> id in ids
      modifies this
      ensures Valid() && Consistent() && Faults(status)
      ensures recorded == old(recorded) && target == old(target)
      ensures registered ==> old(registered)
      ensures Within(rows, allowed)
      ensures AllRows() >= old(AllRows()) && (!rekeys ==> AllRows() == old(AllRows()))
      ensures status.Going? && errors == 0 ==> forall id :: id in rows ==> At(id, v)
      ensures errors <= |ids|
      ensures status.Going? && errors == |ids| ==> Within(rows, old(rows).Values)
      ensures status.Ended? ==>
        status.why.Preempted? || status.why.Deleted? || status.why.Raised? || status.why.Crashed?
      ensures status.Ended? && status.why.Preempted? ==> waiting && status.why.processed < |ids|
      ensures status == Ended(Deleted) ==> !registered
    {
      errors := 0;
      var start := 0;
      while start < |ids|
        invariant 0 <= start <= |ids|
        invariant Valid() && Consistent() && fault.None?
        invariant recorded == old(recorded) && target == old(target)
        invariant registered ==> old(registered)
        invariant Within(rows, allowed)
        invariant AllRows() >= old(AllRows()) && (!rekeys ==> AllRows() == old(AllRows()))
        invariant errors == 0 ==> forall id :: id in rows ==> At(id, v) || id in ids[start..]
        invariant errors <= start
        invariant errors == start ==> Within(rows, old(rows).Values)
      {
        var end := if start + batchSize < |ids| then start + batchSize else |ids|;
        var failed;
        status, failed := RefreshBatch(v, ids[start..end], start, allowed);
        if status.Ended? {
          return;
        }
        errors := errors + failed;
        assert ids[start..] == ids[start..end] + ids[end..];
        :- Await();
        start := end;
      }
      status := Going;
    }

    // What each ending says of the source as the job leaves it, and of the rows it had.
    predicate Justified(why: Ending, had: map<RowId, Row>)
      reads this
    {
      && (why.AllFailed? ==> 0 < why.total <= |had| && Within(rows, had.Values))
      && (why.Partly? ==> 0 < why.errors < |rows|)
      && (why.Miscounted? ==> why.found == |rows| != why.total <= |had|)
      && (why.BadBatchSize? ==> batchSize == 0)
      && (why.Preempted? ==> waiting && why.processed < |had|)
      && (why.Deleted? ==> !registered)
    }

    lemma JustifiedBefore(why: Ending, had: map<RowId, Row>, before: map<RowId, Row>)
      requires Justified(why, had) && Lost(had, before)
      ensures Justified(why, before)
    {
      FewerRows(had, before);
    }

    // Until the job marks its source: it reloads the pin, and may find nothing to do.
    method Begin(version: int) returns (status: Status)
      requires Valid() && Consistent() && fault.None?
      modifies this
      ensures Valid() && Consistent() && Faults(status)
      ensures recorded == old(recorded) && target == old(target) && AllRows() == old(AllRows())
      ensures Lost(rows, old(rows))
      ensures registered ==> old(registered)
      ensures status == Ended(Disabled) ==> !supported
      ensures status == Ended(Current) ==> recorded == Some(version) && target == None
      ensures status.Going? ==> supported && !(registered && recorded == Some(version) && target == None)
      ensures status in {Going, Ended(Disabled), Ended(Current), Ended(Raised), Ended(Crashed)}
    {
      status := Await();
      pin := version;
      var goal := pin;
      if status.Ended? {
        return;
      }
      if !supported {
        return Ended(Disabled);
      }
      :- Await();
      status := if registered && recorded == Some(goal) && target == None then Ended(Current) else Going;
    }

    /** The refresh job. However it ends, the source is consistent, every row is one it had with
        the old vector or the new one, and a source the job has marked stays marked, and so
        stale, until all its rows are at the job's version: the effective one at its start. No row is
        lost, and it raises only if an awaited call did. `marks` and `records` say whether the database
        takes the job's two registry writes. */
    method RunResummarize(version: int, marks: bool, records: bool) returns (why: Ending)
      requires Valid() && Consistent()
      modifies this
      ensures Valid() && Consistent() && Faults(Ended(why))
      ensures Within(rows, Reach(old(rows), version))
      ensures AllRows() >= old(AllRows()) && (!rekeys ==> AllRows() == old(AllRows()))
      ensures registered ==>
        || (recorded == old(recorded) && (target == old(target) || target == Some(version)))
        || (recorded == Some(version) && target == None && forall id :: id in rows ==> At(id, version))
      ensures registered && (why.Preempted? || why.Partly? || why.AllFailed?) ==> target == Some(version)
      ensures registered && (why.Recorded? || why.Current?) ==> forall id :: id in rows ==> At(id, version)
      ensures why.Recorded? && records && registered ==> recorded == Some(version) && target == None
      ensures why.Disabled? ==> !supported
      ensures why.Current? ==> recorded == Some(version) && target == None
      ensures !supported || why.Current? || (old(recorded) == Some(version) && old(target) == None && registered) ==>
        && recorded == old(recorded) && target == old(target) && Lost(rows, old(rows))
        && (why.Disabled? || why.Current? || why.Raised? || why.Crashed?)
      ensures supported && registered && !why.Current? && !why.Raised? && !why.Crashed? ==>
        target == Some(version) || recorded == Some(version)
      ensures Justified(why, old(rows))
    {
      fault := None;
      var status := Begin(version);
      if status.Ended? {
        return status.why;
      }
      status := MarkSummaryRefresh(version, marks);
      if status.Ended? {
        return status.why;
      }
      ghost var marked := rows;
      why := RefreshMarked(version, records, Reach(old(rows), version));
      JustifiedBefore(why, marked, old(rows));
    }

    // What the job does once the source carries its mark.
    method RefreshMarked(v: int, records: bool, ghost allowed: set<Row>) returns (why: Ending)
      requires Valid() && Consistent() && fault.None?
      requires registered ==> target == Some(v)
      requires Within(rows, allowed) && Closed(allowed, v)
      modifies this
      ensures Valid() && Consistent() && Faults(Ended(why))
      ensures registered ==> old(registered)
      ensures Within(rows, allowed)
      ensures AllRows() >= old(AllRows()) && (!rekeys ==> AllRows() == old(AllRows()))
      ensures registered ==>
        || (recorded == old(recorded) && target == Some(v))
        || (recorded == Some(v) && target == None && forall id :: id in rows ==> At(id, v))
      ensures registered && (why.Preempted? || why.Partly? || why.AllFailed?) ==> target == Some(v)
      ensures registered && why.Recorded? ==> forall id :: id in rows ==> At(id, v)
      ensures registered && why.Recorded? && records ==> recorded == Some(v) && target == None
      ensures !why.Current? && !why.Disabled?
      ensures Justified(why, old(rows))
    {
      var ids := SnapshotRowIds();
      var total := |ids|;
      var status := Await();
      if status.Ended? {
        return status.why;
      }
      if batchSize == 0 {
        return BadBatchSize;
      }
      var errors;
      status, errors := RefreshBatches(v, ids, allowed);
      if status.Ended? {
        return status.why;
      }
      if total > 0 && errors == total {
        return AllFailed(total);
      }
      why := Conclude(v, total, errors, records);
    }

    // The count of the rows, and what is recorded.
    method Conclude(v: int, total: nat, errors: nat, records: bool) returns (why: Ending)
      requires Valid() && Consistent() && fault.None? && (total > 0 ==> errors < total) && (total == 0 ==> errors == 0)
      requires registered ==> target.Some?
      requires errors == 0 ==> forall id :: id in rows ==> At(id, v)
      modifies this
      ensures Valid() && Consistent() && Faults(Ended(why)) && AllRows() == old(AllRows())
      ensures Lost(rows, old(rows))
      ensures registered ==> old(registered)
      ensures why.Miscounted? ==> why.found == |rows| != total && why.total == total
      ensures why.Partly? ==> 0 < errors == why.errors < |rows|
      ensures why.Recorded? ==> errors == 0
      ensures recorded == (if errors == 0 && records && target != old(target) then Some(v) else old(recorded))
      ensures target == old(target) || (target == None && errors == 0 && records)
      ensures registered && why.Recorded? && records ==> recorded == Some(v) && target == None
      ensures why.Miscounted? || why.Partly? ==> target == old(target)
      ensures why.Recorded? || why.Partly? || why.Miscounted? || why in {Raised, Crashed}
    {
      var status := Await();
      if status.Ended? {
        return status.why;
      }
      if |rows| != total {
        return Miscounted(|rows|, total);
      }
      if errors == 0 {
        status := RecordSummaryVersion(v, records);
        return if status.Ended? then status.why else Recorded;
      }
      return Partly(errors);
    }

    /** The write an index job makes after its row already says done, when a refresh may have begun:
        it takes the mark away, and whether the source counts as stale no longer depends on it. */
    method RecordLate(version: Option<int>)
      requires Valid() && registered
      modifies this`recorded, this`target
      ensures recorded == version && target == None
      ensures Consistent() <==> version.None? || forall id :: id in rows ==> At(id, version.value)
      ensures IsStale(recorded, target, pin) <==> version.Some? && version.value != pin
    {
      recorded, target := version, None;
    }

    // The refresh to `next` has given the row another vector than the index job did at `version`.
    predicate Rewritten(id: RowId, version: int, next: int)
      requires id in rows
      reads this
    {
      At(id, next) && Expected(words, embed, rows[id].text, version) != Expected(words, embed, rows[id].text, next)
    }

    /** An index job has left every row at its version, and a refresh begins before the job records
        it, and comes as far as it may. The late write keeps the source consistent exactly if the
        refresh has rewritten no row that is left. */
    method RecordLateUnderRefresh(version: int, next: int, marks: bool, records: bool) returns (why: Ending)
      requires Valid() && Consistent() && forall id :: id in rows ==> At(id, version)
      modifies this
      ensures registered ==> recorded == Some(version) && target == None
      ensures registered ==> (Consistent() <==> forall id :: id in rows ==> !Rewritten(id, version, next))
    {
      ghost var left := rows;
      why := RunResummarize(next, marks, records);
      if registered {
        forall id | id in rows
          ensures At(id, version) || At(id, next)
        {
          assert rows[id] in Reach(left, next);
        }
        RecordLate(Some(version));
      }
    }

    /** It matters: a refresh from `version` to `next` has marked the source and rewritten one of its
        rows, the late write records `version`, and the pin moves back to it. The source is reported
        as current, and the row is not. */
    method LateRecordHidesRefresh(version: int, next: int, id: RowId)
      requires Valid() && Consistent() && registered && recorded == Some(version) && id in rows && !rekeys
      requires Expected(words, embed, rows[id].text, version) != Expected(words, embed, rows[id].text, next)
      modifies this
      ensures registered && recorded == Some(version) && id in rows
      ensures !IsStale(recorded, target, pin) && !At(id, pin) && !Consistent()
    {
      pin, target := next, Some(next);
      var row := rows[id].(vector := Expected(words, embed, rows[id].text, next));
      rows := rows[id := row];
      RecordLate(Some(version));
      pin := version;
    }

    /** Any number of refresh jobs, with pin changes between and during them. */
    method RefreshJobs(n: nat)
      requires Valid() && Consistent()
      modifies this
      ensures Valid() && Consistent()
    {
      for i := 0 to n
        invariant Valid() && Consistent()
      {
        var moved: int := *;
        pin := moved;
        var version: int, marks: bool, records: bool := *, *, *;
        var why := RunResummarize(version, marks, records);
      }
    }
  }

  // A summarized source whose marks do not say "stale" has every row at the effective version.
  lemma NotStaleIsCurrent(s: Source)
    requires s.Consistent() && s.registered && s.recorded.Some?
    ensures !IsStale(s.recorded, s.target, s.pin) ==> forall id :: id in s.rows ==> s.At(id, s.pin)
  {
  }
}
