/**
  The job store's transactions and the recovery loops of the indexer's startup, as they update
  the two tables.
*/
module JobStore {
  import opened Options
  import opened Jobs
  import opened JobTable
  import opened RefreshPreemption

  // ---------------------------------------------------------------------------
  // The loops as runs of the model's recovery steps
  // ---------------------------------------------------------------------------

  // The jobs of the first loop, in the order they were listed.
  function RecoverAll(t: Table, finished: set<Source>, ids: seq<Id>, dispatchable: set<Id>): (t': Table)
    requires forall j :: j in ids ==> j in t.jobs
    ensures t'.jobs.Keys == t.jobs.Keys
  {
    if ids == [] then t
    else
      var j := ids[|ids| - 1];
      RecoverJob(RecoverAll(t, finished, ids[..|ids| - 1], dispatchable), finished, j, j in dispatchable)
  }

  // The second loop's treatment of one predecessor.
  ghost predicate OrphanPromoted(t: Table, t': Table, x: Id, checked: set<Id>) {
    if x in checked || !Orphaned(t.jobs, x) then t' == t
    else exists first :: MayPick(t.jobs, x, first) && t' == Promote(t, x, first)
  }

  function Elements(ids: seq<Id>): set<Id> {
    set j | j in ids
  }

  // The second loop: each predecessor once, and only if it is neither active nor waiting.
  ghost predicate OrphansPromoted(t: Table, t': Table, afters: seq<Id>)
    decreases |afters|
  {
    if afters == [] then t' == t
    else
      var front, x := afters[..|afters| - 1], afters[|afters| - 1];
      exists before :: OrphansPromoted(t, before, front) && OrphanPromoted(before, t', x, Elements(front))
  }

  // A run of recovery steps leads from `s` to `s'`.
  ghost predicate Recovers(s: State, s': State) {
    Leads(s, s', OfRecovery)
  }

  // No recovery step loses a wakeup.
  lemma RecoveryIsSafe(states: seq<State>, labels: seq<Label>)
    requires Run(states, labels) && forall i :: 0 <= i < |labels| ==> OfRecovery(labels[i])
    requires Structure(states[0]) && NothingStuck(states[0])
    ensures Structure(states[|labels|]) && NothingStuck(states[|labels|])
  {
    RunKeepsStructure(states, labels, |labels|);
    forall i | 0 <= i < |labels|
      ensures Safe(states[i], labels[i])
    {
      RecoveryStepIsSafe(states[i], labels[i]);
    }
    NoLostWakeup(states, labels, |labels|);
    assert NeverStuck(states, |labels|);
  }

  lemma RecoveryStepIsSafe(s: State, l: Label)
    requires Enabled(s, l) && OfRecovery(l)
    ensures Safe(s, l)
  {
  }

  lemma RecoversSafely(s: State, s': State)
    requires Recovers(s, s') && Structure(s) && NothingStuck(s)
    ensures Structure(s') && NothingStuck(s')
  {
    var states, labels :|
      Run(states, labels) && (forall i :: 0 <= i < |labels| ==> OfRecovery(labels[i])) &&
      states[0] == s && states[|labels|] == s';
    RecoveryIsSafe(states, labels);
  }

  /** The first loop is a run of recovery steps, one for each listed job. */
  lemma {:induction false} FirstLoopIsRun(s0: State, t: Table, finished: set<Source>, ids: seq<Id>,
      dispatchable: set<Id>, n: nat)
    requires n <= |ids| && forall j :: j in ids ==> j in t.jobs
    requires Recovers(s0, State(t, map[], map[], Resuming(finished, ids)))
    ensures Recovers(s0,
            State(RecoverAll(t, finished, ids[..n], dispatchable), map[], map[], Resuming(finished, ids[n..])))
  {
    if n == 0 {
      assert ids[..0] == [] && ids[0..] == ids;
    } else {
      FirstLoopIsRun(s0, t, finished, ids, dispatchable, n - 1);
      var s := State(RecoverAll(t, finished, ids[..n - 1], dispatchable), map[], map[],
        Resuming(finished, ids[n - 1..]));
      assert ids[..n][..n - 1] == ids[..n - 1] && ids[n - 1..][1..] == ids[n..];
      OneMore(s0, s, Recover(ids[n - 1] in dispatchable),
        State(RecoverAll(t, finished, ids[..n], dispatchable), map[], map[], Resuming(finished, ids[n..])), OfRecovery);
    }
  }

  // Recovery has come to predecessor `n`.
  ghost predicate LoopAt(s0: State, t: Table, afters: seq<Id>, n: nat)
    requires n <= |afters|
  {
    Recovers(s0, State(t, map[], map[], Orphans(afters[n..], Elements(afters[..n]))))
  }

  /** The second loop is a run of recovery steps, one or two for each predecessor. */
  lemma {:induction false} SecondLoopIsRun(s0: State, t: Table, t': Table, afters: seq<Id>, n: nat)
    requires n <= |afters| && OrphansPromoted(t, t', afters[..n])
    requires LoopAt(s0, t, afters, 0)
    ensures LoopAt(s0, t', afters, n)
    decreases n
  {
    if n > 0 {
      var before := LastPromoted(t, t', afters[..n]);
      assert afters[..n][..n - 1] == afters[..n - 1];
      SecondLoopIsRun(s0, t, before, afters, n - 1);
      SecondLoopGoesOn(s0, before, t', afters, n);
    }
  }

  lemma LastPromoted(t: Table, t': Table, afters: seq<Id>) returns (before: Table)
    requires afters != [] && OrphansPromoted(t, t', afters)
    ensures var front := afters[..|afters| - 1];
            OrphansPromoted(t, before, front) && OrphanPromoted(before, t', afters[|afters| - 1], Elements(front))
  {
    var front := afters[..|afters| - 1];
    before :| OrphansPromoted(t, before, front) && OrphanPromoted(before, t', afters[|afters| - 1], Elements(front));
  }

  lemma SecondLoopGoesOn(s0: State, before: Table, t': Table, afters: seq<Id>, n: nat)
    requires 0 < n <= |afters| && OrphanPromoted(before, t', afters[n - 1], Elements(afters[..n - 1]))
    requires LoopAt(s0, before, afters, n - 1)
    ensures LoopAt(s0, t', afters, n)
  {
    assert Elements(afters[..n]) == Elements(afters[..n - 1]) + {afters[n - 1]};
    assert afters[n - 1..][1..] == afters[n..];
    OrphanIsRun(s0, before, t', afters[n - 1..], Elements(afters[..n - 1]));
  }

  lemma OrphanIsRun(s0: State, t: Table, t': Table, afters: seq<Id>, checked: set<Id>)
    requires afters != [] && OrphanPromoted(t, t', afters[0], checked)
    requires Recovers(s0, State(t, map[], map[], Orphans(afters, checked)))
    ensures Recovers(s0, State(t', map[], map[], Orphans(afters[1..], checked + {afters[0]})))
  {
    var s, x := State(t, map[], map[], Orphans(afters, checked)), afters[0];
    if x in checked || !Orphaned(t.jobs, x) {
      OneMore(s0, s, CheckOrphan, State(t', map[], map[], Orphans(afters[1..], checked + {x})), OfRecovery);
    } else {
      var first :| MayPick(t.jobs, x, first) && t' == Promote(t, x, first);
      var s1 := State(t, map[], map[], Promoting(x, afters[1..], checked + {x}));
      OneMore(s0, s, CheckOrphan, s1, OfRecovery);
      OneMore(s0, s1, PromoteOrphan(first), State(t', map[], map[], Orphans(afters[1..], checked + {x})), OfRecovery);
    }
  }

  // ---------------------------------------------------------------------------
  // What startup makes of each job
  // ---------------------------------------------------------------------------

  // Some job of the source was done.
  predicate DoneBefore(jobs: map<Id, Row>, source: Source) {
    exists i :: i in jobs && jobs[i].status == Done && jobs[i].source == source
  }

  // The row of an unfinished job after startup.
  predicate RecoveredRow(jobs: map<Id, Row>, j: Id, dispatchable: set<Id>, row: Row)
    requires j in jobs
  {
    row.(status := jobs[j].status) == jobs[j] &&
    if DoneBefore(jobs, jobs[j].source) && jobs[j].kind != Resummarize then row.status == Done
    else if j !in dispatchable then row.status == Failed
    else row == jobs[j]
  }

  // The job is put back in the queue.
  predicate Requeues(jobs: map<Id, Row>, j: Id, dispatchable: set<Id>)
    requires j in jobs
  {
    !(DoneBefore(jobs, jobs[j].source) && jobs[j].kind != Resummarize) && j in dispatchable
  }

  predicate Unfinished(jobs: map<Id, Row>, j: Id) {
    j in jobs && (jobs[j].status == Queued || jobs[j].status == Running)
  }

  lemma {:induction false} RecoverAllIs(t: Table, ids: seq<Id>, dispatchable: set<Id>, j: Id)
    requires forall i :: i in ids ==> i in t.jobs
    requires j in t.jobs
    ensures var t' := RecoverAll(t, FinishedSources(t.jobs), ids, dispatchable);
            && (if j in ids then RecoveredRow(t.jobs, j, dispatchable, t'.jobs[j]) else t'.jobs[j] == t.jobs[j])
            && (j in t'.queue <==> j in t.queue || (j in ids && Requeues(t.jobs, j, dispatchable)))
  {
    if ids != [] {
      var front, last := ids[..|ids| - 1], ids[|ids| - 1];
      assert ids == front + [last];
      RecoverAllIs(t, front, dispatchable, j);
      RecoverAllIs(t, front, dispatchable, last);
      FinishedIsDone(t.jobs, t.jobs[last].source);
    }
  }

  lemma FinishedIsDone(jobs: map<Id, Row>, source: Source)
    ensures source in FinishedSources(jobs) <==> DoneBefore(jobs, source)
  {
  }

  // The second loop touches rows that wait, and adds them to the queue only.
  lemma {:induction false} OrphansKeep(t: Table, t': Table, afters: seq<Id>, j: Id)
    requires TableOk(t) && OrphansPromoted(t, t', afters) && j in t.jobs && !t.jobs[j].status.Waiting?
    ensures TableOk(t') && j in t'.jobs && t'.jobs[j] == t.jobs[j] && (j in t'.queue <==> j in t.queue)
    decreases |afters|
  {
    if afters != [] {
      var before := LastPromoted(t, t', afters);
      OrphansKeep(t, before, afters[..|afters| - 1], j);
      OrphanKeeps(before, t', afters[|afters| - 1], Elements(afters[..|afters| - 1]), j);
    }
  }

  lemma OrphanKeeps(t: Table, t': Table, x: Id, checked: set<Id>, j: Id)
    requires TableOk(t) && OrphanPromoted(t, t', x, checked) && j in t.jobs && !t.jobs[j].status.Waiting?
    ensures TableOk(t') && j in t'.jobs && t'.jobs[j] == t.jobs[j] && (j in t'.queue <==> j in t.queue)
  {
    if !(x in checked || !Orphaned(t.jobs, x)) {
      var first :| MayPick(t.jobs, x, first) && t' == Promote(t, x, first);
      PromoteWorks(t, x, first);
    }
  }

  // ---------------------------------------------------------------------------
  // The store
  // ---------------------------------------------------------------------------

  // The job after both loops.
  ghost predicate RecoveredAs(t: Table, t': Table, dispatchable: set<Id>, j: Id)
    requires j in t.jobs
  {
    j in t'.jobs &&
    if Unfinished(t.jobs, j) then
      && RecoveredRow(t.jobs, j, dispatchable, t'.jobs[j])
      && (j in t'.queue <==> j in t.queue || Requeues(t.jobs, j, dispatchable))
    else t'.jobs[j] == t.jobs[j] && (j in t'.queue <==> j in t.queue)
  }

  lemma EachIs(t: Table, t1: Table, t': Table, ids: seq<Id>, afters: seq<Id>, dispatchable: set<Id>)
    requires forall j :: j in ids ==> j in t.jobs
    requires forall j :: j in ids <==> Unfinished(t.jobs, j)
    requires TableOk(t1) && t1 == RecoverAll(t, FinishedSources(t.jobs), ids, dispatchable)
    requires OrphansPromoted(t1, t', afters)
    ensures forall j :: j in t.jobs && t.jobs[j].status != Waiting ==> RecoveredAs(t, t', dispatchable, j)
  {
    forall j | j in t.jobs && t.jobs[j].status != Waiting
      ensures RecoveredAs(t, t', dispatchable, j)
    {
      RecoverAllIs(t, ids, dispatchable, j);
      OrphansKeep(t1, t', afters, j);
    }
  }

  class Store {
    var jobs: map<Id, Row>
    var queue: set<Id>

    function Now(): Table
      reads this
    {
      Table(jobs, queue)
    }

    constructor (jobs: map<Id, Row>, queue: set<Id>)
      ensures Now() == Table(jobs, queue)
    {
      this.jobs := jobs;
      this.queue := queue;
    }

    // The queue row decides: no row, no cancellation.
    method CancelIfQueued(r: Id) returns (canceled: bool)
      requires TableOk(Now())
      modifies this
      ensures canceled == old(r in queue)
      ensures TableOk(Now())
      ensures Now() == if canceled then Cancel(old(Now()), r) else old(Now())
      ensures canceled && old(jobs[r].status.Queued?) ==> !IsActive(jobs, r)
    {
      if r !in queue {
        return false;
      }
      CancelWorks(Now(), r);
      queue := queue - {r};
      if jobs[r].status.Queued? {
        jobs := SetStatus(jobs, r, Done);
      }
      return true;
    }

    // One transaction: nothing waits, or the waiters are relinked, or the oldest is promoted.
    method PromoteNextWaiting(x: Id) returns (promoted: Option<Id>, ghost first: Id)
      requires TableOk(Now())
      modifies this
      ensures MayPick(old(jobs), x, first) && Now() == Promote(old(Now()), x, first) && TableOk(Now())
      ensures promoted ==
              if old(Behind(jobs, x) == {}) || old(Busy(jobs, jobs[first].source)) then None else Some(first)
    {
      var waiting := Behind(jobs, x);
      if waiting == {} {
        return None, 0;
      }
      OldestExists(jobs, waiting);
      var oldest: Id :| oldest in waiting && forall g :: g in waiting ==> jobs[oldest].start <= jobs[g].start;
      first := oldest;
      PromoteWorks(Now(), x, oldest);
      promoted := PromoteOrRelink(x, waiting, oldest);
    }

    method PromoteOrRelink(x: Id, waiting: set<Id>, oldest: Id) returns (promoted: Option<Id>)
      requires OneActive(jobs) && waiting == Behind(jobs, x) && IsOldest(jobs, waiting, oldest)
      modifies this
      ensures Now() == PromoteVia(old(Now()), x, oldest)
      ensures promoted == if old(Busy(jobs, jobs[oldest].source)) then None else Some(oldest)
    {
      var source := jobs[oldest].source;
      if a :| a in jobs && jobs[a].status.Active() && jobs[a].source == source {
        assert IsActive(jobs, a) && a == ActiveOf(jobs, source);
        jobs := Relink(jobs, waiting, a);
        promoted := None;
      } else {
        assert !Busy(jobs, source);
        var relinked := Relink(jobs, waiting - {oldest}, oldest);
        jobs := relinked[oldest := relinked[oldest].(status := Queued)];
        queue := queue + {oldest};
        promoted := Some(oldest);
      }
    }

    method ListByStatus(status: Status) returns (ids: seq<Id>)
      ensures forall j :: j in ids <==> j in jobs && jobs[j].status == status
    {
      ids := [];
      var left := set j | j in jobs && jobs[j].status == status;
      ghost var all := left;
      while left != {}
        invariant left <= all
        invariant forall j :: j in ids <==> j in all && j !in left
        decreases left
      {
        var j :| j in left;
        ids := ids + [j];
        left := left - {j};
      }
    }

    /** The first recovery loop, over the listed jobs. */
    method ResumeIncomplete(incomplete: seq<Id>, finished: set<Source>, dispatchable: set<Id>)
      requires forall j :: j in incomplete ==> j in jobs
      modifies this
      ensures Now() == RecoverAll(old(Now()), finished, incomplete, dispatchable)
    {
      ghost var t := Now();
      for i := 0 to |incomplete|
        invariant jobs.Keys == t.jobs.Keys && Now() == RecoverAll(t, finished, incomplete[..i], dispatchable)
      {
        var j := incomplete[i];
        assert incomplete[..i + 1][..i] == incomplete[..i];
        if jobs[j].source in finished && !jobs[j].kind.Resummarize? {
          jobs := jobs[j := jobs[j].(status := Done)];
        } else if j !in dispatchable {
          jobs := jobs[j := jobs[j].(status := Failed)];
        } else {
          queue := queue + {j};
        }
      }
      assert incomplete[..|incomplete|] == incomplete;
    }

    /** The second recovery loop, over the predecessors of the waiting jobs: each is looked at once,
        and its waiters are promoted unless it is active or waits itself. */
    method PromoteOrphaned(afters: seq<Id>)
      requires TableOk(Now())
      modifies this
      ensures TableOk(Now()) && OrphansPromoted(old(Now()), Now(), afters)
    {
      var checked: set<Id> := {};
      ghost var t := Now();
      for i := 0 to |afters|
        invariant TableOk(Now()) && OrphansPromoted(t, Now(), afters[..i]) && checked == Elements(afters[..i])
      {
        var x := afters[i];
        ghost var before := Now();
        assert afters[..i + 1][..i] == afters[..i];
        if x !in checked && !(x in jobs && (jobs[x].status.Active() || jobs[x].status.Waiting?)) {
          var promoted, first := PromoteNextWaiting(x);
        }
        assert OrphanPromoted(before, Now(), x, checked);
        checked := checked + {x};
      }
      assert afters[..|afters|] == afters;
    }

    /** Both loops, with nobody beside them: they are a run of recovery steps, and whatever the crash
        left behind, every unfinished job is in the queue and every waiting job waits on one. */
    method Startup(dispatchable: set<Id>) returns (ghost checked: set<Id>)
      requires TableOk(Now())
      modifies this
      ensures TableOk(Now())
      ensures Recovers(old(State(Now(), map[], map[], Starting)), State(Now(), map[], map[], Orphans([], checked)))
      ensures forall j :: IsActive(jobs, j) ==> j in queue
      ensures forall x, v :: v in Behind(jobs, x) ==> IsActive(jobs, x)
      ensures forall j :: j in old(jobs) && Unfinished(old(jobs), j) ==>
                j in jobs && RecoveredRow(old(jobs), j, dispatchable, jobs[j]) &&
                (j in queue <==> j in old(queue) || Requeues(old(jobs), j, dispatchable))
      ensures forall j :: j in old(jobs) && !Unfinished(old(jobs), j) && old(jobs)[j].status != Waiting ==>
                j in jobs && jobs[j] == old(jobs)[j] && (j in queue <==> j in old(queue))
    {
      ghost var t, s0 := Now(), State(Now(), map[], map[], Starting);
      ghost var listed := ResumeUnfinished(dispatchable);
      ghost var t1 := Now();
      ghost var afters := PromoteWaiting(s0, FinishedSources(t.jobs));
      checked := Elements(afters);
      EndsAtRest(s0, Now(), checked);
      EachIs(t, t1, Now(), listed, afters, dispatchable);
    }

    // The second loop, over the predecessors of all waiting jobs.
    method PromoteWaiting(ghost s0: State, ghost finished: set<Source>) returns (ghost predecessors: seq<Id>)
      requires TableOk(Now()) && Recovers(s0, State(Now(), map[], map[], Resuming(finished, [])))
      modifies this
      ensures TableOk(Now()) && OrphansPromoted(old(Now()), Now(), predecessors)
      ensures Recovers(s0, State(Now(), map[], map[], Orphans([], Elements(predecessors))))
    {
      ghost var t := Now();
      var afters := ListAfters();
      WaitersListed(s0, t, finished, afters);
      PromoteOrphaned(afters);
      assert afters[..|afters|] == afters && afters[|afters|..] == [];
      assert afters[0..] == afters && Elements(afters[..0]) == {};
      SecondLoopIsRun(s0, t, Now(), afters, |afters|);
      predecessors := afters;
    }

    // What startup reads first, and the first loop.
    method ResumeUnfinished(dispatchable: set<Id>) returns (ghost listed: seq<Id>)
      requires TableOk(Now())
      modifies this
      ensures TableOk(Now())
      ensures forall j :: j in listed ==> j in old(jobs)
      ensures forall j :: j in listed <==> Unfinished(old(jobs), j)
      ensures Now() == RecoverAll(old(Now()), FinishedSources(old(jobs)), listed, dispatchable)
      ensures Recovers(old(State(Now(), map[], map[], Starting)),
                       State(Now(), map[], map[], Resuming(FinishedSources(old(jobs)), [])))
    {
      ghost var t, s0 := Now(), State(Now(), map[], map[], Starting);
      var finished := FinishedSources(jobs);
      var running := ListByStatus(Running);
      var queued := ListByStatus(Queued);
      ListingIsRun(s0, running, queued);
      ResumeIncomplete(running + queued, finished, dispatchable);
      FirstLoopIsRun(s0, t, finished, running + queued, dispatchable, |running + queued|);
      FirstLoopEnds(s0, t, Now(), finished, running + queued, dispatchable);
      listed := running + queued;
    }

    // The predecessors of the waiting jobs.
    method ListAfters() returns (afters: seq<Id>)
      requires TableOk(Now())
      ensures forall x :: x in afters <==> exists w :: w in Behind(jobs, x)
    {
      var waiting := ListByStatus(Waiting);
      afters := [];
      for i := 0 to |waiting|
        invariant forall k :: 0 <= k < i ==> jobs[waiting[k]].after.value in afters
        invariant forall x :: x in afters ==> exists w :: w in Behind(jobs, x)
      {
        assert waiting[i] in waiting;
        var x := jobs[waiting[i]].after.value;
        assert waiting[i] in Behind(jobs, x);
        afters := afters + [x];
      }
      forall x, w | w in Behind(jobs, x)
        ensures x in afters
      {
        assert w in waiting;
      }
    }
  }

  lemma ListingIsRun(s0: State, running: seq<Id>, queued: seq<Id>)
    requires s0.recovery.Starting?
    requires forall j :: j in running <==> j in s0.table.jobs && s0.table.jobs[j].status == Running
    requires forall j :: j in queued <==> j in s0.table.jobs && s0.table.jobs[j].status == Queued
    ensures Recovers(s0, s0.(recovery := Resuming(FinishedSources(s0.table.jobs), running + queued)))
  {
    var finished := FinishedSources(s0.table.jobs);
    LeadsToItself(s0, OfRecovery);
    var s1 := s0.(recovery := DoneRead(finished));
    OneMore(s0, s0, ReadDone, s1, OfRecovery);
    var s2 := s0.(recovery := RunningRead(finished, running));
    OneMore(s0, s1, ListRunning(running), s2, OfRecovery);
    OneMore(s0, s2, ListQueued(queued), s0.(recovery := Resuming(finished, running + queued)), OfRecovery);
  }

  lemma FirstLoopEnds(s0: State, t: Table, t': Table, finished: set<Source>, ids: seq<Id>, dispatchable: set<Id>)
    requires TableOk(s0.table) && s0 == State(s0.table, map[], map[], Starting)
    requires forall j :: j in ids ==> j in t.jobs
    requires t' == RecoverAll(t, finished, ids, dispatchable)
    requires Recovers(s0,
             State(RecoverAll(t, finished, ids[..|ids|], dispatchable), map[], map[], Resuming(finished, ids[|ids|..])))
    ensures Recovers(s0, State(t', map[], map[], Resuming(finished, [])))
    ensures TableOk(t')
  {
    assert ids[..|ids|] == ids && ids[|ids|..] == [];
    StartingIsFine(s0);
    RecoversSafely(s0, State(t', map[], map[], Resuming(finished, [])));
  }

  lemma StartingIsFine(s: State)
    requires TableOk(s.table) && s == State(s.table, map[], map[], Starting)
    ensures Structure(s) && NothingStuck(s)
  {
    assert forall j :: Covers(s, j);
    assert forall x :: WillCheck(s, x);
  }

  lemma WaitersListed(s0: State, t: Table, finished: set<Source>, afters: seq<Id>)
    requires Recovers(s0, State(t, map[], map[], Resuming(finished, [])))
    requires forall x :: x in afters <==> exists w :: w in Behind(t.jobs, x)
    ensures Recovers(s0, State(t, map[], map[], Orphans(afters, {})))
  {
    OneMore(s0, State(t, map[], map[], Resuming(finished, [])), ListWaiting(afters),
      State(t, map[], map[], Orphans(afters, {})), OfRecovery);
  }

  lemma EndsAtRest(s0: State, t: Table, checked: set<Id>)
    requires TableOk(s0.table) && s0 == State(s0.table, map[], map[], Starting)
    requires Recovers(s0, State(t, map[], map[], Orphans([], checked)))
    ensures forall j :: IsActive(t.jobs, j) ==> j in t.queue
    ensures forall x, v :: v in Behind(t.jobs, x) ==> IsActive(t.jobs, x)
  {
    var s := State(t, map[], map[], Orphans([], checked));
    StartingIsFine(s0);
    RecoversSafely(s0, s);
    AtRest(s);
  }
}
