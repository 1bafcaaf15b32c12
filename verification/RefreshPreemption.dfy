/**
  What the waiting-job protocol of the job tables promises, for every interleaving.
*/
module RefreshPreemption {
  import opened Options
  import opened Jobs
  import opened JobTable

  // ---------------------------------------------------------------------------
  // Promotion
  // ---------------------------------------------------------------------------

  // The rows a promote leaves alone, and where it sends the jobs that waited on `x`.
  ghost predicate Promoted(t: Table, t': Table, x: Id) {
    && t'.jobs.Keys == t.jobs.Keys
    && t.queue <= t'.queue
    && (forall j :: j in t.jobs && j !in Behind(t.jobs, x) ==> t'.jobs[j] == t.jobs[j])
    && (forall j :: j in t.jobs ==>
          && t'.jobs[j].source == t.jobs[j].source && t'.jobs[j].kind == t.jobs[j].kind
          && t'.jobs[j].start == t.jobs[j].start)
    && (forall j :: j in t'.queue && j !in t.queue ==> j in Behind(t.jobs, x) && t'.jobs[j].status.Queued?)
    && (forall w :: w in Behind(t.jobs, x) ==>
          || (t'.jobs[w].status.Waiting? && t'.jobs[w].after.Some?
              && IsActive(t'.jobs, t'.jobs[w].after.value) &&
                t'.jobs[t'.jobs[w].after.value].source == t.jobs[w].source)
          || (t'.jobs[w].status.Queued? && w in t'.queue))
  }

  lemma SameSourceBehind(jobs: map<Id, Row>, x: Id)
    requires WaitsOk(jobs)
    ensures forall w :: w in Behind(jobs, x) ==> x in jobs && jobs[w].source == jobs[x].source
  {
  }

  lemma PromoteWorks(t: Table, x: Id, first: Id)
    requires TableOk(t) && MayPick(t.jobs, x, first)
    ensures Promoted(t, Promote(t, x, first), x)
    ensures TableOk(Promote(t, x, first))
  {
    if Behind(t.jobs, x) != {} {
      PromoteViaWorks(t, x, first);
    }
  }

  lemma PromoteViaWorks(t: Table, x: Id, first: Id)
    requires TableOk(t) && IsOldest(t.jobs, Behind(t.jobs, x), first)
    ensures Promoted(t, PromoteVia(t, x, first), x)
    ensures TableOk(PromoteVia(t, x, first))
  {
    if Busy(t.jobs, t.jobs[first].source) {
      RelinkWorks(t, x, first);
    } else {
      ChainWorks(t, x, first);
    }
  }

  lemma RelinkWorks(t: Table, x: Id, first: Id)
    requires TableOk(t) && first in Behind(t.jobs, x) && Busy(t.jobs, t.jobs[first].source)
    ensures var t' := Table(Relink(t.jobs, Behind(t.jobs, x), ActiveOf(t.jobs, t.jobs[first].source)), t.queue);
            Promoted(t, t', x) && TableOk(t')
  {
    var ws, a := Behind(t.jobs, x), ActiveOf(t.jobs, t.jobs[first].source);
    var t' := Table(Relink(t.jobs, ws, a), t.queue);
    SameSourceBehind(t.jobs, x);
    assert forall j :: j in t.jobs ==> t'.jobs[j].status == t.jobs[j].status && t'.jobs[j].source == t.jobs[j].source;
    assert a !in ws && IsActive(t'.jobs, a);
    assert forall j :: IsActive(t'.jobs, j) ==> IsActive(t.jobs, j);
  }

  // The rows after `first` is promoted and `rest` is chained behind it.
  function Chained(jobs: map<Id, Row>, rest: set<Id>, first: Id): map<Id, Row>
    requires first in jobs && first !in rest
    ensures Chained(jobs, rest, first).Keys == jobs.Keys
    ensures Chained(jobs, rest, first)[first] == jobs[first].(status := Queued)
    ensures forall j :: j in rest && j in jobs ==> Chained(jobs, rest, first)[j] == jobs[j].(after := Some(first))
    ensures forall j :: j in jobs && j != first && j !in rest ==> Chained(jobs, rest, first)[j] == jobs[j]
  {
    var relinked := Relink(jobs, rest, first);
    relinked[first := relinked[first].(status := Queued)]
  }

  lemma ChainWorks(t: Table, x: Id, first: Id)
    requires TableOk(t) && first in Behind(t.jobs, x) && !Busy(t.jobs, t.jobs[first].source)
    ensures var t' := Table(Chained(t.jobs, Behind(t.jobs, x) - {first}, first), t.queue + {first});
            Promoted(t, t', x) && TableOk(t')
  {
    var ws := Behind(t.jobs, x);
    var jobs := Chained(t.jobs, ws - {first}, first);
    SameSourceBehind(t.jobs, x);
    ChainKeepsOneActive(t.jobs, ws - {first}, first);
    ChainKeepsWaits(t.jobs, x, first);
  }

  lemma ChainKeepsOneActive(jobs: map<Id, Row>, rest: set<Id>, first: Id)
    requires OneActive(jobs) && first in jobs && first !in rest && !Busy(jobs, jobs[first].source)
    ensures OneActive(Chained(jobs, rest, first))
  {
    var jobs' := Chained(jobs, rest, first);
    forall a, b | IsActive(jobs', a) && IsActive(jobs', b) && jobs'[a].source == jobs'[b].source
      ensures a == b
    {
      assert a != first ==> IsActive(jobs, a);
      assert b != first ==> IsActive(jobs, b);
    }
  }

  lemma ChainKeepsWaits(jobs: map<Id, Row>, x: Id, first: Id)
    requires WaitsOk(jobs) && first in Behind(jobs, x)
    ensures WaitsOk(Chained(jobs, Behind(jobs, x) - {first}, first))
  {
    var jobs' := Chained(jobs, Behind(jobs, x) - {first}, first);
    SameSourceBehind(jobs, x);
    forall w | w in jobs' && jobs'[w].status.Waiting?
      ensures && jobs'[w].after.Some? && jobs'[w].after.value in jobs' && !jobs'[w].kind.Resummarize?
              && jobs'[jobs'[w].after.value].source == jobs'[w].source
              && !jobs'[jobs'[w].after.value].status.Waiting?
    {
      assert jobs[w].status.Waiting?;
    }
  }

  // After a promote nobody waits on `x` any more, unless `x` is active.
  lemma PromoteEmpties(t: Table, x: Id, first: Id)
    requires TableOk(t) && MayPick(t.jobs, x, first)
    ensures forall w :: w in Behind(Promote(t, x, first).jobs, x) ==> IsActive(Promote(t, x, first).jobs, x)
  {
    PromoteWorks(t, x, first);
    var t' := Promote(t, x, first);
    forall w | w in Behind(t'.jobs, x) ensures IsActive(t'.jobs, x) {
      assert w in Behind(t.jobs, x);
    }
  }

  // ---------------------------------------------------------------------------
  // The tables after each step
  // ---------------------------------------------------------------------------

  // No row goes away or changes what it is, and none starts to wait again.
  ghost predicate Evolves(t: Table, t': Table) {
    forall j :: j in t.jobs ==>
      && j in t'.jobs
      && t'.jobs[j].source == t.jobs[j].source && t'.jobs[j].kind == t.jobs[j].kind &&
        t'.jobs[j].start == t.jobs[j].start
      && (!t.jobs[j].status.Waiting? ==> !t'.jobs[j].status.Waiting?)
  }

  // The status of one row changes, and it neither starts nor stops waiting.
  lemma StatusChange(jobs: map<Id, Row>, j: Id, status: Status)
    requires OneActive(jobs) && WaitsOk(jobs)
    requires Settled(jobs, j) && !status.Waiting?
    requires status.Active() ==> !Taken(jobs, j)
    ensures OneActive(SetStatus(jobs, j, status)) && WaitsOk(SetStatus(jobs, j, status))
    ensures forall x :: Behind(SetStatus(jobs, j, status), x) == Behind(jobs, x)
    ensures forall i :: IsActive(SetStatus(jobs, j, status), i) <==> if i == j then status.Active()
            else IsActive(jobs, i)
  {
    var jobs' := SetStatus(jobs, j, status);
    forall a, b | IsActive(jobs', a) && IsActive(jobs', b) && jobs'[a].source == jobs'[b].source ensures a == b {
      if a != j && b != j { assert IsActive(jobs, a) && IsActive(jobs, b); }
      if a == j && b != j { assert IsActive(jobs, b); }
      if a != j && b == j { assert IsActive(jobs, a); }
    }
  }

  lemma WriteWorks(t: Table, j: Id, status: Status)
    requires TableOk(t) && Settled(t.jobs, j) && !status.Waiting?
    requires status.Active() ==> !Taken(t.jobs, j)
    ensures var t' := t.(jobs := SetStatus(t.jobs, j, status)); TableOk(t') && Evolves(t, t')
  {
    StatusChange(t.jobs, j, status);
  }

  // An active job's source is not taken by another one.
  lemma ActiveIsNotTaken(jobs: map<Id, Row>, j: Id)
    requires OneActive(jobs) && IsActive(jobs, j)
    ensures !Taken(jobs, j)
  {
  }

  // A new row appears.
  lemma NewRow(jobs: map<Id, Row>, j: Id, row: Row)
    requires OneActive(jobs) && WaitsOk(jobs) && j !in jobs
    requires row.status.Active() ==> !Busy(jobs, row.source)
    requires row.status.Waiting? ==> row.after.Some? && row.after.value in jobs && !row.kind.Resummarize?
                                     && jobs[row.after.value].source == row.source
                                     && !jobs[row.after.value].status.Waiting?
    ensures OneActive(jobs[j := row]) && WaitsOk(jobs[j := row])
    ensures forall x: Id :: Behind(jobs[j := row], x)
                     == Behind(jobs, x) + (if row.status.Waiting? && row.after == Some(x) then {j} else {})
    ensures forall i :: IsActive(jobs[j := row], i) <==> if i == j then row.status.Active() else IsActive(jobs, i)
  {
    var jobs' := jobs[j := row];
    forall a, b | IsActive(jobs', a) && IsActive(jobs', b) && jobs'[a].source == jobs'[b].source ensures a == b {
      if a != j && b != j { assert IsActive(jobs, a) && IsActive(jobs, b); }
      if a == j && b != j { assert IsActive(jobs, b); }
      if a != j && b == j { assert IsActive(jobs, a); }
    }
  }

  lemma PromoteEvolves(t: Table, x: Id, first: Id)
    requires TableOk(t) && MayPick(t.jobs, x, first)
    ensures Evolves(t, Promote(t, x, first))
  {
    PromoteWorks(t, x, first);
  }

  lemma CancelWorks(t: Table, r: Id)
    requires TableOk(t) && r in t.queue
    ensures TableOk(Cancel(t, r)) && Evolves(t, Cancel(t, r))
    ensures forall x :: Behind(Cancel(t, r).jobs, x) == Behind(t.jobs, x)
  {
    if t.jobs[r].status.Queued? {
      StatusChange(t.jobs, r, Done);
    }
  }

  lemma CallTable(s: State, l: Label)
    requires Structure(s) && Enabled(s, l) && !OfWorker(l) && !OfRecovery(l)
    ensures TableOk(Next(s, l).table) && Evolves(s.table, Next(s, l).table)
  {
    var t := s.table;
    match l
    case TryCancel(j) =>
      if s.calls[j].stage.refresh in t.queue {
        CancelWorks(t, s.calls[j].stage.refresh);
      }
    case Persist(j) =>
      var c := s.calls[j];
      if !Busy(t.jobs, c.source) {
        assert CallOk(s, j);
        NewRow(t.jobs, j, Row(c.source, c.kind, Queued, c.start, None));
      }
    case PersistWaiting(j) =>
      var c := s.calls[j];
      assert CallOk(s, j);
      NewRow(t.jobs, j, Row(c.source, c.kind, Waiting, c.start, Some(c.stage.refresh)));
    case Enqueue(j) =>
      assert CallOk(s, j);
    case PromoteNow(j, first) =>
      PromoteWorks(t, s.calls[j].stage.refresh, first);
      PromoteEvolves(t, s.calls[j].stage.refresh, first);
    case _ =>
  }

  lemma WorkerWrites(s: State, l: Label)
    requires Structure(s) && Enabled(s, l) && (l.Announce? || l.Requeue? || l.Finish? || l.FailForRetry? || l.GiveUp?)
    ensures TableOk(Next(s, l).table) && Evolves(s.table, Next(s, l).table)
  {
    var t, j := s.table, s.workers[l.w].job;
    match l
    case Announce(_) => if !Taken(t.jobs, j) { WriteWorks(t, j, Running); }
    case Requeue(_) => if !Taken(t.jobs, j) { WriteWorks(t, j, Queued); }
    case Finish(_, status) => WriteWorks(t, j, status);
    case FailForRetry(_) => WriteWorks(t, j, Failed);
    case GiveUp(_) => WriteWorks(t, j, DeadLetter);
  }

  lemma HookTable(s: State, l: Label)
    requires Structure(s) && Enabled(s, l) && l.RunHook?
    ensures TableOk(Next(s, l).table) && Evolves(s.table, Next(s, l).table)
  {
    PromoteWorks(s.table, s.workers[l.w].job, l.first);
    PromoteEvolves(s.table, s.workers[l.w].job, l.first);
  }

  lemma WorkerTable(s: State, l: Label)
    requires Structure(s) && Enabled(s, l) && OfWorker(l)
    ensures TableOk(Next(s, l).table) && Evolves(s.table, Next(s, l).table)
  {
    if l.RunHook? {
      HookTable(s, l);
    } else if l.Announce? || l.Requeue? || l.Finish? || l.FailForRetry? || l.GiveUp? {
      WorkerWrites(s, l);
    }
  }

  lemma RecoverWorks(t: Table, finished: set<Source>, j: Id, dispatchable: bool)
    requires TableOk(t) && Settled(t.jobs, j)
    ensures var t' := RecoverJob(t, finished, j, dispatchable);
            && TableOk(t') && Evolves(t, t')
            && (forall x :: Behind(t'.jobs, x) == Behind(t.jobs, x))
            && (forall i :: IsActive(t'.jobs, i) ==> IsActive(t.jobs, i))
            && (IsActive(t'.jobs, j) ==> j in t'.queue)
  {
    if Superseded(t.jobs, finished, j) {
      StatusChange(t.jobs, j, Done);
    } else if !dispatchable {
      StatusChange(t.jobs, j, Failed);
    }
  }

  lemma RecoveryTable(s: State, l: Label)
    requires Structure(s) && Enabled(s, l) && OfRecovery(l)
    ensures TableOk(Next(s, l).table) && Evolves(s.table, Next(s, l).table)
  {
    match l
    case Recover(dispatchable) =>
      RecoverWorks(s.table, s.recovery.finished, s.recovery.todo[0], dispatchable);
    case PromoteOrphan(first) =>
      PromoteWorks(s.table, s.recovery.x, first);
      PromoteEvolves(s.table, s.recovery.x, first);
    case _ =>
  }

  lemma TableStep(s: State, l: Label)
    requires Structure(s) && Enabled(s, l)
    ensures TableOk(Next(s, l).table) && Evolves(s.table, Next(s, l).table)
  {
    if OfWorker(l) {
      WorkerTable(s, l);
    } else if OfRecovery(l) {
      RecoveryTable(s, l);
    } else {
      CallTable(s, l);
    }
  }

  // ---------------------------------------------------------------------------
  // The processes after each step
  // ---------------------------------------------------------------------------

  // Steps of workers and of recovery leave the calls alone, and add no row.
  lemma CallsLeftAlone(s: State, l: Label)
    requires Structure(s) && Enabled(s, l) && (OfWorker(l) || OfRecovery(l))
    ensures Next(s, l).calls == s.calls && Next(s, l).table.jobs.Keys == s.table.jobs.Keys
  {
    if OfWorker(l) {
      WorkerLeavesCalls(s, l);
    } else {
      RecoveryLeavesCalls(s, l);
    }
  }

  lemma WorkerLeavesCalls(s: State, l: Label)
    requires Structure(s) && Enabled(s, l) && OfWorker(l)
    ensures Next(s, l).calls == s.calls && Next(s, l).table.jobs.Keys == s.table.jobs.Keys
  {
    if l.RunHook? {
      PromoteWorks(s.table, s.workers[l.w].job, l.first);
    }
  }

  lemma RecoveryLeavesCalls(s: State, l: Label)
    requires Structure(s) && Enabled(s, l) && OfRecovery(l)
    ensures Next(s, l).calls == s.calls && Next(s, l).table.jobs.Keys == s.table.jobs.Keys
  {
    if l.PromoteOrphan? {
      PromoteWorks(s.table, s.recovery.x, l.first);
    } else if l.Recover? {
      RecoverKeepsKeys(s, l);
    }
  }

  lemma RecoverKeepsKeys(s: State, l: Label)
    requires Enabled(s, l) && l.Recover?
    ensures Next(s, l).table.jobs.Keys == s.table.jobs.Keys
  {
  }

  lemma WorkersMove(s: State, l: Label, w: WorkerId)
    requires Enabled(s, l) && w in Next(s, l).workers
    ensures (w in s.workers && Next(s, l).workers[w].job == s.workers[w].job) ||
            (l.Claim? && Next(s, l).workers[w].job == l.j)
  {
  }

  lemma WorkersStep(s: State, l: Label)
    requires Structure(s) && Enabled(s, l) && Evolves(s.table, Next(s, l).table)
    ensures WorkersOk(Next(s, l))
  {
    forall w | w in Next(s, l).workers
      ensures Settled(Next(s, l).table.jobs, Next(s, l).workers[w].job)
    {
      WorkersMove(s, l, w);
      assert w in s.workers ==> Settled(s.table.jobs, s.workers[w].job);
    }
  }

  lemma RecoveryMoves(s: State, l: Label)
    requires Structure(s) && Enabled(s, l) && OfRecovery(l)
    ensures var r := Next(s, l).recovery;
            && (r.RunningRead? ==> forall j :: j in r.listed ==> Settled(s.table.jobs, j))
            && (r.Resuming? ==> forall j :: j in r.todo ==> Settled(s.table.jobs, j))
  {
  }

  lemma RecoveryStays(s: State, l: Label)
    requires Enabled(s, l) && !OfRecovery(l)
    ensures Next(s, l).recovery == s.recovery || Next(s, l).recovery.Starting?
  {
  }

  lemma RecoveryStep(s: State, l: Label)
    requires Structure(s) && Enabled(s, l) && Evolves(s.table, Next(s, l).table)
    ensures RecoveryOk(Next(s, l))
  {
    if OfRecovery(l) {
      RecoveryMoves(s, l);
    } else {
      RecoveryStays(s, l);
    }
  }

  lemma SameCall(s: State, s': State, j: Id)
    requires Evolves(s.table, s'.table) && j in s.calls && CallOk(s, j)
    requires j in s'.calls && s'.calls[j] == s.calls[j] && (j in s'.table.jobs ==> j in s.table.jobs)
    ensures CallOk(s', j)
  {
  }

  lemma CallsStep(s: State, l: Label)
    requires Structure(s) && Enabled(s, l) && Evolves(s.table, Next(s, l).table)
    ensures CallsOk(Next(s, l))
  {
    var s' := Next(s, l);
    forall j | j in s'.calls
      ensures CallOk(s', j)
    {
      if OfWorker(l) || OfRecovery(l) {
        CallsLeftAlone(s, l);
        SameCall(s, s', j);
      } else if (OfCall(l) || l.Arrive? || l.Preempt?) && l.j == j {
        MovedCall(s, l);
      } else {
        OtherCall(s, l, j);
        SameCall(s, s', j);
      }
    }
  }

  lemma OtherCall(s: State, l: Label, j: Id)
    requires Structure(s) && Enabled(s, l) && !OfWorker(l) && !OfRecovery(l)
    requires OfCall(l) || l.Arrive? || l.Preempt? ==> l.j != j
    requires j in Next(s, l).calls
    ensures j in s.calls && Next(s, l).calls[j] == s.calls[j]
    ensures j in Next(s, l).table.jobs ==> j in s.table.jobs
  {
    if l.PromoteNow? {
      PromoteWorks(s.table, s.calls[l.j].stage.refresh, l.first);
    }
  }

  lemma MovedCall(s: State, l: Label)
    requires Structure(s) && Enabled(s, l) && Evolves(s.table, Next(s, l).table)
    requires OfCall(l) || l.Arrive? || l.Preempt?
    ensures l.j in Next(s, l).calls ==> CallOk(Next(s, l), l.j)
  {
    if l.j in s.calls {
      assert CallOk(s, l.j);
    }
    match l
    case TryCancel(_) => CancellingCall(s, l);
    case Persist(_) => PersistingCall(s, l);
    case PersistWaiting(_) => PersistingCall(s, l);
    case Arrive(_, _, _, _) => NewCall(s, l);
    case Preempt(_, _, _, _) => NewCall(s, l);
    case ReadAgain(_) => RereadingCall(s, l);
    case _ =>
  }

  lemma NewCall(s: State, l: Label)
    requires Structure(s) && Enabled(s, l) && (l.Arrive? || l.Preempt?)
    ensures l.j in Next(s, l).calls && CallOk(Next(s, l), l.j)
  {
  }

  lemma RereadingCall(s: State, l: Label)
    requires Structure(s) && Enabled(s, l) && l.ReadAgain? && CallOk(s, l.j)
    ensures l.j in Next(s, l).calls ==> CallOk(Next(s, l), l.j)
  {
  }

  lemma CancellingCall(s: State, l: Label)
    requires Structure(s) && Enabled(s, l) && l.TryCancel? && CallOk(s, l.j)
    ensures CallOk(Next(s, l), l.j)
  {
    assert Next(s, l).table.jobs.Keys == s.table.jobs.Keys;
  }

  lemma PersistingCall(s: State, l: Label)
    requires Structure(s) && Enabled(s, l) && (l.Persist? || l.PersistWaiting?) && CallOk(s, l.j)
    ensures l.j in Next(s, l).calls ==> CallOk(Next(s, l), l.j)
  {
  }

  lemma StepKeepsStructure(s: State, l: Label)
    requires Structure(s) && Enabled(s, l)
    ensures Structure(Next(s, l))
  {
    TableStep(s, l);
    WorkersStep(s, l);
    RecoveryStep(s, l);
    CallsStep(s, l);
  }

  // ---------------------------------------------------------------------------
  // Active jobs stay owned
  // ---------------------------------------------------------------------------

  lemma WorkerStays(s: State, l: Label, w: WorkerId)
    requires Enabled(s, l) && w in s.workers && !l.Crash? && !(OfWorker(l) && l.w == w)
    ensures w in Next(s, l).workers && Next(s, l).workers[w] == s.workers[w]
  {
  }

  lemma CallStays(s: State, l: Label, c: Id)
    requires Enabled(s, l) && c in s.calls && !l.Crash? && !((OfCall(l) || l.Arrive? || l.Preempt?) && l.j == c)
    ensures c in Next(s, l).calls && Next(s, l).calls[c] == s.calls[c]
  {
  }

  // The job whose row the step may rewrite, other than by promoting.
  ghost predicate Writes(s: State, l: Label, j: Id)
    requires Enabled(s, l)
  {
    || (OfWorker(l) && s.workers[l.w].job == j)
    || (l.Recover? && s.recovery.todo[0] == j)
    || (l.TryCancel? && s.calls[l.j].stage.refresh == j)
  }

  predicate Promotes(l: Label) {
    l.RunHook? || l.PromoteNow? || l.PromoteOrphan?
  }

  // Only the row of that job changes, and it does not wait.
  lemma RowStays(s: State, l: Label, j: Id)
    requires Structure(s) && Enabled(s, l) && !Promotes(l) && j in s.table.jobs
    ensures j in Next(s, l).table.jobs
    ensures Next(s, l).table.jobs[j] == s.table.jobs[j] || (Writes(s, l, j) && Settled(s.table.jobs, j))
  {
    if OfWorker(l) {
      WorkerRow(s, l, j);
    } else if OfRecovery(l) {
      RecoveryRow(s, l, j);
    } else {
      CallRow(s, l, j);
    }
  }

  lemma WorkerRow(s: State, l: Label, j: Id)
    requires Structure(s) && Enabled(s, l) && OfWorker(l) && !l.RunHook? && j in s.table.jobs
    ensures j in Next(s, l).table.jobs
    ensures Next(s, l).table.jobs[j] == s.table.jobs[j] || (s.workers[l.w].job == j && Settled(s.table.jobs, j))
  {
  }

  lemma RecoveryRow(s: State, l: Label, j: Id)
    requires Structure(s) && Enabled(s, l) && OfRecovery(l) && !l.PromoteOrphan? && j in s.table.jobs
    ensures j in Next(s, l).table.jobs
    ensures Next(s, l).table.jobs[j] == s.table.jobs[j] || (Writes(s, l, j) && Settled(s.table.jobs, j))
  {
    if l.Recover? {
      assert s.recovery.todo[0] in s.recovery.todo;
    }
  }

  lemma CallRow(s: State, l: Label, j: Id)
    requires Structure(s) && Enabled(s, l) && !OfWorker(l) && !OfRecovery(l) && !l.PromoteNow? && j in s.table.jobs
    ensures j in Next(s, l).table.jobs
    ensures Next(s, l).table.jobs[j] == s.table.jobs[j] || (Writes(s, l, j) && Settled(s.table.jobs, j))
  {
    if l.Persist? || l.PersistWaiting? {
      assert CallOk(s, l.j);
    }
  }

  // The job whose waiters the step promotes.
  ghost function PromoteTarget(s: State, l: Label): Id
    requires Enabled(s, l) && Promotes(l)
  {
    match l
    case RunHook(w, _) => s.workers[w].job
    case PromoteNow(j, _) => s.calls[j].stage.refresh
    case PromoteOrphan(_) => s.recovery.x
  }

  lemma PromotesIt(s: State, l: Label)
    requires Structure(s) && Enabled(s, l) && Promotes(l)
    ensures var x := PromoteTarget(s, l);
            && MayPick(s.table.jobs, x, l.first) && Next(s, l).table == Promote(s.table, x, l.first)
            && TableOk(Next(s, l).table) && Promoted(s.table, Next(s, l).table, x)
            && forall v :: v in Behind(Next(s, l).table.jobs, x) ==> IsActive(Next(s, l).table.jobs, x)
  {
    PromoteWorks(s.table, PromoteTarget(s, l), l.first);
    PromoteEmpties(s.table, PromoteTarget(s, l), l.first);
  }

  predicate Raises(l: Label) {
    l.WorkerRaises? || l.CallRaises?
  }

  lemma KeeperMoves(s: State, l: Label, w: WorkerId, j: Id)
    requires !Raises(l) && Structure(s) && Enabled(s, l) && OfWorker(l) && l.w == w && Keeps(s, w, j)
    requires IsActive(Next(s, l).table.jobs, j)
    ensures Keeps(Next(s, l), w, j) || j in Next(s, l).table.queue
  {
    if l.Announce? {
      AnnouncerKeeps(s, l, j);
    } else {
      KeeperWorks(s, l, w, j);
    }
  }

  lemma AnnouncerKeeps(s: State, l: Label, j: Id)
    requires Structure(s) && Enabled(s, l) && l.Announce? && Keeps(s, l.w, j) && IsActive(Next(s, l).table.jobs, j)
    ensures Keeps(Next(s, l), l.w, j)
  {
    if IsActive(s.table.jobs, j) {
      ActiveIsNotTaken(s.table.jobs, j);
    }
  }

  lemma KeeperWorks(s: State, l: Label, w: WorkerId, j: Id)
    requires !Raises(l) && Enabled(s, l) && OfWorker(l) && !l.Announce? && l.w == w && Keeps(s, w, j)
    requires IsActive(Next(s, l).table.jobs, j)
    ensures Keeps(Next(s, l), w, j) || j in Next(s, l).table.queue
  {
  }

  lemma KeeperGoesOn(s: State, l: Label, w: WorkerId, j: Id)
    requires !Raises(l) && Structure(s) && Enabled(s, l) && Keeps(s, w, j) && IsActive(Next(s, l).table.jobs, j)
    ensures Owned(Next(s, l), j)
  {
    if OfWorker(l) && l.w == w {
      KeeperMoves(s, l, w, j);
    } else if l.Crash? {
      assert Covers(Next(s, l), j);
    } else {
      WorkerStays(s, l, w);
      assert Keeps(Next(s, l), w, j);
    }
  }

  lemma CoverGoesOn(s: State, l: Label, j: Id)
    requires Structure(s) && Enabled(s, l) && Covers(s, j)
    requires IsActive(s.table.jobs, j) && IsActive(Next(s, l).table.jobs, j)
    ensures Owned(Next(s, l), j)
  {
    var s' := Next(s, l);
    if OfRecovery(l) {
      CoverInRecovery(s, l, j);
    } else if l.Crash? {
      assert Covers(s', j);
    } else if l.Announce? && s.workers[l.w].job == j {
      ActiveIsNotTaken(s.table.jobs, j);
      assert Keeps(s', l.w, j);
    } else {
      CoverElsewhere(s, l, j);
    }
  }

  lemma CoverInRecovery(s: State, l: Label, j: Id)
    requires Structure(s) && Enabled(s, l) && OfRecovery(l) && Covers(s, j)
    requires IsActive(s.table.jobs, j) && IsActive(Next(s, l).table.jobs, j)
    ensures j in Next(s, l).table.queue || Covers(Next(s, l), j)
  {
    if l.Recover? {
      RecoverWorks(s.table, s.recovery.finished, s.recovery.todo[0], l.dispatchable);
      CoverInLoop(s, l, j);
    } else {
      CoverInListing(s, l, j);
    }
  }

  lemma CoverInLoop(s: State, l: Label, j: Id)
    requires Enabled(s, l) && l.Recover? && Covers(s, j)
    ensures j == s.recovery.todo[0] || Covers(Next(s, l), j)
  {
  }

  lemma CoverInListing(s: State, l: Label, j: Id)
    requires Enabled(s, l) && OfRecovery(l) && !l.Recover? && Covers(s, j) && IsActive(s.table.jobs, j)
    ensures Covers(Next(s, l), j)
  {
  }

  lemma CoverElsewhere(s: State, l: Label, j: Id)
    requires Structure(s) && Enabled(s, l) && !OfRecovery(l) && !l.Crash? && Covers(s, j)
    requires l.Announce? ==> s.workers[l.w].job != j
    requires IsActive(s.table.jobs, j) && IsActive(Next(s, l).table.jobs, j)
    ensures Covers(Next(s, l), j)
  {
    RecoveryStays(s, l);
    if Promotes(l) {
      PromotesIt(s, l);
    } else {
      RowStays(s, l, j);
      QueuedStays(s, l, j);
    }
  }

  lemma QueuedStays(s: State, l: Label, j: Id)
    requires Structure(s) && Enabled(s, l) && !OfRecovery(l) && !Promotes(l) &&
             !(l.Announce? && s.workers[l.w].job == j)
    requires j in s.table.jobs && IsActive(Next(s, l).table.jobs, j)
    ensures s.table.jobs[j].status.Queued? ==> Next(s, l).table.jobs[j].status.Queued?
  {
    RowStays(s, l, j);
  }

  lemma OwnedElseGoesOn(s: State, l: Label, j: Id)
    requires !Raises(l) && Structure(s) && Enabled(s, l) && OwnedElse(s, j)
    requires IsActive(s.table.jobs, j) && IsActive(Next(s, l).table.jobs, j)
    ensures Owned(Next(s, l), j)
  {
    if Covers(s, j) {
      CoverGoesOn(s, l, j);
    } else if w :| Keeps(s, w, j) {
      KeeperGoesOn(s, l, w, j);
    } else {
      CallGoesOn(s, l, j);
    }
  }

  lemma CallGoesOn(s: State, l: Label, j: Id)
    requires !Raises(l) && Enabled(s, l) && CallQueues(s, j)
    ensures j in Next(s, l).table.queue || CallQueues(Next(s, l), j) || Covers(Next(s, l), j)
  {
  }

  lemma QueuedGoesOn(s: State, l: Label, j: Id)
    requires Structure(s) && Enabled(s, l) && j in s.table.queue
    requires !(l.TryCancel? && s.calls[l.j].stage.refresh == j)
    ensures Owned(Next(s, l), j)
  {
    if l.Claim? && l.j == j {
      assert Keeps(Next(s, l), l.w, j);
    } else if Promotes(l) {
      PromotesIt(s, l);
    } else {
      QueueStays(s, l, j);
    }
  }

  lemma QueueStays(s: State, l: Label, j: Id)
    requires Enabled(s, l) && !Promotes(l) && j in s.table.queue
    requires !(l.TryCancel? && s.calls[l.j].stage.refresh == j) && !(l.Claim? && l.j == j)
    ensures j in Next(s, l).table.queue
  {
  }

  // What makes a job active also takes charge of it.
  lemma NewlyActive(s: State, l: Label, j: Id)
    requires !Raises(l) && Structure(s) && Enabled(s, l)
    requires !IsActive(s.table.jobs, j) && IsActive(Next(s, l).table.jobs, j)
    ensures Owned(Next(s, l), j)
  {
    if Promotes(l) {
      PromotesIt(s, l);
    } else if j !in s.table.jobs {
      NewActiveRow(s, l, j);
    } else {
      RowStays(s, l, j);
      if OfWorker(l) {
        assert Keeps(Next(s, l), l.w, j);
      } else if l.Recover? {
        RecoverWorks(s.table, s.recovery.finished, s.recovery.todo[0], l.dispatchable);
      }
    }
  }

  lemma NewActiveRow(s: State, l: Label, j: Id)
    requires Structure(s) && Enabled(s, l) && !Promotes(l)
    requires j !in s.table.jobs && IsActive(Next(s, l).table.jobs, j)
    ensures CallQueues(Next(s, l), j)
  {
    NewRowIs(s, l, j);
  }

  lemma OwnedStep(s: State, l: Label, j: Id)
    requires !Raises(l) && Structure(s) && Enabled(s, l) && AllOwned(s) && Safe(s, l)
    requires IsActive(Next(s, l).table.jobs, j)
    ensures Owned(Next(s, l), j)
  {
    if !IsActive(s.table.jobs, j) {
      NewlyActive(s, l, j);
    } else if OwnedElse(s, j) {
      OwnedElseGoesOn(s, l, j);
    } else {
      QueuedGoesOn(s, l, j);
    }
  }

  // ---------------------------------------------------------------------------
  // Predecessors stay attended
  // ---------------------------------------------------------------------------

  ghost predicate PromotesOf(s: State, l: Label, x: Id)
    requires Enabled(s, l)
  {
    Promotes(l) && PromoteTarget(s, l) == x
  }

  lemma CheckGoesOn(s: State, l: Label, x: Id, v: Id)
    requires Structure(s) && Enabled(s, l) && WillCheck(s, x) && v in Behind(s.table.jobs, x) && !PromotesOf(s, l, x)
    ensures Attended(Next(s, l), x)
  {
    if OfRecovery(l) {
      CheckMoves(s, l, x, v);
    } else {
      RecoveryStays(s, l);
    }
  }

  lemma CheckMoves(s: State, l: Label, x: Id, v: Id)
    requires Structure(s) && Enabled(s, l) && OfRecovery(l)
    requires WillCheck(s, x) && v in Behind(s.table.jobs, x) && !PromotesOf(s, l, x)
    ensures IsActive(Next(s, l).table.jobs, x) || WillCheck(Next(s, l), x)
  {
    assert !s.table.jobs[x].status.Waiting?;
    if l.CheckOrphan? {
      CheckLooks(s, x);
    }
  }

  // A look at a predecessor drops no other, and drops this one only if it is queued or running.
  lemma CheckLooks(s: State, x: Id)
    requires Enabled(s, CheckOrphan) && WillCheck(s, x) && x in s.table.jobs && !s.table.jobs[x].status.Waiting?
    ensures IsActive(Next(s, CheckOrphan).table.jobs, x) || WillCheck(Next(s, CheckOrphan), x)
  {
  }

  lemma RereadMoves(s: State, l: Label, c: Id, x: Id)
    requires !Raises(l) && Structure(s) && Enabled(s, l) && OfCall(l) && l.j == c && Rereads(s, c, x) &&
             !PromotesOf(s, l, x)
    ensures IsActive(Next(s, l).table.jobs, x) || Rereads(Next(s, l), c, x)
  {
  }

  lemma RereadGoesOn(s: State, l: Label, c: Id, x: Id)
    requires !Raises(l) && Structure(s) && Enabled(s, l) && Rereads(s, c, x) && !PromotesOf(s, l, x)
    ensures Attended(Next(s, l), x)
  {
    if OfCall(l) && l.j == c {
      RereadMoves(s, l, c, x);
    } else if l.Crash? {
      assert WillCheck(Next(s, l), x);
    } else {
      CallStays(s, l, c);
      assert Rereads(Next(s, l), c, x);
    }
  }

  lemma EnderMoves(s: State, l: Label, w: WorkerId, x: Id)
    requires !Raises(l) && Structure(s) && Enabled(s, l) && OfWorker(l) && l.w == w && Ends(s, w, x) &&
             !PromotesOf(s, l, x)
    requires l.Requeue? || l.Announce? ==> !Taken(s.table.jobs, x)
    ensures IsActive(Next(s, l).table.jobs, x) || Ends(Next(s, l), w, x)
  {
  }

  lemma EnderGoesOn(s: State, l: Label, w: WorkerId, x: Id)
    requires !Raises(l) && Structure(s) && Enabled(s, l) && Ends(s, w, x) && !PromotesOf(s, l, x)
    requires (l.Requeue? || l.Announce?) && l.w == w ==> !Taken(s.table.jobs, x)
    ensures Attended(Next(s, l), x)
  {
    if OfWorker(l) && l.w == w {
      EnderMoves(s, l, w, x);
    } else if l.Crash? {
      assert WillCheck(Next(s, l), x);
    } else {
      WorkerStays(s, l, w);
      assert Ends(Next(s, l), w, x);
    }
  }

  lemma AttendedGoesOn(s: State, l: Label, x: Id, v: Id)
    requires !Raises(l) && Structure(s) && Enabled(s, l) && v in Behind(s.table.jobs, x) && !PromotesOf(s, l, x)
    requires AttendedElse(s, x) && Safe(s, l)
    ensures Attended(Next(s, l), x)
  {
    if WillCheck(s, x) {
      CheckGoesOn(s, l, x, v);
    } else if c :| Rereads(s, c, x) {
      RereadGoesOn(s, l, c, x);
    } else {
      var gaveUp := if (l.Requeue? || l.Announce?) && s.workers[l.w].job == x &&
        Taken(s.table.jobs, x) then {l.w} else {};
      assert AttendedBut(s, x, gaveUp, {});
      var w :| w !in gaveUp && Ends(s, w, x);
      EnderGoesOn(s, l, w, x);
    }
  }

  // A job that stops being active leaves somebody who promotes those behind it.
  lemma Deactivated(s: State, l: Label, x: Id, v: Id)
    requires !Raises(l) && Structure(s) && Enabled(s, l) && Safe(s, l) && v in Behind(s.table.jobs, x)
    requires IsActive(s.table.jobs, x) && !IsActive(Next(s, l).table.jobs, x)
    ensures Attended(Next(s, l), x)
  {
    if Promotes(l) {
      PromotesIt(s, l);
    } else {
      RowStays(s, l, x);
      if l.TryCancel? {
        AttendedGoesOn(s, l, x, v);
      } else if OfWorker(l) {
        EnderEnds(s, l, x);
        assert Ends(Next(s, l), l.w, x);
      }
    }
  }

  lemma EnderEnds(s: State, l: Label, x: Id)
    requires !Raises(l) && Enabled(s, l) && OfWorker(l) && !Promotes(l)
    requires IsActive(s.table.jobs, x) && !IsActive(Next(s, l).table.jobs, x)
    ensures Ends(Next(s, l), l.w, x)
  {
  }

  // A job that starts to wait, or whose predecessor changes, has an active one or reads it again.
  lemma NewlyBehind(s: State, l: Label, x: Id, v: Id)
    requires Structure(s) && Enabled(s, l)
    requires v !in Behind(s.table.jobs, x) && v in Behind(Next(s, l).table.jobs, x)
    ensures Attended(Next(s, l), x)
  {
    if Promotes(l) {
      PromotesIt(s, l);
    } else if v in s.table.jobs {
      RowStays(s, l, v);
      TableStep(s, l);
    } else {
      NewWaiter(s, l, v, x);
      assert Rereads(Next(s, l), v, x);
    }
  }

  lemma NewWaiter(s: State, l: Label, v: Id, x: Id)
    requires Structure(s) && Enabled(s, l) && !Promotes(l) && v !in s.table.jobs &&
             v in Behind(Next(s, l).table.jobs, x)
    ensures Rereads(Next(s, l), v, x)
  {
    NewRowIs(s, l, v);
  }

  // Only a call adds a row, that of the job it creates.
  lemma NewRowIs(s: State, l: Label, v: Id)
    requires Structure(s) && Enabled(s, l) && !Promotes(l) && v !in s.table.jobs && v in Next(s, l).table.jobs
    ensures (l.Persist? || l.PersistWaiting?) && l.j == v
  {
    if OfWorker(l) || OfRecovery(l) {
      CallsLeftAlone(s, l);
    }
  }

  lemma AttendedStep(s: State, l: Label, x: Id, v: Id)
    requires !Raises(l) && Structure(s) && Enabled(s, l) && AllAttended(s) && Safe(s, l)
    requires v in Behind(Next(s, l).table.jobs, x)
    ensures Attended(Next(s, l), x)
  {
    if v !in Behind(s.table.jobs, x) {
      NewlyBehind(s, l, x, v);
    } else if PromotesOf(s, l, x) {
      PromotesIt(s, l);
    } else if AttendedElse(s, x) {
      AttendedGoesOn(s, l, x, v);
    } else if !IsActive(Next(s, l).table.jobs, x) {
      Deactivated(s, l, x, v);
    }
  }

  // ---------------------------------------------------------------------------
  // No lost wakeup
  // ---------------------------------------------------------------------------

  lemma SafeStep(s: State, l: Label)
    requires !Raises(l) && Structure(s) && Enabled(s, l) && NothingStuck(s) && Safe(s, l)
    ensures NothingStuck(Next(s, l))
  {
    forall j | IsActive(Next(s, l).table.jobs, j)
      ensures Owned(Next(s, l), j)
    {
      OwnedStep(s, l, j);
    }
    forall x, v | v in Behind(Next(s, l).table.jobs, x)
      ensures Attended(Next(s, l), x)
    {
      AttendedStep(s, l, x, v);
    }
  }

  // A cancelled queue row takes nobody else's charge away.
  lemma CancelAddsNobody(s: State, l: Label, r: Id)
    requires Structure(s) && Enabled(s, l) && l.TryCancel? && r == s.calls[l.j].stage.refresh && r in s.table.queue
    ensures OwnedElse(Next(s, l), r) ==> OwnedElse(s, r) || s.table.jobs[r].status.Queued?
    ensures AttendedElse(Next(s, l), r) ==> AttendedElse(s, r)
    ensures r !in Next(s, l).table.queue
  {
    var s' := Next(s, l);
    assert forall w :: Keeps(s', w, r) ==> Keeps(s, w, r);
    assert forall w :: Ends(s', w, r) ==> Ends(s, w, r);
    assert forall c :: Rereads(s', c, r) ==> Rereads(s, c, r);
  }

  lemma CancelStep(s: State, l: Label)
    requires Structure(s) && Enabled(s, l) && l.TryCancel? && NothingStuck(s)
    ensures NothingStuck(Next(s, l)) <==> Safe(s, l)
  {
    if Safe(s, l) {
      SafeStep(s, l);
    } else {
      var s', r := Next(s, l), s.calls[l.j].stage.refresh;
      CancelAddsNobody(s, l, r);
      CancelWorks(s.table, r);
      if s.table.jobs[r].status.Running? {
        assert IsActive(s'.table.jobs, r) && !Owned(s', r);
      } else {
        var v :| v in Behind(s.table.jobs, r);
        assert v in Behind(s'.table.jobs, r) && !Attended(s', r);
      }
    }
  }

  lemma RefusedWriteStep(s: State, l: Label)
    requires Structure(s) && Enabled(s, l) && (l.Requeue? || l.Announce?) && NothingStuck(s)
    ensures NothingStuck(Next(s, l)) <==> Safe(s, l)
  {
    if Safe(s, l) {
      SafeStep(s, l);
    } else {
      var s', w0, j := Next(s, l), l.w, s.workers[l.w].job;
      assert s' == s.(workers := s.workers - {w0});
      assert forall w :: Ends(s', w, j) ==> w != w0 && Ends(s, w, j);
      assert forall c :: Rereads(s', c, j) ==> Rereads(s, c, j);
      if IsActive(s.table.jobs, j) {
        ActiveIsNotTaken(s.table.jobs, j);
      }
      var v :| v in Behind(s.table.jobs, j);
      assert v in Behind(s'.table.jobs, j) && !Attended(s', j);
    }
  }

  // What is left without one worker.
  lemma WithoutWorker(s: State, w: WorkerId, j: Id)
    ensures var g := s.(workers := s.workers - {w});
            (OwnedElse(g, j) <==> OwnedBut(s, j, {w}, {})) && (AttendedElse(g, j) <==> AttendedBut(s, j, {w}, {}))
  {
    var g := s.(workers := s.workers - {w});
    assert forall v :: Keeps(g, v, j) <==> v !in {w} && Keeps(s, v, j);
    assert forall v :: Ends(g, v, j) <==> v !in {w} && Ends(s, v, j);
    assert forall c :: Rereads(g, c, j) <==> Rereads(s, c, j);
  }

  lemma WithoutCall(s: State, c: Id, j: Id)
    ensures var g := s.(calls := s.calls - {c});
            (OwnedElse(g, j) <==> OwnedBut(s, j, {}, {c})) && (AttendedElse(g, j) <==> AttendedBut(s, j, {}, {c}))
  {
    var g := s.(calls := s.calls - {c});
    assert forall v :: Keeps(g, v, j) <==> Keeps(s, v, j);
    assert forall v :: Ends(g, v, j) <==> Ends(s, v, j);
    assert forall d :: Rereads(g, d, j) <==> d !in {c} && Rereads(s, d, j);
  }

  // A worker has only its own job in hand, and a call its own job or its refresh.
  lemma OthersOwn(s: State, w: WorkerId, j: Id)
    requires w in s.workers && s.workers[w].job != j
    ensures OwnedElse(s, j) ==> OwnedBut(s, j, {w}, {})
    ensures AttendedElse(s, j) ==> AttendedBut(s, j, {w}, {})
  {
  }

  lemma OtherCallsOwn(s: State, c: Id, j: Id)
    requires c in s.calls
    ensures !(s.calls[c].stage.Persisted? && c == j) && OwnedElse(s, j) ==> OwnedBut(s, j, {}, {c})
    ensures !Rereads(s, c, j) && AttendedElse(s, j) ==> AttendedBut(s, j, {}, {c})
  {
  }

  lemma WorkerRaisesStep(s: State, l: Label)
    requires Structure(s) && Enabled(s, l) && l.WorkerRaises? && NothingStuck(s)
    ensures NothingStuck(Next(s, l)) <==> Safe(s, l)
  {
    var s', jobs, own := Next(s, l), s.table.jobs, s.workers[l.w].job;
    forall j
      ensures OwnedElse(s', j) <==> OwnedBut(s, j, {l.w}, {})
      ensures AttendedElse(s', j) <==> AttendedBut(s, j, {l.w}, {})
      ensures j != own && OwnedElse(s, j) ==> OwnedElse(s', j)
      ensures j != own && AttendedElse(s, j) ==> AttendedElse(s', j)
    {
      WithoutWorker(s, l.w, j);
      if j != own {
        OthersOwn(s, l.w, j);
      }
    }
    LeftBehind(s, s', own);
  }

  // Only job `own` may have lost somebody: nothing is stuck exactly if it is not.
  lemma LeftBehind(s: State, s': State, own: Id)
    requires NothingStuck(s) && s'.table == s.table
    requires forall j :: j != own && OwnedElse(s, j) ==> OwnedElse(s', j)
    requires forall j :: j != own && AttendedElse(s, j) ==> AttendedElse(s', j)
    ensures NothingStuck(s') <==>
            (IsActive(s.table.jobs, own) ==> Owned(s', own)) && (Behind(s.table.jobs, own) == {} || Attended(s', own))
  {
    if NothingStuck(s') && Behind(s.table.jobs, own) != {} {
      var v :| v in Behind(s'.table.jobs, own);
    }
    if Behind(s.table.jobs, own) == {} || Attended(s', own) {
      forall x, v | v in Behind(s'.table.jobs, x)
        ensures Attended(s', x)
      {
        assert v in Behind(s.table.jobs, x) && Attended(s, x);
      }
    }
  }

  lemma CallRaisesStep(s: State, l: Label)
    requires Structure(s) && Enabled(s, l) && l.CallRaises? && NothingStuck(s)
    ensures NothingStuck(Next(s, l)) <==> Safe(s, l)
  {
    var s', stage := Next(s, l), s.calls[l.j].stage;
    var own := if stage.Reread? || stage.MustPromote? then stage.refresh else l.j;
    forall j
      ensures OwnedElse(s', j) <==> OwnedBut(s, j, {}, {l.j})
      ensures AttendedElse(s', j) <==> AttendedBut(s, j, {}, {l.j})
      ensures !(stage.Persisted? && l.j == j) && OwnedElse(s, j) ==> OwnedElse(s', j)
      ensures !Rereads(s, l.j, j) && AttendedElse(s, j) ==> AttendedElse(s', j)
    {
      WithoutCall(s, l.j, j);
      OtherCallsOwn(s, l.j, j);
    }
    LeftBehind(s, s', own);
    assert forall v :: v in Behind(s.table.jobs, own) ==> Attended(s, own);
  }

  /** Every step keeps the structure, and keeps everything attended exactly when it is safe. */
  lemma StepIsSafeExactly(s: State, l: Label)
    requires Structure(s) && Enabled(s, l) && NothingStuck(s)
    ensures Structure(Next(s, l))
    ensures NothingStuck(Next(s, l)) <==> Safe(s, l)
  {
    StepKeepsStructure(s, l);
    if l.TryCancel? {
      CancelStep(s, l);
    } else if l.Requeue? || l.Announce? {
      RefusedWriteStep(s, l);
    } else if l.WorkerRaises? {
      WorkerRaisesStep(s, l);
    } else if l.CallRaises? {
      CallRaisesStep(s, l);
    } else {
      SafeStep(s, l);
    }
  }

  lemma {:induction false} RunKeepsStructure(states: seq<State>, labels: seq<Label>, n: nat)
    requires Run(states, labels) && Structure(states[0]) && n < |states|
    ensures Structure(states[n])
  {
    if n > 0 {
      RunKeepsStructure(states, labels, n - 1);
      StepKeepsStructure(states[n - 1], labels[n - 1]);
    }
  }

  ghost predicate NeverStuck(states: seq<State>, n: nat)
    requires n < |states|
  {
    forall i :: 0 <= i <= n ==> NothingStuck(states[i])
  }

  ghost predicate AllSafe(states: seq<State>, labels: seq<Label>, n: nat)
    requires Run(states, labels) && n <= |labels|
  {
    forall i :: 0 <= i < n ==> Safe(states[i], labels[i])
  }

  lemma NeverStuckOneMore(states: seq<State>, n: nat)
    requires 0 < n < |states|
    ensures NeverStuck(states, n) <==> NeverStuck(states, n - 1) && NothingStuck(states[n])
  {
  }

  lemma AllSafeOneMore(states: seq<State>, labels: seq<Label>, n: nat)
    requires Run(states, labels) && 0 < n <= |labels|
    ensures AllSafe(states, labels, n) <==> AllSafe(states, labels, n - 1) && Safe(states[n - 1], labels[n - 1])
  {
  }

  /** No lost wakeup, and exactly when: over any run, with crashes at any point and recovery
      beside the workers, nothing is ever stuck if and only if every step is safe. */
  lemma {:induction false} NoLostWakeup(states: seq<State>, labels: seq<Label>, n: nat)
    requires Run(states, labels) && Structure(states[0]) && NothingStuck(states[0]) && n <= |labels|
    ensures NeverStuck(states, n) <==> AllSafe(states, labels, n)
  {
    if n > 0 {
      NoLostWakeup(states, labels, n - 1);
      RunKeepsStructure(states, labels, n - 1);
      NeverStuckOneMore(states, n);
      AllSafeOneMore(states, labels, n);
      if NeverStuck(states, n - 1) {
        StepIsSafeExactly(states[n - 1], labels[n - 1]);
      }
    }
  }

  // A run whose steps are all of one sort leads from `s` to `s'`.
  ghost predicate Leads(s: State, s': State, sort: Label -> bool) {
    exists states, labels ::
      Run(states, labels) && (forall i :: 0 <= i < |labels| ==> sort(labels[i])) &&
      states[0] == s && states[|labels|] == s'
  }

  lemma LeadsToItself(s: State, sort: Label -> bool)
    ensures Leads(s, s, sort)
  {
    assert Run([s], []);
  }

  lemma OneMore(s0: State, s: State, l: Label, s': State, sort: Label -> bool)
    requires Leads(s0, s, sort) && sort(l) && Enabled(s, l) && Next(s, l) == s'
    ensures Leads(s0, s', sort)
  {
    var states, labels :|
      Run(states, labels) && (forall i :: 0 <= i < |labels| ==> sort(labels[i])) &&
      states[0] == s0 && states[|labels|] == s;
    RunLonger(states, labels, l, s');
  }

  lemma RunLonger(states: seq<State>, labels: seq<Label>, l: Label, s': State)
    requires Run(states, labels) && Enabled(states[|labels|], l) && s' == Next(states[|labels|], l)
    ensures Run(states + [s'], labels + [l]) && (states + [s'])[|labels + [l]|] == s'
  {
  }

  predicate RecoveryIsOver(s: State) {
    s.recovery.Idle? || (s.recovery.Orphans? && s.recovery.afters == [])
  }

  /** With no worker, call or recovery under way, a state in which nothing is stuck has every active
      job in the queue and every waiting job behind one of them. */
  lemma AtRest(s: State)
    requires NothingStuck(s) && s.workers == map[] && s.calls == map[] && RecoveryIsOver(s)
    ensures forall j :: IsActive(s.table.jobs, j) ==> j in s.table.queue
    ensures forall x, v :: v in Behind(s.table.jobs, x) ==> IsActive(s.table.jobs, x) && x in s.table.queue
  {
    assert forall j :: !OwnedElse(s, j);
    assert forall x :: !AttendedElse(s, x);
  }

  lemma EmptyIsFine()
    ensures Structure(EMPTY) && NothingStuck(EMPTY)
  {
  }
}
