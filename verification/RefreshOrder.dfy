/**
  The order of the waiting jobs, and how often a job runs, for every interleaving.
*/
module RefreshOrder {
  import opened Options
  import opened Jobs
  import opened JobTable
  import opened RefreshPreemption

  // ---------------------------------------------------------------------------
  // Order, and each promoted once
  // ---------------------------------------------------------------------------

  // `u` and `v` wait on the same job, and `u` was built first.
  ghost predicate Ahead(jobs: map<Id, Row>, u: Id, v: Id) {
    && u in jobs && v in jobs
    && jobs[u].status.Waiting? && jobs[v].status.Waiting?
    && jobs[u].after == jobs[v].after
    && jobs[u].start < jobs[v].start
  }

  // `u` was promoted and `v` waits behind it.
  ghost predicate PromotedFirst(jobs: map<Id, Row>, u: Id, v: Id) {
    && u in jobs && jobs[u].status.Queued?
    && v in jobs && jobs[v].status.Waiting? && jobs[v].after == Some(u)
  }

  lemma PromoteKeepsAhead(t: Table, x: Id, first: Id, u: Id, v: Id)
    requires TableOk(t) && MayPick(t.jobs, x, first) && Ahead(t.jobs, u, v)
    ensures Ahead(Promote(t, x, first).jobs, u, v) || PromotedFirst(Promote(t, x, first).jobs, u, v)
  {
    assert u in Behind(t.jobs, x) <==> v in Behind(t.jobs, x);
  }

  lemma StepKeepsAhead(s: State, l: Label, u: Id, v: Id)
    requires Structure(s) && Enabled(s, l) && Ahead(s.table.jobs, u, v)
    ensures Ahead(Next(s, l).table.jobs, u, v) || PromotedFirst(Next(s, l).table.jobs, u, v)
  {
    if Promotes(l) {
      PromoteKeepsAhead(s.table, PromoteTarget(s, l), l.first, u, v);
      PromotesIt(s, l);
    } else {
      RowStays(s, l, u);
      RowStays(s, l, v);
    }
  }

  ghost predicate WaitsIn(s: State, j: Id) {
    j in s.table.jobs && s.table.jobs[j].status.Waiting?
  }

  /** Jobs that wait on the same job leave the wait in the order they were built, over any run
      with any crashes: the later one still waits when the earlier one is promoted. */
  lemma {:induction false} PromotedInOrder(states: seq<State>, labels: seq<Label>, u: Id, v: Id, n: nat)
    requires Run(states, labels) && Structure(states[0]) && n < |states|
    requires Ahead(states[0].table.jobs, u, v) && forall i :: 0 <= i < n ==> WaitsIn(states[i], u)
    ensures Ahead(states[n].table.jobs, u, v) || PromotedFirst(states[n].table.jobs, u, v)
  {
    if n > 0 {
      PromotedInOrder(states, labels, u, v, n - 1);
      RunKeepsStructure(states, labels, n - 1);
      assert WaitsIn(states[n - 1], u);
      StepKeepsAhead(states[n - 1], labels[n - 1], u, v);
    }
  }

  // In this step of the run job `j` stops waiting.
  ghost predicate LeavesWait(states: seq<State>, i: nat, j: Id)
    requires i + 1 < |states|
  {
    WaitsIn(states[i], j) && !WaitsIn(states[i + 1], j)
  }

  lemma LeavesByQueue(s: State, l: Label, j: Id)
    requires Structure(s) && Enabled(s, l) && WaitsIn(s, j) && !WaitsIn(Next(s, l), j)
    ensures Promotes(l) && j in Next(s, l).table.jobs && Next(s, l).table.jobs[j].status.Queued? &&
            j in Next(s, l).table.queue
  {
    if Promotes(l) {
      PromotesIt(s, l);
    } else {
      RowStays(s, l, j);
    }
  }

  lemma {:induction false} NeverWaitsAgain(states: seq<State>, labels: seq<Label>, j: Id, i: nat, k: nat)
    requires Run(states, labels) && Structure(states[0]) && i <= k < |states|
    requires j in states[i].table.jobs && !WaitsIn(states[i], j)
    ensures j in states[k].table.jobs && !WaitsIn(states[k], j)
  {
    if i < k {
      NeverWaitsAgain(states, labels, j, i, k - 1);
      RunKeepsStructure(states, labels, k - 1);
      StaysSettled(states[k - 1], labels[k - 1], j);
    }
  }

  lemma StaysSettled(s: State, l: Label, j: Id)
    requires Structure(s) && Enabled(s, l) && j in s.table.jobs && !WaitsIn(s, j)
    ensures j in Next(s, l).table.jobs && !WaitsIn(Next(s, l), j)
  {
    TableStep(s, l);
  }

  /** A waiting job is promoted at most once, over any run with any crashes: it leaves the wait by
      entering the queue, and never waits again. */
  lemma PromotedOnce(states: seq<State>, labels: seq<Label>, j: Id, a: nat, b: nat)
    requires Run(states, labels) && Structure(states[0])
    requires a < |labels| && b < |labels| && LeavesWait(states, a, j) && LeavesWait(states, b, j)
    ensures a == b && Promotes(labels[a]) && j in states[a + 1].table.queue
  {
    RunKeepsStructure(states, labels, a);
    RunKeepsStructure(states, labels, b);
    LeavesByQueue(states[a], labels[a], j);
    LeavesByQueue(states[b], labels[b], j);
    if a < b {
      NeverWaitsAgain(states, labels, j, a + 1, b);
    } else if b < a {
      NeverWaitsAgain(states, labels, j, b + 1, a);
    }
  }

  /** A job that waits on an active job keeps waiting on it, whatever the step. */
  lemma WaitsWhileActive(s: State, l: Label, v: Id, x: Id)
    requires Structure(s) && Enabled(s, l) && v in Behind(s.table.jobs, x) && IsActive(s.table.jobs, x)
    ensures v in Behind(Next(s, l).table.jobs, x)
  {
    if Promotes(l) {
      PromotesIt(s, l);
      PromoteBehindActive(s.table, PromoteTarget(s, l), l.first, v, x);
    } else {
      RowStays(s, l, v);
    }
  }

  lemma PromoteBehindActive(t: Table, y: Id, first: Id, v: Id, x: Id)
    requires TableOk(t) && MayPick(t.jobs, y, first) && v in Behind(t.jobs, x) && IsActive(t.jobs, x)
    ensures v in Behind(Promote(t, y, first).jobs, x)
  {
    PromoteWorks(t, y, first);
    if y == x {
      SameSourceBehind(t.jobs, x);
      assert Busy(t.jobs, t.jobs[x].source);
    }
  }

  // ---------------------------------------------------------------------------
  // One worker for a job
  // ---------------------------------------------------------------------------

  ghost predicate Worked(s: State, j: Id) {
    exists w :: w in s.workers && s.workers[w].job == j
  }

  // A job has one worker, or one call about to queue it, or a place in the queue.
  ghost predicate Exclusive(s: State) {
    && (forall w, v :: w in s.workers && v in s.workers && s.workers[w].job == s.workers[v].job ==> w == v)
    && (forall w :: w in s.workers ==> s.workers[w].job !in s.table.queue && !CallQueues(s, s.workers[w].job))
    && (forall j :: CallQueues(s, j) ==> j !in s.table.queue)
  }

  // Recovery queues no job that a worker or a call has in its hands.
  ghost predicate Tidy(s: State, l: Label)
    requires Enabled(s, l)
  {
    l.Recover? ==>
      var j := s.recovery.todo[0];
      Superseded(s.table.jobs, s.recovery.finished, j) || !l.dispatchable || (!Worked(s, j) && !CallQueues(s, j))
  }

  lemma ExclusiveWorkers(s: State, l: Label)
    requires Structure(s) && Enabled(s, l) && Exclusive(s)
    ensures var ws := Next(s, l).workers; forall w, v :: w in ws && v in ws && ws[w].job == ws[v].job ==> w == v
  {
    var s' := Next(s, l);
    forall w, v | w in s'.workers && v in s'.workers && s'.workers[w].job == s'.workers[v].job
      ensures w == v
    {
      WorkersMove(s, l, w);
      WorkersMove(s, l, v);
    }
  }

  lemma QueueGrows(s: State, l: Label, j: Id)
    requires Structure(s) && Enabled(s, l) && j in Next(s, l).table.queue && j !in s.table.queue
    ensures || (Promotes(l) && WaitsIn(s, j))
            || (l.Enqueue? && l.j == j)
            || (l.EnqueueAgain? && s.workers[l.w].job == j && l.w !in Next(s, l).workers)
            || (l.Recover? && s.recovery.todo[0] == j && !Superseded(s.table.jobs, s.recovery.finished, j) &&
              l.dispatchable)
  {
    if Promotes(l) {
      PromotesIt(s, l);
    } else {
      QueueGrowsElse(s, l, j);
    }
  }

  lemma QueueGrowsElse(s: State, l: Label, j: Id)
    requires Enabled(s, l) && !Promotes(l) && j in Next(s, l).table.queue && j !in s.table.queue
    ensures || (l.Enqueue? && l.j == j)
            || (l.EnqueueAgain? && s.workers[l.w].job == j && l.w !in Next(s, l).workers)
            || (l.Recover? && s.recovery.todo[0] == j && !Superseded(s.table.jobs, s.recovery.finished, j)
                && l.dispatchable)
  {
  }

  lemma CallsQueueMore(s: State, l: Label, j: Id)
    requires Structure(s) && Enabled(s, l) && CallQueues(Next(s, l), j)
    ensures (CallQueues(s, j) && !(l.Enqueue? && l.j == j)) || (l.Persist? && l.j == j && j !in s.table.jobs)
  {
    if OfWorker(l) || OfRecovery(l) {
      CallsLeftAlone(s, l);
    } else if l.Persist? {
      assert CallOk(s, l.j);
    }
  }

  lemma TidyStep(s: State, l: Label)
    requires Structure(s) && Enabled(s, l) && Exclusive(s) && Tidy(s, l)
    ensures Exclusive(Next(s, l))
  {
    var s' := Next(s, l);
    ExclusiveWorkers(s, l);
    forall w | w in s'.workers
      ensures s'.workers[w].job !in s'.table.queue && !CallQueues(s', s'.workers[w].job)
    {
      var j := s'.workers[w].job;
      WorkersMove(s, l, w);
      TidyWorker(s, l, w);
    }
    forall j | CallQueues(s', j)
      ensures j !in s'.table.queue
    {
      CallsQueueMore(s, l, j);
      assert j in s.calls && CallOk(s, j);
      if j in s'.table.queue && j !in s.table.queue {
        QueueGrows(s, l, j);
      }
    }
  }

  lemma TidyWorker(s: State, l: Label, w: WorkerId)
    requires Structure(s) && Enabled(s, l) && Exclusive(s) && Tidy(s, l) && w in Next(s, l).workers
    ensures Next(s, l).workers[w].job !in Next(s, l).table.queue && !CallQueues(Next(s, l), Next(s, l).workers[w].job)
  {
    var s' := Next(s, l);
    var j := s'.workers[w].job;
    WorkersMove(s, l, w);
    if j in s'.table.queue && j !in s.table.queue {
      QueueGrows(s, l, j);
    }
    if CallQueues(s', j) {
      CallsQueueMore(s, l, j);
    }
  }

  /** A job is in one pair of hands as long as recovery queues no job that somebody has, and no
      longer. */
  lemma ExclusiveStep(s: State, l: Label)
    requires Structure(s) && Enabled(s, l) && Exclusive(s)
    ensures Exclusive(Next(s, l)) <==> Tidy(s, l)
  {
    if Tidy(s, l) {
      TidyStep(s, l);
    } else {
      var s', j := Next(s, l), s.recovery.todo[0];
      assert j in s'.table.queue && s'.workers == s.workers && s'.calls == s.calls;
      if Worked(s, j) {
        var w :| w in s.workers && s.workers[w].job == j;
        assert w in s'.workers;
      } else {
        assert CallQueues(s', j);
      }
    }
  }

  ghost predicate AllExclusive(states: seq<State>, n: nat)
    requires n < |states|
  {
    forall i :: 0 <= i <= n ==> Exclusive(states[i])
  }

  ghost predicate AllTidy(states: seq<State>, labels: seq<Label>, n: nat)
    requires Run(states, labels) && n <= |labels|
  {
    forall i :: 0 <= i < n ==> Tidy(states[i], labels[i])
  }

  lemma AllExclusiveOneMore(states: seq<State>, n: nat)
    requires 0 < n < |states|
    ensures AllExclusive(states, n) <==> AllExclusive(states, n - 1) && Exclusive(states[n])
  {
  }

  lemma AllTidyOneMore(states: seq<State>, labels: seq<Label>, n: nat)
    requires Run(states, labels) && 0 < n <= |labels|
    ensures AllTidy(states, labels, n) <==> AllTidy(states, labels, n - 1) && Tidy(states[n - 1], labels[n - 1])
  {
  }

  /** Over any run no job is ever in two pairs of hands if and only if recovery never queues a job
      that somebody has. */
  lemma {:induction false} NoDoubleRun(states: seq<State>, labels: seq<Label>, n: nat)
    requires Run(states, labels) && Structure(states[0]) && Exclusive(states[0]) && n <= |labels|
    ensures AllExclusive(states, n) <==> AllTidy(states, labels, n)
  {
    if n == 0 {
      assert AllExclusive(states, 0);
    } else {
      NoDoubleRun(states, labels, n - 1);
      RunKeepsStructure(states, labels, n - 1);
      NoDoubleRunStep(states, labels, n);
    }
  }

  lemma NoDoubleRunStep(states: seq<State>, labels: seq<Label>, n: nat)
    requires Run(states, labels) && 0 < n <= |labels| && Structure(states[n - 1])
    requires AllExclusive(states, n - 1) <==> AllTidy(states, labels, n - 1)
    ensures AllExclusive(states, n) <==> AllTidy(states, labels, n)
  {
    AllExclusiveOneMore(states, n);
    AllTidyOneMore(states, labels, n);
    if AllExclusive(states, n - 1) {
      ExclusiveStep(states[n - 1], labels[n - 1]);
    }
  }

  // ---------------------------------------------------------------------------
  // A job runs once for each time it is queued, and after its predecessor
  // ---------------------------------------------------------------------------

  // The step puts a job that does not wait in the queue: its own call, a retry, or recovery.
  ghost predicate QueuedBy(s: State, l: Label, j: Id)
    requires Enabled(s, l)
  {
    || (l.Enqueue? && l.j == j)
    || (l.EnqueueAgain? && s.workers[l.w].job == j)
    || (l.Recover? && s.recovery.todo[0] == j && !Superseded(s.table.jobs, s.recovery.finished, j) && l.dispatchable)
  }

  // The job is neither waiting nor in the queue.
  ghost predicate OffQueue(s: State, j: Id) {
    j in s.table.jobs && !WaitsIn(s, j) && j !in s.table.queue
  }

  lemma OffQueueStep(s: State, l: Label, j: Id)
    requires Structure(s) && Enabled(s, l) && OffQueue(s, j) && !QueuedBy(s, l, j)
    ensures OffQueue(Next(s, l), j)
  {
    StaysSettled(s, l, j);
    if j in Next(s, l).table.queue {
      QueueGrows(s, l, j);
    }
  }

  lemma {:induction false} StaysOffQueue(states: seq<State>, labels: seq<Label>, j: Id, i: nat, k: nat)
    requires Run(states, labels) && Structure(states[0]) && i <= k < |states| && OffQueue(states[i], j)
    requires forall n :: i <= n < k ==> !QueuedBy(states[n], labels[n], j)
    ensures OffQueue(states[k], j)
  {
    if i < k {
      StaysOffQueue(states, labels, j, i, k - 1);
      RunKeepsStructure(states, labels, k - 1);
      OffQueueStep(states[k - 1], labels[k - 1], j);
    }
  }

  lemma ClaimTakesOff(s: State, l: Label)
    requires Structure(s) && Enabled(s, l) && l.Claim?
    ensures l.j in s.table.queue && OffQueue(Next(s, l), l.j)
  {
  }

  /** Over any run with any crashes, between two claims of a job its call, a retry or recovery has put it
      in the queue: no promotion does so twice. */
  lemma ClaimedAgain(states: seq<State>, labels: seq<Label>, j: Id, a: nat, b: nat)
    requires Run(states, labels) && Structure(states[0])
    requires a < b < |labels| && labels[a].Claim? && labels[a].j == j && labels[b].Claim? && labels[b].j == j
    ensures exists n :: a < n < b && QueuedBy(states[n], labels[n], j)
  {
    RunKeepsStructure(states, labels, a);
    RunKeepsStructure(states, labels, b);
    ClaimTakesOff(states[a], labels[a]);
    ClaimTakesOff(states[b], labels[b]);
    if forall n :: a < n < b ==> !QueuedBy(states[n], labels[n], j) {
      StaysOffQueue(states, labels, j, a + 1, b);
    }
  }

  ghost predicate Over(s: State, j: Id) {
    j in s.table.jobs && s.table.jobs[j].status.Terminal()
  }

  lemma BehindStep(s: State, l: Label, v: Id, x: Id)
    requires Structure(s) && Enabled(s, l) && v in Behind(s.table.jobs, x) && !Over(s, x)
    ensures v in Behind(Next(s, l).table.jobs, x)
  {
    assert IsActive(s.table.jobs, x);
    WaitsWhileActive(s, l, v, x);
  }

  lemma {:induction false} StaysBehind(states: seq<State>, labels: seq<Label>, v: Id, x: Id, i: nat, k: nat)
    requires Run(states, labels) && Structure(states[0]) && i <= k < |states|
    requires v in Behind(states[i].table.jobs, x) && forall n :: i <= n < k ==> !Over(states[n], x)
    ensures v in Behind(states[k].table.jobs, x)
  {
    if i < k {
      StaysBehind(states, labels, v, x, i, k - 1);
      RunKeepsStructure(states, labels, k - 1);
      BehindStep(states[k - 1], labels[k - 1], v, x);
    }
  }

  /** Over any run with any crashes and retries, a worker takes a job that waited only after every job
      it ever waited on has been over. */
  lemma RunsInTurn(states: seq<State>, labels: seq<Label>, j: Id, x: Id, i: nat, a: nat)
    requires Run(states, labels) && Structure(states[0])
    requires i <= a < |labels| && labels[a].Claim? && labels[a].j == j && j in Behind(states[i].table.jobs, x)
    ensures exists n :: i <= n < a && Over(states[n], x)
  {
    RunKeepsStructure(states, labels, a);
    ClaimTakesOff(states[a], labels[a]);
    if forall n :: i <= n < a ==> !Over(states[n], x) {
      StaysBehind(states, labels, j, x, i, a);
    }
  }

  // ---------------------------------------------------------------------------
  // Without crashes and retries
  // ---------------------------------------------------------------------------

  predicate Calm(l: Label) {
    !l.Crash? && !l.FailForRetry?
  }

  ghost predicate AllCalm(labels: seq<Label>) {
    forall n :: 0 <= n < |labels| ==> Calm(labels[n])
  }

  // Nobody recovers or retries, and no job is in two pairs of hands.
  ghost predicate Clean(s: State) {
    && Structure(s) && Exclusive(s) && s.recovery.Idle?
    && forall w :: w in s.workers ==> !s.workers[w].work.Retrying? && !s.workers[w].work.Requeued?
  }

  lemma TidyWhenIdle(s: State, l: Label)
    requires Enabled(s, l) && s.recovery.Idle? && !l.Crash?
    ensures Tidy(s, l) && Next(s, l).recovery.Idle?
  {
    RecoveryStays(s, l);
  }

  lemma CleanWorker(s: State, l: Label, w: WorkerId)
    requires Enabled(s, l) && Clean(s) && Calm(l) && w in Next(s, l).workers
    ensures !Next(s, l).workers[w].work.Retrying? && !Next(s, l).workers[w].work.Requeued?
  {
    if OfWorker(l) && l.w == w {
      CleanOwnWorker(s, l);
    } else if w in s.workers {
      WorkerStays(s, l, w);
    }
  }

  lemma CleanOwnWorker(s: State, l: Label)
    requires Enabled(s, l) && Clean(s) && Calm(l) && OfWorker(l) && l.w in Next(s, l).workers
    ensures !Next(s, l).workers[l.w].work.Retrying? && !Next(s, l).workers[l.w].work.Requeued?
  {
  }

  lemma CleanStep(s: State, l: Label)
    requires Enabled(s, l) && Clean(s) && Calm(l)
    ensures Clean(Next(s, l))
  {
    TidyWhenIdle(s, l);
    TidyStep(s, l);
    StepKeepsStructure(s, l);
    forall w | w in Next(s, l).workers
      ensures !Next(s, l).workers[w].work.Retrying? && !Next(s, l).workers[w].work.Requeued?
    {
      CleanWorker(s, l, w);
    }
  }

  lemma EmptyIsClean()
    ensures Clean(EMPTY)
  {
    EmptyIsFine();
  }

  lemma {:induction false} StaysClean(states: seq<State>, labels: seq<Label>, n: nat)
    requires Run(states, labels) && states[0] == EMPTY && AllCalm(labels) && n < |states|
    ensures Clean(states[n])
  {
    if n == 0 {
      EmptyIsClean();
    } else {
      StaysClean(states, labels, n - 1);
      CleanStep(states[n - 1], labels[n - 1]);
    }
  }

  lemma {:induction false} NoLongerCalled(states: seq<State>, labels: seq<Label>, j: Id, i: nat, k: nat)
    requires Run(states, labels) && Structure(states[0]) && i <= k < |states|
    requires j in states[i].table.jobs && !CallQueues(states[i], j)
    ensures j in states[k].table.jobs && !CallQueues(states[k], j)
  {
    if i < k {
      NoLongerCalled(states, labels, j, i, k - 1);
      RunKeepsStructure(states, labels, k - 1);
      NoLongerCalledStep(states[k - 1], labels[k - 1], j);
    }
  }

  lemma NoLongerCalledStep(s: State, l: Label, j: Id)
    requires Structure(s) && Enabled(s, l) && j in s.table.jobs && !CallQueues(s, j)
    ensures j in Next(s, l).table.jobs && !CallQueues(Next(s, l), j)
  {
    TableStep(s, l);
    if CallQueues(Next(s, l), j) {
      CallsQueueMore(s, l, j);
    }
  }

  // Nobody queues a job but the call that creates it.
  lemma OnlyItsCallQueues(s: State, l: Label, j: Id)
    requires Enabled(s, l) && Clean(s) && !CallQueues(s, j)
    ensures !QueuedBy(s, l, j)
  {
  }

  /** So from the empty tables, without crashes and retries, a worker takes each job at most once. */
  lemma RunsOnce(states: seq<State>, labels: seq<Label>, j: Id, a: nat, b: nat)
    requires Run(states, labels) && states[0] == EMPTY && AllCalm(labels)
    requires a < b < |labels| && labels[a].Claim? && labels[a].j == j
    ensures !(labels[b].Claim? && labels[b].j == j)
  {
    EmptyIsFine();
    if labels[b].Claim? && labels[b].j == j {
      ClaimedAgain(states, labels, j, a, b);
      var n :| a < n < b && QueuedBy(states[n], labels[n], j);
      StaysClean(states, labels, a);
      StaysClean(states, labels, n);
      ClaimedIsCalledNoMore(states[a], labels[a]);
      NoLongerCalled(states, labels, j, a, n);
      OnlyItsCallQueues(states[n], labels[n], j);
    }
  }

  lemma ClaimedIsCalledNoMore(s: State, l: Label)
    requires Enabled(s, l) && Clean(s) && l.Claim?
    ensures l.j in s.table.jobs && !CallQueues(s, l.j)
  {
  }
}
