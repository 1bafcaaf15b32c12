/**
  What becomes of a job whose worker and whose request nobody disturbs: the runs in which each of
  them takes its steps one after the other, from any state.
*/
module JobRun {
  import opened Options
  import opened Jobs
  import opened JobTable
  import opened RefreshPreemption
  import opened LostWakeups

  // The active job of a source is the only one.
  lemma NotTaken(jobs: map<Id, Row>, j: Id)
    requires OneActive(jobs) && IsActive(jobs, j)
    ensures !Taken(jobs, j)
  {
  }

  // ---------------------------------------------------------------------------
  // A worker
  // ---------------------------------------------------------------------------

  // The hook of a job nobody waits on.
  lemma HookOfNobody(s0: State, s: State, w: WorkerId, first: Id)
    requires Reaches(s0, s) && WorkerAt(s, w, Hook) && Behind(s.table.jobs, s.workers[w].job) == {}
    ensures Reaches(s0, s.(workers := s.workers - {w}))
  {
    OneMore(s0, s, RunHook(w, first), s.(workers := s.workers - {w}), AnyStep);
  }

  lemma SameWaiters(jobs: map<Id, Row>, j: Id, status: Status)
    requires j in jobs && !jobs[j].status.Waiting? && !status.Waiting?
    ensures forall x :: Behind(SetStatus(jobs, j, status), x) == Behind(jobs, x)
  {
  }

  lemma StartsActive(s: State, w: WorkerId, j: Id) returns (s': State)
    requires Structure(s) && w !in s.workers && j in s.table.queue && IsActive(s.table.jobs, j)
    ensures s' == s.(table := Table(SetStatus(s.table.jobs, j, Running), s.table.queue - {j}),
                     workers := s.workers[w := Worker(j, Executing)])
    ensures Reaches(s, s')
  {
    LeadsToItself(s, AnyStep);
    NotTaken(s.table.jobs, j);
    s' := Starts(s, s, w, j);
  }

  /** A worker that takes up an active job ends it as its runner does, and nothing else changes. */
  lemma JobGoesThrough(s: State, w: WorkerId, j: Id, status: Status) returns (s': State)
    requires Structure(s) && w !in s.workers && j in s.table.queue && IsActive(s.table.jobs, j)
    requires status.Terminal() && Behind(s.table.jobs, j) == {}
    ensures Reaches(s, s')
    ensures s' == s.(table := Table(s.table.jobs[j := s.table.jobs[j].(status := status)], s.table.queue - {j}))
  {
    var s1 := StartsActive(s, w, j);
    var s2 := Finishes(s, s1, w, status);
    SameWaiters(s.table.jobs, j, status);
    s' := s.(table := Table(s.table.jobs[j := s.table.jobs[j].(status := status)], s.table.queue - {j}));
    assert s2.table == s'.table && s2.workers - {w} == s.workers;
    HookOfNobody(s, s2, w, 0);
  }

  /** A worker that takes up a job that is already over drops it, and the job stays as it was. */
  lemma OverIsDropped(s: State, w: WorkerId, j: Id) returns (s': State)
    requires w !in s.workers && j in s.table.queue && j in s.table.jobs && s.table.jobs[j].status.Terminal()
    ensures Reaches(s, s')
    ensures s' == s.(table := Table(s.table.jobs, s.table.queue - {j}))
  {
    LeadsToItself(s, AnyStep);
    var s1 := s.(table := Table(s.table.jobs, s.table.queue - {j}), workers := s.workers[w := Worker(j, Claimed)]);
    OneMore(s, s, Claim(w, j), s1, AnyStep);
    s' := s.(table := Table(s.table.jobs, s.table.queue - {j}));
    assert s1.workers - {w} == s.workers;
    OneMore(s, s1, Fetch(w), s', AnyStep);
  }

  lemma RaisesForRetry(s: State, w: WorkerId, j: Id) returns (s': State)
    requires w in s.workers && s.workers[w] == Worker(j, Executing) && IsActive(s.table.jobs, j)
    requires s.table.jobs[j].kind.Incremental?
    ensures s' == s.(table := Table(SetStatus(s.table.jobs, j, Failed), s.table.queue),
                     workers := s.workers[w := Worker(j, Retrying)])
    ensures Reaches(s, s')
  {
    LeadsToItself(s, AnyStep);
    s' := SetWork(Write(s, j, Failed), w, Retrying);
    OneMore(s, s, FailForRetry(w), s', AnyStep);
  }

  lemma StillNotTaken(jobs: map<Id, Row>, j: Id)
    requires OneActive(jobs) && IsActive(jobs, j)
    ensures !Taken(SetStatus(jobs, j, Failed), j)
  {
    NotTaken(jobs, j);
  }

  /** An incremental job that raised and may try again is queued, with its row in the queue. */
  lemma RetryGoesRound(s: State, w: WorkerId, j: Id) returns (s': State)
    requires Structure(s) && w in s.workers && s.workers[w] == Worker(j, Executing) && IsActive(s.table.jobs, j)
    requires s.table.jobs[j].kind.Incremental?
    ensures Reaches(s, s')
    ensures s' == s.(table := Table(s.table.jobs[j := s.table.jobs[j].(status := Queued)], s.table.queue + {j}),
                     workers := s.workers - {w})
  {
    var s1 := RaisesForRetry(s, w, j);
    StillNotTaken(s.table.jobs, j);
    var s2 := SetWork(Write(s1, j, Queued), w, Requeued);
    OneMore(s, s1, Requeue(w), s2, AnyStep);
    s' := s.(table := Table(s.table.jobs[j := s.table.jobs[j].(status := Queued)], s.table.queue + {j}),
      workers := s.workers - {w});
    assert s2.workers - {w} == s.workers - {w} && s2.table.jobs == s'.table.jobs;
    OneMore(s, s2, EnqueueAgain(w), s', AnyStep);
  }

  /** One that may not try again is dead-lettered. */
  lemma RetryIsGivenUp(s: State, w: WorkerId, j: Id) returns (s': State)
    requires Structure(s) && w in s.workers && s.workers[w] == Worker(j, Executing) && IsActive(s.table.jobs, j)
    requires s.table.jobs[j].kind.Incremental? && Behind(s.table.jobs, j) == {}
    ensures Reaches(s, s')
    ensures s' == s.(table := Table(s.table.jobs[j := s.table.jobs[j].(status := DeadLetter)], s.table.queue),
                     workers := s.workers - {w})
  {
    var s1 := RaisesForRetry(s, w, j);
    var s2 := SetWork(Write(s1, j, DeadLetter), w, Hook);
    OneMore(s, s1, GiveUp(w), s2, AnyStep);
    s' := s.(table := Table(s.table.jobs[j := s.table.jobs[j].(status := DeadLetter)], s.table.queue),
      workers := s.workers - {w});
    SameWaiters(s.table.jobs, j, DeadLetter);
    assert s2.workers - {w} == s.workers - {w} && s2.table == s'.table;
    HookOfNobody(s, s2, w, 0);
  }

  // ---------------------------------------------------------------------------
  // A push and a refresh
  // ---------------------------------------------------------------------------

  lemma FreeWithout(jobs: map<Id, Row>, r: Id, status: Status)
    requires OneActive(jobs) && IsActive(jobs, r) && !status.Active()
    ensures !Busy(SetStatus(jobs, r, status), jobs[r].source)
  {
  }

  // A call that may persist its job does so and puts it in the queue.
  lemma CallGoesThrough(s0: State, s: State, j: Id) returns (s': State)
    requires Reaches(s0, s) && j in s.calls && s.calls[j].stage.Plain? && !Busy(s.table.jobs, s.calls[j].source)
    ensures Reaches(s0, s')
    ensures var c := s.calls[j];
            var jobs := s.table.jobs[j := Row(c.source, c.kind, Queued, c.start, None)];
            s' == s.(table := Table(jobs, s.table.queue + {j}), calls := s.calls - {j})
  {
    var c := s.calls[j];
    var jobs := s.table.jobs[j := Row(c.source, c.kind, Queued, c.start, None)];
    var s2 := SetStage(s, j, Persisted).(table := s.table.(jobs := jobs));
    OneMore(s0, s, Persist(j), s2, AnyStep);
    s' := s.(table := Table(jobs, s.table.queue + {j}), calls := s.calls - {j});
    assert s2.calls - {j} == s'.calls;
    OneMore(s0, s2, Enqueue(j), s', AnyStep);
  }

  /** A push that finds a queued refresh of its source ends it before it has begun, and is queued in its
      place. */
  lemma PushTakesOver(s: State, j: Id, r: Id, start: int) returns (s': State)
    requires Structure(s) && j !in s.table.jobs && j !in s.calls
    requires r in s.table.queue && r in s.table.jobs && s.table.jobs[r].status.Queued?
    requires s.table.jobs[r].kind.Resummarize?
    ensures Reaches(s, s')
    ensures var jobs := s.table.jobs[r := s.table.jobs[r].(status := Done)];
            s' == s.(table := Table(jobs[j := Row(s.table.jobs[r].source, Incremental, Queued, start, None)],
                                    s.table.queue - {r} + {j}))
  {
    LeadsToItself(s, AnyStep);
    var s1 := Cancels(s, s, j, r, start);
    FreeWithout(s.table.jobs, r, Done);
    assert s1.table.jobs == SetStatus(s.table.jobs, r, Done) && s1.calls - {j} == s.calls;
    s' := CallGoesThrough(s, s1, j);
  }

  lemma OnlyWaiter(jobs: map<Id, Row>, j: Id, r: Id, row: Row)
    requires j !in jobs && r in jobs && Behind(jobs, r) == {} && row.status.Waiting? && row.after == Some(r)
    ensures Behind(jobs[j := row], r) == {j}
  {
  }

  // A finished job's only waiter is put in the queue.
  lemma PromotesOnly(t: Table, r: Id, j: Id)
    requires Behind(t.jobs, r) == {j} && j in t.jobs && !Busy(t.jobs, t.jobs[j].source)
    ensures MayPick(t.jobs, r, j)
    ensures Promote(t, r, j) == Table(t.jobs[j := t.jobs[j].(status := Queued)], t.queue + {j})
  {
    assert Relink(t.jobs, {}, j) == t.jobs;
    assert Behind(t.jobs, r) - {j} == {};
  }

  lemma RefreshEnds(s: State, w: WorkerId, r: Id, j: Id, status: Status) returns (s': State)
    requires w in s.workers && s.workers[w] == Worker(r, Executing) && OneActive(s.table.jobs)
    requires IsActive(s.table.jobs, r) && Behind(s.table.jobs, r) == {j} && j in s.table.jobs && j != r
    requires s.table.jobs[j].source == s.table.jobs[r].source && status.Terminal()
    ensures Reaches(s, s')
    ensures var jobs := s.table.jobs[r := s.table.jobs[r].(status := status)];
            s' == s.(table := Table(jobs[j := s.table.jobs[j].(status := Queued)], s.table.queue + {j}),
                     workers := s.workers - {w})
  {
    LeadsToItself(s, AnyStep);
    var s1 := Finishes(s, s, w, status);
    FreeWithout(s.table.jobs, r, status);
    SameWaiters(s.table.jobs, r, status);
    PromotesOnly(s1.table, r, j);
    var jobs := s.table.jobs[r := s.table.jobs[r].(status := status)];
    s' := s.(table := Table(jobs[j := s.table.jobs[j].(status := Queued)], s.table.queue + {j}),
      workers := s.workers - {w});
    assert s1.workers - {w} == s.workers - {w};
    OneMore(s, s1, RunHook(w, j), s', AnyStep);
  }

  /** A push that finds a refresh of its source running waits behind it, and nothing else changes; when
      the refresh ends, however it ends, the push is queued. */
  lemma PushGetsItsTurn(s: State, j: Id, w: WorkerId, r: Id, start: int, status: Status)
    returns (waits: State, s': State)
    requires Structure(s) && j !in s.table.jobs && j !in s.calls && r !in s.table.queue
    requires w in s.workers && s.workers[w] == Worker(r, Executing) && status.Terminal()
    requires IsActive(s.table.jobs, r) && s.table.jobs[r].kind.Resummarize? && Behind(s.table.jobs, r) == {}
    ensures Reaches(s, waits) && Reaches(waits, s')
    ensures var push := Row(s.table.jobs[r].source, Incremental, Waiting, start, Some(r));
            var jobs := s.table.jobs[r := s.table.jobs[r].(status := status)];
            && waits == s.(table := s.table.(jobs := s.table.jobs[j := push]))
            && s' == s.(table := Table(jobs[j := push.(status := Queued)], s.table.queue + {j}),
                        workers := s.workers - {w})
  {
    LeadsToItself(s, AnyStep);
    var push := Row(s.table.jobs[r].source, Incremental, Waiting, start, Some(r));
    waits := Waits(s, s, j, r, start);
    OnlyWaiter(s.table.jobs, j, r, push);
    s' := RefreshEnds(waits, w, r, j, status);
    var jobs := s.table.jobs[r := s.table.jobs[r].(status := status)];
    assert s.table.jobs[j := push][r := s.table.jobs[r].(status := status)][j := push.(status := Queued)] ==
           jobs[j := push.(status := Queued)];
  }

  lemma StillFree(jobs: map<Id, Row>, j: Id, row: Row, source: Source)
    requires j !in jobs && !Busy(jobs, source) && !row.status.Active()
    ensures !Busy(jobs[j := row], source)
  {
  }

  lemma ReadsItOver(s: State, j: Id, r: Id) returns (s': State)
    requires j in s.calls && s.calls[j].stage == MustWait(r) && j !in s.table.jobs && r in s.table.jobs
    requires s.table.jobs[r].status.Terminal()
    ensures var c := s.calls[j];
            s' == s.(table := s.table.(jobs := s.table.jobs[j := Row(c.source, c.kind, Waiting, c.start, Some(r))]),
                     calls := s.calls[j := c.(stage := MustPromote(r))])
    ensures Reaches(s, s')
  {
    LeadsToItself(s, AnyStep);
    var c := s.calls[j];
    var jobs := s.table.jobs[j := Row(c.source, c.kind, Waiting, c.start, Some(r))];
    var s1 := s.(table := s.table.(jobs := jobs), calls := s.calls[j := c.(stage := Reread(r))]);
    OneMore(s, s, PersistWaiting(j), s1, AnyStep);
    s' := s.(table := s.table.(jobs := jobs), calls := s.calls[j := c.(stage := MustPromote(r))]);
    assert SetStage(s1, j, MustPromote(r)) == s';
    OneMore(s, s1, ReadAgain(j), s', AnyStep);
  }

  /** A push whose refresh is over before it has been persisted as waiting reads that, and is queued at once. */
  lemma LatePushIsQueued(s: State, j: Id, r: Id) returns (s': State)
    requires j in s.calls && s.calls[j].stage == MustWait(r) && j !in s.table.jobs && r in s.table.jobs
    requires s.table.jobs[r].status.Terminal() && Behind(s.table.jobs, r) == {}
    requires !Busy(s.table.jobs, s.calls[j].source)
    ensures Reaches(s, s')
    ensures var c := s.calls[j];
            var jobs := s.table.jobs[j := Row(c.source, c.kind, Queued, c.start, Some(r))];
            s' == s.(table := Table(jobs, s.table.queue + {j}), calls := s.calls - {j})
  {
    var c := s.calls[j];
    var s2 := ReadsItOver(s, j, r);
    OnlyWaiter(s.table.jobs, j, r, s2.table.jobs[j]);
    StillFree(s.table.jobs, j, s2.table.jobs[j], c.source);
    PromotesOnly(s2.table, r, j);
    var jobs := s.table.jobs[j := Row(c.source, c.kind, Queued, c.start, Some(r))];
    s' := s.(table := Table(jobs, s.table.queue + {j}), calls := s.calls - {j});
    assert s2.calls - {j} == s'.calls && s2.table.jobs[j := s2.table.jobs[j].(status := Queued)] == jobs;
    OneMore(s, s2, PromoteNow(j, j), s', AnyStep);
  }

  /** A request that meets another active job of its source fails, and leaves nothing. */
  lemma RequestFails(s: State, j: Id, source: Source, kind: Kind, start: int)
    requires j !in s.table.jobs && j !in s.calls && Busy(s.table.jobs, source)
    ensures var called := Next(s, Arrive(j, source, kind, start));
            Enabled(called, Persist(j)) && Next(called, Persist(j)) == s
  {
    var c := Call(source, kind, start, Plain);
    assert s.calls[j := c] - {j} == s.calls;
  }

  // ---------------------------------------------------------------------------
  // The second recovery loop
  // ---------------------------------------------------------------------------

  /** It goes on to promote the waiters behind a predecessor exactly if it has not looked at it before, and
      it is over, or there is no such job. */
  lemma ChecksExactly(s: State)
    requires Enabled(s, CheckOrphan)
    ensures
      var x, r := s.recovery.afters[0], Next(s, CheckOrphan).recovery;
      && (r == Promoting(x, s.recovery.afters[1..], s.recovery.checked + {x}) <==>
            x !in s.recovery.checked && (x in s.table.jobs ==> s.table.jobs[x].status.Terminal()))
      && (r.Promoting? || r == Orphans(s.recovery.afters[1..], s.recovery.checked + {x}))
      && Next(s, CheckOrphan) == s.(recovery := r)
  {
  }
}
