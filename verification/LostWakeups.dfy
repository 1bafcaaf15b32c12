/**
  What the steps that are not safe lead to: wakeups that stay lost until a process starts again,
  and runs from the empty tables that lose them.
*/
module LostWakeups {
  import opened Options
  import opened Jobs
  import opened JobTable
  import opened RefreshPreemption
  import opened RefreshOrder

  // ---------------------------------------------------------------------------
  // A lost wakeup stays lost
  // ---------------------------------------------------------------------------

  // Nobody is about to look at `x`, which is over.
  ghost predicate Ignored(s: State, x: Id) {
    && Over(s, x)
    && !WillCheck(s, x)
    && (forall w :: w in s.workers && s.workers[w].job == x ==>
          s.workers[w].work.Claimed? || s.workers[w].work.Requeued?)
    && (forall c :: c in s.calls && s.calls[c].stage.Preempting() ==> s.calls[c].stage.refresh != x)
  }

  // `v` waits on a finished job nobody will look at again.
  ghost predicate Stranded(s: State, v: Id, x: Id) {
    v in Behind(s.table.jobs, x) && Ignored(s, x)
  }

  lemma IgnoredRow(s: State, l: Label, x: Id)
    requires Structure(s) && Enabled(s, l) && Ignored(s, x)
    ensures Over(Next(s, l), x) && (Promotes(l) ==> PromoteTarget(s, l) != x)
  {
    if Promotes(l) {
      PromotesIt(s, l);
    } else {
      RowStays(s, l, x);
      IgnoredUnwritten(s, l, x);
    }
  }

  lemma IgnoredUnwritten(s: State, l: Label, x: Id)
    requires Structure(s) && Enabled(s, l) && Ignored(s, x) && !Promotes(l)
    ensures Writes(s, l, x) ==> Next(s, l).table.jobs == s.table.jobs
  {
  }

  lemma IgnoredWorker(s: State, l: Label, x: Id, w: WorkerId)
    requires Structure(s) && Enabled(s, l) && Ignored(s, x)
    requires w in Next(s, l).workers && Next(s, l).workers[w].job == x
    ensures Next(s, l).workers[w].work.Claimed? || Next(s, l).workers[w].work.Requeued?
  {
    WorkersMove(s, l, w);
    if OfWorker(l) && l.w == w {
      IgnoredOwnWorker(s, l, x);
    } else if w in s.workers && !l.Crash? {
      WorkerStays(s, l, w);
    }
  }

  lemma IgnoredOwnWorker(s: State, l: Label, x: Id)
    requires Structure(s) && Enabled(s, l) && Ignored(s, x) && OfWorker(l) && s.workers[l.w].job == x
    ensures l.w !in Next(s, l).workers
  {
  }

  lemma IgnoredCall(s: State, l: Label, x: Id, c: Id)
    requires Structure(s) && Enabled(s, l) && Ignored(s, x)
    requires c in Next(s, l).calls && Next(s, l).calls[c].stage.Preempting()
    ensures Next(s, l).calls[c].stage.refresh != x
  {
    if OfWorker(l) || OfRecovery(l) {
      CallsLeftAlone(s, l);
    }
  }

  lemma IgnoredRecovery(s: State, l: Label, x: Id)
    requires Enabled(s, l) && !l.Crash? && !WillCheck(s, x)
    ensures !WillCheck(Next(s, l), x)
  {
    if !OfRecovery(l) {
      RecoveryStays(s, l);
    }
  }

  /** A stranded job stays stranded under every step but a new start. */
  lemma StrandedForever(s: State, l: Label, v: Id, x: Id)
    requires Structure(s) && Enabled(s, l) && !l.Crash? && Stranded(s, v, x)
    ensures Stranded(Next(s, l), v, x)
  {
    var s' := Next(s, l);
    IgnoredRow(s, l, x);
    IgnoredRecovery(s, l, x);
    forall w | w in s'.workers && s'.workers[w].job == x
      ensures s'.workers[w].work.Claimed? || s'.workers[w].work.Requeued?
    {
      IgnoredWorker(s, l, x, w);
    }
    forall c | c in s'.calls && s'.calls[c].stage.Preempting()
      ensures s'.calls[c].stage.refresh != x
    {
      IgnoredCall(s, l, x, c);
    }
    StrandedWaits(s, l, v, x);
  }

  lemma StrandedWaits(s: State, l: Label, v: Id, x: Id)
    requires Structure(s) && Enabled(s, l) && v in Behind(s.table.jobs, x) && (Promotes(l) ==> PromoteTarget(s, l) != x)
    ensures v in Behind(Next(s, l).table.jobs, x)
  {
    if Promotes(l) {
      PromotesIt(s, l);
    } else {
      RowStays(s, l, v);
    }
  }

  // The active job `r` is nobody's.
  ghost predicate Abandoned(s: State, r: Id) {
    IsActive(s.table.jobs, r) && !Owned(s, r) && !Worked(s, r)
  }

  lemma AbandonedRow(s: State, l: Label, r: Id)
    requires Structure(s) && Enabled(s, l) && Abandoned(s, r)
    ensures r in Next(s, l).table.jobs && Next(s, l).table.jobs[r] == s.table.jobs[r] && r !in Next(s, l).table.queue
  {
    if r in Next(s, l).table.queue {
      QueueGrows(s, l, r);
    }
    if Promotes(l) {
      PromotesIt(s, l);
    } else {
      RowStays(s, l, r);
      AbandonedUnwritten(s, l, r);
    }
  }

  lemma AbandonedUnwritten(s: State, l: Label, r: Id)
    requires Structure(s) && Enabled(s, l) && Abandoned(s, r) && !Promotes(l)
    ensures Writes(s, l, r) ==> Next(s, l).table.jobs == s.table.jobs
  {
  }

  lemma AbandonedActors(s: State, l: Label, r: Id)
    requires Structure(s) && Enabled(s, l) && !l.Crash? && Abandoned(s, r)
    ensures !Worked(Next(s, l), r) && !CallQueues(Next(s, l), r)
  {
    var s' := Next(s, l);
    if w :| w in s'.workers && s'.workers[w].job == r {
      WorkersMove(s, l, w);
    }
    if CallQueues(s', r) {
      CallsQueueMore(s, l, r);
    }
  }

  lemma AbandonedRecovery(s: State, l: Label, r: Id)
    requires Structure(s) && Enabled(s, l) && !l.Crash? && IsActive(s.table.jobs, r) && !Covers(s, r)
    requires r in Next(s, l).table.jobs && Next(s, l).table.jobs[r] == s.table.jobs[r]
    ensures !Covers(Next(s, l), r)
  {
    if OfRecovery(l) {
      UncoveredRecovery(s, l, r);
    } else {
      RecoveryStays(s, l);
    }
  }

  lemma UncoveredRecovery(s: State, l: Label, r: Id)
    requires Enabled(s, l) && OfRecovery(l) && !Covers(s, r)
    ensures !Covers(Next(s, l), r)
  {
  }

  /** An active job that is nobody's stays active and nobody's under every step but a new start. */
  lemma AbandonedForever(s: State, l: Label, r: Id)
    requires Structure(s) && Enabled(s, l) && !l.Crash? && Abandoned(s, r)
    ensures Abandoned(Next(s, l), r)
  {
    AbandonedRow(s, l, r);
    AbandonedActors(s, l, r);
    AbandonedRecovery(s, l, r);
  }

  // ---------------------------------------------------------------------------
  // Runs
  // ---------------------------------------------------------------------------

  predicate AnyStep(l: Label) {
    true
  }

  // Some run leads from `s` to `s'`.
  ghost predicate Reaches(s: State, s': State) {
    Leads(s, s', AnyStep)
  }

  // A request persists the job it creates.
  lemma Persists(s0: State, s: State, j: Id, source: Source, kind: Kind, start: int) returns (s': State)
    requires Reaches(s0, s) && j !in s.table.jobs && j !in s.calls && !Busy(s.table.jobs, source)
    ensures s' == s.(table := s.table.(jobs := s.table.jobs[j := Row(source, kind, Queued, start, None)]),
                     calls := s.calls[j := Call(source, kind, start, Persisted)])
    ensures Reaches(s0, s')
  {
    var s1 := s.(calls := s.calls[j := Call(source, kind, start, Plain)]);
    OneMore(s0, s, Arrive(j, source, kind, start), s1, AnyStep);
    s' := Next(s1, Persist(j));
    OneMore(s0, s1, Persist(j), s', AnyStep);
  }

  // And puts it in the queue.
  lemma Arrives(s0: State, s: State, j: Id, source: Source, kind: Kind, start: int) returns (s': State)
    requires Reaches(s0, s) && j !in s.table.jobs && j !in s.calls && !Busy(s.table.jobs, source)
    ensures s' == s.(table := Table(s.table.jobs[j := Row(source, kind, Queued, start, None)], s.table.queue + {j}))
    ensures Reaches(s0, s')
  {
    var s2 := Persists(s0, s, j, source, kind, start);
    s' := s.(table := Table(s.table.jobs[j := Row(source, kind, Queued, start, None)], s.table.queue + {j}));
    assert s2.calls - {j} == s.calls;
    OneMore(s0, s2, Enqueue(j), s', AnyStep);
  }

  lemma Fetches(s0: State, s: State, w: WorkerId, j: Id) returns (s': State)
    requires Reaches(s0, s) && w !in s.workers && j in s.table.queue
    requires j in s.table.jobs && !s.table.jobs[j].status.Terminal()
    ensures s' == s.(table := s.table.(queue := s.table.queue - {j}), workers := s.workers[w := Worker(j, Fetched)])
    ensures Reaches(s0, s')
  {
    var s1 := s.(table := s.table.(queue := s.table.queue - {j}), workers := s.workers[w := Worker(j, Claimed)]);
    OneMore(s0, s, Claim(w, j), s1, AnyStep);
    s' := s1.(workers := s1.workers[w := Worker(j, Fetched)]);
    OneMore(s0, s1, Fetch(w), s', AnyStep);
  }

  // A worker takes a job from the queue and starts to run it.
  lemma Starts(s0: State, s: State, w: WorkerId, j: Id) returns (s': State)
    requires Reaches(s0, s) && w !in s.workers && j in s.table.queue
    requires j in s.table.jobs && !s.table.jobs[j].status.Terminal() && !Taken(s.table.jobs, j)
    ensures s' == s.(table := Table(SetStatus(s.table.jobs, j, Running), s.table.queue - {j}),
                     workers := s.workers[w := Worker(j, Executing)])
    ensures Reaches(s0, s')
  {
    var s2 := Fetches(s0, s, w, j);
    s' := s.(table := Table(SetStatus(s.table.jobs, j, Running), s.table.queue - {j}),
      workers := s.workers[w := Worker(j, Executing)]);
    OneMore(s0, s2, Announce(w), s', AnyStep);
  }

  // A push finds a refresh.
  lemma Finds(s0: State, s: State, j: Id, r: Id, start: int) returns (s': State)
    requires Reaches(s0, s) && j !in s.table.jobs && j !in s.calls
    requires OneActive(s.table.jobs) && IsActive(s.table.jobs, r) && s.table.jobs[r].kind.Resummarize?
    ensures s' == s.(calls := s.calls[j := Call(s.table.jobs[r].source, Incremental, start, Found(r))])
    ensures Reaches(s0, s')
  {
    var source := s.table.jobs[r].source;
    s' := s.(calls := s.calls[j := Call(source, Incremental, start, Found(r))]);
    assert Busy(s.table.jobs, source);
    OneMore(s0, s, Preempt(j, source, Incremental, start), s', AnyStep);
  }

  // It cannot take the refresh's queue row.
  lemma Misses(s0: State, s: State, j: Id, r: Id, start: int) returns (s': State)
    requires Reaches(s0, s) && j !in s.table.jobs && j !in s.calls
    requires OneActive(s.table.jobs) && IsActive(s.table.jobs, r) && s.table.jobs[r].kind.Resummarize?
    requires r !in s.table.queue
    ensures s' == s.(calls := s.calls[j := Call(s.table.jobs[r].source, Incremental, start, MustWait(r))])
    ensures Reaches(s0, s')
  {
    var s1 := Finds(s0, s, j, r, start);
    s' := s.(calls := s.calls[j := Call(s.table.jobs[r].source, Incremental, start, MustWait(r))]);
    assert SetStage(s1, j, MustWait(r)) == s';
    OneMore(s0, s1, TryCancel(j), s', AnyStep);
  }

  // It persists its job as waiting.
  lemma Defers(s0: State, s: State, j: Id, r: Id, start: int) returns (s': State)
    requires Reaches(s0, s) && j !in s.table.jobs && j !in s.calls
    requires OneActive(s.table.jobs) && IsActive(s.table.jobs, r) && s.table.jobs[r].kind.Resummarize?
    requires r !in s.table.queue
    ensures var source := s.table.jobs[r].source;
      s' == s.(table := s.table.(jobs := s.table.jobs[j := Row(source, Incremental, Waiting, start, Some(r))]),
               calls := s.calls[j := Call(source, Incremental, start, Reread(r))])
    ensures Reaches(s0, s')
  {
    var s2 := Misses(s0, s, j, r, start);
    s' := Next(s2, PersistWaiting(j));
    OneMore(s0, s2, PersistWaiting(j), s', AnyStep);
  }

  // And finds the refresh still running.
  lemma Waits(s0: State, s: State, j: Id, r: Id, start: int) returns (s': State)
    requires Reaches(s0, s) && j !in s.table.jobs && j !in s.calls
    requires OneActive(s.table.jobs) && IsActive(s.table.jobs, r) && s.table.jobs[r].kind.Resummarize? &&
             r !in s.table.queue
    ensures s' == s.(table := s.table.(jobs := s.table.jobs[j := Row(s.table.jobs[r].source, Incremental, Waiting,
            start, Some(r))]))
    ensures Reaches(s0, s')
  {
    var s3 := Defers(s0, s, j, r, start);
    s' := s.(table := s3.table);
    assert s3.calls - {j} == s.calls;
    OneMore(s0, s3, ReadAgain(j), s', AnyStep);
  }

  // A push finds a refresh in the queue and takes its queue row.
  lemma Cancels(s0: State, s: State, j: Id, r: Id, start: int) returns (s': State)
    requires Reaches(s0, s) && j !in s.table.jobs && j !in s.calls
    requires OneActive(s.table.jobs) && IsActive(s.table.jobs, r) && s.table.jobs[r].kind.Resummarize? &&
             r in s.table.queue
    ensures s' == s.(table := Cancel(s.table, r),
                     calls := s.calls[j := Call(s.table.jobs[r].source, Incremental, start, Plain)])
    ensures Reaches(s0, s')
  {
    var s1 := Finds(s0, s, j, r, start);
    s' := SetStage(s1, j, Plain).(table := Cancel(s.table, r));
    OneMore(s0, s1, TryCancel(j), s', AnyStep);
    assert s'.calls == s.calls[j := Call(s.table.jobs[r].source, Incremental, start, Plain)];
  }

  lemma Crashes(s0: State, s: State, lost: set<WorkerId>) returns (s': State)
    requires Reaches(s0, s)
    ensures s' == s.(workers := s.workers - lost, recovery := DoneRead(FinishedSources(s.table.jobs)))
    ensures Reaches(s0, s')
  {
    var s1 := s.(workers := s.workers - lost, recovery := Starting);
    assert s.calls - {} == s.calls;
    OneMore(s0, s, Crash(lost, {}), s1, AnyStep);
    s' := s1.(recovery := DoneRead(FinishedSources(s.table.jobs)));
    OneMore(s0, s1, ReadDone, s', AnyStep);
  }

  // A process dies with some workers, starts again, and lists the unfinished jobs.
  lemma Restarts(s0: State, s: State, lost: set<WorkerId>, running: seq<Id>, queued: seq<Id>) returns (s': State)
    requires Reaches(s0, s)
    requires forall j :: j in running <==> j in s.table.jobs && s.table.jobs[j].status.Running?
    requires forall j :: j in queued <==> j in s.table.jobs && s.table.jobs[j].status.Queued?
    ensures s' == s.(workers := s.workers - lost, recovery := Resuming(FinishedSources(s.table.jobs), running + queued))
    ensures Reaches(s0, s')
  {
    var finished := FinishedSources(s.table.jobs);
    var s2 := Crashes(s0, s, lost);
    var s3 := s2.(recovery := RunningRead(finished, running));
    OneMore(s0, s2, ListRunning(running), s3, AnyStep);
    s' := s3.(recovery := Resuming(finished, running + queued));
    OneMore(s0, s3, ListQueued(queued), s', AnyStep);
  }

  // ---------------------------------------------------------------------------
  // The lost wakeups
  // ---------------------------------------------------------------------------

  // Push 2 waits on refresh 1, which is running.
  lemma PushWaits() returns (s: State)
    ensures Reaches(EMPTY, s)
    ensures s == State(Table(map[1 := Row(0, Resummarize, Running, 1, None),
            2 := Row(0, Incremental, Waiting, 2, Some(1))], {}),
                       map[0 := Worker(1, Executing)], map[], Idle)
  {
    LeadsToItself(EMPTY, AnyStep);
    var s1 := Arrives(EMPTY, EMPTY, 1, 0, Resummarize, 1);
    assert s1.table == Table(map[1 := Row(0, Resummarize, Queued, 1, None)], {1});
    var s2 := Starts(EMPTY, s1, 0, 1);
    assert s2.table == Table(map[1 := Row(0, Resummarize, Running, 1, None)], {});
    s := Waits(EMPTY, s2, 2, 1, 2);
  }

  // The worker ends its job; the hook has not run.
  lemma Finishes(s0: State, s: State, w: WorkerId, status: Status) returns (s': State)
    requires Reaches(s0, s) && WorkerAt(s, w, Executing) && status.Terminal()
    ensures s' == s.(table := s.table.(jobs := SetStatus(s.table.jobs, s.workers[w].job, status)),
                     workers := s.workers[w := Worker(s.workers[w].job, Hook)])
    ensures Reaches(s0, s')
  {
    s' := SetWork(Write(s, s.workers[w].job, status), w, Hook);
    OneMore(s0, s, Finish(w, status), s', AnyStep);
  }

  function Refresh(id: int, status: Status): Row {
    Row(0, Resummarize, status, id, None)
  }

  function Push(id: int, status: Status, after: Option<Id>): Row {
    Row(0, Incremental, status, id, after)
  }

  // Refresh 1 ends, and refresh 3 takes the source before its hook runs.
  lemma HookPends() returns (s: State)
    ensures Reaches(EMPTY, s)
    ensures s == State(Table(map[1 := Refresh(1, Done), 2 := Push(2, Waiting, Some(1)), 3 := Refresh(3, Queued)], {3}),
                       map[0 := Worker(1, Hook)], map[], Idle)
  {
    var s1 := PushWaits();
    var s2 := Finishes(EMPTY, s1, 0, Done);
    assert s2.table.jobs == map[1 := Refresh(1, Done), 2 := Push(2, Waiting, Some(1))];
    s := Arrives(EMPTY, s2, 3, 0, Resummarize, 3);
  }

  // The hook relinks push 2 behind refresh 3.
  lemma HookRelinks() returns (s: State)
    ensures Reaches(EMPTY, s)
    ensures s == State(Table(map[1 := Refresh(1, Done), 2 := Push(2, Waiting, Some(3)), 3 := Refresh(3, Queued)], {3}),
                       map[], map[], Idle)
  {
    var s3 := HookPends();
    var jobs := s3.table.jobs;
    s := State(Table(map[1 := Refresh(1, Done), 2 := Push(2, Waiting, Some(3)), 3 := Refresh(3, Queued)], {3}),
      map[], map[], Idle);
    RelinkedBehind3(jobs);
    assert s3.workers - {0} == map[];
    OneMore(EMPTY, s3, RunHook(0, 2), s, AnyStep);
  }

  lemma RelinkedBehind3(jobs: map<Id, Row>)
    requires jobs == map[1 := Refresh(1, Done), 2 := Push(2, Waiting, Some(1)), 3 := Refresh(3, Queued)]
    ensures MayPick(jobs, 1, 2)
    ensures Promote(Table(jobs, {3}), 1, 2) ==
            Table(map[1 := Refresh(1, Done), 2 := Push(2, Waiting, Some(3)), 3 := Refresh(3, Queued)], {3})
  {
    assert Behind(jobs, 1) == {2};
    assert IsActive(jobs, 3) && jobs[3].source == jobs[2].source;
    assert ActiveOf(jobs, 0) == 3;
  }

  /** The next push cancels refresh 3 while it is still queued: push 2 waits on a finished job that
      nobody will look at again. */
  lemma CancelledRefreshStrandsWaiter() returns (s: State)
    ensures Reaches(EMPTY, s) && Stranded(s, 2, 3)
  {
    var s1 := HookRelinks();
    assert IsActive(s1.table.jobs, 3) && forall j :: IsActive(s1.table.jobs, j) ==> j == 3;
    s := Cancels(EMPTY, s1, 4, 3, 4);
    assert s.table.jobs[3].status.Done?;
  }

  lemma ThirdRuns(read: State) returns (s: State)
    requires read == State(Table(map[1 := Refresh(1, Done), 2 := Push(2, Waiting, Some(1)), 3 := Refresh(3, Queued)],
             {3}),
                           map[0 := Worker(1, Hook)], map[], Idle)
    ensures Reaches(read, s)
    ensures s == State(Table(map[1 := Refresh(1, Done), 2 := Push(2, Waiting, Some(1)), 3 := Refresh(3, Running)], {}),
                       map[0 := Worker(1, Hook), 1 := Worker(3, Executing)], map[], Idle)
  {
    LeadsToItself(read, AnyStep);
    s := Starts(read, read, 1, 3);
    assert s.table == Table(map[1 := Refresh(1, Done), 2 := Push(2, Waiting, Some(1)), 3 := Refresh(3, Running)], {});
  }

  lemma ThirdEnds(read: State) returns (s: State)
    requires read == State(Table(map[1 := Refresh(1, Done), 2 := Push(2, Waiting, Some(1)), 3 := Refresh(3, Queued)],
             {3}),
                           map[0 := Worker(1, Hook)], map[], Idle)
    ensures Reaches(read, s)
    ensures s == State(Table(map[1 := Refresh(1, Done), 2 := Push(2, Waiting, Some(1)), 3 := Refresh(3, Done)], {}),
                       map[0 := Worker(1, Hook)], map[], Idle)
  {
    var s1 := ThirdRuns(read);
    var s2 := Finishes(read, s1, 1, Done);
    var jobs := map[1 := Refresh(1, Done), 2 := Push(2, Waiting, Some(1)), 3 := Refresh(3, Done)];
    assert s2.table.jobs == jobs;
    s := State(Table(jobs, {}), map[0 := Worker(1, Hook)], map[], Idle);
    ThirdHook(read, s2, s);
  }

  lemma ThirdHook(read: State, s: State, s': State)
    requires Reaches(read, s) && Behind(s.table.jobs, 3) == {} && 3 in s.table.jobs
    requires s.workers == map[0 := Worker(1, Hook), 1 := Worker(3, Hook)] &&
             s' == s.(workers := map[0 := Worker(1, Hook)])
    ensures Reaches(read, s')
  {
    assert s.workers - {1} == s'.workers;
    OneMore(read, s, RunHook(1, 0), s', AnyStep);
  }

  /** Why a promotion has to be one step: the hook of refresh 1 reads that refresh 3 is active, refresh 3
      ends and its hook finds nobody waiting, and only then is push 2 relinked behind refresh 3. */
  lemma StaleRelinkStrandsWaiter() returns (read: State, s: State)
    ensures Reaches(EMPTY, read) && WorkerAt(read, 0, Hook) && read.workers[0].job == 1
    ensures Behind(read.table.jobs, 1) == {2} && IsActive(read.table.jobs, 3)
    ensures Reaches(read, s) && s.workers == read.workers
    ensures Stranded(s.(table := s.table.(jobs := Relink(s.table.jobs, {2}, 3)), workers := map[]), 2, 3)
  {
    read := HookPends();
    s := ThirdEnds(read);
  }

  // Pushes 2 and 5 waited on refresh 1; its hook promoted push 2 and chained push 5 behind it.
  lemma HookChains() returns (s: State)
    ensures Reaches(EMPTY, s)
    ensures s == State(Table(map[1 := Refresh(1, Done), 2 := Push(2, Queued, Some(1)),
            5 := Push(5, Waiting, Some(2))], {2}),
                       map[], map[], Idle)
  {
    var s1 := PushWaits();
    assert IsActive(s1.table.jobs, 1);
    var s2 := Waits(EMPTY, s1, 5, 1, 5);
    var s3 := Finishes(EMPTY, s2, 0, Done);
    var jobs := map[1 := Refresh(1, Done), 2 := Push(2, Waiting, Some(1)), 5 := Push(5, Waiting, Some(1))];
    assert s3.table == Table(jobs, {});
    s := State(Table(map[1 := Refresh(1, Done), 2 := Push(2, Queued, Some(1)), 5 := Push(5, Waiting, Some(2))], {2}),
      map[], map[], Idle);
    ChainedBehind2(jobs);
    assert s3.workers - {0} == map[];
    OneMore(EMPTY, s3, RunHook(0, 2), s, AnyStep);
  }

  lemma ChainedBehind2(jobs: map<Id, Row>)
    requires jobs == map[1 := Refresh(1, Done), 2 := Push(2, Waiting, Some(1)), 5 := Push(5, Waiting, Some(1))]
    ensures MayPick(jobs, 1, 2)
    ensures Promote(Table(jobs, {}), 1, 2) ==
            Table(map[1 := Refresh(1, Done), 2 := Push(2, Queued, Some(1)), 5 := Push(5, Waiting, Some(2))], {2})
  {
    assert Behind(jobs, 1) == {2, 5};
    assert !Busy(jobs, 0);
    assert {2, 5} - {2} == {5};
  }

  // Push 2 fails, and index job 6 takes the source before the retry is decided.
  lemma RetryRaces() returns (s: State)
    ensures Reaches(EMPTY, s)
    ensures s.table.jobs == map[1 := Refresh(1, Done), 2 := Push(2, Failed, Some(1)), 5 := Push(5, Waiting, Some(2)),
                                6 := Row(0, Index, Queued, 6, None)]
    ensures s.workers == map[1 := Worker(2, Retrying)] && s.calls == map[] && s.recovery.Idle?
  {
    var s1 := HookChains();
    var s2 := Starts(EMPTY, s1, 1, 2);
    assert s2.table.jobs == map[1 := Refresh(1, Done), 2 := Push(2, Running, Some(1)), 5 := Push(5, Waiting, Some(2))];
    var s3 := SetWork(Write(s2, 2, Failed), 1, Retrying);
    OneMore(EMPTY, s2, FailForRetry(1), s3, AnyStep);
    assert s3.table.jobs == map[1 := Refresh(1, Done), 2 := Push(2, Failed, Some(1)), 5 := Push(5, Waiting, Some(2))];
    s := Arrives(EMPTY, s3, 6, 0, Index, 6);
  }

  /** The retry's write is refused, and the hook of push 2 never runs: push 5 is stranded. */
  lemma LostRetryStrandsWaiter() returns (s: State)
    ensures Reaches(EMPTY, s) && Stranded(s, 5, 2)
  {
    var s1 := RetryRaces();
    assert IsActive(s1.table.jobs, 6);
    assert Taken(s1.table.jobs, 2);
    s := s1.(workers := s1.workers - {1});
    assert s.workers == map[];
    OneMore(EMPTY, s1, Requeue(1), s, AnyStep);
  }

  // A start beside job 1, running or queued, has put it in the queue, and nothing was waiting.
  lemma RecoveryQueues(s0: State, s: State) returns (s': State)
    requires Reaches(s0, s) && s.table.jobs.Keys == {1} && !s.table.jobs[1].status.Waiting?
    requires s.recovery.Resuming? && s.recovery.todo == [1] && s.recovery.finished == {}
    ensures s' == s.(table := s.table.(queue := s.table.queue + {1}), recovery := Orphans([], {}))
    ensures Reaches(s0, s')
  {
    var s1 := s.(table := s.table.(queue := s.table.queue + {1}), recovery := Resuming({}, []));
    assert s.recovery.todo[1..] == [];
    OneMore(s0, s, Recover(true), s1, AnyStep);
    s' := s1.(recovery := Orphans([], {}));
    OneMore(s0, s1, ListWaiting([]), s', AnyStep);
  }

  /** A crash interrupts refresh 1, and recovery queues it, but its row still reads `running`. A push
      takes the queue row: the refresh is active for ever, with nobody to run it. */
  lemma ResumedRefreshIsLost() returns (s: State)
    ensures Reaches(EMPTY, s) && Abandoned(s, 1)
  {
    LeadsToItself(EMPTY, AnyStep);
    var s1 := Arrives(EMPTY, EMPTY, 1, 0, Resummarize, 1);
    var s2 := Starts(EMPTY, s1, 0, 1);
    assert s2.table == Table(map[1 := Refresh(1, Running)], {});
    var s3 := Restarts(EMPTY, s2, {0}, [1], []);
    var s4 := RecoveryQueues(EMPTY, s3);
    assert IsActive(s4.table.jobs, 1);
    s := Cancels(EMPTY, s4, 4, 1, 4);
    assert s.workers == map[] && 1 !in s.calls;
  }

  // ---------------------------------------------------------------------------
  // Exceptions after which the process lives on
  // ---------------------------------------------------------------------------

  /** The hook of refresh 1 raises, and is only logged: push 2 is stranded. */
  lemma RaisingHookStrandsWaiter() returns (s: State)
    ensures Reaches(EMPTY, s) && Stranded(s, 2, 1)
  {
    var s1 := PushWaits();
    var s2 := Finishes(EMPTY, s1, 0, Done);
    s := s2.(workers := s2.workers - {0});
    assert s.workers == map[];
    OneMore(EMPTY, s2, WorkerRaises(0), s, AnyStep);
  }

  /** A push raises when it has persisted its job as waiting, and refresh 1 ended just before: nobody
      reads refresh 1 again, and the job is stranded. */
  lemma RaisingPushStrandsItself() returns (s: State)
    ensures Reaches(EMPTY, s) && Stranded(s, 2, 1)
  {
    var s2 := RefreshRuns();
    var s3 := PushTooLate(s2);
    s := s3.(calls := s3.calls - {2});
    assert s.calls == map[];
    OneMore(EMPTY, s3, CallRaises(2), s, AnyStep);
  }

  lemma RefreshRuns() returns (s: State)
    ensures Reaches(EMPTY, s)
    ensures s == State(Table(map[1 := Refresh(1, Running)], {}), map[0 := Worker(1, Executing)], map[], Idle)
  {
    LeadsToItself(EMPTY, AnyStep);
    var s1 := Arrives(EMPTY, EMPTY, 1, 0, Resummarize, 1);
    s := Starts(EMPTY, s1, 0, 1);
    assert s.table == Table(map[1 := Refresh(1, Running)], {});
  }

  // The push finds that it cannot cancel refresh 1, which then ends.
  lemma PushTooLate(s: State) returns (s': State)
    requires Reaches(EMPTY, s)
    requires s == State(Table(map[1 := Refresh(1, Running)], {}), map[0 := Worker(1, Executing)], map[], Idle)
    ensures Reaches(EMPTY, s')
    ensures s' == State(Table(map[1 := Refresh(1, Done), 2 := Push(2, Waiting, Some(1))], {}), map[],
                        map[2 := Call(0, Incremental, 2, Reread(1))], Idle)
  {
    assert IsActive(s.table.jobs, 1);
    var s1 := Finds(EMPTY, s, 2, 1, 2);
    var s2 := SetStage(s1, 2, MustWait(1));
    OneMore(EMPTY, s1, TryCancel(2), s2, AnyStep);
    var s3 := Finishes(EMPTY, s2, 0, Done);
    assert s3.table.jobs == map[1 := Refresh(1, Done)];
    var s4 := HookFindsNobody(s3);
    s' := PersistsTooLate(s4);
  }

  // Its hook finds nobody waiting.
  lemma HookFindsNobody(s: State) returns (s': State)
    requires Reaches(EMPTY, s) && s.table == Table(map[1 := Refresh(1, Done)], {}) &&
             s.workers == map[0 := Worker(1, Hook)]
    ensures Reaches(EMPTY, s') && s' == s.(workers := map[])
  {
    assert Behind(s.table.jobs, 1) == {};
    assert s.workers - {0} == map[];
    s' := s.(workers := map[]);
    OneMore(EMPTY, s, RunHook(0, 0), s', AnyStep);
  }

  lemma PersistsTooLate(s: State) returns (s': State)
    requires Reaches(EMPTY, s)
    requires s == State(Table(map[1 := Refresh(1, Done)], {}), map[], map[2 := Call(0, Incremental, 2, MustWait(1))],
             Idle)
    ensures Reaches(EMPTY, s')
    ensures s' == State(Table(map[1 := Refresh(1, Done), 2 := Push(2, Waiting, Some(1))], {}), map[],
                        map[2 := Call(0, Incremental, 2, Reread(1))], Idle)
  {
    s' := State(Table(map[1 := Refresh(1, Done), 2 := Push(2, Waiting, Some(1))], {}), map[],
                map[2 := Call(0, Incremental, 2, Reread(1))], Idle);
    OneMore(EMPTY, s, PersistWaiting(2), s', AnyStep);
  }

  /** A worker raises outside its runner, and is only logged: its job is active and nobody's. */
  lemma RaisingWorkerAbandons() returns (s: State)
    ensures Reaches(EMPTY, s) && Abandoned(s, 1)
  {
    LeadsToItself(EMPTY, AnyStep);
    var s1 := Arrives(EMPTY, EMPTY, 1, 0, Index, 1);
    var s2 := Starts(EMPTY, s1, 0, 1);
    assert s2.table == Table(map[1 := Row(0, Index, Running, 1, None)], {});
    s := s2.(workers := s2.workers - {0});
    assert s.workers == map[];
    OneMore(EMPTY, s2, WorkerRaises(0), s, AnyStep);
    assert IsActive(s.table.jobs, 1);
  }

  /** A request raises when it has persisted its job and not yet queued it: the same. */
  lemma RaisingRequestAbandons() returns (s: State)
    ensures Reaches(EMPTY, s) && Abandoned(s, 1)
  {
    LeadsToItself(EMPTY, AnyStep);
    var s1 := Persists(EMPTY, EMPTY, 1, 0, Index, 1);
    s := s1.(calls := s1.calls - {1});
    assert s.calls == map[];
    OneMore(EMPTY, s1, CallRaises(1), s, AnyStep);
    assert IsActive(s.table.jobs, 1);
  }

  // ---------------------------------------------------------------------------
  // Recovery beside running workers
  // ---------------------------------------------------------------------------

  /** A worker takes job 1 between the listing of the queued jobs and the loop over them; the loop
      queues the job again, and a second worker runs it beside the first. */
  lemma JobRunsTwice() returns (s: State)
    ensures Reaches(EMPTY, s) && s.workers == map[0 := Worker(1, Executing), 1 := Worker(1, Executing)]
  {
    LeadsToItself(EMPTY, AnyStep);
    var s1 := Arrives(EMPTY, EMPTY, 1, 0, Index, 1);
    assert s1.table == Table(map[1 := Row(0, Index, Queued, 1, None)], {1});
    var s2 := Restarts(EMPTY, s1, {}, [], [1]);
    var s3 := Starts(EMPTY, s2, 0, 1);
    assert s3.table == Table(map[1 := Row(0, Index, Running, 1, None)], {});
    var s4 := RecoveryQueues(EMPTY, s3);
    s := Starts(EMPTY, s4, 1, 1);
  }

  lemma FirstJobEnds() returns (s: State)
    ensures Reaches(EMPTY, s)
    ensures s == State(Table(map[1 := Row(0, Index, Done, 1, None)], {}), map[], map[], Idle)
  {
    LeadsToItself(EMPTY, AnyStep);
    var s1 := Arrives(EMPTY, EMPTY, 1, 0, Index, 1);
    var s2 := Starts(EMPTY, s1, 0, 1);
    var s3 := Finishes(EMPTY, s2, 0, Done);
    assert s3.table == Table(map[1 := Row(0, Index, Done, 1, None)], {});
    assert Behind(s3.table.jobs, 1) == {};
    assert s3.workers - {0} == map[];
    s := s3.(workers := map[]);
    OneMore(EMPTY, s3, RunHook(0, 0), s, AnyStep);
  }

  // Job 1 is done and job 2 of the same source queued when a process starts; a worker takes job 2.
  lemma SecondJobRuns() returns (s: State)
    ensures Reaches(EMPTY, s)
    ensures s == State(Table(map[1 := Row(0, Index, Done, 1, None), 2 := Row(0, Index, Running, 2, None)], {}),
                       map[0 := Worker(2, Executing)], map[], Resuming({0}, [2]))
  {
    var s5 := SecondJobQueued();
    SecondJobAlone(s5.table.jobs);
    var s6 := Restarts(EMPTY, s5, {}, [], [2]);
    assert [] + [2] == [2];
    var t := Starts(EMPTY, s6, 0, 2);
    s := State(Table(SetStatus(s5.table.jobs, 2, Running), {}), map[0 := Worker(2, Executing)], map[],
      Resuming({0}, [2]));
    assert t == s;
  }

  lemma SecondJobAlone(jobs: map<Id, Row>)
    requires jobs == map[1 := Row(0, Index, Done, 1, None), 2 := Row(0, Index, Queued, 2, None)]
    ensures !Taken(jobs, 2) && FinishedSources(jobs) == {0}
    ensures SetStatus(jobs, 2, Running) == map[1 := Row(0, Index, Done, 1, None), 2 := Row(0, Index, Running, 2, None)]
  {
    assert jobs[1].status.Done? && jobs[1].source == 0;
  }

  lemma SecondJobQueued() returns (s: State)
    ensures Reaches(EMPTY, s)
    ensures s == State(Table(map[1 := Row(0, Index, Done, 1, None), 2 := Row(0, Index, Queued, 2, None)], {2}),
            map[], map[], Idle)
  {
    var s4 := FirstJobEnds();
    s := Arrives(EMPTY, s4, 2, 0, Index, 2);
  }

  lemma SecondJobSuperseded() returns (s: State)
    ensures Reaches(EMPTY, s)
    ensures s == State(Table(map[1 := Row(0, Index, Done, 1, None), 2 := Row(0, Index, Done, 2, None)], {}),
                       map[0 := Worker(2, Executing)], map[], Orphans([], {}))
  {
    var s1 := SecondJobRuns();
    var jobs := map[1 := Row(0, Index, Done, 1, None), 2 := Row(0, Index, Done, 2, None)];
    var s2 := State(Table(jobs, {}), s1.workers, map[], Resuming({0}, []));
    assert SetStatus(s1.table.jobs, 2, Done) == jobs && s1.recovery.todo[1..] == [];
    OneMore(EMPTY, s1, Recover(true), s2, AnyStep);
    s := s2.(recovery := Orphans([], {}));
    OneMore(EMPTY, s2, ListWaiting([]), s, AnyStep);
  }

  /** The loop writes the row of a job that is running as superseded, and its source is free for
      another job: two jobs of one source run at once. */
  lemma TwoJobsOfOneSource() returns (s: State)
    ensures Reaches(EMPTY, s) && s.workers == map[0 := Worker(2, Executing), 1 := Worker(3, Executing)]
    ensures 2 in s.table.jobs && 3 in s.table.jobs && s.table.jobs[2].source == s.table.jobs[3].source
  {
    var s3 := SecondJobSuperseded();
    var s4 := Arrives(EMPTY, s3, 3, 0, Index, 3);
    assert s4.table.jobs ==
      map[1 := Row(0, Index, Done, 1, None), 2 := Row(0, Index, Done, 2, None), 3 := Row(0, Index, Queued, 3, None)];
    s := Starts(EMPTY, s4, 1, 3);
  }
}
