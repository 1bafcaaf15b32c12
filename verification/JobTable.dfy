/**
  The jobs table, the job_queue table and everything that acts on them: queue workers with
  their post-job hook, requests that preempt a summary refresh, and the recovery loops of a
  restarted indexer, which run beside its workers.

  Each label is one step that other coroutines can run between: one SQL statement or
  transaction of `JobStore` and `PostgresJobQueue`, with the decisions that follow it in the same
  coroutine. `Next` is the state after the step.
*/
module JobTable {
  import opened Options
  import opened Jobs

  type Id = nat
  type Source = nat
  type WorkerId = nat

  // `Index` stands for the file, directory, repo and graph kinds; only incremental jobs retry.
  datatype Kind = Index | Incremental | Resummarize

  datatype Row = Row(source: Source, kind: Kind, status: Status, start: int, after: Option<Id>)

  datatype Table = Table(jobs: map<Id, Row>, queue: set<Id>)

  // ---------------------------------------------------------------------------
  // The transactions of the job store
  // ---------------------------------------------------------------------------

  predicate IsActive(jobs: map<Id, Row>, j: Id) {
    j in jobs && jobs[j].status.Active()
  }

  ghost predicate Busy(jobs: map<Id, Row>, source: Source) {
    exists j :: IsActive(jobs, j) && jobs[j].source == source
  }

  // The source of `j` has another active job: the unique index refuses to make `j` active.
  ghost predicate Taken(jobs: map<Id, Row>, j: Id)
    requires j in jobs
  {
    exists a :: a != j && IsActive(jobs, a) && jobs[a].source == jobs[j].source
  }

  ghost function ActiveOf(jobs: map<Id, Row>, source: Source): (j: Id)
    requires Busy(jobs, source)
    ensures IsActive(jobs, j) && jobs[j].source == source
  {
    var j :| IsActive(jobs, j) && jobs[j].source == source; j
  }

  // The jobs waiting on `x`.
  function Behind(jobs: map<Id, Row>, x: Id): set<Id> {
    set w | w in jobs && jobs[w].status.Waiting? && jobs[w].after == Some(x)
  }

  ghost predicate IsOldest(jobs: map<Id, Row>, ws: set<Id>, f: Id) {
    f in ws && ws <= jobs.Keys && forall g :: g in ws ==> jobs[f].start <= jobs[g].start
  }

  lemma {:induction false} OldestExists(jobs: map<Id, Row>, ws: set<Id>)
    requires ws != {} && ws <= jobs.Keys
    ensures exists f :: IsOldest(jobs, ws, f)
  {
    var w :| w in ws;
    if ws == {w} {
      assert IsOldest(jobs, ws, w);
    } else {
      var rest := ws - {w};
      assert ws == {w} + rest;
      OldestExists(jobs, rest);
      var f :| IsOldest(jobs, rest, f);
      assert IsOldest(jobs, ws, if jobs[w].start <= jobs[f].start then w else f);
    }
  }

  function Relink(jobs: map<Id, Row>, ws: set<Id>, x: Id): map<Id, Row> {
    map j | j in jobs :: if j in ws then jobs[j].(after := Some(x)) else jobs[j]
  }

  // `promote_next_waiting` with `first` the oldest job waiting on `x`: promote it and chain the
  // rest behind it, or relink them all behind a job that made the source busy first.
  ghost function PromoteVia(t: Table, x: Id, first: Id): Table
    requires IsOldest(t.jobs, Behind(t.jobs, x), first)
  {
    var ws := Behind(t.jobs, x);
    var source := t.jobs[first].source;
    if Busy(t.jobs, source) then
      Table(Relink(t.jobs, ws, ActiveOf(t.jobs, source)), t.queue)
    else
      var jobs := Relink(t.jobs, ws - {first}, first);
      Table(jobs[first := jobs[first].(status := Queued)], t.queue + {first})
  }

  // ORDER BY start_time: the transaction may pick any job with the smallest start time.
  ghost predicate MayPick(jobs: map<Id, Row>, x: Id, first: Id) {
    Behind(jobs, x) != {} ==> IsOldest(jobs, Behind(jobs, x), first)
  }

  ghost function Promote(t: Table, x: Id, first: Id): Table
    requires MayPick(t.jobs, x, first)
  {
    if Behind(t.jobs, x) == {} then t else PromoteVia(t, x, first)
  }

  // `cancel_if_queued`, when the job's queue row is still there.
  function Cancel(t: Table, r: Id): Table
    requires r in t.jobs && r in t.queue
  {
    Table(if t.jobs[r].status.Queued? then t.jobs[r := t.jobs[r].(status := Done)] else t.jobs, t.queue - {r})
  }

  function SetStatus(jobs: map<Id, Row>, j: Id, status: Status): map<Id, Row>
    requires j in jobs
  {
    jobs[j := jobs[j].(status := status)]
  }

  // ---------------------------------------------------------------------------
  // Recovery at startup
  // ---------------------------------------------------------------------------

  function FinishedSources(jobs: map<Id, Row>): set<Source> {
    set j | j in jobs && jobs[j].status.Done? :: jobs[j].source
  }

  predicate Superseded(jobs: map<Id, Row>, finished: set<Source>, j: Id)
    requires j in jobs
  {
    jobs[j].source in finished && !jobs[j].kind.Resummarize?
  }

  // What the first loop does to a job it has listed as running or queued, whatever its row says
  // by now: write it as done or failed, or put it in the queue.
  function RecoverJob(t: Table, finished: set<Source>, j: Id, dispatchable: bool): Table
    requires j in t.jobs
  {
    if Superseded(t.jobs, finished, j) then t.(jobs := SetStatus(t.jobs, j, Done))
    else if !dispatchable then t.(jobs := SetStatus(t.jobs, j, Failed))
    else t.(queue := t.queue + {j})
  }

  // The second loop leaves a predecessor alone that is queued, running or itself waiting.
  predicate Orphaned(jobs: map<Id, Row>, x: Id) {
    !(x in jobs && (jobs[x].status.Active() || jobs[x].status.Waiting?))
  }

  // How far startup has come.
  datatype Recovery =
    | Idle
    | Starting                                               // nothing read yet
    | DoneRead(finished: set<Source>)
    | RunningRead(finished: set<Source>, listed: seq<Id>)    // the running jobs are listed, the queued ones not
    | Resuming(finished: set<Source>, todo: seq<Id>)         // first loop
    | Orphans(afters: seq<Id>, checked: set<Id>)             // second loop
    | Promoting(x: Id, afters: seq<Id>, checked: set<Id>)    // found `x` over: about to promote

  // ---------------------------------------------------------------------------
  // The processes around the tables
  // ---------------------------------------------------------------------------

  // Where a worker stands with its job. Two workers may be on one job, if it was queued twice.
  datatype Work =
    | Claimed      // the queue row is deleted
    | Fetched      // the job row was read and not over
    | Executing    // the row was written as `running`
    | Retrying     // the runner failed the row and raised; the retry is being decided
    | Requeued     // the row was written as `queued` again, the queue row comes next
    | Hook         // the terminal status is stored, the post-job hook has not run

  datatype Worker = Worker(job: Id, work: Work)

  // Where the coroutine that creates a job stands. `refresh` is the job it tried to preempt.
  datatype Stage =
    | Plain                    // about to persist the job as queued
    | Persisted                // persisted, the queue row comes next
    | Found(refresh: Id)       // about to try to cancel the refresh
    | MustWait(refresh: Id)    // the cancel failed: about to persist the job as waiting
    | Reread(refresh: Id)      // persisted as waiting: about to read the refresh again
    | MustPromote(refresh: Id) // the refresh was over: about to promote
  {
    predicate Preempting() { Found? || MustWait? || Reread? || MustPromote? }

    predicate Early() { Plain? || Found? || MustWait? }
  }

  datatype Call = Call(source: Source, kind: Kind, start: int, stage: Stage)

  datatype State = State(
    table: Table,
    workers: map<WorkerId, Worker>,
    calls: map<Id, Call>,    // by the id of the job the call creates
    recovery: Recovery
  )

  datatype Label =
    | Arrive(j: Id, source: Source, kind: Kind, start: int)   // a request that enqueues plainly
    | Preempt(j: Id, source: Source, kind: Kind, start: int)  // `preempt_active_refresh`, first read
    | TryCancel(j: Id)
    | Persist(j: Id)
    | Enqueue(j: Id)
    | PersistWaiting(j: Id)
    | ReadAgain(j: Id)
    | PromoteNow(j: Id, first: Id)
    | Claim(w: WorkerId, j: Id)
    | Fetch(w: WorkerId)
    | Announce(w: WorkerId)
    | Finish(w: WorkerId, status: Status)
    | FailForRetry(w: WorkerId)
    | Requeue(w: WorkerId)
    | EnqueueAgain(w: WorkerId)
    | GiveUp(w: WorkerId)
    | RunHook(w: WorkerId, first: Id)
    | WorkerRaises(w: WorkerId)          // an exception that the worker's loop or its hook only logs
    | CallRaises(j: Id)                  // an exception that fails the request
    | Crash(workers: set<WorkerId>, calls: set<Id>)  // a process dies with these, and starts again
    | ReadDone
    | ListRunning(ids: seq<Id>)
    | ListQueued(ids: seq<Id>)
    | Recover(dispatchable: bool)        // the next job of the first loop
    | ListWaiting(afters: seq<Id>)
    | CheckOrphan                        // the next predecessor of the second loop
    | PromoteOrphan(first: Id)

  predicate OfCall(l: Label) {
    l.TryCancel? || l.Persist? || l.Enqueue? || l.PersistWaiting? || l.ReadAgain? || l.PromoteNow? || l.CallRaises?
  }

  predicate OfWorker(l: Label) {
    || l.Fetch? || l.Announce? || l.Finish? || l.FailForRetry? || l.Requeue? || l.EnqueueAgain? || l.GiveUp?
    || l.RunHook? || l.WorkerRaises?
  }

  predicate OfRecovery(l: Label) {
    l.ReadDone? || l.ListRunning? || l.ListQueued? || l.Recover? || l.ListWaiting? || l.CheckOrphan? || l.PromoteOrphan?
  }

  predicate WorkerAt(s: State, w: WorkerId, work: Work) {
    w in s.workers && s.workers[w].job in s.table.jobs && s.workers[w].work == work
  }

  predicate CallAt(s: State, j: Id) {
    j in s.calls && (s.calls[j].stage.Preempting() ==> s.calls[j].stage.refresh in s.table.jobs)
  }

  ghost predicate Enabled(s: State, l: Label) {
    var jobs := s.table.jobs;
    match l
    case Arrive(j, source, kind, start) => j !in jobs && j !in s.calls
    case Preempt(j, source, kind, start) => j !in jobs && j !in s.calls && !kind.Resummarize?
    case TryCancel(j) => CallAt(s, j) && s.calls[j].stage.Found?
    case Persist(j) => CallAt(s, j) && s.calls[j].stage.Plain?
    case Enqueue(j) => CallAt(s, j) && s.calls[j].stage.Persisted?
    case PersistWaiting(j) => CallAt(s, j) && s.calls[j].stage.MustWait?
    case ReadAgain(j) => CallAt(s, j) && s.calls[j].stage.Reread?
    case PromoteNow(j, first) => CallAt(s, j) && s.calls[j].stage.MustPromote? &&
      MayPick(jobs, s.calls[j].stage.refresh, first)
    case Claim(w, j) => w !in s.workers && j in s.table.queue
    case Fetch(w) => WorkerAt(s, w, Claimed)
    case Announce(w) => WorkerAt(s, w, Fetched)
    case Finish(w, status) => WorkerAt(s, w, Executing) && status.Terminal()
    case FailForRetry(w) => WorkerAt(s, w, Executing) && jobs[s.workers[w].job].kind.Incremental?
    case Requeue(w) => WorkerAt(s, w, Retrying)
    case EnqueueAgain(w) => WorkerAt(s, w, Requeued)
    case GiveUp(w) => WorkerAt(s, w, Retrying)
    case RunHook(w, first) => WorkerAt(s, w, Hook) && MayPick(jobs, s.workers[w].job, first)
    case WorkerRaises(w) => w in s.workers && s.workers[w].job in jobs
    case CallRaises(j) => CallAt(s, j)
    case Crash(_, _) => true
    case ReadDone => s.recovery.Starting?
    case ListRunning(ids) => s.recovery.DoneRead? && forall j :: j in ids <==> j in jobs && jobs[j].status.Running?
    case ListQueued(ids) => s.recovery.RunningRead? && forall j :: j in ids <==> j in jobs && jobs[j].status.Queued?
    case Recover(_) => s.recovery.Resuming? && s.recovery.todo != [] && s.recovery.todo[0] in jobs
    case ListWaiting(afters) =>
      s.recovery.Resuming? && s.recovery.todo == [] && forall x :: x in afters <==> exists w :: w in Behind(jobs, x)
    case CheckOrphan => s.recovery.Orphans? && s.recovery.afters != []
    case PromoteOrphan(first) => s.recovery.Promoting? && MayPick(jobs, s.recovery.x, first)
  }

  function SetWork(s: State, w: WorkerId, work: Work): State
    requires w in s.workers
  {
    s.(workers := s.workers[w := s.workers[w].(work := work)])
  }

  function SetStage(s: State, j: Id, stage: Stage): State
    requires j in s.calls
  {
    s.(calls := s.calls[j := s.calls[j].(stage := stage)])
  }

  function Write(s: State, j: Id, status: Status): State
    requires j in s.table.jobs
  {
    s.(table := s.table.(jobs := SetStatus(s.table.jobs, j, status)))
  }

  ghost function Next(s: State, l: Label): State
    requires Enabled(s, l)
  {
    if OfWorker(l) then WorkerNext(s, l)
    else if OfRecovery(l) then RecoveryNext(s, l)
    else CallNext(s, l)
  }

  ghost function CallNext(s: State, l: Label): State
    requires Enabled(s, l) && !OfWorker(l) && !OfRecovery(l)
  {
    var t, jobs := s.table, s.table.jobs;
    match l
    case Arrive(j, source, kind, start) =>
      s.(calls := s.calls[j := Call(source, kind, start, Plain)])
    case Preempt(j, source, kind, start) =>
      var stage := if Busy(jobs, source) && jobs[ActiveOf(jobs, source)].kind.Resummarize?
                   then Found(ActiveOf(jobs, source)) else Plain;
      s.(calls := s.calls[j := Call(source, kind, start, stage)])
    case TryCancel(j) =>
      var r := s.calls[j].stage.refresh;
      if r in t.queue then SetStage(s, j, Plain).(table := Cancel(t, r)) else SetStage(s, j, MustWait(r))
    case Persist(j) =>
      var c := s.calls[j];
      if Busy(jobs, c.source) then s.(calls := s.calls - {j})  // the unique index refuses: the request fails
      else SetStage(s, j, Persisted).(table := t.(jobs := jobs[j := Row(c.source, c.kind, Queued, c.start, None)]))
    case Enqueue(j) =>
      s.(table := t.(queue := t.queue + {j}), calls := s.calls - {j})
    case PersistWaiting(j) =>
      var c := s.calls[j];
      var r := c.stage.refresh;
      SetStage(s, j, Reread(r)).(table := t.(jobs := jobs[j := Row(c.source, c.kind, Waiting, c.start, Some(r))]))
    case ReadAgain(j) =>
      var r := s.calls[j].stage.refresh;
      if !jobs[r].status.Active() then SetStage(s, j, MustPromote(r)) else s.(calls := s.calls - {j})
    case PromoteNow(j, first) =>
      s.(table := Promote(t, s.calls[j].stage.refresh, first), calls := s.calls - {j})
    case CallRaises(j) =>
      s.(calls := s.calls - {j})
    case Claim(w, j) =>
      s.(table := t.(queue := t.queue - {j}), workers := s.workers[w := Worker(j, Claimed)])
    case Crash(workers, calls) =>
      State(t, s.workers - workers, s.calls - calls, Starting)
  }

  ghost function WorkerNext(s: State, l: Label): State
    requires Enabled(s, l) && OfWorker(l)
  {
    var t, jobs, j := s.table, s.table.jobs, s.workers[l.w].job;
    var gone := s.(workers := s.workers - {l.w});
    match l
    case Fetch(w) => if jobs[j].status.Terminal() then gone else SetWork(s, w, Fetched)
    case Announce(w) => if Taken(jobs, j) then gone else SetWork(Write(s, j, Running), w, Executing)
    case Finish(w, status) => SetWork(Write(s, j, status), w, Hook)
    case FailForRetry(w) => SetWork(Write(s, j, Failed), w, Retrying)
    case Requeue(w) => if Taken(jobs, j) then gone else SetWork(Write(s, j, Queued), w, Requeued)
    case EnqueueAgain(w) => gone.(table := t.(queue := t.queue + {j}))
    case GiveUp(w) => SetWork(Write(s, j, DeadLetter), w, Hook)
    case RunHook(w, first) => gone.(table := Promote(t, j, first))
    case WorkerRaises(w) => gone
  }

  ghost function RecoveryNext(s: State, l: Label): State
    requires Enabled(s, l) && OfRecovery(l)
  {
    var t, jobs, r := s.table, s.table.jobs, s.recovery;
    match l
    case ReadDone => s.(recovery := DoneRead(FinishedSources(jobs)))
    case ListRunning(ids) => s.(recovery := RunningRead(r.finished, ids))
    case ListQueued(ids) => s.(recovery := Resuming(r.finished, r.listed + ids))
    case Recover(dispatchable) =>
      s.(table := RecoverJob(t, r.finished, r.todo[0], dispatchable), recovery := Resuming(r.finished, r.todo[1..]))
    case ListWaiting(afters) => s.(recovery := Orphans(afters, {}))
    case CheckOrphan =>
      var x, rest := r.afters[0], r.afters[1..];
      s.(recovery :=
        if x !in r.checked && Orphaned(jobs, x) then Promoting(x, rest, r.checked + {x})
        else Orphans(rest, r.checked + {x}))
    case PromoteOrphan(first) =>
      s.(table := Promote(t, r.x, first), recovery := Orphans(r.afters, r.checked))
  }

  // ---------------------------------------------------------------------------
  // What holds in every reachable state
  // ---------------------------------------------------------------------------

  // jobs_active_source_uniq: at most one queued or running job for a source.
  ghost predicate OneActive(jobs: map<Id, Row>) {
    forall a, b :: IsActive(jobs, a) && IsActive(jobs, b) && jobs[a].source == jobs[b].source ==> a == b
  }

  // A job waits behind a job of its own source that does not wait itself.
  ghost predicate WaitsOk(jobs: map<Id, Row>) {
    forall w :: w in jobs && jobs[w].status.Waiting? ==>
      && jobs[w].after.Some? && jobs[w].after.value in jobs
      && !jobs[w].kind.Resummarize?
      && jobs[jobs[w].after.value].source == jobs[w].source
      && !jobs[jobs[w].after.value].status.Waiting?
  }

  predicate Settled(jobs: map<Id, Row>, j: Id) {
    j in jobs && !jobs[j].status.Waiting?
  }

  ghost predicate TableOk(t: Table) {
    OneActive(t.jobs) && WaitsOk(t.jobs) && forall j :: j in t.queue ==> Settled(t.jobs, j)
  }

  // Nobody works on a job that waits.
  ghost predicate WorkersOk(s: State) {
    forall w :: w in s.workers ==> Settled(s.table.jobs, s.workers[w].job)
  }

  ghost predicate RecoveryOk(s: State) {
    && (s.recovery.RunningRead? ==> forall j :: j in s.recovery.listed ==> Settled(s.table.jobs, j))
    && (s.recovery.Resuming? ==> forall j :: j in s.recovery.todo ==> Settled(s.table.jobs, j))
  }

  // The call that creates `j` fits the table.
  predicate CallOk(s: State, j: Id)
    requires j in s.calls
  {
    var c := s.calls[j];
    && (c.stage.Early() ==> j !in s.table.jobs)
    && (c.stage.Persisted? ==> Settled(s.table.jobs, j))
    && (c.stage.Found? || c.stage.MustWait? ==> !c.kind.Resummarize?)
    && (c.stage.Preempting() ==>
          && c.stage.refresh in s.table.jobs
          && s.table.jobs[c.stage.refresh].kind.Resummarize?
          && s.table.jobs[c.stage.refresh].source == c.source)
  }

  ghost predicate CallsOk(s: State) {
    forall j :: j in s.calls ==> CallOk(s, j)
  }

  ghost predicate Structure(s: State) {
    TableOk(s.table) && WorkersOk(s) && CallsOk(s) && RecoveryOk(s)
  }

  // ---------------------------------------------------------------------------
  // No lost wakeup
  // ---------------------------------------------------------------------------

  // Worker `w` will run job `j`, or put it in the queue, if the job is still active then.
  predicate Keeps(s: State, w: WorkerId, j: Id) {
    w in s.workers && s.workers[w].job == j &&
    (s.workers[w].work.Claimed? || s.workers[w].work.Fetched? || s.workers[w].work.Executing? ||
      s.workers[w].work.Requeued?)
  }

  // Recovery will queue the active job `j`, or write it as over.
  predicate Covers(s: State, j: Id) {
    match s.recovery
    case Starting => true
    case DoneRead(_) => true
    case RunningRead(_, listed) => j in listed || (j in s.table.jobs && s.table.jobs[j].status.Queued?)
    case Resuming(_, todo) => j in todo
    case _ => false
  }

  predicate CallQueues(s: State, j: Id) {
    j in s.calls && s.calls[j].stage.Persisted?
  }

  // Somebody other than the queue, these workers and these calls will see to the active job `j`.
  ghost predicate OwnedBut(s: State, j: Id, workers: set<WorkerId>, calls: set<Id>) {
    (CallQueues(s, j) && j !in calls) || Covers(s, j) || exists w :: w !in workers && Keeps(s, w, j)
  }

  ghost predicate OwnedElse(s: State, j: Id) {
    OwnedBut(s, j, {}, {})
  }

  ghost predicate Owned(s: State, j: Id) {
    j in s.table.queue || OwnedElse(s, j)
  }

  // Worker `w` will run `x` and then its hook.
  predicate Ends(s: State, w: WorkerId, x: Id) {
    w in s.workers && s.workers[w].job == x &&
    (s.workers[w].work.Fetched? || s.workers[w].work.Executing? || s.workers[w].work.Retrying? ||
      s.workers[w].work.Hook?)
  }

  // Call `c` will read `x` again and promote the jobs behind it if it is over.
  predicate Rereads(s: State, c: Id, x: Id) {
    c in s.calls && (s.calls[c].stage == Reread(x) || s.calls[c].stage == MustPromote(x))
  }

  // Recovery will come to the jobs that wait on `x`.
  predicate WillCheck(s: State, x: Id) {
    match s.recovery
    case Idle => false
    case Orphans(afters, checked) => x in afters && x !in checked
    case Promoting(y, afters, checked) => x == y || (x in afters && x !in checked)
    case _ => true
  }

  // Somebody other than these workers and calls will promote the jobs waiting on `x` if it is over.
  ghost predicate AttendedBut(s: State, x: Id, workers: set<WorkerId>, calls: set<Id>) {
    || WillCheck(s, x)
    || (exists c :: c !in calls && Rereads(s, c, x))
    || (exists w :: w !in workers && Ends(s, w, x))
  }

  ghost predicate AttendedElse(s: State, x: Id) {
    AttendedBut(s, x, {}, {})
  }

  ghost predicate Attended(s: State, x: Id) {
    IsActive(s.table.jobs, x) || AttendedElse(s, x)
  }

  ghost predicate AllOwned(s: State) {
    forall j :: IsActive(s.table.jobs, j) ==> Owned(s, j)
  }

  ghost predicate AllAttended(s: State) {
    forall x, v :: v in Behind(s.table.jobs, x) ==> Attended(s, x)
  }

  // Every job that is not over has somebody who will act on it: an active job is owned, and a
  // waiting job's predecessor is active or somebody will promote the jobs behind it.
  ghost predicate NothingStuck(s: State) {
    AllOwned(s) && AllAttended(s)
  }

  // The five steps that can lose a wakeup, and when they do not:
  //  - cancelling a refresh that is in the queue: if it reads `queued`, it is over then, and the
  //    jobs behind it need somebody else to promote them; if it reads `running`, as a refresh
  //    resumed by recovery does, it stays active and needs somebody else to run it;
  //  - re-queueing a failed incremental job, and announcing a fetched one, when another job has
  //    its source: the write is refused, and the worker's hook does not run;
  //  - an exception in a worker or its hook, and one in a request, after which the process lives
  //    on and nobody does the rest: what they had in hand needs somebody else.
  ghost predicate Safe(s: State, l: Label)
    requires Enabled(s, l)
  {
    var jobs := s.table.jobs;
    match l
    case TryCancel(j) =>
      var r := s.calls[j].stage.refresh;
      r in s.table.queue ==>
        && (jobs[r].status.Running? ==> OwnedElse(s, r))
        && (jobs[r].status.Queued? ==> Behind(jobs, r) == {} || AttendedElse(s, r))
    case Requeue(w) => GivesUpSafely(s, w)
    case Announce(w) => GivesUpSafely(s, w)
    case WorkerRaises(w) =>
      var j := s.workers[w].job;
      if IsActive(jobs, j) then j in s.table.queue || OwnedBut(s, j, {w}, {})
      else Behind(jobs, j) == {} || AttendedBut(s, j, {w}, {})
    case CallRaises(c) =>
      var stage := s.calls[c].stage;
      if stage.Persisted? then IsActive(jobs, c) ==> c in s.table.queue || OwnedBut(s, c, {}, {c})
      else if stage.Reread? || stage.MustPromote? then
        Behind(jobs, stage.refresh) == {} || IsActive(jobs, stage.refresh) || AttendedBut(s, stage.refresh, {}, {c})
      else true
    case _ => true
  }

  ghost predicate GivesUpSafely(s: State, w: WorkerId)
    requires w in s.workers && s.workers[w].job in s.table.jobs
  {
    var j := s.workers[w].job;
    Taken(s.table.jobs, j) ==> Behind(s.table.jobs, j) == {} || AttendedBut(s, j, {w}, {})
  }

  // ---------------------------------------------------------------------------
  // Runs
  // ---------------------------------------------------------------------------

  const EMPTY: State := State(Table(map[], {}), map[], map[], Idle)

  // `states[i + 1]` is reached from `states[i]` by `labels[i]`.
  ghost predicate Run(states: seq<State>, labels: seq<Label>) {
    && |states| == |labels| + 1
    && forall i :: 0 <= i < |labels| ==> Enabled(states[i], labels[i]) && states[i + 1] == Next(states[i], labels[i])
  }
}
