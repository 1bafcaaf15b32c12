/**
  The index rebuild against the queue workers: "announce, then check" on both sides.

  A worker writes its job's row as `running` and then reads the maintenance lock, the latest
  rebuild group and that group's jobs. A rebuild takes the lock exclusively, creates its group
  and then looks for active jobs. Every read and write is a step of its own, any number of
  workers and rebuilds run, and any of them may crash between two steps.
*/
module RebuildProtocol {
  import opened Options
  import opened Jobs

  type JobId = nat
  type GroupId = nat
  type Process = nat
  type WorkerId = nat
  type SourceId = nat

  // ---------------------------------------------------------------------------
  // The derived rebuild state and the dispatch decision
  // ---------------------------------------------------------------------------

  datatype Mode = Exclusive | Shared

  datatype Group = Group(id: GroupId, taskCount: nat)

  datatype RebuildState =
    | NoRebuild
    | Preparing(total: nat)
    | Rebuilding(done: nat, total: nat)
    | Interrupted
    | Complete

  datatype Row = Row(status: Status, group: Option<GroupId>, source: SourceId, resummarize: bool)

  function InGroup(jobs: map<JobId, Row>, g: GroupId): set<JobId> {
    set j | j in jobs && jobs[j].group == Some(g)
  }

  function ActiveIn(jobs: map<JobId, Row>, g: GroupId): set<JobId> {
    set j | j in jobs && jobs[j].group == Some(g) && jobs[j].status.Active()
  }

  function TerminalIn(jobs: map<JobId, Row>, g: GroupId): set<JobId> {
    set j | j in jobs && jobs[j].group == Some(g) && jobs[j].status.Terminal()
  }

  // `_rebuild_state_and_group`, from what its three reads returned. The job list is only read
  // when the first two do not settle the answer.
  function Derive(lock: Option<Mode>, latest: Option<Group>, jobs: map<JobId, Row>): RebuildState {
    if lock == Some(Exclusive) then Preparing(if latest.Some? then latest.value.taskCount else 0)
    else if latest.None? then NoRebuild
    else
      var g := latest.value;
      if g.taskCount == 0 then Complete
      else if |ActiveIn(jobs, g.id)| > 0 then Rebuilding(|TerminalIn(jobs, g.id)|, g.taskCount)
      else if |InGroup(jobs, g.id)| < g.taskCount then Interrupted
      else Complete
  }

  datatype Verdict = Allow | RefusePreparing | RefuseInterrupted | CheckStamps

  // The rules of `dispatch_allowed` up to the stamp check.
  function Judge(group: Option<GroupId>, state: RebuildState, latest: Option<Group>): Verdict {
    if latest.Some? && group == Some(latest.value.id) && !state.Interrupted? then Allow
    else if state.Preparing? then RefusePreparing
    else if state.Interrupted? then RefuseInterrupted
    else CheckStamps
  }

  // ---------------------------------------------------------------------------
  // The protocol
  // ---------------------------------------------------------------------------

  // What a worker does with the job it took off the queue.
  datatype Work =
    | Fetched                                               // read the job row
    | Announced                                             // wrote `running`
    | Probed(lock: Option<Mode>)                            // read the lock
    | GroupRead(lock: Option<Mode>, latest: Option<Group>)  // read the latest rebuild group
    | Indexing                                              // was allowed; writes the stores until it ends
    | Refused                                               // writes `failed` next

  datatype Worker = Worker(job: JobId, work: Work)

  // A rebuild, from the moment it holds the lock.
  datatype Stage =
    | Locked
    | GroupMade(made: GroupId)
    | QueuedRead(listing: GroupId, found: bool)      // listed the queued jobs, not yet the running ones
    | Blocked(blocked: GroupId)                      // found active jobs: deletes its group next
    | Recreating(dropping: GroupId)                  // drops and recreates the stores
    | Enqueueing(filling: GroupId, persisted: nat)   // persists one job for each source
    | Unlocking                                      // releases the lock next
    | Abandoned                                      // raised where no handler releases the lock
  {
    function GroupOf(): Option<GroupId> {
      match this
      case GroupMade(g) => Some(g)
      case QueuedRead(g, _) => Some(g)
      case Blocked(g) => Some(g)
      case Recreating(g) => Some(g)
      case Enqueueing(g, _) => Some(g)
      case _ => None
    }

    // The job check came back empty, and the rebuild goes on.
    predicate Cleared() { Recreating? || Enqueueing? }
  }

  datatype State = State(
    jobs: map<JobId, Row>,
    groups: seq<Group>,               // the index-rebuild groups, oldest first
    holder: Option<Process>,          // who holds the lock exclusively
    sharers: set<Process>,            // who holds it in shared mode, to write a stamp
    workers: map<WorkerId, Worker>,   // two may be on one job, if it was queued twice
    rebuilds: map<Process, Stage>,
    finished: set<SourceId>           // the sources some job of which was done at some time
  )

  datatype Label =
    | NewJob(job: JobId, row: Row)           // a request, a webhook or the fleet loop
    | Requeue(job: JobId)                    // a manual retry, or a waiting job's promotion
    | Fetch(worker: WorkerId, job: JobId)
    | Announce(worker: WorkerId)
    | Probe(worker: WorkerId)
    | ReadGroup(worker: WorkerId)
    | Dispatch(worker: WorkerId, stampsOk: bool)   // reads the group's jobs and decides
    | End(worker: WorkerId, status: Status)
    | WorkerCrash(worker: WorkerId)
    | Supersede(job: JobId)                  // startup recovery writes a row it listed as done
    | TakeShared(process: Process)
    | DropShared(process: Process)
    | TakeLock(process: Process)
    | MakeGroup(process: Process, group: Group)
    | ListQueued(process: Process)
    | ListRunning(process: Process)
    | DeleteGroup(process: Process)
    | Recreated(process: Process, ok: bool)
    | PersistTask(process: Process, job: JobId, source: SourceId)
    | Finished(process: Process)
    | Abandon(process: Process)              // any other exception, at any step
    | Release(process: Process)
    | RebuildCrash(process: Process)         // the process dies, and with it its lock connection

  function LockMode(s: State): Option<Mode> {
    if s.holder.Some? then Some(Exclusive) else if s.sharers != {} then Some(Shared) else None
  }

  function Latest(groups: seq<Group>): Option<Group> {
    if groups == [] then None else Some(groups[|groups| - 1])
  }

  function VerdictOf(s: State, w: WorkerId): Verdict
    requires w in s.workers && s.workers[w].work.GroupRead? && s.workers[w].job in s.jobs
  {
    var work := s.workers[w].work;
    Judge(s.jobs[s.workers[w].job].group, Derive(work.lock, work.latest, s.jobs), work.latest)
  }

  predicate AtWork(s: State, w: WorkerId) {
    w in s.workers && s.workers[w].job in s.jobs
  }

  predicate AtStage(s: State, p: Process, stage: Stage) {
    p in s.rebuilds && s.rebuilds[p] == stage
  }

  // A group id no group and no job has: ids are freshly drawn.
  predicate FreshId(s: State, g: GroupId) {
    (forall h :: h in s.groups ==> h.id != g) && (forall j :: j in s.jobs ==> s.jobs[j].group != Some(g))
  }

  // Job rows outside a rebuild never carry a rebuild's group.
  predicate Outside(s: State, group: Option<GroupId>) {
    forall h :: h in s.groups ==> Some(h.id) != group
  }

  function TaskCount(groups: seq<Group>, g: GroupId): nat {
    if groups == [] then 0
    else if groups[|groups| - 1].id == g then groups[|groups| - 1].taskCount
    else TaskCount(groups[..|groups| - 1], g)
  }

  function Without(groups: seq<Group>, g: GroupId): seq<Group> {
    if groups == [] then []
    else if groups[|groups| - 1].id == g then Without(groups[..|groups| - 1], g)
    else Without(groups[..|groups| - 1], g) + [groups[|groups| - 1]]
  }

  predicate Enabled(s: State, l: Label) {
    match l
    case NewJob(j, row) => j !in s.jobs && (row.status.Queued? || row.status.Waiting?) && Outside(s, row.group)
    case Requeue(j) => j in s.jobs && (s.jobs[j].status.Waiting? || s.jobs[j].status.Terminal())
    case Fetch(w, j) => w !in s.workers && j in s.jobs && !s.jobs[j].status.Terminal()
    case Announce(w) => AtWork(s, w) && s.workers[w].work.Fetched?
    case Probe(w) => AtWork(s, w) && s.workers[w].work.Announced?
    case ReadGroup(w) => AtWork(s, w) && s.workers[w].work.Probed?
    case Dispatch(w, _) => AtWork(s, w) && s.workers[w].work.GroupRead?
    case End(w, status) =>
      AtWork(s, w) && (s.workers[w].work.Indexing? || s.workers[w].work.Refused?) &&
        (status.Queued? || status.Terminal())
    case WorkerCrash(w) => w in s.workers
    case Supersede(j) => j in s.jobs && !s.jobs[j].status.Waiting? && s.jobs[j].source in s.finished &&
      !s.jobs[j].resummarize
    case TakeShared(p) => s.holder.None? && p !in s.sharers
    case DropShared(p) => p in s.sharers
    case TakeLock(p) => s.holder.None? && s.sharers == {} && p !in s.rebuilds
    case MakeGroup(p, group) => AtStage(s, p, Locked) && FreshId(s, group.id)
    case ListQueued(p) => p in s.rebuilds && s.rebuilds[p].GroupMade?
    case ListRunning(p) => p in s.rebuilds && s.rebuilds[p].QueuedRead?
    case DeleteGroup(p) => p in s.rebuilds && s.rebuilds[p].Blocked?
    case Recreated(p, _) => p in s.rebuilds && s.rebuilds[p].Recreating?
    case PersistTask(p, j, _) =>
      p in s.rebuilds && s.rebuilds[p].Enqueueing? && j !in s.jobs &&
      s.rebuilds[p].persisted < TaskCount(s.groups, s.rebuilds[p].filling)
    case Finished(p) =>
      p in s.rebuilds && s.rebuilds[p].Enqueueing? &&
      s.rebuilds[p].persisted >= TaskCount(s.groups, s.rebuilds[p].filling)
    case Abandon(p) => p in s.rebuilds
    case Release(p) => AtStage(s, p, Unlocking)
    case RebuildCrash(p) => p in s.rebuilds
  }

  function SetStatus(s: State, j: JobId, status: Status): State
    requires j in s.jobs
  {
    s.(jobs := s.jobs[j := s.jobs[j].(status := status)])
  }

  function SetWork(s: State, w: WorkerId, work: Work): State
    requires w in s.workers
  {
    s.(workers := s.workers[w := s.workers[w].(work := work)])
  }

  function Finish(s: State, j: JobId, status: Status): State
    requires j in s.jobs
  {
    SetStatus(s, j, status).(finished := s.finished + if status.Done? then {s.jobs[j].source} else {})
  }

  function SetStage(s: State, p: Process, stage: Stage): State {
    s.(rebuilds := s.rebuilds[p := stage])
  }

  function Unlock(s: State, p: Process): State {
    s.(rebuilds := s.rebuilds - {p}, holder := None)
  }

  predicate AnyWith(jobs: map<JobId, Row>, status: Status) {
    exists j :: j in jobs && jobs[j].status == status
  }

  ghost function Next(s: State, l: Label): State
    requires Enabled(s, l)
  {
    match l
    case NewJob(j, row) => s.(jobs := s.jobs[j := row])
    case Requeue(j) => SetStatus(s, j, Queued)
    case Fetch(w, j) => s.(workers := s.workers[w := Worker(j, Fetched)])
    case Announce(w) => SetWork(SetStatus(s, s.workers[w].job, Running), w, Announced)
    case Probe(w) => SetWork(s, w, Probed(LockMode(s)))
    case ReadGroup(w) => SetWork(s, w, GroupRead(s.workers[w].work.lock, Latest(s.groups)))
    case Dispatch(w, stampsOk) =>
      var v := VerdictOf(s, w);
      SetWork(s, w, if v.Allow? || (v.CheckStamps? && stampsOk) then Indexing else Refused)
    case End(w, status) =>
      Finish(s, s.workers[w].job, if s.workers[w].work.Refused? then Failed else status).(workers := s.workers - {w})
    case WorkerCrash(w) => s.(workers := s.workers - {w})
    case Supersede(j) => Finish(s, j, Done)
    case TakeShared(p) => s.(sharers := s.sharers + {p})
    case DropShared(p) => s.(sharers := s.sharers - {p})
    case TakeLock(p) => SetStage(s, p, Locked).(holder := Some(p))
    case MakeGroup(p, group) => SetStage(s, p, GroupMade(group.id)).(groups := s.groups + [group])
    case ListQueued(p) => SetStage(s, p, QueuedRead(s.rebuilds[p].made, AnyWith(s.jobs, Queued)))
    case ListRunning(p) =>
      var g := s.rebuilds[p].listing;
      SetStage(s, p, if s.rebuilds[p].found || AnyWith(s.jobs, Running) then Blocked(g) else Recreating(g))
    case DeleteGroup(p) => SetStage(s, p, Unlocking).(groups := Without(s.groups, s.rebuilds[p].blocked))
    case Recreated(p, ok) => SetStage(s, p, if ok then Enqueueing(s.rebuilds[p].dropping, 0) else Unlocking)
    case PersistTask(p, j, source) =>
      var g := s.rebuilds[p].filling;
      SetStage(s, p, Enqueueing(g, s.rebuilds[p].persisted + 1))
        .(jobs := s.jobs[j := Row(Queued, Some(g), source, false)])
    case Finished(p) => SetStage(s, p, Unlocking)
    case Abandon(p) => SetStage(s, p, Abandoned)
    case Release(p) => Unlock(s, p)
    case RebuildCrash(p) => Unlock(s, p)
  }

  // The worker has announced the job.
  predicate On(s: State, w: WorkerId, j: JobId) {
    w in s.workers && s.workers[w].job == j && !s.workers[w].work.Fetched?
  }

  // Safe are recovery on a job nobody is working on, and the end of a job nobody else works on.
  predicate Safe(s: State, l: Label) {
    && (l.Supersede? ==> forall w :: w in s.workers ==> !On(s, w, l.job))
    && (l.End? && l.worker in s.workers ==>
         forall w :: w in s.workers && w != l.worker ==> !On(s, w, s.workers[l.worker].job))
  }

  // `states[i + 1]` is reached from `states[i]` by `labels[i]`.
  ghost predicate Run(states: seq<State>, labels: seq<Label>) {
    && |states| == |labels| + 1
    && forall i :: 0 <= i < |labels| ==> Enabled(states[i], labels[i]) && states[i + 1] == Next(states[i], labels[i])
  }

  ghost predicate AllSafe(states: seq<State>, labels: seq<Label>)
    requires |states| == |labels| + 1
  {
    forall i :: 0 <= i < |labels| ==> Safe(states[i], labels[i])
  }

  // ---------------------------------------------------------------------------
  // What every step keeps
  // ---------------------------------------------------------------------------

  ghost predicate LockKept(s: State) {
    && (forall p :: p in s.rebuilds ==> s.holder == Some(p))
    && (s.holder.Some? ==> s.sharers == {})
  }

  // A worker past its announcement has a row that says `running`.
  ghost predicate RowsKept(s: State) {
    forall w :: w in s.workers ==>
      s.workers[w].job in s.jobs && (!s.workers[w].work.Fetched? ==> s.jobs[s.workers[w].job].status == Running)
  }

  ghost predicate DistinctIds(groups: seq<Group>) {
    forall i, k :: 0 <= i < k < |groups| ==> groups[i].id != groups[k].id
  }

  // A rebuild's group is the latest one for as long as the rebuild goes on, and its jobs are
  // exactly those its fifth step has persisted.
  ghost predicate GroupsKept(s: State) {
    && DistinctIds(s.groups)
    && forall p :: p in s.rebuilds ==> StageKept(s, s.rebuilds[p])
  }

  ghost predicate StageKept(s: State, stage: Stage) {
    stage.GroupOf().Some? ==>
      var g := stage.GroupOf().value;
      && s.groups != []
      && s.groups[|s.groups| - 1].id == g
      && |InGroup(s.jobs, g)| == (if stage.Enqueueing? then stage.persisted else 0)
      && (stage.Enqueueing? ==> stage.persisted <= TaskCount(s.groups, g))
  }

  // What a worker may be up to once the job check has come back empty.
  predicate Harmless(s: State, w: WorkerId, g: GroupId)
    requires AtWork(s, w)
  {
    match s.workers[w].work
    case Fetched => true
    case Announced => true
    case Probed(lock) => lock == Some(Exclusive)
    case GroupRead(lock, latest) => lock == Some(Exclusive) && latest.Some? && latest.value.id == g
    case Indexing => s.jobs[s.workers[w].job].group == Some(g)
    case Refused => true
  }

  ghost predicate AllHarmless(s: State)
    requires RowsKept(s)
  {
    forall p :: p in s.rebuilds && s.rebuilds[p].Cleared() ==>
      forall w :: w in s.workers ==> Harmless(s, w, s.rebuilds[p].GroupOf().value)
  }

  ghost predicate Inv(s: State) {
    LockKept(s) && RowsKept(s) && GroupsKept(s) && AllHarmless(s)
  }

  lemma SameGroups(a: map<JobId, Row>, b: map<JobId, Row>, g: GroupId)
    requires forall j :: j in a ==> j in b && b[j].group == a[j].group
    requires forall j :: j in b && j !in a ==> b[j].group != Some(g)
    ensures InGroup(a, g) == InGroup(b, g)
  {
  }

  lemma {:induction false} WithoutKeeps(groups: seq<Group>, g: GroupId)
    ensures forall h :: h in Without(groups, g) <==> h in groups && h.id != g
    ensures DistinctIds(groups) ==> DistinctIds(Without(groups, g))
  {
    if groups != [] {
      var front, last := groups[..|groups| - 1], groups[|groups| - 1];
      assert groups == front + [last];
      WithoutKeeps(front, g);
      if DistinctIds(groups) && last.id != g {
        var kept := Without(front, g);
        forall i | 0 <= i < |kept|
          ensures kept[i].id != last.id
        {
          assert kept[i] in kept;
        }
      }
    }
  }

  lemma LockStep(s: State, l: Label)
    requires Enabled(s, l) && LockKept(s)
    ensures LockKept(Next(s, l))
  {
  }

  lemma RowsStep(s: State, l: Label)
    requires Enabled(s, l) && RowsKept(s)
    ensures RowsKept(Next(s, l)) <==> Safe(s, l)
  {
    var s' := Next(s, l);
    if l.Supersede? || l.End? {
      var j := if l.Supersede? then l.job else s.workers[l.worker].job;
      assert forall w :: w in s'.workers ==> w in s.workers && s'.workers[w] == s.workers[w];
      assert Safe(s, l) <==> forall w :: w in s'.workers ==> !On(s, w, j);
      assert s'.jobs[j].status != Running;
    }
  }

  lemma StageStep(s: State, l: Label)
    requires Enabled(s, l) && LockKept(s) && GroupsKept(s)
    requires !l.MakeGroup? && !l.DeleteGroup? && !l.PersistTask?
    ensures Next(s, l).groups == s.groups
    ensures GroupsKept(Next(s, l))
  {
    var s' := Next(s, l);
    forall p | p in s'.rebuilds
      ensures StageKept(s', s'.rebuilds[p])
    {
      var stage := s'.rebuilds[p];
      if stage.GroupOf().Some? {
        var g := stage.GroupOf().value;
        assert p in s.rebuilds && s.rebuilds[p].GroupOf() == Some(g) && StageKept(s, s.rebuilds[p]);
        assert s.groups[|s.groups| - 1] in s.groups;
        SameGroups(s.jobs, s'.jobs, g);
      }
    }
  }

  lemma MakeGroupStep(s: State, l: Label)
    requires Enabled(s, l) && LockKept(s) && GroupsKept(s) && l.MakeGroup?
    ensures GroupsKept(Next(s, l))
  {
    var s' := Next(s, l);
    assert forall i :: 0 <= i < |s.groups| ==> s.groups[i] in s.groups;
    assert InGroup(s'.jobs, l.group.id) == {};
    assert forall p :: p in s'.rebuilds ==> p == l.process;
  }

  lemma DeleteGroupStep(s: State, l: Label)
    requires Enabled(s, l) && LockKept(s) && GroupsKept(s) && l.DeleteGroup?
    ensures GroupsKept(Next(s, l))
  {
    WithoutKeeps(s.groups, s.rebuilds[l.process].blocked);
    assert forall p :: p in Next(s, l).rebuilds ==> p == l.process;
  }

  lemma PersistTaskStep(s: State, l: Label)
    requires Enabled(s, l) && LockKept(s) && GroupsKept(s) && l.PersistTask?
    ensures GroupsKept(Next(s, l))
  {
    var s', g := Next(s, l), s.rebuilds[l.process].filling;
    assert StageKept(s, s.rebuilds[l.process]);
    assert InGroup(s'.jobs, g) == InGroup(s.jobs, g) + {l.job};
    assert forall p :: p in s'.rebuilds ==> p == l.process;
  }

  lemma HarmlessStep(s: State, l: Label)
    requires Enabled(s, l) && Inv(s) && RowsKept(Next(s, l))
    ensures AllHarmless(Next(s, l))
  {
    var s' := Next(s, l);
    forall p, w | p in s'.rebuilds && s'.rebuilds[p].Cleared() && w in s'.workers
      ensures Harmless(s', w, s'.rebuilds[p].GroupOf().value)
    {
      assert p in s.rebuilds && StageKept(s, s.rebuilds[p]);
      if l.ListRunning? {
        assert s.workers[w].work.Fetched?;
      } else {
        assert s.rebuilds[p].Cleared();
        StillCleared(s, l, p);
        HarmlessWorker(s, l, p, w);
      }
    }
  }

  lemma StillCleared(s: State, l: Label, p: Process)
    requires Enabled(s, l) && LockKept(s) && !l.ListRunning?
    requires p in s.rebuilds && s.rebuilds[p].Cleared()
    requires p in Next(s, l).rebuilds && Next(s, l).rebuilds[p].Cleared()
    ensures Next(s, l).rebuilds[p].GroupOf() == s.rebuilds[p].GroupOf()
  {
  }

  lemma HarmlessWorker(s: State, l: Label, p: Process, w: WorkerId)
    requires Enabled(s, l) && Inv(s) && RowsKept(Next(s, l))
    requires p in s.rebuilds && s.rebuilds[p].Cleared()
    requires w in Next(s, l).workers
    ensures Harmless(Next(s, l), w, s.rebuilds[p].GroupOf().value)
  {
    var g := s.rebuilds[p].GroupOf().value;
    assert StageKept(s, s.rebuilds[p]);
    if w in s.workers {
      assert Harmless(s, w, g);
      HarmlessGoesOn(s, l, w, g);
    }
  }

  lemma HarmlessGoesOn(s: State, l: Label, w: WorkerId, g: GroupId)
    requires Enabled(s, l) && LockMode(s) == Some(Exclusive) && s.groups != [] && s.groups[|s.groups| - 1].id == g
    requires AtWork(s, w) && Harmless(s, w, g) && AtWork(Next(s, l), w)
    ensures Harmless(Next(s, l), w, g)
  {
  }

  lemma GroupsStep(s: State, l: Label)
    requires Enabled(s, l) && LockKept(s) && GroupsKept(s)
    ensures LockKept(Next(s, l)) && GroupsKept(Next(s, l))
  {
    LockStep(s, l);
    if l.MakeGroup? {
      MakeGroupStep(s, l);
    } else if l.DeleteGroup? {
      DeleteGroupStep(s, l);
    } else if l.PersistTask? {
      PersistTaskStep(s, l);
    } else {
      StageStep(s, l);
    }
  }

  lemma StepKeepsInv(s: State, l: Label)
    requires Enabled(s, l) && Inv(s) && Safe(s, l)
    ensures Inv(Next(s, l))
  {
    GroupsStep(s, l);
    RowsStep(s, l);
    HarmlessStep(s, l);
  }

  // ---------------------------------------------------------------------------
  // Mutual exclusion, over whole runs
  // ---------------------------------------------------------------------------

  // No store is written by a job while a rebuild recreates it, no stamp is written while a
  // rebuild holds the lock, and from then on only the rebuild's own jobs index.
  ghost predicate Exclusion(s: State) {
    forall p :: p in s.rebuilds ==>
      && s.sharers == {}
      && (forall q :: q in s.rebuilds ==> q == p)
      && (s.rebuilds[p].Recreating? ==> forall w :: w in s.workers ==> !s.workers[w].work.Indexing?)
      && (s.rebuilds[p].Enqueueing? ==> forall w :: w in s.workers && s.workers[w].work.Indexing? ==>
           AtWork(s, w) && s.jobs[s.workers[w].job].group == Some(s.rebuilds[p].filling))
  }

  lemma InvExcludes(s: State)
    requires Inv(s)
    ensures Exclusion(s)
  {
    forall p, w | p in s.rebuilds && s.rebuilds[p].Cleared() && w in s.workers && s.workers[w].work.Indexing?
      ensures s.rebuilds[p].Enqueueing? && s.jobs[s.workers[w].job].group == Some(s.rebuilds[p].filling)
    {
      assert Harmless(s, w, s.rebuilds[p].GroupOf().value) && StageKept(s, s.rebuilds[p]);
      assert s.workers[w].job in InGroup(s.jobs, s.rebuilds[p].GroupOf().value);
    }
  }

  // Nothing has happened yet.
  const EMPTY: State := State(map[], [], None, {}, map[], map[], {})

  lemma EmptyIsFine()
    ensures Inv(EMPTY)
  {
  }

  lemma {:induction false} RunKeepsInv(states: seq<State>, labels: seq<Label>, i: nat)
    requires Run(states, labels) && Inv(states[0]) && AllSafe(states, labels)
    requires i < |states|
    ensures Inv(states[i])
  {
    if i > 0 {
      RunKeepsInv(states, labels, i - 1);
      StepKeepsInv(states[i - 1], labels[i - 1]);
    }
  }

  lemma MutualExclusion(states: seq<State>, labels: seq<Label>)
    requires Run(states, labels) && Inv(states[0]) && AllSafe(states, labels)
    ensures forall i :: 0 <= i < |states| ==> Exclusion(states[i])
  {
    forall i | 0 <= i < |states|
      ensures Exclusion(states[i])
    {
      RunKeepsInv(states, labels, i);
      InvExcludes(states[i]);
    }
  }

  lemma Then(s: State, l: Label, states: seq<State>, labels: seq<Label>)
    requires Run(states, labels) && Enabled(s, l) && states[0] == Next(s, l)
    ensures Run([s] + states, [l] + labels)
  {
    forall i | 0 <= i < |labels| + 1
      ensures Enabled(([s] + states)[i], ([l] + labels)[i])
      ensures ([s] + states)[i + 1] == Next(([s] + states)[i], ([l] + labels)[i])
    {
      if i > 0 {
        assert ([s] + states)[i] == states[i - 1] && ([l] + labels)[i] == labels[i - 1];
      }
    }
  }

  lemma IdleRowsPassTheListing(s: State, p: Process, g: GroupId) returns (states: seq<State>, labels: seq<Label>)
    requires AtStage(s, p, GroupMade(g)) && forall i :: i in s.jobs ==> !s.jobs[i].status.Active()
    ensures Run(states, labels) && states[0] == s && states[|labels|] == SetStage(s, p, Recreating(g))
  {
    var s1 := SetStage(s, p, QueuedRead(g, false));
    var s2 := SetStage(s1, p, Recreating(g));
    assert !AnyWith(s.jobs, Queued) && !AnyWith(s.jobs, Running);
    Then(s1, ListRunning(p), [s2], []);
    states, labels := [s1] + [s2], [ListRunning(p)] + [];
    Then(s, ListQueued(p), states, labels);
    states, labels := [s] + states, [ListQueued(p)] + labels;
    assert states[2] == SetStage(s, p, Recreating(g));
  }

  // A rebuild that meets no active row clears its job check.
  lemma IdleRowsPassTheCheck(s: State, p: Process, group: Group) returns (states: seq<State>, labels: seq<Label>)
    requires s.holder.None? && s.sharers == {} && p !in s.rebuilds && FreshId(s, group.id)
    requires forall i :: i in s.jobs ==> !s.jobs[i].status.Active()
    ensures Run(states, labels) && states[0] == s
    ensures states[|labels|] == s.(groups := s.groups + [group], holder := Some(p),
                                   rebuilds := s.rebuilds[p := Recreating(group.id)])
  {
    var s1 := SetStage(s, p, Locked).(holder := Some(p));
    assert FreshId(s1, group.id);
    var s2 := SetStage(s1, p, GroupMade(group.id)).(groups := s.groups + [group]);
    states, labels := IdleRowsPassTheListing(s2, p, group.id);
    Then(s1, MakeGroup(p, group), states, labels);
    states, labels := [s1] + states, [MakeGroup(p, group)] + labels;
    Then(s, TakeLock(p), states, labels);
    states, labels := [s] + states, [TakeLock(p)] + labels;
    assert s2.rebuilds[p := Recreating(group.id)] == s.rebuilds[p := Recreating(group.id)];
  }

  // Once the row of an indexing job no longer says so, the job check of a rebuild does not see it.
  lemma UnseenJobIsOverrun(s: State, l: Label, w: WorkerId, p: Process, group: Group)
    returns (states: seq<State>, labels: seq<Label>)
    requires Enabled(s, l) && (l.Supersede? || l.End?)
    requires p !in s.rebuilds && s.holder.None? && s.sharers == {} && FreshId(s, group.id)
    requires w in Next(s, l).workers && Next(s, l).workers[w].work.Indexing?
    requires forall i :: i in Next(s, l).jobs ==> !Next(s, l).jobs[i].status.Active()
    ensures labels != [] && labels[0] == l
    ensures Run(states, labels) && states[0] == s && !Exclusion(states[|labels|])
  {
    states, labels := IdleRowsPassTheCheck(Next(s, l), p, group);
    Then(s, l, states, labels);
    var last := states[|labels|];
    states, labels := [s] + states, [l] + labels;
    assert last.rebuilds[p].Recreating? && last.workers[w].work.Indexing?;
  }

  // Without `Safe` the exclusion fails. Recovery writes the row of a job that is indexing as done,
  // because its source was done before.
  lemma LiveSupersedeBreaksExclusion(s: State, w: WorkerId, p: Process, group: Group)
    returns (states: seq<State>, labels: seq<Label>)
    requires Inv(s) && s.holder.None? && s.sharers == {} && FreshId(s, group.id)
    requires w in s.workers && s.workers[w].work.Indexing?
    requires s.jobs[s.workers[w].job].source in s.finished && !s.jobs[s.workers[w].job].resummarize
    requires forall i :: i in s.jobs && i != s.workers[w].job ==> !s.jobs[i].status.Active()
    ensures labels != [] && labels[0] == Supersede(s.workers[w].job)
    ensures Run(states, labels) && states[0] == s && !Safe(s, labels[0]) && !Exclusion(states[|labels|])
  {
    states, labels := UnseenJobIsOverrun(s, Supersede(s.workers[w].job), w, p, group);
    assert On(s, w, s.workers[w].job);
  }

  // Or a job that recovery queued again runs twice, and one of the two ends.
  lemma SecondRunBreaksExclusion(s: State, w: WorkerId, v: WorkerId, p: Process, group: Group)
    returns (states: seq<State>, labels: seq<Label>)
    requires Inv(s) && s.holder.None? && s.sharers == {} && FreshId(s, group.id)
    requires w in s.workers && v in s.workers && w != v && s.workers[w].job == s.workers[v].job
    requires s.workers[w].work.Indexing? && s.workers[v].work.Indexing?
    requires forall i :: i in s.jobs && i != s.workers[w].job ==> !s.jobs[i].status.Active()
    ensures labels != [] && labels[0] == End(v, Done)
    ensures Run(states, labels) && states[0] == s && !Safe(s, labels[0]) && !Exclusion(states[|labels|])
  {
    states, labels := UnseenJobIsOverrun(s, End(v, Done), w, p, group);
    assert On(s, w, s.workers[v].job);
  }

  // ---------------------------------------------------------------------------
  // What is reported after a rebuild, over whole runs
  // ---------------------------------------------------------------------------

  // No rebuild is at group `h` any more, and it left `n` of the group's jobs persisted.
  ghost predicate Settled(s: State, h: Group, n: nat) {
    && h in s.groups
    && |InGroup(s.jobs, h.id)| == n <= h.taskCount
    && forall p :: p in s.rebuilds ==> s.rebuilds[p].GroupOf() != Some(h.id)
  }

  // However a rebuild leaves its group behind, it leaves it settled.
  lemma RebuildSettles(s: State, l: Label, p: Process, h: Group)
    requires Enabled(s, l) && LockKept(s) && GroupsKept(s)
    requires p in s.rebuilds && s.rebuilds[p].GroupOf() == Some(h.id) && h in s.groups
    requires p in Next(s, l).rebuilds ==> Next(s, l).rebuilds[p].GroupOf() != Some(h.id)
    requires !l.DeleteGroup?
    ensures Settled(Next(s, l), h, |InGroup(s.jobs, h.id)|)
    ensures l.Finished? ==> Settled(Next(s, l), h, h.taskCount)
  {
    assert StageKept(s, s.rebuilds[p]);
    assert h == s.groups[|s.groups| - 1];
    assert forall q :: q in s.rebuilds ==> q == p;
    SameGroups(s.jobs, Next(s, l).jobs, h.id);
  }

  // No other rebuild, request, worker, crash or recovery changes what a settled group holds.
  lemma SettledStep(s: State, l: Label, h: Group, n: nat)
    requires Enabled(s, l) && LockKept(s) && GroupsKept(s) && Settled(s, h, n)
    ensures Settled(Next(s, l), h, n)
  {
    SettledRows(s, l, h, n);
    SettledGroup(s, l, h, n);
  }

  lemma SettledRows(s: State, l: Label, h: Group, n: nat)
    requires Enabled(s, l) && Settled(s, h, n)
    ensures |InGroup(Next(s, l).jobs, h.id)| == n
  {
    SameGroups(s.jobs, Next(s, l).jobs, h.id);
  }

  lemma SettledGroup(s: State, l: Label, h: Group, n: nat)
    requires Enabled(s, l) && GroupsKept(s) && Settled(s, h, n)
    ensures h in Next(s, l).groups
    ensures forall p :: p in Next(s, l).rebuilds ==> Next(s, l).rebuilds[p].GroupOf() != Some(h.id)
  {
    if l.DeleteGroup? {
      WithoutKeeps(s.groups, s.rebuilds[l.process].blocked);
    }
  }

  lemma {:induction false} RunKeepsSettled(states: seq<State>, labels: seq<Label>, h: Group, n: nat, from: nat, i: nat)
    requires Run(states, labels) && LockKept(states[0]) && GroupsKept(states[0])
    requires from <= i < |states| && Settled(states[from], h, n)
    ensures Settled(states[i], h, n)
  {
    if i > from {
      RunKeepsSettled(states, labels, h, n, from, i - 1);
      RunKeepsGroups(states, labels, i - 1);
      SettledStep(states[i - 1], labels[i - 1], h, n);
    }
  }

  lemma {:induction false} RunKeepsGroups(states: seq<State>, labels: seq<Label>, i: nat)
    requires Run(states, labels) && LockKept(states[0]) && GroupsKept(states[0])
    requires i < |states|
    ensures LockKept(states[i]) && GroupsKept(states[i])
  {
    if i > 0 {
      RunKeepsGroups(states, labels, i - 1);
      GroupsStep(states[i - 1], labels[i - 1]);
    }
  }

  // No new rebuild makes its group from step `from` on and before state `to`.
  predicate NoneMade(labels: seq<Label>, from: nat, to: nat)
    requires to <= |labels|
  {
    forall i :: from <= i < to ==> !labels[i].MakeGroup?
  }

  // Step `i` is the one in which the rebuild at `p` leaves its group `h` behind.
  ghost predicate Leaves(states: seq<State>, labels: seq<Label>, i: nat, p: Process, h: Group)
    requires Run(states, labels) && i < |labels|
  {
    && p in states[i].rebuilds && states[i].rebuilds[p].GroupOf() == Some(h.id) && h in states[i].groups
    && (p in states[i + 1].rebuilds ==> states[i + 1].rebuilds[p].GroupOf() != Some(h.id))
    && !labels[i].DeleteGroup?
  }

  lemma LatestStep(s: State, l: Label, h: Group, n: nat)
    requires Enabled(s, l) && LockKept(s) && GroupsKept(s) && Settled(s, h, n) && !l.MakeGroup?
    requires Latest(s.groups) == Some(h)
    ensures Latest(Next(s, l).groups) == Some(h)
  {
    assert forall q :: q in s.rebuilds ==> StageKept(s, s.rebuilds[q]);
  }

  // The group a rebuild left stays the latest one until another rebuild makes its own.
  lemma {:induction false} LatestStays(states: seq<State>, labels: seq<Label>, i: nat, p: Process, h: Group, k: nat)
    requires Run(states, labels) && LockKept(states[0]) && GroupsKept(states[0])
    requires i < |labels| && i < k < |states| && Leaves(states, labels, i, p, h)
    requires NoneMade(labels, i + 1, k)
    ensures Latest(states[k].groups) == Some(h)
    ensures Settled(states[k], h, |InGroup(states[i].jobs, h.id)|)
    decreases k
  {
    RunKeepsGroups(states, labels, k - 1);
    if k == i + 1 {
      assert StageKept(states[i], states[i].rebuilds[p]);
      RebuildSettles(states[i], labels[i], p, h);
    } else {
      LatestStays(states, labels, i, p, h, k - 1);
      SettledStep(states[k - 1], labels[k - 1], h, |InGroup(states[i].jobs, h.id)|);
      LatestStep(states[k - 1], labels[k - 1], h, |InGroup(states[i].jobs, h.id)|);
    }
  }

  // A rebuild that leaves in step `i` stops short of its jobs.
  ghost predicate Short(states: seq<State>, i: nat, h: Group)
    requires i < |states|
  {
    |InGroup(states[i].jobs, h.id)| < h.taskCount
  }

  /** What is reported after a rebuild left, from three reads in three states, until another
      rebuild has made its group: "interrupted" exactly if the rebuild stopped short and its jobs
      are over, "complete" exactly if it did not and they are over, and "rebuilding" while any of
      them is active. It is never reported as none. */
  lemma RebuildIsReported(
    states: seq<State>, labels: seq<Label>, i: nat, p: Process, h: Group, a: nat, b: nat, c: nat)
    requires Run(states, labels) && LockKept(states[0]) && GroupsKept(states[0])
    requires i < |labels| && Leaves(states, labels, i, p, h)
    requires i < a <= b <= c < |states| && NoneMade(labels, i + 1, b)
    ensures
      var idle := ActiveIn(states[c].jobs, h.id) == {};
      var held := LockMode(states[a]) == Some(Exclusive);
      var r := Derive(LockMode(states[a]), Latest(states[b].groups), states[c].jobs);
      && (labels[i].Finished? ==> !Short(states, i, h))
      && (r.Preparing? <==> held)
      && (r.Rebuilding? <==> !held && !idle)
      && (r.Interrupted? <==> !held && idle && Short(states, i, h))
      && (r.Complete? <==> !held && idle && !Short(states, i, h))
  {
    LatestStays(states, labels, i, p, h, b);
    RunKeepsGroups(states, labels, i);
    RebuildSettles(states[i], labels[i], p, h);
    RunKeepsSettled(states, labels, h, |InGroup(states[i].jobs, h.id)|, i + 1, c);
    assert ActiveIn(states[c].jobs, h.id) <= InGroup(states[c].jobs, h.id);
    if h.taskCount == 0 {
      assert InGroup(states[c].jobs, h.id) == {};
    }
  }
}
