/**
  What a rebuild gets done: that it leaves all of its jobs or none, by how it ends, and that it does
  go all the way when nothing is in its way.
*/
module RebuildRun {
  import opened Options
  import opened Jobs
  import opened RebuildProtocol
  import opened RebuildDispatch

  // ---------------------------------------------------------------------------
  // How a rebuild leaves its group
  // ---------------------------------------------------------------------------

  // The step breaks the rebuild at `p` off.
  predicate BreaksOff(l: Label, p: Process) {
    l == Recreated(p, false) || l == Abandon(p) || l == RebuildCrash(p)
  }

  lemma LeavesInFull(s: State, l: Label, p: Process, h: Group)
    requires Enabled(s, l) && LockKept(s) && GroupsKept(s) && h in s.groups
    requires p in s.rebuilds && s.rebuilds[p].GroupOf() == Some(h.id) && !BreaksOff(l, p) && !l.DeleteGroup?
    requires p in Next(s, l).rebuilds ==> Next(s, l).rebuilds[p].GroupOf() != Some(h.id)
    ensures |InGroup(s.jobs, h.id)| == h.taskCount
  {
    assert StageKept(s, s.rebuilds[p]);
    assert forall q :: q in s.rebuilds ==> q == p;
    TaskCountOf(s.groups, h);
  }

  lemma {:induction false} TaskCountOf(groups: seq<Group>, h: Group)
    requires DistinctIds(groups) && h in groups
    ensures TaskCount(groups, h.id) == h.taskCount
  {
    var front, last := groups[..|groups| - 1], groups[|groups| - 1];
    assert groups == front + [last];
    if last != h {
      var i :| 0 <= i < |front| && front[i] == h;
      assert groups[i].id != last.id;
      TaskCountOf(front, h);
    }
  }

  /** A rebuild that leaves its group without deleting it or breaking off has persisted a job for each of
      its sources, and the group keeps them in every later state. */
  lemma FinishedInFull(states: seq<State>, labels: seq<Label>, i: nat, p: Process, h: Group, k: nat)
    requires Run(states, labels) && LockKept(states[0]) && GroupsKept(states[0])
    requires i < |labels| && i < k < |states| && Leaves(states, labels, i, p, h) && !BreaksOff(labels[i], p)
    ensures |InGroup(states[k].jobs, h.id)| == h.taskCount
  {
    RunKeepsGroups(states, labels, i);
    LeavesInFull(states[i], labels[i], p, h);
    RebuildSettles(states[i], labels[i], p, h);
    RunKeepsSettled(states, labels, h, h.taskCount, i + 1, k);
  }

  lemma FailsEmpty(s: State, p: Process, h: Group)
    requires Enabled(s, Recreated(p, false)) && GroupsKept(s) && s.rebuilds[p].GroupOf() == Some(h.id)
    ensures |InGroup(s.jobs, h.id)| == 0
    ensures p in Next(s, Recreated(p, false)).rebuilds && Next(s, Recreated(p, false)).rebuilds[p].GroupOf().None?
  {
    assert StageKept(s, s.rebuilds[p]);
  }

  /** A rebuild that could not recreate the stores leaves its group with no job, in every later state. */
  lemma FailedLeavesNone(states: seq<State>, labels: seq<Label>, i: nat, p: Process, h: Group, k: nat)
    requires Run(states, labels) && LockKept(states[0]) && GroupsKept(states[0])
    requires i < |labels| && i < k < |states| && labels[i] == Recreated(p, false)
    requires h in states[i].groups && states[i].rebuilds[p].GroupOf() == Some(h.id)
    ensures InGroup(states[k].jobs, h.id) == {}
  {
    RunKeepsGroups(states, labels, i);
    FailsEmpty(states[i], p, h);
    RebuildSettles(states[i], labels[i], p, h);
    RunKeepsSettled(states, labels, h, 0, i + 1, k);
  }

  // ---------------------------------------------------------------------------
  // A rebuild that meets nobody
  // ---------------------------------------------------------------------------

  predicate Distinct(ids: seq<JobId>) {
    forall i, k :: 0 <= i < k < |ids| ==> ids[i] != ids[k]
  }

  // One queued job of the group for each of these ids.
  function WithJobs(jobs: map<JobId, Row>, ids: seq<JobId>, sources: seq<SourceId>, g: GroupId): map<JobId, Row>
    requires |sources| == |ids|
  {
    if ids == [] then jobs
    else
      var last := |ids| - 1;
      WithJobs(jobs, ids[..last], sources[..last], g)[ids[last] := Row(Queued, Some(g), sources[last], false)]
  }

  // What there is of a job among those persisted.
  lemma {:induction false} WithJobsAre(jobs: map<JobId, Row>, ids: seq<JobId>, sources: seq<SourceId>, g: GroupId)
    requires |sources| == |ids| && Distinct(ids) && forall i :: 0 <= i < |ids| ==> ids[i] !in jobs
    ensures var all := WithJobs(jobs, ids, sources, g);
            && (forall j :: j in all <==> j in jobs || j in ids)
            && (forall j :: j in jobs ==> all[j] == jobs[j])
            && (forall i :: 0 <= i < |ids| ==> ids[i] in all && all[ids[i]] == Row(Queued, Some(g), sources[i], false))
  {
    if ids != [] {
      var last := |ids| - 1;
      WithJobsAre(jobs, ids[..last], sources[..last], g);
      assert ids == ids[..last] + [ids[last]];
    }
  }

  // The state while a rebuild persists its jobs.
  function Filling(s: State, p: Process, h: Group, jobs: map<JobId, Row>, n: nat): State {
    s.(groups := s.groups + [h], holder := Some(p), rebuilds := s.rebuilds[p := Enqueueing(h.id, n)], jobs := jobs)
  }

  lemma {:induction false} TaskCountOfLast(groups: seq<Group>, h: Group)
    ensures TaskCount(groups + [h], h.id) == h.taskCount
  {
  }

  lemma PersistsOne(s: State, p: Process, h: Group, jobs: map<JobId, Row>, n: nat, j: JobId, source: SourceId)
    requires n < h.taskCount && j !in jobs
    ensures Enabled(Filling(s, p, h, jobs, n), PersistTask(p, j, source))
    ensures Next(Filling(s, p, h, jobs, n), PersistTask(p, j, source)) ==
            Filling(s, p, h, jobs[j := Row(Queued, Some(h.id), source, false)], n + 1)
  {
    TaskCountOfLast(s.groups, h);
    assert (s.groups + [h])[|s.groups|] == h;
  }

  // From the recreated stores on, up to `n` persisted jobs.
  lemma {:induction false} Persists(
    s: State, p: Process, h: Group, ids: seq<JobId>, sources: seq<SourceId>, n: nat,
    states0: seq<State>, labels0: seq<Label>) returns (states: seq<State>, labels: seq<Label>)
    requires |ids| == |sources| == h.taskCount && n <= |ids|
    requires Distinct(ids) && forall i :: 0 <= i < |ids| ==> ids[i] !in s.jobs
    requires Run(states0, labels0) && states0[|labels0|] == Filling(s, p, h, s.jobs, 0)
    ensures Run(states, labels) && states[0] == states0[0]
    ensures states[|labels|] == Filling(s, p, h, WithJobs(s.jobs, ids[..n], sources[..n], h.id), n)
  {
    if n == 0 {
      states, labels := states0, labels0;
    } else {
      states, labels := Persists(s, p, h, ids, sources, n - 1, states0, labels0);
      var jobs := WithJobs(s.jobs, ids[..n - 1], sources[..n - 1], h.id);
      WithJobsAre(s.jobs, ids[..n - 1], sources[..n - 1], h.id);
      PersistsOne(s, p, h, jobs, n - 1, ids[n - 1], sources[n - 1]);
      assert ids[..n][..n - 1] == ids[..n - 1] && sources[..n][..n - 1] == sources[..n - 1];
      var s' := Filling(s, p, h, WithJobs(s.jobs, ids[..n], sources[..n], h.id), n);
      Finally(states, labels, PersistTask(p, ids[n - 1], sources[n - 1]), s');
      states, labels := states + [s'], labels + [PersistTask(p, ids[n - 1], sources[n - 1])];
    }
  }

  lemma Recreates(s: State, p: Process, h: Group) returns (states: seq<State>, labels: seq<Label>)
    requires s.holder.None? && s.sharers == {} && p !in s.rebuilds && FreshId(s, h.id)
    requires forall i :: i in s.jobs ==> s.jobs[i].status != Queued && s.jobs[i].status != Running
    ensures Run(states, labels) && states[0] == s && states[|labels|] == Filling(s, p, h, s.jobs, 0)
  {
    states, labels := IdleRowsPassTheCheck(s, p, h);
    var s' := Filling(s, p, h, s.jobs, 0);
    assert Next(states[|labels|], Recreated(p, true)) == s';
    Finally(states, labels, Recreated(p, true), s');
    states, labels := states + [s'], labels + [Recreated(p, true)];
  }

  lemma Unlocks(s: State, p: Process, h: Group, jobs: map<JobId, Row>, states0: seq<State>, labels0: seq<Label>)
    returns (states: seq<State>, labels: seq<Label>)
    requires p !in s.rebuilds && s.holder.None? && Run(states0, labels0)
    requires states0[|labels0|] == Filling(s, p, h, jobs, h.taskCount)
    ensures Run(states, labels) && states[0] == states0[0]
    ensures states[|labels|] == s.(groups := s.groups + [h], jobs := jobs)
  {
    var s0 := Filling(s, p, h, jobs, h.taskCount);
    var s1 := SetStage(s0, p, Unlocking);
    var s2 := s.(groups := s.groups + [h], jobs := jobs);
    TaskCountOfLast(s.groups, h);
    assert s1.rebuilds - {p} == s.rebuilds;
    Finally(states0, labels0, Finished(p), s1);
    states, labels := states0 + [s1], labels0 + [Finished(p)];
    Finally(states, labels, Release(p), s2);
    states, labels := states + [s2], labels + [Release(p)];
  }

  /** From every state with no active job and the lock free, a rebuild can go all the way: it ends with
      the lock free, and with one queued job of its group for each source and no other change. */
  lemma RebuildGoesThrough(s: State, p: Process, h: Group, ids: seq<JobId>, sources: seq<SourceId>)
    returns (states: seq<State>, labels: seq<Label>)
    requires s.holder.None? && s.sharers == {} && p !in s.rebuilds && FreshId(s, h.id)
    requires forall i :: i in s.jobs ==> s.jobs[i].status != Queued && s.jobs[i].status != Running
    requires |ids| == |sources| == h.taskCount && Distinct(ids) && forall i :: 0 <= i < |ids| ==> ids[i] !in s.jobs
    ensures Run(states, labels) && states[0] == s
    ensures var s' := states[|labels|];
            && s' == s.(groups := s.groups + [h], jobs := s'.jobs)
            && (forall j :: j in s'.jobs <==> j in s.jobs || j in ids)
            && (forall j :: j in s.jobs ==> s'.jobs[j] == s.jobs[j])
            && (forall i :: 0 <= i < |ids| ==>
                 ids[i] in s'.jobs && s'.jobs[ids[i]] == Row(Queued, Some(h.id), sources[i], false))
  {
    states, labels := Recreates(s, p, h);
    states, labels := Persists(s, p, h, ids, sources, |ids|, states, labels);
    assert ids[..|ids|] == ids && sources[..|ids|] == sources;
    WithJobsAre(s.jobs, ids, sources, h.id);
    states, labels := Unlocks(s, p, h, WithJobs(s.jobs, ids, sources, h.id), states, labels);
  }

  // ---------------------------------------------------------------------------
  // A rebuild that meets an active job
  // ---------------------------------------------------------------------------

  lemma TakesLock(s: State, p: Process, h: Group)
    requires s.holder.None? && s.sharers == {} && p !in s.rebuilds && FreshId(s, h.id)
    ensures
      var s1 := s.(holder := Some(p), rebuilds := s.rebuilds[p := Locked]);
      var s2 := s.(holder := Some(p), rebuilds := s.rebuilds[p := GroupMade(h.id)], groups := s.groups + [h]);
      && Enabled(s, TakeLock(p)) && Next(s, TakeLock(p)) == s1
      && Enabled(s1, MakeGroup(p, h)) && Next(s1, MakeGroup(p, h)) == s2
  {
    assert FreshId(s.(holder := Some(p), rebuilds := s.rebuilds[p := Locked]), h.id);
  }

  lemma ListsActive(s: State, p: Process, h: Group)
    requires p in s.rebuilds && s.rebuilds[p] == GroupMade(h.id)
    requires AnyWith(s.jobs, Queued) || AnyWith(s.jobs, Running)
    ensures
      var s1 := s.(rebuilds := s.rebuilds[p := QueuedRead(h.id, AnyWith(s.jobs, Queued))]);
      var s2 := s.(rebuilds := s.rebuilds[p := Blocked(h.id)]);
      && Enabled(s, ListQueued(p)) && Next(s, ListQueued(p)) == s1
      && Enabled(s1, ListRunning(p)) && Next(s1, ListRunning(p)) == s2
  {
  }

  lemma FourSteps(states: seq<State>, labels: seq<Label>)
    requires |states| == 5 && |labels| == 4
    requires Enabled(states[0], labels[0]) && states[1] == Next(states[0], labels[0])
    requires Enabled(states[1], labels[1]) && states[2] == Next(states[1], labels[1])
    requires Enabled(states[2], labels[2]) && states[3] == Next(states[2], labels[2])
    requires Enabled(states[3], labels[3]) && states[4] == Next(states[3], labels[3])
    ensures Run(states, labels)
  {
  }

  lemma FindsActive(s: State, p: Process, h: Group) returns (states: seq<State>, labels: seq<Label>)
    requires s.holder.None? && s.sharers == {} && p !in s.rebuilds && FreshId(s, h.id)
    requires AnyWith(s.jobs, Queued) || AnyWith(s.jobs, Running)
    ensures Run(states, labels) && states[0] == s
    ensures labels == [TakeLock(p), MakeGroup(p, h), ListQueued(p), ListRunning(p)]
    ensures states[4] == s.(groups := s.groups + [h], holder := Some(p), rebuilds := s.rebuilds[p := Blocked(h.id)])
  {
    var s1 := s.(holder := Some(p), rebuilds := s.rebuilds[p := Locked]);
    var s2 := s.(holder := Some(p), rebuilds := s.rebuilds[p := GroupMade(h.id)], groups := s.groups + [h]);
    var s3 := s2.(rebuilds := s.rebuilds[p := QueuedRead(h.id, AnyWith(s.jobs, Queued))]);
    var s4 := s2.(rebuilds := s.rebuilds[p := Blocked(h.id)]);
    TakesLock(s, p, h);
    ListsActive(s2, p, h);
    states := [s, s1, s2, s3, s4];
    labels := [TakeLock(p), MakeGroup(p, h), ListQueued(p), ListRunning(p)];
    FourSteps(states, labels);
  }

  // The rebuild takes its group away and lets the lock go.
  lemma StepsBack(s: State, p: Process, h: Group)
    requires s.holder.None? && p !in s.rebuilds && FreshId(s, h.id)
    ensures
      var s4 := s.(groups := s.groups + [h], holder := Some(p), rebuilds := s.rebuilds[p := Blocked(h.id)]);
      var s5 := s.(holder := Some(p), rebuilds := s.rebuilds[p := Unlocking]);
      && Enabled(s4, DeleteGroup(p)) && Next(s4, DeleteGroup(p)) == s5
      && Enabled(s5, Release(p)) && Next(s5, Release(p)) == s
  {
    WithoutNew(s.groups, h);
    assert s.rebuilds[p := Unlocking] - {p} == s.rebuilds;
  }

  lemma {:induction false} WithoutNew(groups: seq<Group>, h: Group)
    requires forall g :: g in groups ==> g.id != h.id
    ensures Without(groups, h.id) == groups && Without(groups + [h], h.id) == groups
  {
    assert (groups + [h])[..|groups|] == groups;
    if groups != [] {
      assert groups == groups[..|groups| - 1] + [groups[|groups| - 1]];
      WithoutNew(groups[..|groups| - 1], h);
    }
  }

  /** From every state with an active job and the lock free, a rebuild that looks while nothing else moves
      stands back: it takes its group away and the lock with it, and nothing has changed. */
  lemma RebuildStandsBack(s: State, p: Process, h: Group) returns (states: seq<State>, labels: seq<Label>)
    requires s.holder.None? && s.sharers == {} && p !in s.rebuilds && FreshId(s, h.id)
    requires exists j :: j in s.jobs && (s.jobs[j].status == Queued || s.jobs[j].status == Running)
    ensures Run(states, labels) && states[0] == states[|labels|] == s
    ensures labels == [TakeLock(p), MakeGroup(p, h), ListQueued(p), ListRunning(p), DeleteGroup(p), Release(p)]
  {
    states, labels := FindsActive(s, p, h);
    var s5 := s.(holder := Some(p), rebuilds := s.rebuilds[p := Unlocking]);
    StepsBack(s, p, h);
    Finally(states, labels, DeleteGroup(p), s5);
    Finally(states + [s5], labels + [DeleteGroup(p)], Release(p), s);
    states, labels := states + [s5] + [s], labels + [DeleteGroup(p)] + [Release(p)];
  }

  // ---------------------------------------------------------------------------
  // Who keeps a rebuild out
  // ---------------------------------------------------------------------------

  // A rebuild that raised where nobody releases the lock.
  predicate Stuck(s: State, p: Process) {
    p in s.rebuilds && s.rebuilds[p].Abandoned? && s.holder == Some(p)
  }

  lemma StuckStep(s: State, l: Label, p: Process)
    requires Enabled(s, l) && LockKept(s)
    ensures LockKept(Next(s, l))
    ensures l == Abandon(p) || (Stuck(s, p) && l != RebuildCrash(p)) ==> Stuck(Next(s, l), p)
    ensures l == RebuildCrash(p) ==> Next(s, l).holder.None? && p !in Next(s, l).rebuilds
    ensures Stuck(s, p) ==> !l.TakeLock? && !l.TakeShared?
  {
    LockStep(s, l);
  }

  /** A rebuild that raised anywhere else than in the recreate step keeps the lock until its process
      dies: until then no other rebuild begins, and no stamp is written. */
  lemma {:induction false} AbandonKeepsTheLock(states: seq<State>, labels: seq<Label>, i: nat, p: Process, k: nat)
    requires Run(states, labels) && LockKept(states[0])
    requires i < |labels| && labels[i] == Abandon(p) && i < k < |states|
    requires forall n :: i < n < k ==> labels[n] != RebuildCrash(p)
    ensures LockKept(states[k]) && Stuck(states[k], p)
    ensures k < |labels| ==> !labels[k].TakeLock? && !labels[k].TakeShared?
  {
    if k == i + 1 {
      RunKeepsLock(states, labels, i);
    } else {
      AbandonKeepsTheLock(states, labels, i, p, k - 1);
    }
    StuckStep(states[k - 1], labels[k - 1], p);
    if k < |labels| {
      StuckStep(states[k], labels[k], p);
    }
  }

  lemma {:induction false} RunKeepsLock(states: seq<State>, labels: seq<Label>, i: nat)
    requires Run(states, labels) && LockKept(states[0]) && i < |states|
    ensures LockKept(states[i])
  {
    if i > 0 {
      RunKeepsLock(states, labels, i - 1);
      LockStep(states[i - 1], labels[i - 1]);
    }
  }

  lemma SharerStep(s: State, l: Label, p: Process)
    requires Enabled(s, l) && LockKept(s)
    ensures p in Next(s, l).sharers <==> l == TakeShared(p) || (p in s.sharers && l != DropShared(p))
    ensures p in s.sharers ==> !l.TakeLock?
  {
  }

  /** While a process holds the lock in shared mode to write a stamp, no rebuild begins. */
  lemma {:induction false} SharerKeepsRebuildsOut(
    states: seq<State>, labels: seq<Label>, i: nat, p: Process, k: nat)
    requires Run(states, labels) && LockKept(states[0])
    requires i < |labels| && labels[i] == TakeShared(p) && i < k < |states|
    requires forall n :: i < n < k ==> labels[n] != DropShared(p)
    ensures p in states[k].sharers && states[k].holder.None?
    ensures k < |labels| ==> !labels[k].TakeLock?
  {
    if k > i + 1 {
      SharerKeepsRebuildsOut(states, labels, i, p, k - 1);
    }
    RunKeepsLock(states, labels, k - 1);
    RunKeepsLock(states, labels, k);
    SharerStep(states[k - 1], labels[k - 1], p);
    if k < |labels| {
      SharerStep(states[k], labels[k], p);
    }
  }
}
