/**
  Which jobs are refused after a rebuild, over whole runs: as long as no other rebuild has made its
  group, and by what the worker had read of the groups before it decides.
*/
module RebuildDispatch {
  import opened Options
  import opened Jobs
  import opened RebuildProtocol

  // ---------------------------------------------------------------------------
  // One dispatch
  // ---------------------------------------------------------------------------

  // The group has fewer jobs than it was made for, and they are over.
  predicate StoppedShort(jobs: map<JobId, Row>, g: Group) {
    |InGroup(jobs, g.id)| < g.taskCount && ActiveIn(jobs, g.id) == {}
  }

  predicate InLatest(s: State, w: WorkerId)
    requires AtWork(s, w) && s.workers[w].work.GroupRead?
  {
    var latest := s.workers[w].work.latest;
    latest.Some? && s.jobs[s.workers[w].job].group == Some(latest.value.id)
  }

  /** Whatever group a worker has read, and whenever it read it: its job is refused exactly if it is not
      of that group, and the lock was held, or that group stopped short and its jobs are over, or the
      stamps are wrong. */
  lemma DispatchJudged(s: State, l: Label)
    requires Enabled(s, l) && l.Dispatch? && RowsKept(s)
    ensures
      var work := s.workers[l.worker].work;
      (Next(s, l).workers[l.worker].work.Refused? <==>
       !InLatest(s, l.worker) &&
       (work.lock == Some(Exclusive) || (work.latest.Some? && StoppedShort(s.jobs, work.latest.value)) || !l.stampsOk))
  {
    var work, j := s.workers[l.worker].work, s.workers[l.worker].job;
    if work.latest.Some? {
      var g := work.latest.value;
      assert ActiveIn(s.jobs, g.id) <= InGroup(s.jobs, g.id);
      if s.jobs[j].group == Some(g.id) {
        assert j in ActiveIn(s.jobs, g.id);
      }
    }
  }

  // ---------------------------------------------------------------------------
  // After a rebuild
  // ---------------------------------------------------------------------------

  predicate Own(s: State, w: WorkerId, h: Group)
    requires AtWork(s, w)
  {
    s.jobs[s.workers[w].job].group == Some(h.id)
  }

  lemma ShortIsShort(states: seq<State>, labels: seq<Label>, i: nat, p: Process, h: Group, k: nat)
    requires Run(states, labels) && LockKept(states[0]) && GroupsKept(states[0])
    requires i < |labels| && i < k < |states| && Leaves(states, labels, i, p, h)
    ensures StoppedShort(states[k].jobs, h) <==> Short(states, i, h) && ActiveIn(states[k].jobs, h.id) == {}
  {
    RunKeepsGroups(states, labels, i);
    RebuildSettles(states[i], labels[i], p, h);
    RunKeepsSettled(states, labels, h, |InGroup(states[i].jobs, h.id)|, i + 1, k);
  }

  /** After a rebuild left its group, however far it had come, a worker that has read this group is
      refused exactly if its job is not one of the rebuild's and the lock was held, or the rebuild
      stopped short and its jobs are over, or the stamps are wrong. */
  lemma DispatchAfterRebuild(states: seq<State>, labels: seq<Label>, i: nat, p: Process, h: Group, k: nat)
    requires Run(states, labels) && Inv(states[0]) && AllSafe(states, labels)
    requires i < |labels| && Leaves(states, labels, i, p, h)
    requires i < k < |labels| && labels[k].Dispatch? && states[k].workers[labels[k].worker].work.latest == Some(h)
    ensures
      var w := labels[k].worker;
      var idle := ActiveIn(states[k].jobs, h.id) == {};
      (states[k + 1].workers[w].work.Refused? <==>
       !Own(states[k], w, h) &&
       (states[k].workers[w].work.lock == Some(Exclusive) || (Short(states, i, h) && idle) || !labels[k].stampsOk))
  {
    RunKeepsInv(states, labels, k);
    ShortIsShort(states, labels, i, p, h, k);
    DispatchJudged(states[k], labels[k]);
  }

  // ---------------------------------------------------------------------------
  // Who has read the group
  // ---------------------------------------------------------------------------

  // The step moves worker `w`.
  predicate Moves(l: Label, w: WorkerId) {
    (l.Fetch? || l.Announce? || l.Probe? || l.ReadGroup? || l.Dispatch? || l.End? || l.WorkerCrash?) && l.worker == w
  }

  lemma {:induction false} StaysPut(states: seq<State>, labels: seq<Label>, w: WorkerId, from: nat, to: nat)
    requires Run(states, labels) && from <= to < |states| && w in states[from].workers
    requires forall n :: from <= n < to ==> !Moves(labels[n], w)
    ensures w in states[to].workers && states[to].workers[w] == states[from].workers[w]
  {
    if from < to {
      StaysPut(states, labels, w, from, to - 1);
      StaysPutStep(states[to - 1], labels[to - 1], w);
    }
  }

  lemma StaysPutStep(s: State, l: Label, w: WorkerId)
    requires Enabled(s, l) && w in s.workers && !Moves(l, w)
    ensures w in Next(s, l).workers && Next(s, l).workers[w] == s.workers[w]
  {
  }

  lemma AbsentStep(s: State, l: Label, h: Group)
    requires Enabled(s, l) && !l.MakeGroup? && h !in s.groups
    ensures h !in Next(s, l).groups
  {
    if l.DeleteGroup? {
      WithoutKeeps(s.groups, s.rebuilds[l.process].blocked);
    }
  }

  lemma {:induction false} AbsentStays(states: seq<State>, labels: seq<Label>, h: Group, from: nat, to: nat)
    requires Run(states, labels) && from <= to < |states| && NoneMade(labels, from, to) && h !in states[from].groups
    ensures h !in states[to].groups
  {
    if from < to {
      AbsentStays(states, labels, h, from, to - 1);
      AbsentStep(states[to - 1], labels[to - 1], h);
    }
  }

  // The latest group stays the latest, or goes away for good.
  lemma LatestOrGone(s: State, l: Label, h: Group)
    requires Enabled(s, l) && GroupsKept(s) && !l.MakeGroup? && Latest(s.groups) == Some(h)
    ensures Latest(Next(s, l).groups) == Some(h) || h !in Next(s, l).groups
  {
    if l.DeleteGroup? {
      assert StageKept(s, s.rebuilds[l.process]);
      WithoutKeeps(s.groups, h.id);
    }
  }

  // From its making until another is made, the group of a rebuild that leaves it is the latest.
  lemma {:induction false} LatestSinceMade(
    states: seq<State>, labels: seq<Label>, m: nat, i: nat, p: Process, h: Group, r: nat)
    requires Run(states, labels) && LockKept(states[0]) && GroupsKept(states[0])
    requires m < i < |labels| && labels[m] == MakeGroup(p, h) && h in states[i].groups
    requires m < r <= i && NoneMade(labels, m + 1, i)
    ensures Latest(states[r].groups) == Some(h)
    decreases r
  {
    if r == m + 1 {
      JustMade(states[m], p, h);
    } else {
      LatestSinceMade(states, labels, m, i, p, h, r - 1);
      RunKeepsGroups(states, labels, r - 1);
      LatestOrGone(states[r - 1], labels[r - 1], h);
      if h !in states[r].groups {
        AbsentStays(states, labels, h, r, i);
      }
    }
  }

  lemma JustMade(s: State, p: Process, h: Group)
    requires Enabled(s, MakeGroup(p, h))
    ensures Latest(Next(s, MakeGroup(p, h)).groups) == Some(h)
  {
  }

  /** Every worker that reads the groups after the rebuild made its own, and before another is made, has
      read this one when it decides. */
  lemma ReadsNewGroup(
    states: seq<State>, labels: seq<Label>, m: nat, i: nat, p: Process, h: Group, r: nat, w: WorkerId, k: nat)
    requires Run(states, labels) && LockKept(states[0]) && GroupsKept(states[0])
    requires m < i < |labels| && labels[m] == MakeGroup(p, h) && Leaves(states, labels, i, p, h)
    requires m < r < k < |states| && labels[r] == ReadGroup(w) && NoneMade(labels, m + 1, r) &&
             NoneMade(labels, m + 1, i)
    requires forall n :: r < n < k ==> !Moves(labels[n], w)
    ensures w in states[k].workers && states[k].workers[w].work.GroupRead? &&
            states[k].workers[w].work.latest == Some(h)
  {
    if r <= i {
      LatestSinceMade(states, labels, m, i, p, h, r);
    } else {
      LatestStays(states, labels, i, p, h, r);
    }
    StaysPut(states, labels, w, r + 1, k);
  }

  // Every worker about to decide has read group `h`, but perhaps for its task count.
  ghost predicate ReadersKept(s: State, h: Group) {
    forall w :: w in s.workers && s.workers[w].work.GroupRead? ==>
      var work := s.workers[w].work;
      work.latest.Some? && work.latest.value.id == h.id && (work.lock != Some(Exclusive) ==> work.latest == Some(h))
  }

  lemma ReadersStep(s: State, l: Label, h: Group)
    requires Enabled(s, l) && Latest(s.groups) == Some(h) && ReadersKept(s, h)
    ensures ReadersKept(Next(s, l), h)
  {
  }

  // They are none when a rebuild that cleared its job check leaves.
  lemma LeavingReaders(s: State, l: Label, p: Process, h: Group)
    requires Enabled(s, l) && Inv(s) && p in s.rebuilds && s.rebuilds[p].Cleared()
    requires s.rebuilds[p].GroupOf() == Some(h.id)
    requires p in Next(s, l).rebuilds ==> Next(s, l).rebuilds[p].GroupOf() != Some(h.id)
    ensures ReadersKept(Next(s, l), h)
  {
    assert Next(s, l).workers == s.workers;
    assert forall w :: w in s.workers ==> Harmless(s, w, h.id);
  }

  lemma {:induction false} RunKeepsReaders(states: seq<State>, labels: seq<Label>, i: nat, p: Process, h: Group, k: nat)
    requires Run(states, labels) && Inv(states[0]) && AllSafe(states, labels)
    requires i < |labels| && i < k < |states| && Leaves(states, labels, i, p, h)
    requires states[i].rebuilds[p].Cleared() && NoneMade(labels, i + 1, k)
    ensures ReadersKept(states[k], h)
    decreases k
  {
    RunKeepsInv(states, labels, k - 1);
    if k == i + 1 {
      LeavingReaders(states[i], labels[i], p, h);
    } else {
      RunKeepsReaders(states, labels, i, p, h, k - 1);
      LatestStays(states, labels, i, p, h, k - 1);
      ReadersStep(states[k - 1], labels[k - 1], h);
    }
  }

  /** After a rebuild that got past its job check, and until another one has made its group, no
      worker is left that read the groups before: every dispatch is judged by this group. */
  lemma DispatchAfterCheck(states: seq<State>, labels: seq<Label>, i: nat, p: Process, h: Group, k: nat)
    requires Run(states, labels) && Inv(states[0]) && AllSafe(states, labels)
    requires i < |labels| && Leaves(states, labels, i, p, h) && states[i].rebuilds[p].Cleared()
    requires i < k < |labels| && NoneMade(labels, i + 1, k) && labels[k].Dispatch?
    ensures
      var w := labels[k].worker;
      var idle := ActiveIn(states[k].jobs, h.id) == {};
      (states[k + 1].workers[w].work.Refused? <==>
       !Own(states[k], w, h) &&
       (states[k].workers[w].work.lock == Some(Exclusive) || (Short(states, i, h) && idle) || !labels[k].stampsOk))
  {
    RunKeepsInv(states, labels, k);
    RunKeepsReaders(states, labels, i, p, h, k);
    ShortIsShort(states, labels, i, p, h, k);
    DispatchJudged(states[k], labels[k]);
  }

  // ---------------------------------------------------------------------------
  // A worker that read earlier
  // ---------------------------------------------------------------------------

  lemma DiesAfterGroup(s: State, p: Process, h: Group) returns (states: seq<State>, labels: seq<Label>)
    requires s.holder.None? && s.sharers == {} && p !in s.rebuilds && FreshId(s, h.id)
    ensures Run(states, labels) && labels == [TakeLock(p), MakeGroup(p, h), RebuildCrash(p)]
    ensures states[0] == s && states[3] == s.(groups := s.groups + [h])
  {
    var s1 := SetStage(s, p, Locked).(holder := Some(p));
    var s2 := SetStage(s1, p, GroupMade(h.id)).(groups := s.groups + [h]);
    var s3 := s.(groups := s.groups + [h]);
    assert FreshId(s1, h.id);
    assert s2.rebuilds - {p} == s.rebuilds;
    assert Next(s, TakeLock(p)) == s1;
    assert Next(s1, MakeGroup(p, h)) == s2;
    assert Next(s2, RebuildCrash(p)) == s3;
    states, labels := [s, s1, s2, s3], [TakeLock(p), MakeGroup(p, h), RebuildCrash(p)];
  }

  lemma NoJobsYet(s: State, h: Group)
    requires FreshId(s, h.id)
    ensures InGroup(s.jobs, h.id) == {} && ActiveIn(s.jobs, h.id) == {}
  {
  }

  // The step `l` at the end of a run.
  lemma Finally(states: seq<State>, labels: seq<Label>, l: Label, s': State)
    requires Run(states, labels) && Enabled(states[|labels|], l) && s' == Next(states[|labels|], l)
    ensures Run(states + [s'], labels + [l])
  {
  }

  /** A rebuild that dies with its group made, and before it has looked for jobs, does not stop a worker
      that read the groups before: it indexes, with a job outside the group, while an interrupted rebuild
      is reported. */
  lemma EarlyReaderIsLetThrough(s: State, w: WorkerId, p: Process, h: Group)
    returns (states: seq<State>, labels: seq<Label>)
    requires Inv(s) && s.holder.None? && s.sharers == {} && p !in s.rebuilds && FreshId(s, h.id) && h.taskCount > 0
    requires w in s.workers && s.workers[w].work == GroupRead(None, None)
    ensures Run(states, labels) && AllSafe(states, labels) && states[0] == s
    ensures labels == [TakeLock(p), MakeGroup(p, h), RebuildCrash(p), Dispatch(w, true)]
    ensures Derive(LockMode(states[3]), Latest(states[3].groups), states[3].jobs).Interrupted?
    ensures AtWork(states[3], w) && !Own(states[3], w, h) && states[4].workers[w].work.Indexing?
  {
    states, labels := DiesAfterGroup(s, p, h);
    var s3, l := states[3], Dispatch(w, true);
    NoJobsYet(s, h);
    DispatchJudged(s3, l);
    Finally(states, labels, l, Next(s3, l));
    states, labels := states + [Next(s3, l)], labels + [l];
    assert Latest(s3.groups) == Some(h);
  }

  lemma Announcement(j: JobId, row: Row, w: WorkerId) returns (states: seq<State>, labels: seq<Label>)
    requires row.status.Queued?
    ensures Run(states, labels) && states[0] == EMPTY && labels == [NewJob(j, row), Fetch(w, j), Announce(w)]
    ensures states[3] == EMPTY.(jobs := map[j := row.(status := Running)], workers := map[w := Worker(j, Announced)])
  {
    var s1 := EMPTY.(jobs := map[j := row]);
    var s2 := s1.(workers := map[w := Worker(j, Fetched)]);
    var s3 := EMPTY.(jobs := map[j := row.(status := Running)], workers := map[w := Worker(j, Announced)]);
    assert Next(EMPTY, NewJob(j, row)) == s1;
    assert Next(s1, Fetch(w, j)) == s2;
    assert Next(s2, Announce(w)) == s3;
    states, labels := [EMPTY, s1, s2, s3], [NewJob(j, row), Fetch(w, j), Announce(w)];
  }

  // What an announced worker reads while nothing is locked and no group is made.
  lemma ReadsNothing(s: State, w: WorkerId) returns (s1: State, s2: State)
    requires AtWork(s, w) && s.workers[w].work.Announced? && s.holder.None? && s.sharers == {} && s.groups == []
    ensures Enabled(s, Probe(w)) && s1 == Next(s, Probe(w)) && Enabled(s1, ReadGroup(w)) && s2 == Next(s1, ReadGroup(w))
    ensures s2 == SetWork(s, w, GroupRead(None, None))
  {
    s1 := SetWork(s, w, Probed(None));
    s2 := SetWork(s, w, GroupRead(None, None));
    assert s1.workers[w := s1.workers[w].(work := GroupRead(None, None))] == s2.workers;
  }

  /** Such a worker there is: a run from the empty state leads to it. */
  lemma EarlyReader(j: JobId, row: Row, w: WorkerId) returns (states: seq<State>, labels: seq<Label>)
    requires row.status.Queued?
    ensures Run(states, labels) && AllSafe(states, labels) && states[0] == EMPTY
    ensures labels == [NewJob(j, row), Fetch(w, j), Announce(w), Probe(w), ReadGroup(w)]
    ensures Inv(states[5]) && states[5] ==
            EMPTY.(jobs := map[j := row.(status := Running)], workers := map[w := Worker(j, GroupRead(None, None))])
  {
    states, labels := Announcement(j, row, w);
    var s4, s5 := ReadsNothing(states[3], w);
    Finally(states, labels, Probe(w), s4);
    states, labels := states + [s4], labels + [Probe(w)];
    Finally(states, labels, ReadGroup(w), s5);
    states, labels := states + [s5], labels + [ReadGroup(w)];
    EmptyIsFine();
    RunKeepsInv(states, labels, 5);
  }
}
