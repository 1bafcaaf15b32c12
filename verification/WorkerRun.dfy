/**
  What becomes of a job and its row in the rebuild protocol: which steps change it, what a worker
  makes of it that nobody disturbs, and what the reported progress of a rebuild counts.
*/
module WorkerRun {
  import opened Options
  import opened Jobs
  import opened RebuildProtocol
  import opened RebuildDispatch

  // ---------------------------------------------------------------------------
  // The row of a job
  // ---------------------------------------------------------------------------

  // The step is the end of a worker on the job, and writes the status.
  predicate Ends(s: State, l: Label, j: JobId, status: Status) {
    && l.End? && l.worker in s.workers && s.workers[l.worker].job == j
    && status == if s.workers[l.worker].work.Refused? then Failed else l.status
  }

  /** A row keeps its group and source, and changes its status in few ways: running by a worker's
      announcement, queued by a new attempt, and over by the end of a worker, which writes failed
      for every job that was refused, or done by recovery. */
  lemma RowMoves(s: State, l: Label, j: JobId)
    requires Enabled(s, l) && j in s.jobs
    ensures
      j in Next(s, l).jobs &&
      var status := Next(s, l).jobs[j].status;
      && Next(s, l).jobs[j] == s.jobs[j].(status := status)
      && (status == s.jobs[j].status || Ends(s, l, j, status) ||
          match status
          case Running => l.Announce? && s.workers[l.worker].job == j
          case Queued => l == Requeue(j)
          case Done => l == Supersede(j)
          case Failed => false
          case DeadLetter => false
          case Waiting => false)
      && (l == Requeue(j) ==> status.Queued?)
      && (l == Supersede(j) ==> status.Done?)
      && (Ends(s, l, j, Failed) && s.workers[l.worker].work.Refused? ==> status.Failed?)
      && (l.End? && s.workers[l.worker].job == j && s.workers[l.worker].work.Indexing? ==> status == l.status)
  {
  }

  predicate HasDone(jobs: map<JobId, Row>, source: SourceId) {
    exists j :: j in jobs && jobs[j].source == source && jobs[j].status.Done?
  }

  lemma FinishedStep(s: State, l: Label, source: SourceId)
    requires Enabled(s, l) && (HasDone(s.jobs, source) ==> source in s.finished)
    ensures source in Next(s, l).finished <==> source in s.finished || HasDone(Next(s, l).jobs, source)
  {
    var s' := Next(s, l);
    forall j | j in s.jobs
      ensures j in s'.jobs && s'.jobs[j] == s.jobs[j].(status := s'.jobs[j].status)
    {
      RowMoves(s, l, j);
    }
    if l.End? || l.Supersede? {
      var j := if l.End? then s.workers[l.worker].job else l.job;
      assert s'.jobs[j].status.Done? ==> HasDone(s'.jobs, s.jobs[j].source);
    }
  }

  predicate DoneBy(states: seq<State>, source: SourceId, k: nat)
    requires k < |states|
  {
    exists i :: 0 <= i <= k && HasDone(states[i].jobs, source)
  }

  /** The sources recovery takes for finished are, over every run, exactly those that have had a row
      that says done, though it may have been queued again since. */
  lemma {:induction false} FinishedIsHistory(states: seq<State>, labels: seq<Label>, source: SourceId, k: nat)
    requires Run(states, labels) && k < |states|
    requires source in states[0].finished <==> HasDone(states[0].jobs, source)
    ensures source in states[k].finished <==> DoneBy(states, source, k)
  {
    if k > 0 {
      FinishedIsHistory(states, labels, source, k - 1);
      assert HasDone(states[k - 1].jobs, source) ==> DoneBy(states, source, k - 1);
      FinishedStep(states[k - 1], labels[k - 1], source);
      assert HasDone(states[k].jobs, source) ==> DoneBy(states, source, k);
    }
  }

  // ---------------------------------------------------------------------------
  // A worker that nobody disturbs
  // ---------------------------------------------------------------------------

  // The job is of the latest group.
  predicate OwnLatest(s: State, j: JobId)
    requires j in s.jobs
  {
    s.groups != [] && s.jobs[j].group == Some(s.groups[|s.groups| - 1].id)
  }

  lemma ActiveElse(jobs: map<JobId, Row>, j: JobId, g: GroupId)
    requires j in jobs && jobs[j].group != Some(g)
    ensures var running := jobs[j := jobs[j].(status := Running)];
            ActiveIn(running, g) == ActiveIn(jobs, g) && InGroup(running, g) == InGroup(jobs, g)
  {
  }

  lemma Reads(s: State, w: WorkerId, j: JobId) returns (states: seq<State>, labels: seq<Label>)
    requires w !in s.workers && j in s.jobs && !s.jobs[j].status.Terminal()
    ensures Run(states, labels) && states[0] == s
    ensures labels == [Fetch(w, j), Announce(w), Probe(w), ReadGroup(w)]
    ensures states[4] == s.(jobs := s.jobs[j := s.jobs[j].(status := Running)],
                            workers := s.workers[w := Worker(j, GroupRead(LockMode(s), Latest(s.groups)))])
  {
    var running := s.jobs[j := s.jobs[j].(status := Running)];
    var s1 := s.(workers := s.workers[w := Worker(j, Fetched)]);
    var s2 := s.(jobs := running, workers := s.workers[w := Worker(j, Announced)]);
    var s3 := s.(jobs := running, workers := s.workers[w := Worker(j, Probed(LockMode(s)))]);
    var s4 := s.(jobs := running, workers := s.workers[w := Worker(j, GroupRead(LockMode(s), Latest(s.groups)))]);
    assert Next(s, Fetch(w, j)) == s1;
    assert Next(s1, Announce(w)) == s2;
    assert LockMode(s2) == LockMode(s) && Next(s2, Probe(w)) == s3;
    assert Next(s3, ReadGroup(w)) == s4;
    states := [s, s1, s2, s3, s4];
    labels := [Fetch(w, j), Announce(w), Probe(w), ReadGroup(w)];
  }

  // The job is not of the latest group, and the lock is held, or that group stopped short and its
  // jobs are over, or the stamps are wrong.
  predicate ToRefuse(s: State, j: JobId, stampsOk: bool)
    requires j in s.jobs
  {
    !OwnLatest(s, j) &&
    (s.holder.Some? || (s.groups != [] && StoppedShort(s.jobs, s.groups[|s.groups| - 1])) || !stampsOk)
  }

  lemma Decides(s: State, s4: State, w: WorkerId, j: JobId, stampsOk: bool)
    requires j in s.jobs
    requires s4 == s.(jobs := s.jobs[j := s.jobs[j].(status := Running)],
                      workers := s.workers[w := Worker(j, GroupRead(LockMode(s), Latest(s.groups)))])
    ensures Enabled(s4, Dispatch(w, stampsOk))
    ensures Next(s4, Dispatch(w, stampsOk)) ==
            s4.(workers := s4.workers[w := Worker(j, if ToRefuse(s, j, stampsOk) then Refused else Indexing)])
  {
    if s.groups != [] {
      var g := s.groups[|s.groups| - 1];
      assert ActiveIn(s4.jobs, g.id) <= InGroup(s4.jobs, g.id);
      if OwnLatest(s, j) {
        assert j in ActiveIn(s4.jobs, g.id);
      } else {
        ActiveElse(s.jobs, j, g.id);
      }
    }
  }

  lemma EndsIt(s: State, s5: State, w: WorkerId, j: JobId, refused: bool, status: Status)
    requires w !in s.workers && j in s.jobs && (status.Queued? || status.Terminal())
    requires s5 == s.(jobs := s.jobs[j := s.jobs[j].(status := Running)],
                      workers := s.workers[w := Worker(j, if refused then Refused else Indexing)])
    ensures Enabled(s5, End(w, status))
    ensures var ended := if refused then Failed else status;
            Next(s5, End(w, status)) ==
              s.(jobs := s.jobs[j := s.jobs[j].(status := ended)],
                 finished := s.finished + (if ended.Done? then {s.jobs[j].source} else {}))
  {
    assert s5.workers - {w} == s.workers;
  }

  /** From every state, a worker that takes up a job while nothing else moves ends it: failed exactly if
      it has to be refused, and otherwise as the job itself ends. Nothing else has changed, but that a
      done job's source is finished. */
  lemma WorkerGoesThrough(s: State, w: WorkerId, j: JobId, stampsOk: bool, status: Status)
    returns (states: seq<State>, labels: seq<Label>)
    requires w !in s.workers && j in s.jobs && !s.jobs[j].status.Terminal()
    requires status.Queued? || status.Terminal()
    ensures Run(states, labels) && states[0] == s
    ensures labels == [Fetch(w, j), Announce(w), Probe(w), ReadGroup(w), Dispatch(w, stampsOk), End(w, status)]
    ensures var ended := if ToRefuse(s, j, stampsOk) then Failed else status;
            states[6] == s.(jobs := s.jobs[j := s.jobs[j].(status := ended)],
                            finished := s.finished + (if ended.Done? then {s.jobs[j].source} else {}))
  {
    states, labels := Reads(s, w, j);
    Decides(s, states[4], w, j, stampsOk);
    var s5 := Next(states[4], Dispatch(w, stampsOk));
    Finally(states, labels, Dispatch(w, stampsOk), s5);
    states, labels := states + [s5], labels + [Dispatch(w, stampsOk)];
    EndsIt(s, s5, w, j, ToRefuse(s, j, stampsOk), status);
    var s6 := Next(s5, End(w, status));
    Finally(states, labels, End(w, status), s6);
    states, labels := states + [s6], labels + [End(w, status)];
  }

  // ---------------------------------------------------------------------------
  // The reported progress
  // ---------------------------------------------------------------------------

  function WaitingIn(jobs: map<JobId, Row>, g: GroupId): set<JobId> {
    set j | j in jobs && jobs[j].group == Some(g) && jobs[j].status.Waiting?
  }

  /** The reported total is the number of sources of the latest rebuild, and what is reported as done,
      what is active and what waits add up to the jobs of its group. */
  lemma ProgressAddsUp(lock: Option<Mode>, latest: Option<Group>, jobs: map<JobId, Row>)
    ensures
      var r := Derive(lock, latest, jobs);
      && (r.Preparing? <==> lock == Some(Exclusive))
      && (r.NoRebuild? <==> lock != Some(Exclusive) && latest.None?)
      && (r.Preparing? ==> r.total == if latest.Some? then latest.value.taskCount else 0)
      && (r.Rebuilding? ==> latest.Some? && r.total == latest.value.taskCount > 0)
      && (r.Rebuilding? ==>
            |InGroup(jobs, latest.value.id)| ==
              r.done + |ActiveIn(jobs, latest.value.id)| + |WaitingIn(jobs, latest.value.id)|)
  {
    if latest.Some? {
      var g := latest.value.id;
      assert InGroup(jobs, g) == TerminalIn(jobs, g) + ActiveIn(jobs, g) + WaitingIn(jobs, g);
      assert TerminalIn(jobs, g) !! ActiveIn(jobs, g);
      assert (TerminalIn(jobs, g) + ActiveIn(jobs, g)) !! WaitingIn(jobs, g);
    }
  }
}
