/**
  `PrioritySlots` as the event loop runs it: counters, queues of futures with cancelled
  ones dropped lazily, and a slot passed on when a cancellation arrives after a grant.

  The loop has one thread, so each method runs without interruption. A suspended `acquire`
  is two calls here: `Acquire` up to its `await`, then `Resume` or `Cancelled`.
  `CancelFuture` is what the loop does to the future when the waiting task is cancelled.
*/
module PrioritySlots {
  import opened Options
  import opened SlotQueue

  datatype FutureState = Pending | Resolved | FutureCancelled

  // The future a suspended `acquire` waits on, with the priority that call was made at.
  datatype Future = Future(state: FutureState, priority: Priority) {
    predicate Done() { !state.Pending? }
  }

  datatype Result<+T> = Success(value: T) | Failure(error: string)

  // A counter for each priority.
  datatype Counts = Counts(interactive: int, background: int) {
    function Add(p: Priority, n: int): Counts {
      if p.Interactive? then this.(interactive := interactive + n) else this.(background := background + n)
    }
  }

  // --- what the fields stand for ----------------------------------------------

  function DoneTasks(futures: map<Task, Future>): set<Task> {
    set t | t in futures && futures[t].Done()
  }

  function Granted(futures: map<Task, Future>): map<Task, Priority> {
    map t | t in futures && futures[t].state.Resolved? :: futures[t].priority
  }

  function Live(waiters: Lanes, futures: map<Task, Future>): Lanes {
    Lanes(Without(waiters.interactive, DoneTasks(futures)), Without(waiters.background, DoneTasks(futures)))
  }

  // One deque: every waiting future of its priority is in it, a granted one has left it.
  ghost predicate LaneOk(q: seq<Task>, futures: map<Task, Future>, p: Priority) {
    && Distinct(q)
    && (forall t :: t in q ==> t in futures && futures[t].priority == p && !futures[t].state.Resolved?)
    && (forall t :: t in futures && futures[t].priority == p && futures[t].state.Pending? ==> t in q)
  }

  ghost predicate Linked(waiters: Lanes, futures: map<Task, Future>, holding: map<Task, Priority>) {
    && LaneOk(waiters.interactive, futures, Interactive)
    && LaneOk(waiters.background, futures, Background)
    && futures.Keys !! holding.Keys
  }

  lemma LiveLane(waiters: Lanes, futures: map<Task, Future>, p: Priority)
    ensures Live(waiters, futures).Get(p) == Without(waiters.Get(p), DoneTasks(futures))
    ensures forall t :: t in Live(waiters, futures).Get(p) <==> t in waiters.Get(p) && t !in DoneTasks(futures)
  {
    WithoutMembers(waiters.Get(p), DoneTasks(futures));
  }

  // A deque does not see a change to a future that is not in it.
  lemma OtherFuture(q: seq<Task>, before: map<Task, Future>, after: map<Task, Future>, p: Priority, t: Task)
    requires LaneOk(q, before, p) && t !in q
    requires forall u :: u != t ==> (u in before <==> u in after) && (u in before ==> before[u] == after[u])
    requires t in after ==> after[t].priority != p || !after[t].state.Pending?
    ensures LaneOk(q, after, p) && Without(q, DoneTasks(after)) == Without(q, DoneTasks(before))
  {
    forall u | u in q ensures u in DoneTasks(after) <==> u in DoneTasks(before) {}
    WithoutAgree(q, DoneTasks(after), DoneTasks(before));
  }

  // A new call queues last.
  lemma QueueLast(q: seq<Task>, futures: map<Task, Future>, t: Task, p: Priority)
    requires LaneOk(q, futures, p) && t !in futures
    ensures var f := futures[t := Future(Pending, p)];
            LaneOk(q + [t], f, p) && Without(q + [t], DoneTasks(f)) == Without(q, DoneTasks(futures)) + [t]
  {
    var f := futures[t := Future(Pending, p)];
    assert DoneTasks(f) == DoneTasks(futures);
    WithoutAppend(q, [t], DoneTasks(f));
    assert Without([t], DoneTasks(f)) == [t];
  }

  lemma ParkLast(waiters: Lanes, futures: map<Task, Future>, holding: map<Task, Priority>, t: Task, p: Priority)
    requires Linked(waiters, futures, holding) && t !in futures && t !in holding
    ensures var w, f := waiters.Set(p, waiters.Get(p) + [t]), futures[t := Future(Pending, p)];
            && Linked(w, f, holding) && Granted(f) == Granted(futures)
            && Live(w, f) == Live(waiters, futures).Set(p, Live(waiters, futures).Get(p) + [t])
  {
    QueueLast(waiters.Get(p), futures, t, p);
    var o := if p.Interactive? then Background else Interactive;
    OtherFuture(waiters.Get(o), futures, futures[t := Future(Pending, p)], o, t);
  }

  // A waiting call's future is cancelled in place.
  lemma CancelInPlace(q: seq<Task>, futures: map<Task, Future>, p: Priority, t: Task)
    requires LaneOk(q, futures, p) && t in futures && futures[t].state.Pending?
    ensures var f := futures[t := futures[t].(state := FutureCancelled)];
            LaneOk(q, f, p) && Without(q, DoneTasks(f)) == Without(Without(q, DoneTasks(futures)), {t})
  {
    var f := futures[t := futures[t].(state := FutureCancelled)];
    assert DoneTasks(f) == DoneTasks(futures) + {t};
    WithoutTwice(q, DoneTasks(futures), {t});
  }

  // A done entry leaves its deque, wherever it stands.
  lemma DropEntry(q: seq<Task>, rest: seq<Task>, futures: map<Task, Future>, p: Priority, i: nat)
    requires LaneOk(q, futures, p) && i < |q| && futures[q[i]].Done()
    requires rest == q[..i] + q[i + 1..]
    ensures LaneOk(rest, futures, p) && q[i] !in rest
    ensures Without(rest, DoneTasks(futures)) == Without(q, DoneTasks(futures))
  {
    RemoveAt(q, i);
    assert q[i] in q;
    assert Without(rest, DoneTasks(futures)) == Without(q, DoneTasks(futures)) by {
      WithoutAt(q, i, DoneTasks(futures));
    }
  }

  lemma DropFirst(waiters: Lanes, futures: map<Task, Future>, holding: map<Task, Priority>, p: Priority)
    requires Linked(waiters, futures, holding)
    requires waiters.Get(p) != [] && futures[waiters.Get(p)[0]].Done()
    ensures Linked(waiters.Set(p, waiters.Get(p)[1..]), futures, holding)
    ensures Live(waiters.Set(p, waiters.Get(p)[1..]), futures) == Live(waiters, futures)
  {
    var q := waiters.Get(p);
    assert q[1..] == q[..0] + q[1..];
    DropEntry(q, q[1..], futures, p, 0);
  }

  lemma WithoutAt(q: seq<Task>, i: nat, gone: set<Task>)
    requires i < |q| && q[i] in gone
    ensures Without(q[..i] + q[i + 1..], gone) == Without(q, gone)
  {
    assert q == q[..i] + q[i..];
    WithoutAppend(q[..i], q[i..], gone);
    assert q[i..][0] == q[i] && q[i..][1..] == q[i + 1..];
    WithoutAppend(q[..i], q[i + 1..], gone);
  }

  lemma RemoveAt(q: seq<Task>, i: nat)
    requires Distinct(q) && i < |q|
    ensures Distinct(q[..i] + q[i + 1..])
    ensures forall t :: t in q[..i] + q[i + 1..] <==> t in q && t != q[i]
  {
    var rest := q[..i] + q[i + 1..];
    assert forall j :: 0 <= j < |rest| ==> rest[j] == if j < i then q[j] else q[j + 1];
    forall t | t in q && t != q[i] ensures t in rest {
      var j :| 0 <= j < |q| && q[j] == t;
      assert rest[if j < i then j else j - 1] == t;
    }
  }

  // The first entry of a deque is resolved and leaves it.
  lemma ResolveFirst(q: seq<Task>, futures: map<Task, Future>, after: map<Task, Future>, p: Priority)
    requires LaneOk(q, futures, p) && q != [] && futures[q[0]].state.Pending?
    requires after == futures[q[0] := futures[q[0]].(state := Resolved)]
    ensures LaneOk(q[1..], after, p)
    ensures Without(q, DoneTasks(futures)) == [q[0]] + Without(q[1..], DoneTasks(after))
  {
    var rest := q[1..];
    assert rest == q[..0] + q[1..];
    RemoveAt(q, 0);
    assert forall t :: t in rest <==> t in q && t != q[0];
    assert DoneTasks(after) == DoneTasks(futures) + {q[0]};
    WithoutAgree(rest, DoneTasks(after), DoneTasks(futures));
  }

  lemma ResolveGrants(futures: map<Task, Future>, t: Task)
    requires t in futures
    ensures Granted(futures[t := futures[t].(state := Resolved)]) == Granted(futures)[t := futures[t].priority]
  {
  }

  // ---------------------------------------------------------------------------

  class Slots {
    const capacity: int
    const reserved: int
    var held: Counts
    var waiters: Lanes                      // each deque holds the futures of these tasks
    var futures: map<Task, Future>          // one for each suspended `acquire`
    ghost var holding: map<Task, Priority>  // calls running with a slot

    // The plain queues this object stands for.
    ghost function Abs(): State
      reads this
      requires 0 <= reserved < capacity
    {
      State(capacity, reserved, Live(waiters, futures), Granted(futures), holding)
    }

    // The counters count: held slots are the running calls plus the promised ones.
    ghost predicate Counted()
      reads this
      requires 0 <= reserved < capacity
    {
      held.interactive == Held(Abs(), Interactive) && held.background == Held(Abs(), Background)
    }

    ghost predicate Sound()
      reads this
    {
      0 <= reserved < capacity && Linked(waiters, futures, holding) && Counted() && Apart(Abs())
    }

    ghost predicate Valid()
      reads this
    {
      Sound() && Invariant(Abs())
    }

    // A done future that is in no deque is forgotten.
    lemma Forget(t: Task)
      requires Linked(waiters, futures, holding) && t in futures && futures[t].Done()
      requires t !in waiters.Get(futures[t].priority)
      ensures Linked(waiters, futures - {t}, holding)
      ensures Live(waiters, futures - {t}) == Live(waiters, futures)
      ensures Granted(futures - {t}) == Granted(futures) - {t}
    {
      OtherFuture(waiters.interactive, futures, futures - {t}, Interactive, t);
      OtherFuture(waiters.background, futures, futures - {t}, Background, t);
    }

    constructor Init(capacity: int, reserved: int)
      requires 0 <= reserved < capacity
      ensures Valid() && Abs() == Empty(capacity, reserved)
    {
      this.capacity := capacity;
      this.reserved := reserved;
      held := Counts(0, 0);
      waiters := Lanes([], []);
      futures := map[];
      holding := map[];
      new;
      assert Granted(futures) == map[];
      assert At(map[], Interactive) == {} && At(map[], Background) == {};
    }

    // The checks `__init__` makes on its arguments.
    static method Create(capacity: int, reserved: int) returns (r: Result<Slots>)
      ensures r.Success? <==> 1 <= capacity && 0 <= reserved < capacity
      ensures r.Success? ==> fresh(r.value) && r.value.Valid() && r.value.Abs() == Empty(capacity, reserved)
    {
      if capacity < 1 {
        return Failure("capacity must be at least 1");
      }
      if !(0 <= reserved < capacity) {
        return Failure("reserved must be at least 0 and less than capacity");
      }
      var slots := new Slots.Init(capacity, reserved);
      return Success(slots);
    }

    function CurrentUse(): (n: int)
      reads this
    {
      held.interactive + held.background
    }

    predicate MayTakeNow(p: Priority)
      reads this
    {
      if CurrentUse() >= capacity then false
      else if p.Background? then held.background < capacity - reserved
      else true
    }

    // Callers waiting at one priority: the futures of its deque that are not done.
    method Waiting(p: Priority) returns (n: nat)
      requires Valid()
      ensures n == |Abs().queued.Get(p)|
    {
      n := 0;
      var q := waiters.Get(p);
      for i := 0 to |q|
        invariant n == |Without(q[..i], DoneTasks(futures))|
      {
        assert q[..i + 1] == q[..i] + [q[i]];
        WithoutAppend(q[..i], [q[i]], DoneTasks(futures));
        assert q[i] in futures;
        if !futures[q[i]].Done() {
          n := n + 1;
        }
      }
      assert q[..|q|] == q;
      LiveLane(waiters, futures, p);
    }

    // The same without a priority: callers waiting at any.
    method WaitingAtAll() returns (n: nat)
      requires Valid()
      ensures n == |Abs().queued.interactive| + |Abs().queued.background|
    {
      var interactive := Waiting(Interactive);
      var background := Waiting(Background);
      n := interactive + background;
    }

    // `acquire` up to its `await`: the slot is taken at once, or a future is queued.
    method Acquire(t: Task, p: Priority) returns (taken: bool)
      requires Valid() && t !in futures && t !in holding
      modifies this
      ensures Valid()
      ensures Enabled(old(Abs()), Arrive(t, p)) && Abs() == Step(old(Abs()), Arrive(t, p))
      ensures taken == MayTake(old(Abs()), p)
    {
      ghost var s := Abs();
      LiveLane(waiters, futures, Interactive);
      LiveLane(waiters, futures, Background);
      assert !Known(s, t);
      StepKeepsInvariant(s, Arrive(t, p));
      taken := MayTakeNow(p);
      if taken {
        held := held.Add(p, 1);
        holding := holding[t := p];
        AtAdd(s.holding, t, p);
      } else {
        Park(t, p);
      }
    }

    // A new future is appended to the deque of its priority.
    method Park(t: Task, p: Priority)
      requires Sound() && t !in futures && t !in holding
      modifies this`futures, this`waiters
      ensures Linked(waiters, futures, holding)
      ensures Abs() == old(Abs()).(queued := old(Abs().queued.Set(p, Abs().queued.Get(p) + [t])))
    {
      ParkLast(waiters, futures, holding, t, p);
      futures := futures[t := Future(Pending, p)];
      waiters := waiters.Set(p, waiters.Get(p) + [t]);
    }

    // The task of a waiting call is cancelled: the loop cancels its future, which stays in
    // its deque until somebody drops it.
    method CancelFuture(t: Task)
      requires Valid() && t in futures && futures[t].state.Pending?
      modifies this`futures
      ensures Valid() && futures.Keys == old(futures.Keys)
      ensures Enabled(old(Abs()), Withdraw(t)) && Abs() == Step(old(Abs()), Withdraw(t))
    {
      ghost var s := Abs();
      CancelInPlace(waiters.interactive, futures, Interactive, t);
      CancelInPlace(waiters.background, futures, Background, t);
      LiveLane(waiters, futures, futures[t].priority);
      futures := futures[t := futures[t].(state := FutureCancelled)];
      assert Granted(futures) == s.granted;
      assert Enabled(s, Withdraw(t));
      StepKeepsInvariant(s, Withdraw(t));
      assert Abs() == Step(s, Withdraw(t));
      assert forall p :: Held(Abs(), p) == Held(s, p);
    }

    // The task of a granted call runs again: `acquire` returns.
    method Resume(t: Task)
      requires Valid() && t in futures && futures[t].state.Resolved?
      modifies this`futures, this`holding
      ensures Valid()
      ensures Enabled(old(Abs()), SlotQueue.Resume(t)) && Abs() == Step(old(Abs()), SlotQueue.Resume(t))
    {
      ghost var s := Abs();
      StepKeepsInvariant(s, SlotQueue.Resume(t));
      StepCounts(s, SlotQueue.Resume(t));
      Forget(t);
      holding := holding[t := futures[t].priority];
      futures := futures - {t};
      assert Abs() == Step(s, SlotQueue.Resume(t));
    }

    // `acquire` sees CancelledError: a granted slot is passed on, a queue entry is removed
    // unless a release already dropped it.
    method Cancelled(t: Task)
      requires Valid() && t in futures && futures[t].Done()
      modifies this
      ensures Valid() && t !in futures
      ensures old(futures[t].state.Resolved?) ==>
                Enabled(old(Abs()), GiveUp(t)) && Abs() == Step(old(Abs()), GiveUp(t))
      ensures old(futures[t].state.FutureCancelled?) ==> Abs() == old(Abs())
    {
      var p := futures[t].priority;
      if !futures[t].state.FutureCancelled? {
        ghost var s := Abs();
        StepCounts(s, GiveUp(t));
        StepKeepsInvariant(s, GiveUp(t));
        Forget(t);
        futures := futures - {t};
        held := held.Add(p, -1);
        assert Abs() == s.(granted := s.granted - {t});
        HandOverNow();
      } else {
        RemoveEntry(t, p);
        Forget(t);
        assert t !in Granted(futures);
        futures := futures - {t};
        assert Abs() == old(Abs());
      }
    }

    // `deque.remove`, with the ValueError of a missing entry ignored.
    method RemoveEntry(t: Task, p: Priority)
      requires Valid() && t in futures && futures[t].state.FutureCancelled? && futures[t].priority == p
      modifies this`waiters
      ensures Valid() && Abs() == old(Abs())
      ensures t !in waiters.Get(p)
    {
      var q := waiters.Get(p);
      var i := 0;
      while i < |q| && q[i] != t
        invariant i <= |q| && t !in q[..i]
      {
        i := i + 1;
      }
      if i < |q| {
        DropEntry(q, q[..i] + q[i + 1..], futures, p, i);
        waiters := waiters.Set(p, q[..i] + q[i + 1..]);
      }
    }

    // Give back a slot acquired at `p`, by a call that holds one.
    method Release(p: Priority, ghost t: Task)
      requires Valid() && t in holding && holding[t] == p
      modifies this
      ensures Valid()
      ensures Enabled(old(Abs()), SlotQueue.Release(t)) && Abs() == Step(old(Abs()), SlotQueue.Release(t))
      ensures futures.Keys == old(futures.Keys)
    {
      ghost var s := Abs();
      StepCounts(s, SlotQueue.Release(t));
      StepKeepsInvariant(s, SlotQueue.Release(t));
      holding := holding - {t};
      held := held.Add(p, -1);
      assert Abs() == s.(holding := s.holding - {t});
      HandOverNow();
    }

    // Free slots go to waiting callers. Only a future that is still pending is ever resolved,
    // whatever done futures the deques hold.
    method HandOverNow()
      requires Sound()
      modifies this`held, this`waiters, this`futures
      ensures Sound() && Abs() == HandOver(old(Abs()))
      ensures futures.Keys == old(futures.Keys)
    {
      while CurrentUse() < capacity
        invariant Sound()
        invariant HandOver(Abs()) == HandOver(old(Abs()))
        invariant futures.Keys == old(futures.Keys)
        decreases |Abs().queued.interactive| + |Abs().queued.background|
      {
        var next := NextPriority();
        if next.None? {
          return;
        }
        GrantFirst(next.value);
      }
    }

    // `popleft().set_result(None)`: the first future of the deque is pending, and is resolved.
    method GrantFirst(p: Priority)
      requires Sound()
      requires waiters.Get(p) != [] && futures[waiters.Get(p)[0]].state.Pending?
      modifies this`held, this`waiters, this`futures
      ensures Sound()
      ensures futures.Keys == old(futures.Keys)
      ensures old(Abs().queued.Get(p)) != [] && Abs() == Grant(old(Abs()), p)
    {
      ghost var s := Abs();
      var t := waiters.Get(p)[0];
      ghost var resolved := futures[t := futures[t].(state := Resolved)];
      ResolveFirst(waiters.Get(p), futures, resolved, p);
      ResolveGrants(futures, t);
      var o := if p.Interactive? then Background else Interactive;
      OtherFuture(waiters.Get(o), futures, resolved, o, t);
      GrantCounts(s, p);
      held := held.Add(p, 1);
      waiters := waiters.Set(p, waiters.Get(p)[1..]);
      futures := futures[t := futures[t].(state := Resolved)];
      assert Abs() == Grant(s, p);
    }

    // Cancelled futures at the front of a deque are dropped; then the priority to serve is
    // chosen. The plain queues do not change.
    method NextPriority() returns (next: Option<Priority>)
      requires Sound()
      modifies this`waiters
      ensures Sound() && Abs() == old(Abs())
      ensures next == Next(Abs())
      ensures next.Some? ==> waiters.Get(next.value) != [] && futures[waiters.Get(next.value)[0]].state.Pending?
    {
      DropDone(Interactive);
      DropDone(Background);
      var interactive := waiters.interactive != [] && MayTakeNow(Interactive);
      var background := waiters.background != [] && MayTakeNow(Background);
      if interactive && background {
        var limit := Max(1, capacity - 1);
        if held.interactive >= limit {
          return Some(Background);
        }
      }
      if interactive {
        return Some(Interactive);
      }
      if background {
        return Some(Background);
      }
      return None;
    }

    method PopLeft(p: Priority)
      requires Sound() && waiters.Get(p) != [] && futures[waiters.Get(p)[0]].Done()
      modifies this`waiters
      ensures Sound() && Abs() == old(Abs())
      ensures waiters == old(waiters.Set(p, waiters.Get(p)[1..]))
    {
      DropFirst(waiters, futures, holding, p);
      waiters := waiters.Set(p, waiters.Get(p)[1..]);
    }

    method DropDone(p: Priority)
      requires Sound()
      modifies this`waiters
      ensures Sound() && Abs() == old(Abs())
      ensures waiters.Get(p) != [] ==> futures[waiters.Get(p)[0]].state.Pending?
      ensures forall o :: o != p ==> waiters.Get(o) == old(waiters).Get(o)
      ensures waiters.Get(p) == [] <==> Abs().queued.Get(p) == []
    {
      while waiters.Get(p) != [] && futures[waiters.Get(p)[0]].Done()
        invariant Sound() && Abs() == old(Abs())
        invariant forall o :: o != p ==> waiters.Get(o) == old(waiters).Get(o)
        decreases |waiters.Get(p)|
      {
        PopLeft(p);
      }
      LiveLane(waiters, futures, p);
      if waiters.Get(p) != [] {
        assert waiters.Get(p)[0] in Abs().queued.Get(p);
      }
    }
  }
}
