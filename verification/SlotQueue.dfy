/**
  The reference model of priority slots: two plain first-in, first-out lanes of
  pending calls, the calls a slot was handed to, and the calls that hold one.

  There is no counter and no future here. How many slots a priority holds is the
  number of calls that hold one or were promised one, so a leaked slot cannot be
  expressed. `PrioritySlots` is proved to refine this model step by step; the
  lemmas below say what the model promises over whole runs.
*/
module SlotQueue {
  import opened Options

  datatype Priority = Interactive | Background

  type Task = nat

  // One queue of calls for each priority.
  datatype Lanes = Lanes(interactive: seq<Task>, background: seq<Task>) {
    function Get(p: Priority): seq<Task> {
      if p.Interactive? then interactive else background
    }

    function Set(p: Priority, q: seq<Task>): Lanes {
      if p.Interactive? then this.(interactive := q) else this.(background := q)
    }
  }

  datatype State = State(
    capacity: nat,
    reserved: nat,
    queued: Lanes,                   // calls waiting for a slot
    granted: map<Task, Priority>,    // calls a slot was handed to, not yet running
    holding: map<Task, Priority>     // calls running with a slot
  )

  // What happens to a call. `Withdraw` is the cancellation of a call that waits;
  // `GiveUp` is a cancellation that reaches a call after its slot was granted.
  datatype Event =
    | Arrive(t: Task, p: Priority)
    | Withdraw(t: Task)
    | Resume(t: Task)
    | GiveUp(t: Task)
    | Release(t: Task)

  function At(m: map<Task, Priority>, p: Priority): set<Task> {
    set t | t in m && m[t] == p
  }

  function Held(s: State, p: Priority): nat {
    |At(s.granted, p)| + |At(s.holding, p)|
  }

  function InUse(s: State): nat {
    Held(s, Interactive) + Held(s, Background)
  }

  predicate MayTake(s: State, p: Priority) {
    && InUse(s) < s.capacity
    && (p.Background? ==> Held(s, Background) + s.reserved < s.capacity)
  }

  predicate Ready(s: State, p: Priority) {
    s.queued.Get(p) != [] && MayTake(s, p)
  }

  function Max(a: int, b: int): int {
    if a >= b then a else b
  }

  // The priority whose first waiter gets the free slot.
  function Next(s: State): Option<Priority> {
    if Ready(s, Interactive) && Ready(s, Background) && Held(s, Interactive) >= Max(1, s.capacity - 1) then
      Some(Background)
    else if Ready(s, Interactive) then Some(Interactive)
    else if Ready(s, Background) then Some(Background)
    else None
  }

  function Grant(s: State, p: Priority): State
    requires s.queued.Get(p) != []
  {
    var q := s.queued.Get(p);
    s.(queued := s.queued.Set(p, q[1..]), granted := s.granted[q[0] := p])
  }

  function HandOver(s: State): State
    decreases |s.queued.interactive| + |s.queued.background|
  {
    if Next(s).None? then s else HandOver(Grant(s, Next(s).value))
  }

  // The elements of `q` that are not in `gone`, in order.
  function Without(q: seq<Task>, gone: set<Task>): seq<Task> {
    if q == [] then []
    else if q[0] in gone then Without(q[1..], gone)
    else [q[0]] + Without(q[1..], gone)
  }

  predicate Known(s: State, t: Task) {
    t in s.queued.interactive || t in s.queued.background || t in s.granted || t in s.holding
  }

  predicate Enabled(s: State, e: Event) {
    match e
    case Arrive(t, p) => !Known(s, t)
    case Withdraw(t) => t in s.queued.interactive || t in s.queued.background
    case Resume(t) => t in s.granted
    case GiveUp(t) => t in s.granted
    case Release(t) => t in s.holding
  }

  function Step(s: State, e: Event): State
    requires Enabled(s, e)
  {
    match e
    case Arrive(t, p) =>
      if MayTake(s, p) then s.(holding := s.holding[t := p])
      else s.(queued := s.queued.Set(p, s.queued.Get(p) + [t]))
    case Withdraw(t) =>
      s.(queued := Lanes(Without(s.queued.interactive, {t}), Without(s.queued.background, {t})))
    case Resume(t) =>
      s.(granted := s.granted - {t}, holding := s.holding[t := s.granted[t]])
    case GiveUp(t) => HandOver(s.(granted := s.granted - {t}))
    case Release(t) => HandOver(s.(holding := s.holding - {t}))
  }

  // ---------------------------------------------------------------------------
  // The invariant: limits, disjoint places, work conservation
  // ---------------------------------------------------------------------------

  ghost predicate Distinct(q: seq<Task>) {
    forall i, j :: 0 <= i < j < |q| ==> q[i] != q[j]
  }

  ghost predicate Apart(s: State) {
    && Distinct(s.queued.interactive)
    && Distinct(s.queued.background)
    && (forall t :: t in s.queued.interactive ==> t !in s.queued.background && t !in s.granted && t !in s.holding)
    && (forall t :: t in s.queued.background ==> t !in s.granted && t !in s.holding)
    && s.granted.Keys !! s.holding.Keys
  }

  ghost predicate Limits(s: State) {
    && s.reserved < s.capacity
    && InUse(s) <= s.capacity
    && Held(s, Background) <= s.capacity - s.reserved
  }

  // A free slot and a caller that may take it never exist together.
  ghost predicate WorkConserving(s: State) {
    forall p :: s.queued.Get(p) != [] ==> !MayTake(s, p)
  }

  ghost predicate Invariant(s: State) {
    Apart(s) && Limits(s) && WorkConserving(s)
  }

  // --- counting ---------------------------------------------------------------

  lemma AtAdd(m: map<Task, Priority>, t: Task, p: Priority)
    requires t !in m
    ensures |At(m[t := p], p)| == |At(m, p)| + 1
    ensures forall q :: q != p ==> At(m[t := p], q) == At(m, q)
  {
    assert At(m[t := p], p) == At(m, p) + {t};
    forall q | q != p ensures At(m[t := p], q) == At(m, q) {}
  }

  lemma AtRemove(m: map<Task, Priority>, t: Task)
    requires t in m
    ensures |At(m - {t}, m[t])| == |At(m, m[t])| - 1
    ensures forall q :: q != m[t] ==> At(m - {t}, q) == At(m, q)
  {
    assert At(m, m[t]) == At(m - {t}, m[t]) + {t};
    forall q | q != m[t] ensures At(m - {t}, q) == At(m, q) {}
  }

  lemma GrantCounts(s: State, p: Priority)
    requires Apart(s) && s.queued.Get(p) != []
    ensures Apart(Grant(s, p))
    ensures Held(Grant(s, p), p) == Held(s, p) + 1
    ensures forall q :: q != p ==> Held(Grant(s, p), q) == Held(s, q)
  {
    var t := s.queued.Get(p)[0];
    AtAdd(s.granted, t, p);
    var s' := Grant(s, p);
    assert forall u :: u in s'.queued.Get(p) ==> u in s.queued.Get(p);
    assert t !in s'.queued.Get(p);
  }

  // --- lanes --------------------------------------------------------------------

  lemma {:induction false} WithoutMembers(q: seq<Task>, gone: set<Task>)
    ensures forall t :: t in Without(q, gone) <==> t in q && t !in gone
    ensures Distinct(q) ==> Distinct(Without(q, gone))
  {
    if q != [] {
      WithoutMembers(q[1..], gone);
      assert q == [q[0]] + q[1..];
      if Distinct(q) {
        assert forall i, j :: 0 <= i < j < |q[1..]| ==> q[1..][i] == q[i + 1] && q[1..][j] == q[j + 1];
        assert q[0] !in q[1..];
      }
    }
  }

  lemma {:induction false} WithoutAppend(a: seq<Task>, b: seq<Task>, gone: set<Task>)
    ensures Without(a + b, gone) == Without(a, gone) + Without(b, gone)
  {
    if a == [] {
      assert a + b == b;
    } else {
      assert (a + b)[1..] == a[1..] + b;
      WithoutAppend(a[1..], b, gone);
    }
  }

  // Only the members of `q` decide what is dropped from it.
  lemma {:induction false} WithoutAgree(q: seq<Task>, a: set<Task>, b: set<Task>)
    requires forall t :: t in q ==> (t in a <==> t in b)
    ensures Without(q, a) == Without(q, b)
  {
    if q != [] {
      assert forall t :: t in q[1..] ==> t in q;
      WithoutAgree(q[1..], a, b);
    }
  }

  lemma {:induction false} WithoutTwice(q: seq<Task>, a: set<Task>, b: set<Task>)
    ensures Without(Without(q, a), b) == Without(q, a + b)
  {
    if q != [] {
      WithoutTwice(q[1..], a, b);
      if q[0] !in a {
        assert Without(q, a)[1..] == Without(q[1..], a);
      }
    }
  }

  lemma {:induction false} WithoutNone(q: seq<Task>, gone: set<Task>)
    requires forall t :: t in q ==> t !in gone
    ensures Without(q, gone) == q
  {
    if q != [] {
      assert forall t :: t in q[1..] ==> t in q;
      WithoutNone(q[1..], gone);
    }
  }

  // --- one step -----------------------------------------------------------------

  ghost predicate GivenBack(s: State, s1: State, p: Priority) {
    && s1.capacity == s.capacity && s1.reserved == s.reserved && s1.queued == s.queued
    && Apart(s1)
    && Held(s1, p) == Held(s, p) - 1
    && forall q :: q != p ==> Held(s1, q) == Held(s, q)
  }

  lemma NoSecondGrant(s: State, s1: State, p: Priority)
    requires Invariant(s) && GivenBack(s, s1, p) && Next(s1).Some?
    ensures Invariant(Grant(s1, Next(s1).value))
  {
    var n := Next(s1).value;
    GrantCounts(s1, n);
    var s2 := Grant(s1, n);
    assert InUse(s2) == InUse(s);
    assert forall q :: s2.queued.Get(q) != [] ==> s.queued.Get(q) != [];
    if InUse(s) < s.capacity {
      assert s.queued.interactive == [] by { assert !(s.queued.Get(Interactive) != []) || !MayTake(s, Interactive); }
      assert n.Background?;
      assert p.Background?;
    }
    assert Held(s2, Background) <= s.capacity - s.reserved;
  }

  // Before one slot was given back nothing could be granted: giving it back grants at most
  // one call, whatever the two queues hold.
  lemma GiveBack(s: State, s1: State, p: Priority)
    requires Invariant(s) && GivenBack(s, s1, p)
    ensures HandOver(s1) == if Next(s1).None? then s1 else Grant(s1, Next(s1).value)
    ensures Invariant(HandOver(s1))
  {
    if Next(s1).Some? {
      NoSecondGrant(s, s1, p);
      var s2 := Grant(s1, Next(s1).value);
      assert Next(s2).None? by {
        assert !Ready(s2, Interactive) && !Ready(s2, Background);
      }
      assert HandOver(s2) == s2;
    } else {
      forall q | s1.queued.Get(q) != [] ensures !MayTake(s1, q) {
        assert !Ready(s1, q);
      }
    }
  }

  lemma StepCounts(s: State, e: Event)
    requires Apart(s) && Enabled(s, e)
    ensures e.GiveUp? ==> GivenBack(s, s.(granted := s.granted - {e.t}), s.granted[e.t])
    ensures e.Release? ==> GivenBack(s, s.(holding := s.holding - {e.t}), s.holding[e.t])
    ensures e.Resume? ==> Apart(Step(s, e)) && forall p :: Held(Step(s, e), p) == Held(s, p)
  {
    match e
    case Arrive(t, p) =>
    case Withdraw(t) =>
    case Resume(t) =>
      AtRemove(s.granted, t);
      AtAdd(s.holding, t, s.granted[t]);
    case GiveUp(t) => AtRemove(s.granted, t);
    case Release(t) => AtRemove(s.holding, t);
  }

  // --- who is served ------------------------------------------------------------

  // The calls of a priority that have a slot, or were handed one, but for `t`.
  function Calls(s: State, p: Priority, but: set<Task>): set<Task> {
    set t | t in s.granted.Keys + s.holding.Keys && t !in but &&
            (if t in s.granted then s.granted[t] == p else s.holding[t] == p)
  }

  lemma HeldIsCalls(s: State, p: Priority)
    requires s.granted.Keys !! s.holding.Keys
    ensures Held(s, p) == |Calls(s, p, {})|
  {
    assert Calls(s, p, {}) == At(s.granted, p) + At(s.holding, p);
    assert At(s.granted, p) !! At(s.holding, p);
  }

  lemma CallsWithout(s: State, t: Task, p: Priority)
    requires Apart(s) && (t in s.granted || t in s.holding)
    ensures var s1 := s.(granted := s.granted - {t}, holding := s.holding - {t});
            Held(s1, p) == |Calls(s, p, {t})|
  {
    var s1 := s.(granted := s.granted - {t}, holding := s.holding - {t});
    HeldIsCalls(s1, p);
    assert Calls(s1, p, {}) == Calls(s, p, {t});
  }

  // With a slot free, one hand-over.
  lemma HandsOver(s1: State)
    requires InUse(s1) < s1.capacity
    ensures
      var interactive, background := Held(s1, Interactive), Held(s1, Background);
      var most := if s1.capacity > 2 then s1.capacity - 1 else 1;
      var allowed := s1.queued.background != [] && background < s1.capacity - s1.reserved;
      (if Next(s1).None? then s1 else Grant(s1, Next(s1).value)) ==
        if allowed && (s1.queued.interactive == [] || interactive >= most) then
          s1.(queued := Lanes(s1.queued.interactive, s1.queued.background[1..]),
              granted := s1.granted[s1.queued.background[0] := Background])
        else if s1.queued.interactive != [] then
          s1.(queued := Lanes(s1.queued.interactive[1..], s1.queued.background),
              granted := s1.granted[s1.queued.interactive[0] := Interactive])
        else s1
  {
  }

  lemma AfterGivingBack(s: State, e: Event)
    requires Invariant(s) && Enabled(s, e) && (e.Release? || e.GiveUp?)
    ensures
      var s1 := s.(granted := s.granted - {e.t}, holding := s.holding - {e.t});
      && InUse(s1) < s1.capacity
      && Step(s, e) == if Next(s1).None? then s1 else Grant(s1, Next(s1).value)
  {
    var s1 := s.(granted := s.granted - {e.t}, holding := s.holding - {e.t});
    assert s1 == if e.Release? then s.(holding := s.holding - {e.t}) else s.(granted := s.granted - {e.t});
    StepCounts(s, e);
    GiveBack(s, s1, if e.Release? then s.holding[e.t] else s.granted[e.t]);
  }

  /** Which call gets the slot that comes back, and what it leaves: the first background caller exactly
      if it may take the slot and nobody interactive waits or interactive calls already hold all slots
      but one, and more than none; otherwise the first interactive caller, if there is one. */
  lemma ServedByPriority(s: State, e: Event)
    requires Invariant(s) && Enabled(s, e) && (e.Release? || e.GiveUp?)
    ensures
      var interactive, background := |Calls(s, Interactive, {e.t})|, |Calls(s, Background, {e.t})|;
      var most := if s.capacity > 2 then s.capacity - 1 else 1;
      var allowed := s.queued.background != [] && background < s.capacity - s.reserved;
      var s1 := s.(granted := s.granted - {e.t}, holding := s.holding - {e.t});
      Step(s, e) ==
        if allowed && (s.queued.interactive == [] || interactive >= most) then
          s1.(queued := Lanes(s.queued.interactive, s.queued.background[1..]),
              granted := s1.granted[s.queued.background[0] := Background])
        else if s.queued.interactive != [] then
          s1.(queued := Lanes(s.queued.interactive[1..], s.queued.background),
              granted := s1.granted[s.queued.interactive[0] := Interactive])
        else s1
  {
    AfterGivingBack(s, e);
    HandsOver(s.(granted := s.granted - {e.t}, holding := s.holding - {e.t}));
    CallsWithout(s, e.t, Interactive);
    CallsWithout(s, e.t, Background);
  }

  // The call has a slot, granted or taken up.
  predicate HasSlot(s: State, t: Task, p: Priority) {
    (t in s.granted && s.granted[t] == p) || (t in s.holding && s.holding[t] == p)
  }

  /** A call keeps the slot it has until it gives it up or releases it, and holds it from the step
      in which it resumes, or arrives without having to wait. */
  lemma SlotIsKept(s: State, e: Event, t: Task, p: Priority)
    requires Invariant(s) && Enabled(s, e)
    ensures HasSlot(s, t, p) && e != GiveUp(t) && e != Release(t) ==> HasSlot(Step(s, e), t, p)
    ensures t in Step(s, e).holding <==>
            (t in s.holding && e != Release(t)) || e == Resume(t) ||
            (e.Arrive? && e.t == t && t !in Step(s, e).queued.interactive && t !in Step(s, e).queued.background)
  {
    if e.Release? || e.GiveUp? {
      ServedByPriority(s, e);
    }
  }

  /** A call that arrives gets a slot at once exactly if one is free and, for background work, the
      reserved ones stay free or interactive; and otherwise is the last of its queue. */
  lemma ServedAtOnce(s: State, t: Task, p: Priority)
    requires Apart(s) && !Known(s, t)
    ensures
      var interactive, background := |Calls(s, Interactive, {})|, |Calls(s, Background, {})|;
      Step(s, Arrive(t, p)) ==
        if interactive + background < s.capacity && (p.Background? ==> background < s.capacity - s.reserved) then
          s.(holding := s.holding[t := p])
        else if p.Interactive? then
          s.(queued := Lanes(s.queued.interactive + [t], s.queued.background))
        else s.(queued := Lanes(s.queued.interactive, s.queued.background + [t]))
  {
    HeldIsCalls(s, Interactive);
    HeldIsCalls(s, Background);
  }

  lemma ArriveKeepsInvariant(s: State, t: Task, p: Priority)
    requires Invariant(s) && !Known(s, t)
    ensures Invariant(Step(s, Arrive(t, p)))
  {
    var s' := Step(s, Arrive(t, p));
    if MayTake(s, p) {
      AtAdd(s.holding, t, p);
      forall q | s'.queued.Get(q) != [] ensures !MayTake(s', q) {
        assert s.queued.Get(q) != [];
      }
    } else {
      assert forall u :: u in s'.queued.Get(p) ==> u in s.queued.Get(p) || u == t;
      forall q | s'.queued.Get(q) != [] ensures !MayTake(s', q) {
        assert q != p ==> s.queued.Get(q) != [];
      }
    }
  }

  // Every step of acquire, release and cancellation keeps the slot limits and never leaves a
  // free slot beside a caller that may take it.
  lemma StepKeepsInvariant(s: State, e: Event)
    requires Invariant(s) && Enabled(s, e)
    ensures Invariant(Step(s, e))
  {
    StepCounts(s, e);
    var s' := Step(s, e);
    match e
    case Arrive(t, p) => ArriveKeepsInvariant(s, t, p);
    case Withdraw(t) =>
      WithoutMembers(s.queued.interactive, {t});
      WithoutMembers(s.queued.background, {t});
      forall q | s'.queued.Get(q) != [] ensures !MayTake(s', q) {
        assert s'.queued.Get(q)[0] in s.queued.Get(q);
      }
    case Resume(t) =>
      forall q | s'.queued.Get(q) != [] ensures !MayTake(s', q) {
        assert s.queued.Get(q) != [];
      }
    case GiveUp(t) => GiveBack(s, s.(granted := s.granted - {t}), s.granted[t]);
    case Release(t) => GiveBack(s, s.(holding := s.holding - {t}), s.holding[t]);
  }

  // One release grants at most one call, and that call is the head of its lane.
  lemma ReleaseGrantsAtMostOne(s: State, e: Event)
    requires Invariant(s) && Enabled(s, e) && (e.Release? || e.GiveUp?)
    ensures Step(s, e).queued == s.queued
            || exists p :: s.queued.Get(p) != []
                           && Step(s, e).queued == s.queued.Set(p, s.queued.Get(p)[1..])
                           && Step(s, e).granted.Keys == (s.granted.Keys - {e.t}) + {s.queued.Get(p)[0]}
  {
    StepCounts(s, e);
    var s1 := if e.Release? then s.(holding := s.holding - {e.t}) else s.(granted := s.granted - {e.t});
    GiveBack(s, s1, if e.Release? then s.holding[e.t] else s.granted[e.t]);
    if Next(s1).Some? {
      assert s.queued.Get(Next(s1).value) != [];
      assert Step(s, e) == Grant(s1, Next(s1).value);
      if e.Release? { assert e.t !in s.granted; }
    }
  }

  // ---------------------------------------------------------------------------
  // Runs
  // ---------------------------------------------------------------------------

  // Who called, who got a slot and who withdrew, in order, since the run began.
  datatype Log = Log(called: Lanes, served: Lanes, withdrawn: set<Task>)

  datatype Run = Run(state: State, log: Log)

  function Empty(capacity: nat, reserved: nat): State {
    State(capacity, reserved, Lanes([], []), map[], map[])
  }

  function NoLog(): Log {
    Log(Lanes([], []), Lanes([], []), {})
  }

  // A task id names one call: it is used for one `Arrive` only.
  predicate Possible(r: Run, e: Event) {
    Enabled(r.state, e) && (e.Arrive? ==> e.t !in r.log.called.interactive && e.t !in r.log.called.background)
  }

  // The calls of lane `p` that a step served: those that left its front.
  function ServedBy(s: State, e: Event, p: Priority): seq<Task>
    requires Enabled(s, e)
  {
    if e.Arrive? then (if e.p == p && MayTake(s, p) then [e.t] else [])
    else if e.Release? || e.GiveUp? then
      var before, after := s.queued.Get(p), Step(s, e).queued.Get(p);
      if |after| <= |before| then before[..|before| - |after|] else []
    else []
  }

  function Advance(r: Run, e: Event): Run
    requires Possible(r, e)
  {
    var log := r.log;
    Run(
      Step(r.state, e),
      Log(
        if e.Arrive? then log.called.Set(e.p, log.called.Get(e.p) + [e.t]) else log.called,
        Lanes(log.served.interactive + ServedBy(r.state, e, Interactive),
              log.served.background + ServedBy(r.state, e, Background)),
        if e.Withdraw? then log.withdrawn + {e.t} else log.withdrawn))
  }

  ghost predicate Runs(r: Run, es: seq<Event>)
    decreases |es|
  {
    es == [] || (Possible(r, es[0]) && Runs(Advance(r, es[0]), es[1..]))
  }

  function After(r: Run, es: seq<Event>): Run
    requires Runs(r, es)
    decreases |es|
  {
    if es == [] then r else After(Advance(r, es[0]), es[1..])
  }

  // The callers of one priority that did not withdraw are served in arrival order, and
  // those not served yet are exactly the queue.
  ghost predicate InArrivalOrder(r: Run) {
    forall p :: Without(r.log.called.Get(p), r.log.withdrawn) == r.log.served.Get(p) + r.state.queued.Get(p)
  }

  ghost predicate Recorded(r: Run) {
    && Invariant(r.state)
    && InArrivalOrder(r)
    && (forall p, t :: t in r.log.called.Get(p) ==>
      t !in r.log.called.Get(if p.Interactive? then Background else Interactive))
    && (forall t :: t in r.log.withdrawn ==> t in r.log.called.interactive || t in r.log.called.background)
    && (forall p :: Distinct(r.log.called.Get(p)))
  }

  // What one step does to lane `p`: the arrivals it adds, the calls it serves from the front.
  lemma LaneStep(s: State, e: Event, p: Priority)
    requires Invariant(s) && Enabled(s, e)
    ensures e.Arrive? && e.p == p ==>
              s.queued.Get(p) + [e.t] == ServedBy(s, e, p) + Step(s, e).queued.Get(p)
    ensures e.Arrive? && e.p != p ==> ServedBy(s, e, p) == [] && Step(s, e).queued.Get(p) == s.queued.Get(p)
    ensures e.Withdraw? ==> ServedBy(s, e, p) == [] && Step(s, e).queued.Get(p) == Without(s.queued.Get(p), {e.t})
    ensures e.Resume? ==> ServedBy(s, e, p) == [] && Step(s, e).queued.Get(p) == s.queued.Get(p)
    ensures e.Release? || e.GiveUp? ==> s.queued.Get(p) == ServedBy(s, e, p) + Step(s, e).queued.Get(p)
  {
    if e.Arrive? {
      assert MayTake(s, p) ==> s.queued.Get(p) == [];
    } else if e.Release? || e.GiveUp? {
      ReleaseGrantsAtMostOne(s, e);
      var before, after := s.queued.Get(p), Step(s, e).queued.Get(p);
      assert after == before || (before != [] && after == before[1..]);
    }
  }

  lemma ArriveKeepsOrder(called: seq<Task>, served: seq<Task>, queue: seq<Task>, gone: set<Task>, t: Task,
                         more: seq<Task>, queue': seq<Task>)
    requires Without(called, gone) == served + queue && t !in gone
    requires queue + [t] == more + queue'
    ensures Without(called + [t], gone) == (served + more) + queue'
  {
    WithoutAppend(called, [t], gone);
    assert Without([t], gone) == [t];
    assert (served + queue) + [t] == served + (queue + [t]);
  }

  // The caller that withdraws was not served: it stands once in the record.
  lemma NotBoth(a: seq<Task>, b: seq<Task>, t: Task)
    requires Distinct(a + b) && t in b
    ensures t !in a
  {
    var j :| 0 <= j < |b| && b[j] == t;
    forall i | 0 <= i < |a| ensures a[i] != t {
      assert (a + b)[i] != (a + b)[|a| + j];
    }
  }

  lemma WithdrawKeepsOrder(called: seq<Task>, served: seq<Task>, queue: seq<Task>, gone: set<Task>, t: Task)
    requires Without(called, gone) == served + queue && Distinct(called)
    requires t in called ==> t in queue
    ensures Without(called, gone + {t}) == served + Without(queue, {t})
  {
    WithoutTwice(called, gone, {t});
    WithoutAppend(served, queue, {t});
    WithoutMembers(called, gone);
    if t in served {
      assert t in served + queue;
      NotBoth(served, queue, t);
    }
    WithoutNone(served, {t});
  }

  lemma AdvanceLane(r: Run, e: Event, p: Priority)
    requires Possible(r, e)
    ensures var r' := Advance(r, e);
            && r'.log.called.Get(p) == r.log.called.Get(p) + (if e.Arrive? && e.p == p then [e.t] else [])
            && r'.log.served.Get(p) == r.log.served.Get(p) + ServedBy(r.state, e, p)
            && r'.log.withdrawn == r.log.withdrawn + (if e.Withdraw? then {e.t} else {})
            && r'.state == Step(r.state, e)
  {
  }

  lemma OrderStep(r: Run, e: Event, p: Priority)
    requires Recorded(r) && Possible(r, e)
    ensures Without(Advance(r, e).log.called.Get(p), Advance(r, e).log.withdrawn)
         == Advance(r, e).log.served.Get(p) + Advance(r, e).state.queued.Get(p)
  {
    AdvanceLane(r, e, p);
    LaneStep(r.state, e, p);
    if e.Withdraw? { WithdrawnIsQueued(r, e, p); }
    OrderOfLane(e, p, r.log.called.Get(p), r.log.served.Get(p), r.state.queued.Get(p), r.log.withdrawn,
                ServedBy(r.state, e, p), Step(r.state, e).queued.Get(p));
  }

  lemma OrderOfLane(e: Event, p: Priority, called: seq<Task>, served: seq<Task>, queue: seq<Task>, gone: set<Task>,
                    more: seq<Task>, queue': seq<Task>)
    requires Without(called, gone) == served + queue && Distinct(called)
    requires e.Arrive? ==> e.t !in gone
    requires e.Arrive? && e.p == p ==> queue + [e.t] == more + queue'
    requires e.Withdraw? ==> more == [] && queue' == Without(queue, {e.t}) && (e.t in called ==> e.t in queue)
    requires !(e.Arrive? && e.p == p) && !e.Withdraw? ==> queue == more + queue'
    ensures Without(called + (if e.Arrive? && e.p == p then [e.t] else []), gone + (if e.Withdraw? then {e.t} else {}))
         == (served + more) + queue'
  {
    if e.Arrive? && e.p == p {
      ArriveKeepsOrder(called, served, queue, gone, e.t, more, queue');
      assert gone + {} == gone;
    } else {
      assert called + [] == called && gone + {} == gone;
      if e.Withdraw? {
        WithdrawKeepsOrder(called, served, queue, gone, e.t);
        assert served + [] == served;
      } else {
        assert served + (more + queue') == (served + more) + queue';
      }
    }
  }

  lemma WithdrawnIsQueued(r: Run, e: Event, p: Priority)
    requires Recorded(r) && Possible(r, e) && e.Withdraw?
    ensures exists o: Priority :: e.t in r.log.called.Get(o)
    ensures e.t in r.log.called.Get(p) ==> e.t in r.state.queued.Get(p)
  {
    var o := if e.t in r.state.queued.interactive then Interactive else Background;
    assert e.t in r.state.queued.Get(o);
    WithoutMembers(r.log.called.Get(o), r.log.withdrawn);
    assert e.t in r.log.served.Get(o) + r.state.queued.Get(o);
    assert e.t in r.log.called.Get(o);
  }

  lemma AdvanceKeepsRecord(r: Run, e: Event)
    requires Recorded(r) && Possible(r, e)
    ensures Recorded(Advance(r, e))
  {
    var r' := Advance(r, e);
    assert Invariant(r'.state) by { StepKeepsInvariant(r.state, e); }
    assert InArrivalOrder(r') by {
      OrderStep(r, e, Interactive);
      OrderStep(r, e, Background);
    }
    if e.Withdraw? {
      WithdrawnIsQueued(r, e, Interactive);
    }
    RecordGrows(r, e);
  }

  lemma RecordGrows(r: Run, e: Event)
    requires Recorded(r) && Possible(r, e)
    requires e.Withdraw? ==> exists o: Priority :: e.t in r.log.called.Get(o)
    ensures var log := Advance(r, e).log;
            && (forall p, t :: t in log.called.Get(p) ==>
              t !in log.called.Get(if p.Interactive? then Background else Interactive))
            && (forall t :: t in log.withdrawn ==> t in log.called.interactive || t in log.called.background)
            && (forall p :: Distinct(log.called.Get(p)))
  {
    if e.Withdraw? {
      var o: Priority :| e.t in r.log.called.Get(o);
    }
  }

  // First come, first served, over any run: at every point the callers of a priority that
  // did not withdraw are the ones served so far, in arrival order, followed by the queue.
  // In particular no newcomer is served before an earlier pending caller of its priority.
  lemma {:induction false} FirstComeFirstServed(r: Run, es: seq<Event>)
    requires Recorded(r) && Runs(r, es)
    ensures Recorded(After(r, es))
    decreases |es|
  {
    if es != [] {
      AdvanceKeepsRecord(r, es[0]);
      FirstComeFirstServed(Advance(r, es[0]), es[1..]);
    }
  }

  lemma FirstComeFirstServedFromEmpty(capacity: nat, reserved: nat, es: seq<Event>)
    requires reserved < capacity && Runs(Run(Empty(capacity, reserved), NoLog()), es)
    ensures InArrivalOrder(After(Run(Empty(capacity, reserved), NoLog()), es))
    ensures Invariant(After(Run(Empty(capacity, reserved), NoLog()), es).state)
  {
    var r := Run(Empty(capacity, reserved), NoLog());
    assert At(map[], Interactive) == {} && At(map[], Background) == {};
    FirstComeFirstServed(r, es);
  }

  // ---------------------------------------------------------------------------
  // Background work is not starved
  // ---------------------------------------------------------------------------

  // Background work waits throughout the run.
  ghost predicate BackgroundWaits(r: Run, es: seq<Event>)
    requires Runs(r, es)
    decreases |es|
  {
    && r.state.queued.background != []
    && (es == [] || BackgroundWaits(Advance(r, es[0]), es[1..]))
  }

  // A slot came back at some point of the run.
  predicate SlotGivenBack(es: seq<Event>) {
    exists i :: 0 <= i < |es| && (es[i].Release? || es[i].GiveUp?)
  }

  // While a background caller waits, interactive callers stay at or below capacity - 1 once
  // they are there, and a slot given back takes them there.
  lemma ShareStep(s: State, e: Event)
    requires Invariant(s) && Enabled(s, e) && s.capacity >= 2
    requires s.queued.background != [] && Step(s, e).queued.background != []
    ensures Held(s, Interactive) <= s.capacity - 1 ==> Held(Step(s, e), Interactive) <= s.capacity - 1
    ensures e.Release? || e.GiveUp? ==> Held(Step(s, e), Interactive) <= s.capacity - 1
  {
    StepCounts(s, e);
    assert !MayTake(s, Background);
    match e
    case Arrive(t, p) =>
      if MayTake(s, p) { AtAdd(s.holding, t, p); }
    case Withdraw(t) =>
    case Resume(t) =>
    case GiveUp(t) => ShareAfterGiveBack(s, s.(granted := s.granted - {t}), s.granted[t]);
    case Release(t) => ShareAfterGiveBack(s, s.(holding := s.holding - {t}), s.holding[t]);
  }

  lemma ShareAfterGiveBack(s: State, s1: State, p: Priority)
    requires Invariant(s) && s.capacity >= 2 && s.queued.background != []
    requires s1.capacity == s.capacity && s1.reserved == s.reserved && s1.queued == s.queued
    requires GivenBack(s, s1, p)
    ensures Held(HandOver(s1), Interactive) <= s.capacity - 1
  {
    GiveBack(s, s1, p);
    assert !MayTake(s, Background);
    if Next(s1).Some? {
      GrantCounts(s1, Next(s1).value);
    }
  }

  // If interactive callers held every slot when the background caller queued, the very next
  // slot given back goes to a background caller.
  lemma FullHouseGivesToBackground(s: State, e: Event)
    requires Invariant(s) && Enabled(s, e) && s.capacity >= 2
    requires Held(s, Interactive) == s.capacity && s.queued.background != []
    requires e.Release? || e.GiveUp?
    ensures Step(s, e).queued == s.queued.Set(Background, s.queued.background[1..])
    ensures s.queued.background[0] in Step(s, e).granted
  {
    StepCounts(s, e);
    var s1 := if e.Release? then s.(holding := s.holding - {e.t}) else s.(granted := s.granted - {e.t});
    var p := if e.Release? then s.holding[e.t] else s.granted[e.t];
    GiveBack(s, s1, p);
    assert Next(s1) == Some(Background);
  }

  // Bounded starvation, over any run: while background work waits, interactive callers keep
  // to capacity - 1 slots if they started there or as soon as one slot has been given back,
  // and then a background call holds at least one slot.
  lemma {:induction false} BackgroundIsNotStarved(r: Run, es: seq<Event>)
    requires Recorded(r) && Runs(r, es) && BackgroundWaits(r, es)
    requires r.state.capacity >= 2
    requires Held(r.state, Interactive) <= r.state.capacity - 1 || SlotGivenBack(es)
    ensures Held(After(r, es).state, Interactive) <= r.state.capacity - 1
    ensures Held(After(r, es).state, Background) >= 1
    decreases |es|
  {
    if es == [] {
      assert !MayTake(r.state, Background);
    } else {
      var r' := Advance(r, es[0]);
      AdvanceKeepsRecord(r, es[0]);
      HandOverKeepsSize(r.state, es[0]);
      ShareStep(r.state, es[0]);
      if Held(r'.state, Interactive) > r.state.capacity - 1 {
        var i :| 0 <= i < |es| && (es[i].Release? || es[i].GiveUp?);
        assert i != 0;
        assert es[1..][i - 1] == es[i];
      }
      BackgroundIsNotStarved(r', es[1..]);
    }
  }

  lemma HandOverKeepsSize(s: State, e: Event)
    requires Invariant(s) && Enabled(s, e)
    ensures Step(s, e).capacity == s.capacity && Step(s, e).reserved == s.reserved
  {
    StepCounts(s, e);
    match e
    case GiveUp(t) => GiveBack(s, s.(granted := s.granted - {t}), s.granted[t]);
    case Release(t) => GiveBack(s, s.(holding := s.holding - {t}), s.holding[t]);
    case _ =>
  }

  // The plain state claim is not an invariant: interactive callers can hold every slot while
  // a background caller waits.
  lemma WaitingDoesNotBoundInteractive()
    ensures var es := [Arrive(0, Interactive), Arrive(1, Interactive), Arrive(2, Background)];
            && Runs(Run(Empty(2, 0), NoLog()), es)
            && After(Run(Empty(2, 0), NoLog()), es).state.queued.background == [2]
            && Held(After(Run(Empty(2, 0), NoLog()), es).state, Interactive) == 2
  {
    var es := [Arrive(0, Interactive), Arrive(1, Interactive), Arrive(2, Background)];
    var r0 := Run(Empty(2, 0), NoLog());
    InteractiveHolders({});
    assert Step(r0.state, es[0]) == FilledBy({0}) by { assert FilledBy({}).holding == map[]; }
    var r1 := Advance(r0, es[0]);
    InteractiveHolders({0});
    assert Step(r1.state, es[1]) == FilledBy({0, 1});
    var r2 := Advance(r1, es[1]);
    InteractiveHolders({0, 1});
    assert Step(r2.state, es[2]) == FilledBy({0, 1}).(queued := Lanes([], [2]));
    RunOfThree(r0, es);
  }

  function FilledBy(ts: set<Task>): State {
    Empty(2, 0).(holding := map t | t in ts :: Interactive)
  }

  lemma InteractiveHolders(ts: set<Task>)
    ensures Held(FilledBy(ts), Interactive) == |ts| && Held(FilledBy(ts), Background) == 0
  {
    var s := FilledBy(ts);
    assert At(s.holding, Interactive) == ts && At(s.holding, Background) == {};
    assert At(s.granted, Interactive) == {} && At(s.granted, Background) == {};
  }

  lemma RunOfOne(r: Run, es: seq<Event>)
    requires |es| == 1 && Possible(r, es[0])
    ensures Runs(r, es) && After(r, es) == Advance(r, es[0])
  {
    var r1 := Advance(r, es[0]);
    assert es[1..] == [];
    assert Runs(r1, es[1..]) && After(r1, es[1..]) == r1;
  }

  lemma RunOfThree(r: Run, es: seq<Event>)
    requires |es| == 3
    requires Possible(r, es[0]) && Possible(Advance(r, es[0]), es[1])
    requires Possible(Advance(Advance(r, es[0]), es[1]), es[2])
    ensures Runs(r, es) && After(r, es) == Advance(Advance(Advance(r, es[0]), es[1]), es[2])
  {
    var r1 := Advance(r, es[0]);
    var r2 := Advance(r1, es[1]);
    assert es[1..][0] == es[1] && es[1..][1..] == es[2..] && es[2..][0] == es[2] && es[2..][1..] == [];
    RunOfOne(r2, es[2..]);
    assert Runs(r1, es[1..]) && After(r1, es[1..]) == After(r2, es[2..]);
  }
}
