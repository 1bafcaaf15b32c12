/**
  The circuit breaker against the history of its calls. What it answers is a function of the
  failures since the last success or reset, the time of the latest failure, and the probes
  admitted since then.
*/
module CircuitBreaker {
  type Time = real

  datatype State = Closed | Open | HalfOpen

  datatype Config = Config(threshold: int, recovery: Time, maxProbes: int)

  // One call of the breaker, with the clock reading it took.
  datatype Event =
    | Asked(at: Time, rejected: bool)   // is_open
    | Looked(at: Time)                  // state
    | Succeeded(at: Time)
    | Failed(at: Time)
    | Abandoned(at: Time)
    | Reset(at: Time)
  {
    // The call says something about the provider, or clears what was known.
    predicate Resolves() { Succeeded? || Failed? || Reset? }
  }

  type History = seq<Event>

  function Last(h: History): Event
    requires h != []
  {
    h[|h| - 1]
  }

  function Front(h: History): History
    requires h != []
  {
    h[..|h| - 1]
  }

  // ---------------------------------------------------------------------------
  // What the history says
  // ---------------------------------------------------------------------------

  // The failures since the last success or reset.
  function Failures(h: History): nat {
    if h == [] || Last(h).Succeeded? || Last(h).Reset? then 0
    else Failures(Front(h)) + (if Last(h).Failed? then 1 else 0)
  }

  // The time of the latest failure.
  function LastFailure(h: History): Time {
    if h == [] then 0.0 else if Last(h).Failed? then Last(h).at else LastFailure(Front(h))
  }

  // The circuit is not closed. A threshold below one acts like one.
  predicate Tripped(c: Config, h: History) {
    Failures(h) >= 1 && Failures(h) >= c.threshold
  }

  function StateAt(c: Config, h: History, now: Time): State {
    if !Tripped(c, h) then Closed
    else if now - LastFailure(h) >= c.recovery then HalfOpen
    else Open
  }

  // The probes of the current half-open episode that are neither resolved nor given back.
  function Probes(c: Config, h: History): nat {
    if h == [] || Last(h).Resolves() then 0
    else
      var before, e := Probes(c, Front(h)), Last(h);
      if StateAt(c, Front(h), e.at) != HalfOpen then before
      else if e.Asked? && !e.rejected then before + 1
      else if e.Abandoned? && before > 0 then before - 1
      else before
  }

  // What `is_open` has to answer.
  predicate Rejects(c: Config, h: History, now: Time) {
    match StateAt(c, h, now)
    case Closed => false
    case Open => true
    case HalfOpen => Probes(c, h) >= c.maxProbes
  }

  // The clock never runs back, and every answer was the right one.
  ghost predicate Legal(c: Config, h: History) {
    h != [] ==>
      && Legal(c, Front(h))
      && Clock(Front(h)) <= Last(h).at
      && (Last(h).Asked? ==> Last(h).rejected == Rejects(c, Front(h), Last(h).at))
  }

  function Clock(h: History): Time {
    if h == [] then 0.0 else Last(h).at
  }

  // ---------------------------------------------------------------------------
  // The breaker
  // ---------------------------------------------------------------------------

  class Breaker {
    const config: Config
    var state: State
    var failureCount: int
    var lastFailureTime: Time
    var halfOpenAttempts: int
    ghost var history: History

    ghost predicate Valid()
      reads this
    {
      && Legal(config, history)
      && failureCount == Failures(history)
      && lastFailureTime == LastFailure(history)
      && halfOpenAttempts == Probes(config, history)
      && (state.Closed? <==> !Tripped(config, history))
      && (state.HalfOpen? ==> Clock(history) - lastFailureTime >= config.recovery)
      && (!state.HalfOpen? ==> halfOpenAttempts == 0)
    }

    constructor (config: Config)
      ensures Valid() && history == [] && this.config == config
    {
      this.config := config;
      state, failureCount, lastFailureTime, halfOpenAttempts := Closed, 0, 0.0, 0;
      history := [];
    }

    // `_current_state`, at the time of the call.
    method CurrentState(now: Time) returns (current: State)
      requires Valid() && Clock(history) <= now
      modifies this`state, this`halfOpenAttempts
      ensures current == state == StateAt(config, history, now)
      ensures halfOpenAttempts == Probes(config, history)
      ensures !state.HalfOpen? ==> halfOpenAttempts == 0
    {
      if state == Open {
        var elapsed := now - lastFailureTime;
        if elapsed >= config.recovery {
          state := HalfOpen;
          halfOpenAttempts := 0;
        }
      }
      current := state;
    }

    method StateNow(now: Time) returns (current: State)
      requires Valid() && Clock(history) <= now
      modifies this
      ensures Valid() && history == old(history) + [Looked(now)]
      ensures current == StateAt(config, old(history), now)
    {
      current := CurrentState(now);
      history := history + [Looked(now)];
    }

    /** `is_open` */
    method IsOpen(now: Time) returns (open: bool)
      requires Valid() && Clock(history) <= now
      modifies this
      ensures Valid() && history == old(history) + [Asked(now, open)]
      ensures open == Rejects(config, old(history), now)
    {
      var current := CurrentState(now);
      if current == Open {
        open := true;
      } else if current == HalfOpen {
        if halfOpenAttempts >= config.maxProbes {
          open := true;
        } else {
          halfOpenAttempts := halfOpenAttempts + 1;
          open := false;
        }
      } else {
        open := false;
      }
      history := history + [Asked(now, open)];
    }

    method RecordSuccess(now: Time)
      requires Valid() && Clock(history) <= now
      modifies this
      ensures Valid() && history == old(history) + [Succeeded(now)]
    {
      failureCount := 0;
      halfOpenAttempts := 0;
      state := Closed;
      history := history + [Succeeded(now)];
    }

    // The clock is read once for the failure and once more for the state.
    method RecordFailure(now: Time, later: Time)
      requires Valid() && Clock(history) <= now <= later
      modifies this
      ensures Valid() && history == old(history) + [Failed(now)]
    {
      failureCount := failureCount + 1;
      lastFailureTime := now;
      if state == Open && later - lastFailureTime >= config.recovery {
        state := HalfOpen;
        halfOpenAttempts := 0;
      }
      if state == HalfOpen {
        state := Open;
        halfOpenAttempts := 0;
      } else if failureCount >= config.threshold {
        state := Open;
      }
      history := history + [Failed(now)];
    }

    method AbandonProbe(now: Time)
      requires Valid() && Clock(history) <= now
      modifies this
      ensures Valid() && history == old(history) + [Abandoned(now)]
    {
      var current := CurrentState(now);
      if current == HalfOpen && halfOpenAttempts > 0 {
        halfOpenAttempts := halfOpenAttempts - 1;
      }
      history := history + [Abandoned(now)];
    }

    method ForceReset(now: Time)
      requires Valid() && Clock(history) <= now
      modifies this
      ensures Valid() && history == old(history) + [Reset(now)]
    {
      state := Closed;
      failureCount := 0;
      halfOpenAttempts := 0;
      history := history + [Reset(now)];
    }
  }

  // ---------------------------------------------------------------------------
  // What every legal history keeps
  // ---------------------------------------------------------------------------

  lemma {:induction false} PrefixIsLegal(c: Config, h: History, i: nat)
    requires Legal(c, h) && i <= |h|
    ensures Legal(c, h[..i])
    ensures i < |h| ==> Clock(h[..i]) <= h[i].at
    ensures i < |h| && h[i].Asked? ==> h[i].rejected == Rejects(c, h[..i], h[i].at)
  {
    if i == |h| {
      assert h[..i] == h;
    } else if i == |h| - 1 {
      assert h[..i] == Front(h);
    } else {
      PrefixIsLegal(c, Front(h), i);
      assert Front(h)[..i] == h[..i];
    }
  }

  function CountFailed(h: History): nat {
    if h == [] then 0 else CountFailed(Front(h)) + (if Last(h).Failed? then 1 else 0)
  }

  predicate Uninterrupted(h: History) {
    forall k :: 0 <= k < |h| ==> !h[k].Succeeded? && !h[k].Reset?
  }

  // The failures counted are those of the longest stretch without a success or reset.
  lemma {:induction false} FailuresAre(h: History, i: nat)
    requires i <= |h| && Uninterrupted(h[i..])
    ensures CountFailed(h[i..]) <= Failures(h)
  {
    if i < |h| {
      assert Front(h)[i..] == Front(h[i..]) && Last(h[i..]) == Last(h);
      FailuresAre(Front(h), i);
    } else {
      assert h[i..] == [];
    }
  }

  lemma SpanGrows(h: History, i: nat)
    requires h != [] && i <= |h| - 1 && !Last(h).Succeeded? && !Last(h).Reset?
    requires Uninterrupted(Front(h)[i..])
    ensures Uninterrupted(h[i..])
    ensures CountFailed(h[i..]) == CountFailed(Front(h)[i..]) + (if Last(h).Failed? then 1 else 0)
  {
    var span := h[i..];
    assert Front(span) == Front(h)[i..] && Last(span) == Last(h);
    forall k | 0 <= k < |span|
      ensures !span[k].Succeeded? && !span[k].Reset?
    {
      assert k < |span| - 1 ==> span[k] == Front(h)[i..][k];
    }
  }

  lemma {:induction false} FailuresSpan(h: History) returns (i: nat)
    ensures i <= |h| && Uninterrupted(h[i..]) && CountFailed(h[i..]) == Failures(h)
  {
    if h == [] || Last(h).Succeeded? || Last(h).Reset? {
      i := |h|;
      assert h[i..] == [];
    } else {
      i := FailuresSpan(Front(h));
      SpanGrows(h, i);
    }
  }

  /** The circuit is not closed exactly when some stretch of the history without a success or
      reset up to now holds at least the threshold's failures, and at least one. */
  lemma TrippedExactly(c: Config, h: History)
    ensures Tripped(c, h) <==>
      exists i :: 0 <= i <= |h| && Uninterrupted(h[i..]) && CountFailed(h[i..]) >= 1 &&
        CountFailed(h[i..]) >= c.threshold
  {
    var i := FailuresSpan(h);
    if j :| 0 <= j <= |h| && Uninterrupted(h[j..]) && CountFailed(h[j..]) >= 1 && CountFailed(h[j..]) >= c.threshold {
      FailuresAre(h, j);
    }
  }

  lemma {:induction false} LastFailureIsLatest(c: Config, h: History, k: nat)
    requires Legal(c, h) && k < |h| && h[k].Failed?
    ensures h[k].at <= LastFailure(h) <= Clock(h)
  {
    if k == |h| - 1 {
    } else {
      LastFailureIsLatest(c, Front(h), k);
    }
  }

  /** While the circuit is not closed, no call is admitted within the recovery time of any
      failure before it. */
  lemma NoEarlyAdmission(c: Config, h: History, i: nat, k: nat)
    requires Legal(c, h) && k < i < |h| && h[k].Failed?
    requires h[i].Asked? && !h[i].rejected && Tripped(c, h[..i])
    ensures h[i].at - h[k].at >= c.recovery
  {
    PrefixIsLegal(c, h, i);
    LastFailureIsLatest(c, h[..i], k);
  }

  // The admissions of a stretch, and the probes given back in it.
  function Admitted(h: History, i: nat, j: nat): nat
    requires i <= j <= |h|
  {
    if i == j then 0 else Admitted(h, i, j - 1) + (if h[j - 1].Asked? && !h[j - 1].rejected then 1 else 0)
  }

  function GivenBack(c: Config, h: History, i: nat, j: nat): nat
    requires i <= j <= |h|
  {
    if i == j then 0
    else GivenBack(c, h, i, j - 1) + (if GivesBack(c, h[..j - 1], h[j - 1]) then 1 else 0)
  }

  // The call gives a probe back.
  predicate GivesBack(c: Config, h: History, e: Event) {
    e.Abandoned? && StateAt(c, h, e.at) == HalfOpen && Probes(c, h) > 0
  }

  function Cap(c: Config): nat { if c.maxProbes > 0 then c.maxProbes else 0 }

  lemma {:induction false} ProbesCapped(c: Config, h: History)
    requires Legal(c, h)
    ensures Probes(c, h) <= Cap(c)
  {
    if h != [] {
      ProbesCapped(c, Front(h));
    }
  }

  /** From one resolving call that leaves the circuit not closed to the next one: in every half-open episode the
      probes admitted, less those given back, never exceed the maximum. */
  lemma {:induction false} EpisodeCapped(c: Config, h: History, i: nat, j: nat)
    requires Legal(c, h) && i <= j <= |h| && Tripped(c, h[..i])
    requires i == 0 || h[i - 1].Resolves()
    requires forall k :: i <= k < j ==> !h[k].Resolves()
    ensures Tripped(c, h[..j])
    ensures Admitted(h, i, j) == Probes(c, h[..j]) + GivenBack(c, h, i, j)
    ensures Admitted(h, i, j) <= Cap(c) + GivenBack(c, h, i, j)
  {
    if i < j {
      EpisodeCapped(c, h, i, j - 1);
      PrefixIsLegal(c, h, j - 1);
      assert Front(h[..j]) == h[..j - 1] && Last(h[..j]) == h[j - 1];
    } else if i > 0 {
      assert Last(h[..i]) == h[i - 1];
    }
    PrefixIsLegal(c, h, j);
    ProbesCapped(c, h[..j]);
  }

  // ---------------------------------------------------------------------------
  // When a call is admitted
  // ---------------------------------------------------------------------------

  // Before call `i` some stretch without a success or reset holds the threshold's failures.
  predicate Broken(c: Config, h: History, i: nat)
    requires i <= |h|
  {
    exists j ::
      0 <= j <= i && Uninterrupted(h[j..i]) && CountFailed(h[j..i]) >= 1 && CountFailed(h[j..i]) >= c.threshold
  }

  // The calls from `m` up to `j` resolve nothing, and the call before them, if any, does.
  predicate Episode(h: History, m: nat, j: nat)
    requires m <= j <= |h|
  {
    (m == 0 || h[m - 1].Succeeded? || h[m - 1].Failed? || h[m - 1].Reset?) &&
    forall k :: m <= k < j ==> !h[k].Succeeded? && !h[k].Failed? && !h[k].Reset?
  }

  // Every call is in an episode.
  lemma {:induction false} EpisodeBegins(h: History, i: nat) returns (m: nat)
    requires i <= |h|
    ensures m <= i && Episode(h, m, i)
  {
    if i == 0 || h[i - 1].Resolves() {
      m := i;
    } else {
      m := EpisodeBegins(h, i - 1);
    }
  }

  // The probes admitted in the episode that failure `m - 1` began, less those given back once the
  // recovery time was over.
  function Outstanding(c: Config, h: History, m: nat, j: nat): nat
    requires 0 < m <= j <= |h|
  {
    if j == m then 0
    else
      var before, e := Outstanding(c, h, m, j - 1), h[j - 1];
      if e.Asked? && !e.rejected then before + 1
      else if e.Abandoned? && e.at - h[m - 1].at >= c.recovery && before > 0 then before - 1
      else before
  }

  lemma BrokenIsTripped(c: Config, h: History, i: nat)
    requires i <= |h|
    ensures Tripped(c, h[..i]) <==> Broken(c, h, i)
  {
    TrippedExactly(c, h[..i]);
    assert forall j :: 0 <= j <= i ==> h[..i][j..] == h[j..i];
    if Broken(c, h, i) {
      var j :|
        0 <= j <= i && Uninterrupted(h[j..i]) && CountFailed(h[j..i]) >= 1 && CountFailed(h[j..i]) >= c.threshold;
      assert Uninterrupted(h[..i][j..]);
    }
  }

  // Through an episode the failures stay what they were, and the latest is the one that began it.
  lemma {:induction false} EpisodeFailures(h: History, m: nat, j: nat)
    requires m <= j <= |h| && Episode(h, m, j)
    ensures Failures(h[..j]) == Failures(h[..m])
    ensures m > 0 && h[m - 1].Failed? ==> LastFailure(h[..j]) == h[m - 1].at
    ensures Failures(h[..j]) > 0 ==> m > 0 && h[m - 1].Failed?
  {
    if m < j {
      EpisodeFailures(h, m, j - 1);
      assert Front(h[..j]) == h[..j - 1] && Last(h[..j]) == h[j - 1];
    } else if m > 0 {
      assert Last(h[..m]) == h[m - 1];
    } else {
      assert h[..0] == [];
    }
  }

  lemma {:induction false} EpisodeProbes(c: Config, h: History, m: nat, j: nat)
    requires Legal(c, h) && 0 < m <= j <= |h| && Episode(h, m, j) && Tripped(c, h[..m])
    ensures Probes(c, h[..j]) == Outstanding(c, h, m, j)
  {
    if m < j {
      EpisodeProbes(c, h, m, j - 1);
      EpisodeFailures(h, m, j - 1);
      PrefixIsLegal(c, h, j - 1);
      assert Front(h[..j]) == h[..j - 1] && Last(h[..j]) == h[j - 1];
    } else {
      assert Last(h[..m]) == h[m - 1];
    }
  }

  /** A call is rejected exactly if the circuit is broken, and the failure that began the episode is
      less than the recovery time back, or the episode's probes are all out. It is admitted at once as
      long as nothing has broken the circuit. */
  lemma AnswerExactly(c: Config, h: History, m: nat, i: nat)
    requires Legal(c, h) && m <= i < |h| && h[i].Asked? && Episode(h, m, i)
    ensures Broken(c, h, i) ==> m > 0 && h[m - 1].Failed?
    ensures h[i].rejected <==>
            Broken(c, h, i) && m > 0 &&
            (h[i].at - h[m - 1].at < c.recovery || Outstanding(c, h, m, i) >= c.maxProbes)
  {
    PrefixIsLegal(c, h, i);
    BrokenIsTripped(c, h, i);
    EpisodeFailures(h, m, i);
    if Tripped(c, h[..i]) {
      EpisodeProbes(c, h, m, i);
    }
  }

  /** The state a reader sees: closed exactly if the circuit is not broken, and otherwise open exactly
      until the recovery time is over. */
  lemma StateExactly(c: Config, h: History, m: nat, now: Time)
    requires m <= |h| && Episode(h, m, |h|)
    ensures StateAt(c, h, now).Closed? <==> !Broken(c, h, |h|)
    ensures StateAt(c, h, now).Open? <==> Broken(c, h, |h|) && m > 0 && now - h[m - 1].at < c.recovery
  {
    BrokenIsTripped(c, h, |h|);
    EpisodeFailures(h, m, |h|);
    assert h[..|h|] == h;
  }
}
