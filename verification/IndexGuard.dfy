/**
  The index guard of one process: the cached status, the checks that refresh it and stamp the
  stores, and the dispatch decision with the refusal it leaves behind. `GuardState` and its events
  are the specification that the class is proved equal to; what the guard promises over whole
  runs is proved of them, with other processes, index jobs and rebuilds working on the same stores.
*/
module IndexGuard {
  import opened Options
  import opened IndexStamp
  import RebuildProtocol

  type JobId = nat

  datatype Refusal =
    | WhilePreparing
    | RebuildInterrupted
    | NeedsReindex(reasons: seq<Reason>)
    | NotVerified(reasons: seq<Reason>)

  // The text a refusal is reported with, once it has been taken away.
  datatype Detail = Detail(refusal: Refusal) | GenericDetail

  predicate Doubtful(status: Status) {
    status.state == IndexReindexRequired || status.state == IndexUnverified
  }

  // Why a job is refused, if it is: by the rebuild's state, or else by the index status.
  function Why(verdict: RebuildProtocol.Verdict, status: Status): Option<Refusal> {
    match verdict
    case Allow => None
    case RefusePreparing => Some(WhilePreparing)
    case RefuseInterrupted => Some(RebuildInterrupted)
    case CheckStamps =>
      if status.state == IndexReindexRequired then Some(NeedsReindex(status.reasons))
      else if status.state == IndexUnverified then Some(NotVerified(status.reasons))
      else None
  }

  // ---------------------------------------------------------------------------
  // Specification
  // ---------------------------------------------------------------------------

  datatype Config = Config(configured: Stamp, retryInterval: real)

  // What the three reads of the rebuild state returned.
  datatype Reads = Reads(
    lock: Option<RebuildProtocol.Mode>, latest: Option<RebuildProtocol.Group>,
    jobs: map<RebuildProtocol.JobId, RebuildProtocol.Row>)
  {
    function Rebuild(): Rebuild {
      RebuildProtocol.Derive(lock, latest, jobs)
    }

    function Verdict(group: Option<RebuildProtocol.GroupId>): RebuildProtocol.Verdict {
      RebuildProtocol.Judge(group, Rebuild(), latest)
    }
  }

  datatype GuardState = GuardState(stores: Stores, status: Status, attempt: real, refusals: map<JobId, Refusal>)

  datatype Event =
    | FullCheck(check: Check, ended: real)
    | Refresh(seen: Rebuild, check: Check, now: real, ended: real)  // `seen` is read before `check.rebuild`
    | Dispatch(job: JobId, group: Option<RebuildProtocol.GroupId>, view: Reads, check: Check)
    | TakeDetail(job: JobId)
    | RebuildFails                               // this process's rebuild raised while it recreated the stores
    | AddData(vector: bool, graph: bool)         // index jobs
    | ForeignCheck(check: Check)                 // a check in another process
    | DropVector | InitVector                    // the four writes a rebuild recreates the stores with
    | ClearGraph | StampGraph

  predicate Keeps(g: GuardState, seen: Rebuild) {
    g.status.state == IndexOk && (seen.NoRebuild? || seen.Complete?)
  }

  predicate Verifies(g: GuardState, now: real, config: Config) {
    Doubtful(g.status) && now - g.attempt >= config.retryInterval
  }

  // The check whose result the event publishes, if it makes one.
  function Publishes(g: GuardState, e: Event, config: Config): Option<Check> {
    match e
    case FullCheck(c, _) => Some(c.(verify := true))
    case Refresh(seen, c, now, _) => if Keeps(g, seen) then None else Some(c.(verify := Verifies(g, now, config)))
    case Dispatch(_, group, view, c) =>
      if view.Verdict(group).CheckStamps? && Doubtful(g.status) then Some(c.(verify := false)) else None
    case _ => None
  }

  function Published(g: GuardState, e: Event, config: Config): Status {
    var c := Publishes(g, e, config);
    if c.Some? then StatusOf(g.stores, c.value, config.configured)
    else if e.RebuildFails? then Status(IndexReindexRequired, [], false)
    else g.status
  }

  function Refused(g: GuardState, e: Event, config: Config): Option<Refusal>
    requires e.Dispatch?
  {
    Why(e.view.Verdict(e.group), Published(g, e, config))
  }

  function StoresAfter(g: GuardState, e: Event, config: Config): Stores {
    var c := Publishes(g, e, config);
    if c.Some? then AfterCheck(g.stores, c.value, config.configured)
    else match e
      case AddData(v, gr) => After(g.stores, IndexStamp.AddData(v, gr), config.configured)
      case ForeignCheck(check) => AfterCheck(g.stores, check, config.configured)
      case DropVector => g.stores.(vector := Store(false, false, NoStamp))
      case InitVector => g.stores.(vector := Store(true, false, Readable(config.configured)))
      case ClearGraph => g.stores.(graph := g.stores.graph.(hasData := false))
      case StampGraph => g.stores.(graph := g.stores.graph.(stored := Readable(config.configured)))
      case _ => g.stores
  }

  function AttemptAfter(g: GuardState, e: Event, config: Config): real {
    match e
    case FullCheck(_, ended) => ended
    case Refresh(seen, _, now, ended) => if !Keeps(g, seen) && Verifies(g, now, config) then ended else g.attempt
    case _ => g.attempt
  }

  function RefusalsAfter(g: GuardState, e: Event, config: Config): map<JobId, Refusal> {
    match e
    case Dispatch(job, _, _, _) =>
      var refusal := Refused(g, e, config);
      if refusal.Some? then g.refusals[job := refusal.value] else g.refusals - {job}
    case TakeDetail(job) => g.refusals - {job}
    case _ => g.refusals
  }

  function Update(g: GuardState, e: Event, config: Config): GuardState {
    GuardState(StoresAfter(g, e, config), Published(g, e, config), AttemptAfter(g, e, config),
      RefusalsAfter(g, e, config))
  }

  // A rebuild fills the vector store it dropped, and stamps the graph it cleared: no job writes
  // the stores in between.
  predicate Enabled(g: GuardState, e: Event) {
    && (e.InitVector? ==> !g.stores.vector.present)
    && (e.StampGraph? ==> !g.stores.graph.hasData)
  }

  // ---------------------------------------------------------------------------
  // The class
  // ---------------------------------------------------------------------------

  class Guard {
    const config: Config
    var vector: Store
    var graph: Store
    var status: Status
    var lastVerifyAttempt: real
    var refusals: map<JobId, Refusal>

    constructor (config: Config, vector: Store, graph: Store)
      ensures this.config == config
      ensures State() == GuardState(Stores(vector, graph), Status(IndexReindexRequired, [], false), 0.0, map[])
    {
      this.config, this.vector, this.graph := config, vector, graph;
      status, lastVerifyAttempt, refusals := Status(IndexReindexRequired, [], false), 0.0, map[];
    }

    function State(): GuardState
      reads this
    {
      GuardState(Stores(vector, graph), status, lastVerifyAttempt, refusals)
    }

    // `_write_stamp_if_needed`: not without the lock.
    method WriteStampIfNeeded(kind: Kind, check: StoreCheck, lock: bool)
      modifies this`vector, this`graph
      ensures vector == if kind.Vector? then Stamped(old(vector), check, lock, config.configured) else old(vector)
      ensures graph == if kind.Graph? then Stamped(old(graph), check, lock, config.configured) else old(graph)
    {
      if !check.writeStamp {
        return;
      }
      if !lock {
        return;
      }
      if kind == Vector {
        vector := vector.(stored := Readable(config.configured));
      } else {
        graph := graph.(stored := Readable(config.configured));
      }
    }

    /** `_compute_status` */
    method ComputeStatus(c: Check) returns (s: Status)
      modifies this`vector, this`graph
      ensures Stores(vector, graph) == AfterCheck(old(State()).stores, c, config.configured)
      ensures s == StatusOf(old(State()).stores, c, config.configured)
    {
      var vectorHasData := c.vectorReachable && vector.hasData;
      var needsVerification := c.verify && c.vectorReachable && vector.present && vector.hasData &&
        vector.stored.NoStamp?;
      var verification := if needsVerification then c.outcome else NotRun;
      var vectorCheck := DecideStore(Vector, vector, c.vectorReachable, config.configured, verification, false);
      var graphCheck := DecideStore(Graph, graph, c.graphReachable, config.configured, verification, vectorHasData);
      vector, graph := WithData(vector, c.vectorArrives), WithData(graph, c.graphArrives);
      WriteStampIfNeeded(Vector, vectorCheck, c.vectorLock);
      WriteStampIfNeeded(Graph, graphCheck, c.graphLock);
      s := Aggregate([vectorCheck, graphCheck], c.rebuild);
    }

    /** `run_check` */
    method RunCheck(c: Check, ended: real) returns (s: Status)
      modifies this
      ensures State() == Update(old(State()), FullCheck(c, ended), config) && s == status
    {
      s := ComputeStatus(c.(verify := true));
      status := s;
      lastVerifyAttempt := ended;
    }

    /** `refresh` */
    method Refresh(seen: Rebuild, c: Check, now: real, ended: real)
      modifies this
      ensures State() == Update(old(State()), Event.Refresh(seen, c, now, ended), config)
    {
      if status.state == IndexOk && (seen.NoRebuild? || seen.Complete?) {
        return;
      }
      var doVerify := false;
      if status.state == IndexUnverified || status.state == IndexReindexRequired {
        if now - lastVerifyAttempt >= config.retryInterval {
          doVerify := true;
        }
      }
      status := ComputeStatus(c.(verify := doVerify));
      if doVerify {
        lastVerifyAttempt := ended;
      }
    }

    /** `dispatch_allowed`, on what its reads of the rebuild state returned and on what a re-check
        finds, which reads that state again. */
    method DispatchAllowed(job: JobId, group: Option<RebuildProtocol.GroupId>, view: Reads, c: Check)
      returns (allowed: bool)
      modifies this
      ensures var e := Dispatch(job, group, view, c);
        State() == Update(old(State()), e, config) && (allowed <==> Refused(old(State()), e, config).None?)
    {
      var state := view.Rebuild();
      var isRebuildJob := view.latest.Some? && group == Some(view.latest.value.id);
      if isRebuildJob && !state.Interrupted? {
        refusals := refusals - {job};
        return true;
      }
      if state.Preparing? {
        refusals := refusals[job := WhilePreparing];
        return false;
      }
      if state.Interrupted? {
        refusals := refusals[job := RebuildInterrupted];
        return false;
      }
      if status.state == IndexReindexRequired || status.state == IndexUnverified {
        status := ComputeStatus(c.(verify := false));
        if status.state == IndexReindexRequired {
          refusals := refusals[job := NeedsReindex(status.reasons)];
          return false;
        }
        if status.state == IndexUnverified {
          refusals := refusals[job := NotVerified(status.reasons)];
          return false;
        }
      }
      refusals := refusals - {job};
      return true;
    }

    /** `refusal_detail`: each refusal is read at most once. */
    method RefusalDetail(job: JobId) returns (detail: Detail)
      modifies this
      ensures State() == Update(old(State()), TakeDetail(job), config)
      ensures detail == if job in old(refusals) then Detail(old(refusals)[job]) else GenericDetail
    {
      if job in refusals {
        detail := Detail(refusals[job]);
        refusals := refusals - {job};
      } else {
        detail := GenericDetail;
        assert refusals - {job} == refusals;
      }
    }
  }

  // ---------------------------------------------------------------------------
  // What a refresh and a dispatch do
  // ---------------------------------------------------------------------------

  /** A refresh does nothing exactly if the index is ok and no rebuild is under way; else it checks,
      and verifies exactly if the status is in doubt and the retry interval has passed, and only then
      counts as an attempt. */
  lemma RefreshExactly(g: GuardState, seen: Rebuild, c: Check, now: real, ended: real, config: Config)
    ensures
      var g' := Update(g, Refresh(seen, c, now, ended), config);
      var doubtful := g.status.state == IndexUnverified || g.status.state == IndexReindexRequired;
      var due := doubtful && g.attempt + config.retryInterval <= now;
      var check := c.(verify := due);
      if g.status.state == IndexOk && (seen == RebuildProtocol.NoRebuild || seen == RebuildProtocol.Complete) then
        g' == g
      else
        && g'.stores == AfterCheck(g.stores, check, config.configured)
        && g'.status == StatusOf(g.stores, check, config.configured)
        && g'.attempt == (if due then ended else g.attempt)
        && g'.refusals == g.refusals
  {
  }

  // The last rebuild stopped short: the lock is not held, and its group has too few jobs, none active.
  predicate Stopped(view: Reads) {
    && view.lock != Some(RebuildProtocol.Exclusive)
    && view.latest.Some?
    && |RebuildProtocol.InGroup(view.jobs, view.latest.value.id)| < view.latest.value.taskCount
    && RebuildProtocol.ActiveIn(view.jobs, view.latest.value.id) == {}
  }

  /** Why a job is refused. A rebuild that stopped short refuses every job, its own too; otherwise its
      own jobs are let through; others are refused while the lock is held, and else by the status,
      which is checked again, without verification, exactly if it is in doubt. */
  lemma DispatchExactly(
    g: GuardState, job: JobId, group: Option<RebuildProtocol.GroupId>, view: Reads, c: Check, config: Config)
    ensures
      var e := Dispatch(job, group, view, c);
      var own := view.latest.Some? && group == Some(view.latest.value.id);
      var held := view.lock == Some(RebuildProtocol.Exclusive);
      var status := if own || held || Stopped(view) || g.status.state == IndexOk || g.status.state == IndexRebuilding
        then g.status else StatusOf(g.stores, c.(verify := false), config.configured);
      && Update(g, e, config).status == status
      && Refused(g, e, config) ==
           (if Stopped(view) then Some(RebuildInterrupted)
            else if own then None
            else if held then Some(WhilePreparing)
            else if status.state == IndexReindexRequired then Some(NeedsReindex(status.reasons))
            else if status.state == IndexUnverified then Some(NotVerified(status.reasons))
            else None)
  {
    if view.latest.Some? {
      var g := view.latest.value;
      assert RebuildProtocol.ActiveIn(view.jobs, g.id) <= RebuildProtocol.InGroup(view.jobs, g.id);
    }
  }

  /** The four writes of a rebuild leave both stores empty and stamped, whatever they held, and the
      next check that reaches them finds the index ok once the lock is free. */
  lemma RecreatedIsOk(g: GuardState, c: Check, config: Config)
    requires c.vectorReachable && c.graphReachable && c.rebuild.NoRebuild?
    ensures
      var g1 := Update(g, DropVector, config);
      var g2 := Update(g1, InitVector, config);
      var g3 := Update(g2, ClearGraph, config);
      var g4 := Update(g3, StampGraph, config);
      && Enabled(g1, InitVector) && Enabled(g3, StampGraph)
      && g4.stores.vector == Store(true, false, Readable(config.configured))
      && !g4.stores.graph.hasData && g4.stores.graph.present == g.stores.graph.present
      && g4.stores.graph.stored == Readable(config.configured)
      && StatusOf(g4.stores, c, config.configured) == Status(IndexOk, [], false)
  {
    var g4 := Update(Update(Update(Update(g, DropVector, config), InitVector, config), ClearGraph, config),
      StampGraph, config);
    StatesOfTwo(g4.stores, c, config.configured);
    CompareIsEquality(config.configured, config.configured, Vector);
    CompareIsEquality(config.configured, config.configured, Graph);
  }

  /** Index jobs give each store its own data, and nothing else. */
  lemma DataArrives(g: GuardState, vector: bool, graph: bool, config: Config)
    ensures
      var g' := Update(g, Event.AddData(vector, graph), config);
      && g'.stores.vector == g.stores.vector.(hasData := g.stores.vector.hasData || vector)
      && g'.stores.graph == g.stores.graph.(hasData := g.stores.graph.hasData || graph)
      && g' == g.(stores := g'.stores)
  {
  }

  /** A rebuild of this process that raises while it recreates the stores is reported as such until the
      next status is published. */
  lemma FailureIsReported(g: GuardState, e: Event, config: Config)
    ensures Update(g, RebuildFails, config) == g.(status := Status(IndexReindexRequired, [], false))
    ensures !e.RebuildFails? && Publishes(g, e, config).None? ==> Update(g, e, config).status == g.status
  {
  }

  // ---------------------------------------------------------------------------
  // When a check that does not verify softens a status
  // ---------------------------------------------------------------------------

  // The store's stamp is one it cannot be used with.
  predicate Stale(s: Store, configured: Stamp) {
    s.present && !s.stored.NoStamp? && s.stored != Readable(configured)
  }

  // What calls for a reindex without any verification.
  predicate Definite(s: Stores, c: Check, configured: Stamp) {
    || c.rebuild.Interrupted?
    || (c.vectorReachable && Stale(s.vector, configured))
    || (c.graphReachable && Stale(s.graph, configured))
    || (c.graphReachable && Legacy(s.graph) && !VectorHasData(s, c))
  }

  lemma StatesOfTwo(s: Stores, c: Check, configured: Stamp)
    ensures
      var v, g := VectorCheck(s, c, configured).state, GraphCheck(s, c, configured).state;
      StatusOf(s, c, configured).state ==
      if c.rebuild.Preparing? then IndexRebuilding
      else if c.rebuild.Interrupted? || v.ReindexRequired? || g.ReindexRequired? then IndexReindexRequired
      else if v.Unverified? || g.Unverified? then IndexUnverified
      else if c.rebuild.Rebuilding? then IndexRebuilding
      else IndexOk
  {
    var checks := [VectorCheck(s, c, configured), GraphCheck(s, c, configured)];
    AggregateState(checks, c.rebuild);
    assert checks[0] in checks && checks[1] in checks;
  }

  /** A check without verification keeps "reindex_required" exactly if something calls for it
      that no verification is needed for, and otherwise softens it to "unverified". */
  lemma CheapCheckSoftens(s: Stores, c: Check, configured: Stamp)
    requires StatusOf(s, c.(verify := true), configured).state == IndexReindexRequired
    ensures StatusOf(s, c.(verify := false), configured).state ==
            if Definite(s, c, configured) then IndexReindexRequired else IndexUnverified
  {
    StatesOfTwo(s, c.(verify := true), configured);
    StatesOfTwo(s, c.(verify := false), configured);
    if s.vector.stored.Readable? {
      CompareIsEquality(s.vector.stored.stamp, configured, Vector);
    }
    if s.graph.stored.Readable? {
      CompareIsEquality(s.graph.stored.stamp, configured, Graph);
    }
  }

  /** So the periodic refresh, before the retry interval has passed, publishes a confirmed
      "reindex_required" as "unverified" exactly if it rests on a verification alone. */
  lemma RefreshSoftens(g: GuardState, seen: Rebuild, c: Check, now: real, ended: real, config: Config)
    requires g.status.state == IndexReindexRequired && now - g.attempt < config.retryInterval
    requires StatusOf(g.stores, c.(verify := true), config.configured).state == IndexReindexRequired
    ensures Update(g, Refresh(seen, c, now, ended), config).status.state ==
            if Definite(g.stores, c, config.configured) then IndexReindexRequired else IndexUnverified
    ensures Update(g, Refresh(seen, c, now, ended), config).attempt == g.attempt
  {
    CheapCheckSoftens(g.stores, c, config.configured);
  }

  /** The re-check before a dispatch publishes the softened status too, at any time; the job is
      refused all the same. */
  lemma DispatchSoftens(
    g: GuardState, job: JobId, group: Option<RebuildProtocol.GroupId>, view: Reads, c: Check, config: Config)
    requires g.status.state == IndexReindexRequired && view.Verdict(group).CheckStamps?
    requires StatusOf(g.stores, c.(verify := true), config.configured).state == IndexReindexRequired
    ensures
      var e := Dispatch(job, group, view, c);
      && Update(g, e, config).status.state ==
         (if Definite(g.stores, c, config.configured) then IndexReindexRequired else IndexUnverified)
      && Refused(g, e, config).Some?
  {
    CheapCheckSoftens(g.stores, c, config.configured);
  }

  /** It does happen: a full check finds that a legacy store fails its verification, and the next
      refresh reports it as not verified yet. */
  lemma FailureIsForgotten(g: GuardState, c: Check, began: real, now: real, ended: real, config: Config)
    requires Legacy(g.stores.vector) && c.vectorReachable && c.outcome.Failed? && c.rebuild.NoRebuild?
    requires !g.stores.graph.present && now - began < config.retryInterval
    ensures
      var confirmed := Update(g, FullCheck(c, began), config);
      && confirmed.status.state == IndexReindexRequired
      && Update(confirmed, Refresh(RebuildProtocol.NoRebuild, c, now, ended), config).status.state == IndexUnverified
  {
    var confirmed := Update(g, FullCheck(c, began), config);
    StatesOfTwo(g.stores, c.(verify := true), config.configured);
    assert confirmed.stores.vector == g.stores.vector && !confirmed.stores.graph.present;
    RefreshSoftens(confirmed, RebuildProtocol.NoRebuild, c, now, ended, config);
  }

  // ---------------------------------------------------------------------------
  // Over whole runs
  // ---------------------------------------------------------------------------

  predicate Run(states: seq<GuardState>, events: seq<Event>, config: Config) {
    && |states| == |events| + 1
    && forall i :: 0 <= i < |events| ==>
         Enabled(states[i], events[i]) && states[i + 1] == Update(states[i], events[i], config)
  }

  // The check the event makes, published here or in another process.
  function CheckIn(g: GuardState, e: Event, config: Config): Option<Check> {
    if e.ForeignCheck? then Some(e.check) else Publishes(g, e, config)
  }

  // The event verifies the stores and they pass.
  predicate Passes(g: GuardState, e: Event, config: Config) {
    var c := CheckIn(g, e, config);
    c.Some? && c.value.verify && c.value.vectorReachable && Legacy(g.stores.vector) && c.value.outcome.Passed?
  }

  lemma LegacyStep(g: GuardState, e: Event, config: Config)
    requires Enabled(g, e) && !Passes(g, e, config)
    ensures Legacy(g.stores.vector) && !e.DropVector? ==> Legacy(Update(g, e, config).stores.vector)
    ensures Legacy(g.stores.graph) && !e.ClearGraph? ==> Legacy(Update(g, e, config).stores.graph)
  {
    var c := CheckIn(g, e, config);
    if c.Some? {
      AdoptedOnlyVerified(g.stores, c.value, config.configured);
    }
  }

  /** No store with data is stamped without a passing verification: over any run of checks,
      refreshes and dispatches, here and in other processes, a legacy store is as it was unless a
      verification of unstamped vector data passed, or a rebuild dropped its data. */
  lemma {:induction false} NoStampUnverified(states: seq<GuardState>, events: seq<Event>, config: Config, n: nat)
    requires Run(states, events, config) && n < |states|
    requires forall i :: 0 <= i < n ==> !Passes(states[i], events[i], config)
    ensures Legacy(states[0].stores.vector) && (forall i :: 0 <= i < n ==> !events[i].DropVector?) ==>
              Legacy(states[n].stores.vector)
    ensures Legacy(states[0].stores.graph) && (forall i :: 0 <= i < n ==> !events[i].ClearGraph?) ==>
              Legacy(states[n].stores.graph)
  {
    if n > 0 {
      NoStampUnverified(states, events, config, n - 1);
      LegacyStep(states[n - 1], events[n - 1], config);
    }
  }

  // Event `k` is the last one before state `n` that published a status, and it made the check `c`.
  ghost predicate LastCheck(states: seq<GuardState>, events: seq<Event>, config: Config, k: nat, n: nat)
    requires |states| == |events| + 1 && n < |states|
  {
    && k < n && Publishes(states[k], events[k], config).Some?
    && forall i :: k < i < n ==> Publishes(states[i], events[i], config).None? && !events[i].RebuildFails?
  }

  // The check found both stores in order, or was made while a rebuild prepared the stores.
  predicate FoundGood(g: GuardState, e: Event, config: Config)
    requires Publishes(g, e, config).Some?
  {
    var c := Publishes(g, e, config).value;
    || c.rebuild.Preparing?
    || (!c.rebuild.Interrupted?
        && VectorCheck(g.stores, c, config.configured).state.Ok?
        && GraphCheck(g.stores, c, config.configured).state.Ok?)
  }

  lemma GoodExactly(g: GuardState, e: Event, config: Config)
    requires Publishes(g, e, config).Some?
    ensures Doubtful(Update(g, e, config).status) <==> !FoundGood(g, e, config)
  {
    StatesOfTwo(g.stores, Publishes(g, e, config).value, config.configured);
  }

  ghost predicate LastFoundGood(states: seq<GuardState>, events: seq<Event>, config: Config, n: nat)
    requires |states| == |events| + 1 && n < |states|
  {
    exists k :: 0 <= k < n && LastCheck(states, events, config, k, n) && FoundGood(states[k], events[k], config)
  }

  lemma LastFoundGoodStep(states: seq<GuardState>, events: seq<Event>, config: Config, n: nat)
    requires |states| == |events| + 1 && n < |events|
    ensures LastFoundGood(states, events, config, n + 1) <==>
            if Publishes(states[n], events[n], config).Some? then FoundGood(states[n], events[n], config)
            else !events[n].RebuildFails? && LastFoundGood(states, events, config, n)
  {
    if Publishes(states[n], events[n], config).Some? {
      assert LastCheck(states, events, config, n, n + 1);
    } else {
      NothingPublished(states, events, config, n);
    }
  }

  lemma NothingPublished(states: seq<GuardState>, events: seq<Event>, config: Config, n: nat)
    requires |states| == |events| + 1 && n < |events| && Publishes(states[n], events[n], config).None?
    ensures LastFoundGood(states, events, config, n + 1) <==>
            !events[n].RebuildFails? && LastFoundGood(states, events, config, n)
  {
    if LastFoundGood(states, events, config, n + 1) {
      var k :| 0 <= k < n + 1 && LastCheck(states, events, config, k, n + 1) && FoundGood(states[k], events[k], config);
      assert k != n && LastCheck(states, events, config, k, n);
    }
    if LastFoundGood(states, events, config, n) && !events[n].RebuildFails? {
      var k :| 0 <= k < n && LastCheck(states, events, config, k, n) && FoundGood(states[k], events[k], config);
      assert LastCheck(states, events, config, k, n + 1);
    }
  }

  lemma StatusStep(g: GuardState, e: Event, config: Config)
    ensures !Doubtful(Update(g, e, config).status) <==>
            if Publishes(g, e, config).Some? then FoundGood(g, e, config)
            else !e.RebuildFails? && !Doubtful(g.status)
  {
    if Publishes(g, e, config).Some? {
      GoodExactly(g, e, config);
    }
  }

  ghost predicate StatusTells(states: seq<GuardState>, events: seq<Event>, config: Config, n: nat)
    requires |states| == |events| + 1 && n < |states|
  {
    !Doubtful(states[n].status) <==> LastFoundGood(states, events, config, n)
  }

  lemma StatusGoesOn(states: seq<GuardState>, events: seq<Event>, config: Config, n: nat)
    requires Run(states, events, config) && 0 < n < |states| && StatusTells(states, events, config, n - 1)
    ensures StatusTells(states, events, config, n)
  {
    LastFoundGoodStep(states, events, config, n - 1);
    StatusStep(states[n - 1], events[n - 1], config);
  }

  lemma StatusTellsFirst(states: seq<GuardState>, events: seq<Event>, config: Config)
    requires |states| == |events| + 1 && Doubtful(states[0].status)
    ensures StatusTells(states, events, config, 0)
  {
  }

  lemma {:induction false} StatusAlwaysTells(states: seq<GuardState>, events: seq<Event>, config: Config, n: nat)
    requires |states| == |events| + 1 && n < |states| && StatusTells(states, events, config, 0)
    requires forall i :: 0 < i < |states| && StatusTells(states, events, config, i - 1) ==>
               StatusTells(states, events, config, i)
    ensures StatusTells(states, events, config, n)
  {
    if n > 0 {
      StatusAlwaysTells(states, events, config, n - 1);
    }
  }

  /** The cached status is neither "reindex_required" nor "unverified" exactly if the last check
      that published one found both stores in order or a rebuild preparing. */
  lemma StatusExactly(states: seq<GuardState>, events: seq<Event>, config: Config, n: nat)
    requires Run(states, events, config) && Doubtful(states[0].status) && n < |states|
    ensures !Doubtful(states[n].status) <==> LastFoundGood(states, events, config, n)
  {
    StatusTellsFirst(states, events, config);
    forall i | 0 < i < |states| && StatusTells(states, events, config, i - 1)
      ensures StatusTells(states, events, config, i)
    {
      StatusGoesOn(states, events, config, i);
    }
    StatusAlwaysTells(states, events, config, n);
  }

  /** A job that the latest rebuild neither owns nor blocks is allowed exactly if the last check
      published up to then, the dispatch's own included, found both stores in order or a rebuild
      preparing. */
  lemma OutsideAllowedExactly(states: seq<GuardState>, events: seq<Event>, config: Config, n: nat)
    requires Run(states, events, config) && Doubtful(states[0].status) && n < |events|
    requires events[n].Dispatch? && events[n].view.Verdict(events[n].group).CheckStamps?
    ensures Refused(states[n], events[n], config).None? <==> LastFoundGood(states, events, config, n + 1)
  {
    StatusExactly(states, events, config, n + 1);
  }

  /** "Preparing" is not "in order": a status published while a rebuild held the lock outlives
      that rebuild, and lets a job write stores whose stamps nobody has looked at. */
  lemma PreparingLetsThrough(g: GuardState, job: JobId, c: Check, total: nat, later: Check, now: real, config: Config)
    returns (states: seq<GuardState>, events: seq<Event>)
    requires Doubtful(g.status) && Stale(g.stores.vector, config.configured)
    ensures Run(states, events, config) && states[0] == g && |events| == 2
    ensures events[0].Refresh? && events[0].seen.Preparing?
    ensures events[1] == Dispatch(job, None, Reads(None, None, map[]), later) &&
            Refused(states[1], events[1], config).None?
    ensures Stale(states[1].stores.vector, config.configured)
  {
    var seen := RebuildProtocol.Preparing(total);
    var first := Refresh(seen, c.(rebuild := seen), now, now);
    var second := Dispatch(job, None, Reads(None, None, map[]), later);
    var middle := Update(g, first, config);
    states, events := [g, middle, Update(middle, second, config)], [first, second];
    StatesOfTwo(g.stores, Publishes(g, first, config).value, config.configured);
  }

  // The event is no full check, and no refresh after the retry interval.
  predicate TooEarly(e: Event, since: real, config: Config) {
    !e.FullCheck? && (e.Refresh? ==> e.now < since + config.retryInterval)
  }

  /** Over whole runs: after a full check that ended at some time, a refresh of a doubtful status
      verifies exactly if the retry interval has passed since then, as long as none has before it. */
  lemma {:induction false} RetryInterval(
    states: seq<GuardState>, events: seq<Event>, config: Config, i: nat, k: nat)
    requires Run(states, events, config) && i < k < |states| && events[i].FullCheck?
    requires forall n :: i < n < k ==> TooEarly(events[n], events[i].ended, config)
    ensures states[k].attempt == events[i].ended
    ensures k < |events| && events[k].Refresh? && Doubtful(states[k].status) ==>
              states[k + 1].status == StatusOf(states[k].stores,
                events[k].check.(verify := events[k].now >= events[i].ended + config.retryInterval), config.configured)
  {
    if k > i + 1 {
      RetryInterval(states, events, config, i, k - 1);
    }
  }

  // A later event about the job's refusal.
  predicate Concerns(e: Event, job: JobId) {
    (e.Dispatch? || e.TakeDetail?) && e.job == job
  }

  // Dispatch `k` refused the job so, and until state `n` nothing else concerned it.
  ghost predicate RefusedAt(
    states: seq<GuardState>, events: seq<Event>, config: Config, k: nat, n: nat, job: JobId, refusal: Refusal)
    requires |states| == |events| + 1 && k < n < |states|
  {
    && events[k].Dispatch? && events[k].job == job && Refused(states[k], events[k], config) == Some(refusal)
    && forall i :: k < i < n ==> !Concerns(events[i], job)
  }

  ghost predicate LastRefused(
    states: seq<GuardState>, events: seq<Event>, config: Config, n: nat, job: JobId, refusal: Refusal)
    requires |states| == |events| + 1 && n < |states|
  {
    exists k :: 0 <= k < n && RefusedAt(states, events, config, k, n, job, refusal)
  }

  /** A refusal is on record exactly if the job's last dispatch was refused for that reason and
      nobody has read it since. */
  lemma {:induction false} RefusalOnRecord(
    states: seq<GuardState>, events: seq<Event>, config: Config, n: nat, job: JobId, refusal: Refusal)
    requires Run(states, events, config) && states[0].refusals == map[] && n < |states|
    ensures job in states[n].refusals && states[n].refusals[job] == refusal <==>
            LastRefused(states, events, config, n, job, refusal)
  {
    if n > 0 {
      RefusalOnRecord(states, events, config, n - 1, job, refusal);
      RefusalStep(states, events, config, n - 1, job, refusal);
    }
  }

  lemma RefusalStep(
    states: seq<GuardState>, events: seq<Event>, config: Config, n: nat, job: JobId, refusal: Refusal)
    requires |states| == |events| + 1 && n < |events|
    ensures LastRefused(states, events, config, n + 1, job, refusal) <==>
            if Concerns(events[n], job) then
              events[n].Dispatch? && Refused(states[n], events[n], config) == Some(refusal)
            else LastRefused(states, events, config, n, job, refusal)
  {
    if Concerns(events[n], job) {
      if events[n].Dispatch? && Refused(states[n], events[n], config) == Some(refusal) {
        assert RefusedAt(states, events, config, n, n + 1, job, refusal);
      }
    } else {
      if LastRefused(states, events, config, n + 1, job, refusal) {
        var k :| 0 <= k < n + 1 && RefusedAt(states, events, config, k, n + 1, job, refusal);
        assert k != n && RefusedAt(states, events, config, k, n, job, refusal);
      }
      if LastRefused(states, events, config, n, job, refusal) {
        var k :| 0 <= k < n && RefusedAt(states, events, config, k, n, job, refusal);
        assert RefusedAt(states, events, config, k, n + 1, job, refusal);
      }
    }
  }
}
