/**
  The index-stamp decision table: what built a store, whether it is what this process expects,
  and when an unstamped store may be stamped.
*/
module IndexStamp {
  import RebuildProtocol

  datatype Stamp = Stamp(schema: int, embeddingModel: string, vectorDim: int)

  // What a store reports in place of a stamp: nothing, something unreadable, or a stamp.
  datatype Stored = NoStamp | Unreadable | Readable(stamp: Stamp)

  datatype Kind = Vector | Graph

  datatype Store = Store(present: bool, hasData: bool, stored: Stored)

  datatype Verification = Passed | Failed | Unavailable | NotRun

  datatype StoreState = Ok | Unverified | ReindexRequired

  datatype Field = Schema | EmbeddingModel | VectorDim

  datatype Reason =
    | Unreachable(store: Kind)
    | UnreadableStamp(store: Kind)
    | Mismatch(store: Kind, field: Field)
    | NoVectorData
    | VerificationFailed(store: Kind)
    | CouldNotVerify(store: Kind)
    | NotYetVerified(store: Kind)

  datatype StoreCheck = StoreCheck(state: StoreState, reasons: seq<Reason>, writeStamp: bool)

  // `_compare`
  function Compare(stamp: Stamp, configured: Stamp, store: Kind): seq<Reason> {
    (if stamp.schema != configured.schema then [Mismatch(store, Schema)] else []) +
    (if stamp.embeddingModel != configured.embeddingModel then [Mismatch(store, EmbeddingModel)] else []) +
    (if stamp.vectorDim != configured.vectorDim then [Mismatch(store, VectorDim)] else [])
  }

  // No mismatch is found exactly when the stamps are the same.
  lemma CompareIsEquality(stamp: Stamp, configured: Stamp, store: Kind)
    ensures Compare(stamp, configured, store) == [] <==> stamp == configured
  {
  }

  /** `decide_store` */
  function DecideStore(
    kind: Kind, s: Store, reachable: bool, configured: Stamp, verification: Verification,
      vectorHasData: bool): StoreCheck
  {
    if !reachable then StoreCheck(Unverified, [Unreachable(kind)], false)
    else if !s.present then StoreCheck(Ok, [], false)
    else if !s.hasData && s.stored.NoStamp? then StoreCheck(Ok, [], true)
    else if s.stored.Unreadable? then StoreCheck(ReindexRequired, [UnreadableStamp(kind)], false)
    else if s.stored.Readable? then
      var mismatches := Compare(s.stored.stamp, configured, kind);
      if mismatches != [] then StoreCheck(ReindexRequired, mismatches, false) else StoreCheck(Ok, [], false)
    else if kind.Graph? && !vectorHasData then StoreCheck(ReindexRequired, [NoVectorData], false)
    else match verification
      case Passed => StoreCheck(Ok, [], true)
      case Failed => StoreCheck(ReindexRequired, [VerificationFailed(kind)], false)
      case Unavailable => StoreCheck(Unverified, [CouldNotVerify(kind)], false)
      case NotRun => StoreCheck(Unverified, [NotYetVerified(kind)], false)
  }

  // Unstamped data, which has to be verified.
  predicate Legacy(s: Store) {
    s.present && s.hasData && s.stored.NoStamp?
  }

  // The graph of an index without vectors, which no verification can vouch for.
  predicate Orphan(kind: Kind, vectorHasData: bool) {
    kind.Graph? && !vectorHasData
  }

  /** When a store is ok, to be rebuilt or unverified. An absent store is ok and not stamped. */
  lemma DecidedExactly(
    kind: Kind, s: Store, reachable: bool, configured: Stamp, verification: Verification, vectorHasData: bool)
    ensures
      var check := DecideStore(kind, s, reachable, configured, verification, vectorHasData);
      && (check.state.Ok? <==> (
            && reachable
            && (!s.present || (!s.hasData && s.stored.NoStamp?) || s.stored == Readable(configured) ||
                (Legacy(s) && !Orphan(kind, vectorHasData) && verification.Passed?))))
      && (check.state.ReindexRequired? <==> (
            && reachable && s.present
            && (s.stored.Unreadable? || (s.stored.Readable? && s.stored.stamp != configured) ||
                (Legacy(s) && (Orphan(kind, vectorHasData) || verification.Failed?)))))
      && (check.writeStamp <==> check.state.Ok? && s.present && s.stored.NoStamp?)
  {
    if s.stored.Readable? {
      CompareIsEquality(s.stored.stamp, configured, kind);
    }
  }

  /** Why: exactly the stores that are not ok have reasons, a mismatch is named exactly for each
      field that differs, and every other reason for what it says. */
  lemma ReasonsExactly(
    kind: Kind, s: Store, reachable: bool, configured: Stamp, verification: Verification, vectorHasData: bool)
    ensures
      var check := DecideStore(kind, s, reachable, configured, verification, vectorHasData);
      && (check.reasons == [] <==> check.state.Ok?)
      && (forall reason :: reason in check.reasons ==> reason.NoVectorData? || reason.store == kind)
      && (Unreachable(kind) in check.reasons <==> !reachable)
      && (UnreadableStamp(kind) in check.reasons <==> reachable && s.present && s.stored.Unreadable?)
      && (forall field :: Mismatch(kind, field) in check.reasons <==>
            reachable && s.present && s.stored.Readable? &&
            match field
            case Schema => s.stored.stamp.schema != configured.schema
            case EmbeddingModel => s.stored.stamp.embeddingModel != configured.embeddingModel
            case VectorDim => s.stored.stamp.vectorDim != configured.vectorDim)
      && (NoVectorData in check.reasons <==> reachable && Legacy(s) && Orphan(kind, vectorHasData))
      && (VerificationFailed(kind) in check.reasons <==>
            reachable && Legacy(s) && !Orphan(kind, vectorHasData) && verification.Failed?)
      && (CouldNotVerify(kind) in check.reasons <==>
            reachable && Legacy(s) && !Orphan(kind, vectorHasData) && verification.Unavailable?)
      && (NotYetVerified(kind) in check.reasons <==>
            reachable && Legacy(s) && !Orphan(kind, vectorHasData) && verification.NotRun?)
  {
    if s.stored.Readable? {
      CompareIsEquality(s.stored.stamp, configured, kind);
    }
  }

  // ---------------------------------------------------------------------------
  // The aggregate
  // ---------------------------------------------------------------------------

  type Rebuild = RebuildProtocol.RebuildState

  datatype IndexState = IndexOk | IndexUnverified | IndexReindexRequired | IndexRebuilding

  datatype Status = Status(state: IndexState, reasons: seq<Reason>, preparing: bool)

  function Precedence(s: StoreState): nat {
    match s case ReindexRequired => 0 case Unverified => 1 case Ok => 2
  }

  // The first check of the worst state.
  function Worst(checks: seq<StoreCheck>): StoreState
    requires checks != []
  {
    var last := checks[|checks| - 1].state;
    if |checks| == 1 then last
    else
      var before := Worst(checks[..|checks| - 1]);
      if Precedence(last) < Precedence(before) then last else before
  }

  function ReasonsOf(checks: seq<StoreCheck>, state: StoreState): seq<Reason> {
    if checks == [] then []
    else
      ReasonsOf(checks[..|checks| - 1], state) +
      (if checks[|checks| - 1].state == state then checks[|checks| - 1].reasons else [])
  }

  /** `aggregate` */
  function Aggregate(checks: seq<StoreCheck>, rebuild: Rebuild): Status {
    if rebuild.Preparing? then Status(IndexRebuilding, [], true)
    else if rebuild.Interrupted? then Status(IndexReindexRequired, [], false)
    else if checks != [] && Worst(checks) == ReindexRequired then
      Status(IndexReindexRequired, ReasonsOf(checks, ReindexRequired), false)
    else if checks != [] && Worst(checks) == Unverified then
      Status(IndexUnverified, ReasonsOf(checks, Unverified), false)
    else if rebuild.Rebuilding? then Status(IndexRebuilding, [], false)
    else Status(IndexOk, [], false)
  }

  lemma {:induction false} WorstIsLeast(checks: seq<StoreCheck>)
    requires checks != []
    ensures exists i :: 0 <= i < |checks| && checks[i].state == Worst(checks)
    ensures forall i :: 0 <= i < |checks| ==> Precedence(Worst(checks)) <= Precedence(checks[i].state)
  {
    var last := |checks| - 1;
    if last > 0 {
      var front := checks[..last];
      WorstIsLeast(front);
      var i :| 0 <= i < |front| && front[i].state == Worst(front);
      assert checks[i].state == Worst(front);
      assert forall k :: 0 <= k < last ==> checks[k] == front[k];
    }
    assert Worst(checks) == checks[last].state || last > 0;
  }

  /** The aggregate state is decided by which states occur, and so not by the order of the
      checks: preparing, interrupted, reindex_required, unverified, rebuilding, ok. */
  lemma AggregateState(checks: seq<StoreCheck>, rebuild: Rebuild)
    ensures Aggregate(checks, rebuild).state ==
      if rebuild.Preparing? then IndexRebuilding
      else if rebuild.Interrupted? || (exists c :: c in checks && c.state == ReindexRequired) then IndexReindexRequired
      else if exists c :: c in checks && c.state == Unverified then IndexUnverified
      else if rebuild.Rebuilding? then IndexRebuilding
      else IndexOk
  {
    if checks != [] {
      WorstIsLeast(checks);
      var i :| 0 <= i < |checks| && checks[i].state == Worst(checks);
      assert checks[i] in checks;
    }
  }

  lemma {:induction false} ReasonsOfAre(checks: seq<StoreCheck>, state: StoreState, reason: Reason)
    ensures reason in ReasonsOf(checks, state) <==> exists c :: c in checks && c.state == state && reason in c.reasons
  {
    if checks != [] {
      var front, last := checks[..|checks| - 1], checks[|checks| - 1];
      assert checks == front + [last];
      ReasonsOfAre(front, state, reason);
    }
  }

  // The store is one the aggregate state is about.
  predicate Blamed(state: IndexState, c: StoreCheck) {
    (state == IndexReindexRequired && c.state == ReindexRequired) || (state == IndexUnverified && c.state == Unverified)
  }

  /** Its reasons are those of the stores it is about, unless it is about a rebuild, and it says
      "preparing" exactly while one prepares the stores. */
  lemma AggregateReasons(checks: seq<StoreCheck>, rebuild: Rebuild, reason: Reason)
    ensures
      var status := Aggregate(checks, rebuild);
      && (status.preparing <==> rebuild.Preparing?)
      && (reason in status.reasons <==>
            !rebuild.Preparing? && !rebuild.Interrupted? &&
            exists c :: c in checks && Blamed(status.state, c) && reason in c.reasons)
  {
    ReasonsOfAre(checks, ReindexRequired, reason);
    ReasonsOfAre(checks, Unverified, reason);
  }

  lemma AggregateOrder(a: seq<StoreCheck>, b: seq<StoreCheck>, rebuild: Rebuild)
    requires multiset(a) == multiset(b)
    ensures Aggregate(a, rebuild).state == Aggregate(b, rebuild).state
  {
    AggregateState(a, rebuild);
    AggregateState(b, rebuild);
    assert forall c :: c in a <==> c in multiset(a);
    assert forall c :: c in b <==> c in multiset(b);
  }

  // ---------------------------------------------------------------------------
  // Runs of checks
  // ---------------------------------------------------------------------------

  datatype Stores = Stores(vector: Store, graph: Store)

  // What one check meets: which stores answer, what an embedding verification would say, whether
  // index jobs add data between its look at a store and its stamp write, and whether the
  // maintenance lock is free for each of these writes.
  datatype Check = Check(
    verify: bool, vectorReachable: bool, graphReachable: bool, outcome: Verification,
    vectorArrives: bool, graphArrives: bool, vectorLock: bool, graphLock: bool, rebuild: Rebuild)

  // The verification result a check works with.
  function VerificationIn(s: Stores, c: Check): Verification {
    if c.verify && c.vectorReachable && s.vector.present && s.vector.hasData && s.vector.stored.NoStamp? then c.outcome
    else NotRun
  }

  // An unreachable store reports that it holds nothing.
  function VectorHasData(s: Stores, c: Check): bool {
    c.vectorReachable && s.vector.hasData
  }

  function VectorCheck(s: Stores, c: Check, configured: Stamp): StoreCheck {
    DecideStore(Vector, s.vector, c.vectorReachable, configured, VerificationIn(s, c), false)
  }

  function GraphCheck(s: Stores, c: Check, configured: Stamp): StoreCheck {
    DecideStore(Graph, s.graph, c.graphReachable, configured, VerificationIn(s, c), VectorHasData(s, c))
  }

  function Stamped(s: Store, check: StoreCheck, lock: bool, configured: Stamp): Store {
    if check.writeStamp && lock then s.(stored := Readable(configured)) else s
  }

  function WithData(s: Store, arrives: bool): Store {
    s.(hasData := s.hasData || arrives)
  }

  // The stamps follow what the check saw, and are written to what is there by then.
  function AfterCheck(s: Stores, c: Check, configured: Stamp): Stores {
    Stores(
      Stamped(WithData(s.vector, c.vectorArrives), VectorCheck(s, c, configured), c.vectorLock, configured),
      Stamped(WithData(s.graph, c.graphArrives), GraphCheck(s, c, configured), c.graphLock, configured))
  }

  function StatusOf(s: Stores, c: Check, configured: Stamp): Status {
    Aggregate([VectorCheck(s, c, configured), GraphCheck(s, c, configured)], c.rebuild)
  }

  // Between two checks, index jobs may add data to the stores.
  datatype Step = DoCheck(check: Check) | AddData(vector: bool, graph: bool)

  function After(s: Stores, step: Step, configured: Stamp): Stores {
    match step
    case DoCheck(c) => AfterCheck(s, c, configured)
    case AddData(v, g) => Stores(WithData(s.vector, v), WithData(s.graph, g))
  }

  function Play(s: Stores, steps: seq<Step>, configured: Stamp): Stores {
    if steps == [] then s else After(Play(s, steps[..|steps| - 1], configured), steps[|steps| - 1], configured)
  }

  /** A store with data and no stamp is stamped only in a check that verified the vector store's
      own unstamped data and passed. */
  lemma AdoptedOnlyVerified(s: Stores, c: Check, configured: Stamp)
    ensures s.vector.hasData && s.vector.stored.NoStamp? && AfterCheck(s, c, configured).vector.stored != NoStamp ==>
      c.verify && c.vectorReachable && c.outcome.Passed? && c.vectorLock
    ensures s.graph.hasData && s.graph.stored.NoStamp? && AfterCheck(s, c, configured).graph.stored != NoStamp ==>
      c.verify && c.vectorReachable && Legacy(s.vector) && c.outcome.Passed? && c.graphReachable && c.graphLock
  {
  }

  // The check stamps a store that has data by then, and had none when the check looked.
  predicate StampsUnseen(before: Store, after: Store) {
    before.stored.NoStamp? && !after.stored.NoStamp? && !before.hasData && after.hasData
  }

  /** Data that nobody has verified is stamped exactly if it arrives between the check's look at an
      empty store and the write of its stamp. */
  lemma ArrivalIsStamped(s: Stores, c: Check, configured: Stamp)
    ensures StampsUnseen(s.vector, AfterCheck(s, c, configured).vector) <==>
            c.vectorReachable && s.vector.present && !s.vector.hasData && s.vector.stored.NoStamp?
            && c.vectorArrives && c.vectorLock
    ensures StampsUnseen(s.graph, AfterCheck(s, c, configured).graph) <==>
            c.graphReachable && s.graph.present && !s.graph.hasData && s.graph.stored.NoStamp?
            && c.graphArrives && c.graphLock
  {
  }

  predicate Settled(s: Stores, configured: Stamp) {
    && s.vector.present && s.vector.stored == Readable(configured)
    && s.graph.present && s.graph.stored == Readable(configured)
  }

  lemma SettledCheck(s: Stores, c: Check, configured: Stamp)
    requires Settled(s, configured)
    ensures AfterCheck(s, c, configured).vector.stored == s.vector.stored
    ensures AfterCheck(s, c, configured).graph.stored == s.graph.stored
    ensures VectorCheck(s, c, configured).state == if c.vectorReachable then Ok else Unverified
    ensures GraphCheck(s, c, configured).state == if c.graphReachable then Ok else Unverified
  {
    CompareIsEquality(configured, configured, Vector);
    CompareIsEquality(configured, configured, Graph);
  }

  lemma SettledStep(s: Stores, step: Step, configured: Stamp)
    requires Settled(s, configured)
    ensures Settled(After(s, step, configured), configured)
  {
    if step.DoCheck? {
      SettledCheck(s, step.check, configured);
    }
  }

  lemma SettledIsOk(s: Stores, c: Check, configured: Stamp)
    requires Settled(s, configured) && c.vectorReachable && c.graphReachable
    requires c.rebuild.NoRebuild? || c.rebuild.Complete?
    ensures StatusOf(s, c, configured) == Status(IndexOk, [], false)
  {
    SettledCheck(s, c, configured);
    AggregateState([VectorCheck(s, c, configured), GraphCheck(s, c, configured)], c.rebuild);
  }

  lemma {:induction false} StaysSettled(s: Stores, steps: seq<Step>, configured: Stamp)
    requires Settled(s, configured)
    ensures Settled(Play(s, steps, configured), configured)
  {
    if steps != [] {
      StaysSettled(s, steps[..|steps| - 1], configured);
      SettledStep(Play(s, steps[..|steps| - 1], configured), steps[|steps| - 1], configured);
    }
  }

  /** Once both stores are stamped, no later run changes a stamp, and every check that reaches
      both decides "ok" unless a rebuild says otherwise. */
  lemma SettledForGood(s: Stores, steps: seq<Step>, c: Check, configured: Stamp)
    requires Settled(s, configured)
    ensures Settled(Play(s, steps, configured), configured)
    ensures
      var t := Play(s, steps, configured);
      AfterCheck(t, c, configured).vector.stored == t.vector.stored &&
      AfterCheck(t, c, configured).graph.stored == t.graph.stored &&
      (c.vectorReachable && c.graphReachable && (c.rebuild.NoRebuild? || c.rebuild.Complete?) ==>
        StatusOf(t, c, configured) == Status(IndexOk, [], false))
  {
    var t := Play(s, steps, configured);
    StaysSettled(s, steps, configured);
    SettledCheck(t, c, configured);
    if c.vectorReachable && c.graphReachable && (c.rebuild.NoRebuild? || c.rebuild.Complete?) {
      SettledIsOk(t, c, configured);
    }
  }

  predicate HalfAdopted(s: Stores) {
    Legacy(s.graph) && s.vector.present && !s.vector.stored.NoStamp?
  }

  lemma HalfAdoptedStep(s: Stores, step: Step, configured: Stamp)
    requires HalfAdopted(s)
    ensures HalfAdopted(After(s, step, configured))
  {
  }

  lemma HalfAdoptedIsNotOk(s: Stores, c: Check, configured: Stamp)
    requires HalfAdopted(s)
    ensures StatusOf(s, c, configured).state != IndexOk
  {
    var checks := [VectorCheck(s, c, configured), GraphCheck(s, c, configured)];
    AggregateState(checks, c.rebuild);
    assert checks[1] in checks;
  }

  /** A graph store with data and no stamp beside a vector store that has one is never stamped
      again, and the index is not "ok" in any later check: verification only ever runs for an
      unstamped vector store. */
  lemma {:induction false} PartialAdoptionSticks(s: Stores, steps: seq<Step>, c: Check, configured: Stamp)
    requires HalfAdopted(s)
    ensures HalfAdopted(Play(s, steps, configured))
    ensures StatusOf(Play(s, steps, configured), c, configured).state != IndexOk
  {
    if steps != [] {
      PartialAdoptionSticks(s, steps[..|steps| - 1], c, configured);
      HalfAdoptedStep(Play(s, steps[..|steps| - 1], configured), steps[|steps| - 1], configured);
    }
    HalfAdoptedIsNotOk(Play(s, steps, configured), c, configured);
  }

  /** Two legacy stores are both adopted by one check exactly when it verifies, passes, reaches
      the graph, and gets the lock for both writes. */
  lemma AdoptionExactly(s: Stores, c: Check, configured: Stamp)
    requires Legacy(s.vector) && Legacy(s.graph)
    ensures Settled(AfterCheck(s, c, configured), configured) <==>
      c.verify && c.vectorReachable && c.graphReachable && c.outcome.Passed? && c.vectorLock && c.graphLock
  {
  }

  /** So a check that adopts the vector store and does not get to stamp the graph leaves the
      index short of "ok" in every later run. */
  lemma HalfAdoptionSticks(s: Stores, first: Check, steps: seq<Step>, c: Check, configured: Stamp)
    requires Legacy(s.vector) && Legacy(s.graph)
    requires AfterCheck(s, first, configured).vector.stored != NoStamp
    requires !(first.graphReachable && first.graphLock)
    ensures StatusOf(Play(AfterCheck(s, first, configured), steps, configured), c, configured).state != IndexOk
  {
    PartialAdoptionSticks(AfterCheck(s, first, configured), steps, c, configured);
  }

  // ---------------------------------------------------------------------------
  // What a whole run of checks adopts
  // ---------------------------------------------------------------------------

  // A verification of unstamped vector data that passes.
  predicate Passing(step: Step) {
    step.DoCheck? && step.check.verify && step.check.vectorReachable && step.check.outcome.Passed?
  }

  predicate StampsVector(step: Step) {
    Passing(step) && step.check.vectorLock
  }

  predicate StampsGraph(step: Step) {
    Passing(step) && step.check.graphReachable && step.check.graphLock
  }

  predicate AnyStampsVector(steps: seq<Step>) {
    exists k :: 0 <= k < |steps| && StampsVector(steps[k])
  }

  lemma AnyStep(steps: seq<Step>)
    requires steps != []
    ensures AnyStampsVector(steps) <==> AnyStampsVector(steps[..|steps| - 1]) || StampsVector(steps[|steps| - 1])
  {
    assert steps == steps[..|steps| - 1] + [steps[|steps| - 1]];
  }

  // Step `k` is one that stamps the graph, and none before it has stamped the vector store.
  predicate StampsInTime(steps: seq<Step>, k: nat) {
    k < |steps| && StampsGraph(steps[k]) && forall i :: 0 <= i < k ==> !StampsVector(steps[i])
  }

  // Adopted, or as it was.
  predicate AdoptedIf(s: Store, adopted: bool, configured: Stamp) {
    s.present && s.hasData && s.stored == if adopted then Readable(configured) else NoStamp
  }

  lemma AdoptionStep(s: Stores, step: Step, vector: bool, graph: bool, configured: Stamp)
    requires AdoptedIf(s.vector, vector, configured) && AdoptedIf(s.graph, graph, configured)
    ensures
      var t := After(s, step, configured);
      && AdoptedIf(t.vector, vector || StampsVector(step), configured)
      && AdoptedIf(t.graph, graph || (!vector && StampsGraph(step)), configured)
  {
    CompareIsEquality(configured, configured, Vector);
    CompareIsEquality(configured, configured, Graph);
  }

  lemma InTimeStep(steps: seq<Step>)
    requires steps != []
    ensures
      var front, last := steps[..|steps| - 1], steps[|steps| - 1];
      (exists k: nat :: StampsInTime(steps, k)) <==>
      (exists k: nat :: StampsInTime(front, k)) ||
      (StampsGraph(last) && forall i :: 0 <= i < |front| ==> !StampsVector(front[i]))
  {
    var front, last := steps[..|steps| - 1], |steps| - 1;
    if k: nat :| StampsInTime(steps, k) {
      assert k < last ==> StampsInTime(front, k);
    }
    if k: nat :| StampsInTime(front, k) {
      assert StampsInTime(steps, k);
    }
    if StampsGraph(steps[last]) && forall i :: 0 <= i < |front| ==> !StampsVector(front[i]) {
      assert StampsInTime(steps, last);
    }
  }

  /** Over every run of checks and new data, a legacy vector store is adopted exactly if some check
      verified it, passed and got the lock, and a legacy graph beside it exactly if such a check reached
      and stamped it before the vector store was stamped, or with it. Otherwise they stay as they are. */
  lemma {:induction false} AdoptedExactly(s: Stores, steps: seq<Step>, configured: Stamp)
    requires Legacy(s.vector) && Legacy(s.graph)
    ensures
      var t := Play(s, steps, configured);
      && AdoptedIf(t.vector, AnyStampsVector(steps), configured)
      && AdoptedIf(t.graph, exists k: nat :: StampsInTime(steps, k), configured)
  {
    if steps != [] {
      var front, last := steps[..|steps| - 1], steps[|steps| - 1];
      AdoptedExactly(s, front, configured);
      var vector := AnyStampsVector(front);
      var graph := exists k: nat :: StampsInTime(front, k);
      AdoptionStep(Play(s, front, configured), last, vector, graph, configured);
      InTimeStep(steps);
      AnyStep(steps);
    }
  }

  // Index jobs add data to the store in this step, on their own or while a check is made.
  predicate Fills(step: Step, kind: Kind) {
    match step
    case DoCheck(c) => if kind.Vector? then c.vectorArrives else c.graphArrives
    case AddData(v, g) => if kind.Vector? then v else g
  }

  /** No check removes data or makes a store, and data is there exactly if it was or some job added it. */
  lemma {:induction false} DataExactly(s: Stores, steps: seq<Step>, configured: Stamp)
    ensures
      var t := Play(s, steps, configured);
      && (t.vector.hasData <==> s.vector.hasData || exists k :: 0 <= k < |steps| && Fills(steps[k], Vector))
      && (t.graph.hasData <==> s.graph.hasData || exists k :: 0 <= k < |steps| && Fills(steps[k], Graph))
      && t.vector.present == s.vector.present && t.graph.present == s.graph.present
  {
    if steps != [] {
      var front, last := steps[..|steps| - 1], steps[|steps| - 1];
      DataExactly(s, front, configured);
      assert steps == front + [last];
    }
  }

  /** An unstamped graph with data is never vouched for by a vector store that is out of reach or empty. */
  lemma GraphNeedsVectors(s: Stores, c: Check, configured: Stamp)
    requires Legacy(s.graph) && c.graphReachable
    ensures GraphCheck(s, c, configured).reasons == [NoVectorData] <==> !c.vectorReachable || !s.vector.hasData
    ensures !c.vectorReachable || !s.vector.hasData ==> GraphCheck(s, c, configured).state == ReindexRequired
  {
  }
}
