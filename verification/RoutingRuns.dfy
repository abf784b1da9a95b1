/** The gateway's routing cache running beside the coordinator: how old a routed answer can be. */
module RoutingRuns {
  import opened Base
  import opened Registries
  import opened Deployments
  import opened Coordinator
  import opened Evacuation
  import opened Routers

  const FRESHNESS_BOUND: Time := OFFLINE_BOUND + CACHE_TTL

  /** `past` holds every state the coordinator has been in, the present one last. */
  datatype System = System(coord: State, cache: Cache, past: seq<State>)

  datatype SystemEvent =
    | CoordinatorStep(e: Event)
    | PickStep(model: string, answer: Answer)
    | ExcludeStep(model: string, excluded: DeploymentId, answer: Answer)
    | InvalidateStep(model: string)

  /** A call to the coordinator takes no time: it fails, or answers from the present state. */
  ghost predicate AnswerOk(s: State, model: string, answer: Answer) {
    answer.Resolved? ==>
      Distinct(answer.replicas) && forall e :: e in answer.replicas <==> Routable(s.nodes, s.table.deploy, model, e)
  }

  ghost predicate SystemEnabled(s: System, e: SystemEvent) {
    match e
    case CoordinatorStep(e) => Enabled(s.coord, e) && ReapOnTime(Step(s.coord, e))
    case PickStep(model, answer) => AnswerOk(s.coord, model, answer)
    case ExcludeStep(model, _, answer) => AnswerOk(s.coord, model, answer)
    case InvalidateStep(_) => true
  }

  function SystemStep(s: System, e: SystemEvent): System
    requires SystemEnabled(s, e)
  {
    match e
    case CoordinatorStep(e) => var c := Step(s.coord, e); s.(coord := c, past := s.past + [c])
    case PickStep(model, answer) => s.(cache := AfterPick(s.cache, model, s.coord.now, answer))
    case ExcludeStep(model, _, answer) => s.(cache := LookedUp(s.cache, model, s.coord.now, answer))
    case InvalidateStep(model) => s.(cache := s.cache - {model})
  }

  function SystemStart(t0: Time): System {
    System(Start(t0), map[], [Start(t0)])
  }

  ghost predicate SystemRuns(s: System, run: seq<SystemEvent>)
    decreases |run|, 0
  {
    run == [] || (SystemRuns(s, Init(run)) && SystemEnabled(SystemAfter(s, Init(run)), Last(run)))
  }

  ghost function SystemAfter(s: System, run: seq<SystemEvent>): System
    requires SystemRuns(s, run)
    decreases |run|, 1
  {
    if run == [] then s else SystemStep(SystemAfter(s, Init(run)), Last(run))
  }

  /** The coordinator state was current at `at`, and would have answered with every endpoint listed. */
  ghost predicate Answered(c: State, model: string, reps: seq<Endpoint>, at: Time) {
    c.now == at && forall e | e in reps :: Routable(c.nodes, c.table.deploy, model, e)
  }

  /** In this state every ONLINE node had been heard from within four intervals. */
  ghost predicate Watched(c: State) {
    SurvivedReap(c.nodes, c.lastReap) && ReapOnTime(c)
  }

  /** The entry is what the coordinator answered in some state, and that state is not older than past[from]. */
  ghost predicate Remembered(past: seq<State>, model: string, entry: CacheEntry, from: nat) {
    exists i | from <= i < |past| :: Answered(past[i], model, entry.replicas, entry.fetchedAt)
  }

  ghost predicate RememberedIfAny(s: System, model: string, from: nat) {
    model in s.cache ==> Remembered(s.past, model, s.cache[model], from)
  }

  ghost predicate SystemInv(s: System) {
    && Inv(s.coord)
    && s.past != [] && Last(s.past) == s.coord
    && (forall i | 0 <= i < |s.past| :: Watched(s.past[i]) && s.past[i].now <= s.coord.now)
    && (forall m | m in s.cache :: Remembered(s.past, m, s.cache[m], 0))
  }

  // ---- what one step does to one model's entry ----

  lemma CoordinatorStepRemembers(s: System, c: State, model: string, from: nat)
    requires RememberedIfAny(s, model, from)
    ensures RememberedIfAny(s.(coord := c, past := s.past + [c]), model, from)
  {
    if model in s.cache {
      var past := s.past + [c];
      var i :| from <= i < |s.past| && Answered(s.past[i], model, s.cache[model].replicas, s.cache[model].fetchedAt);
      assert past[i] == s.past[i];
    }
  }

  /** A refresh answers from the present state. */
  lemma LookupRemembers(s: System, asked: string, answer: Answer, model: string, from: nat)
    requires s.past != [] && Last(s.past) == s.coord && from < |s.past| && AnswerOk(s.coord, asked, answer)
    requires RememberedIfAny(s, model, from)
    ensures RememberedIfAny(s.(cache := LookedUp(s.cache, asked, s.coord.now, answer)), model, from)
  {
    if answer.Resolved? {
      assert Answered(s.past[|s.past| - 1], asked, answer.replicas, s.coord.now);
    }
  }

  lemma TurnRemembers(s: System, turned: string, model: string, from: nat)
    requires RememberedIfAny(s, model, from)
    ensures RememberedIfAny(s.(cache := Turned(s.cache, turned)), model, from)
  {
    if model in s.cache {
      var i :| from <= i < |s.past| && Answered(s.past[i], model, s.cache[model].replicas, s.cache[model].fetchedAt);
      var cache := Turned(s.cache, turned);
      assert Answered(s.past[i], model, cache[model].replicas, cache[model].fetchedAt);
    }
  }

  lemma StepRemembers(s: System, e: SystemEvent, model: string, from: nat)
    requires s.past != [] && Last(s.past) == s.coord && from < |s.past| && SystemEnabled(s, e)
    requires RememberedIfAny(s, model, from)
    ensures RememberedIfAny(SystemStep(s, e), model, from)
  {
    match e
    case CoordinatorStep(e) => CoordinatorStepRemembers(s, Step(s.coord, e), model, from);
    case PickStep(asked, answer) =>
      LookupRemembers(s, asked, answer, model, from);
      TurnRemembers(s.(cache := LookedUp(s.cache, asked, s.coord.now, answer)), asked, model, from);
    case ExcludeStep(asked, _, answer) => LookupRemembers(s, asked, answer, model, from);
    case InvalidateStep(_) =>
  }

  lemma StepKeepsPast(s: System, e: SystemEvent)
    requires SystemInv(s) && SystemEnabled(s, e)
    ensures var s' := SystemStep(s, e);
      && Inv(s'.coord) && s'.past != [] && Last(s'.past) == s'.coord && s.past <= s'.past
      && (forall i | 0 <= i < |s'.past| :: Watched(s'.past[i]) && s'.past[i].now <= s'.coord.now)
  {
    if e.CoordinatorStep? {
      StepKeeps(s.coord, e.e);
      StepParts(s.coord, e.e);
    }
  }

  lemma SystemStepKeeps(s: System, e: SystemEvent)
    requires SystemInv(s) && SystemEnabled(s, e)
    ensures SystemInv(SystemStep(s, e))
  {
    StepKeepsPast(s, e);
    var s' := SystemStep(s, e);
    forall m | m in s'.cache ensures Remembered(s'.past, m, s'.cache[m], 0) {
      StepRemembers(s, e, m, 0);
    }
  }

  lemma {:induction false} SystemRunKeeps(t0: Time, run: seq<SystemEvent>)
    requires SystemRuns(SystemStart(t0), run)
    ensures SystemInv(SystemAfter(SystemStart(t0), run))
    decreases |run|
  {
    if run == [] {
      RunKeeps(t0, []);
    } else {
      SystemRunKeeps(t0, Init(run));
      SystemStepKeeps(SystemAfter(SystemStart(t0), Init(run)), Last(run));
    }
  }

  // ---- freshness ----

  /** The endpoint was routable in some coordinator state no older than past[from] and less
      than the cache lifetime ago, and its node has been heard from within 42 s of now. */
  ghost predicate RecentlyRoutable(s: System, model: string, e: Endpoint, from: nat) {
    exists i | from <= i < |s.past| ::
      && 0 <= s.coord.now - s.past[i].now < CACHE_TTL
      && Routable(s.past[i].nodes, s.past[i].table.deploy, model, e)
      && s.coord.now - s.past[i].nodes[e.node].lastSeen < FRESHNESS_BOUND
  }

  lemma CachedIsRecent(s: System, model: string, e: Endpoint, from: nat)
    requires SystemInv(s) && RememberedIfAny(s, model, from)
    requires IsFresh(s.cache, model, s.coord.now) && e in s.cache[model].replicas
    ensures RecentlyRoutable(s, model, e, from)
  {
    var i :| from <= i < |s.past| && Answered(s.past[i], model, s.cache[model].replicas, s.cache[model].fetchedAt);
    var c := s.past[i];
    assert Routable(c.nodes, c.table.deploy, model, e);
    assert Watched(c) && c.now <= s.coord.now;
    assert c.now - OFFLINE_BOUND <= c.nodes[e.node].lastSeen;
  }

  /** What a caller of Pick, or of PickExcluding with a deployment to avoid, is handed. */
  function Routed(s: System, model: string, avoid: Option<DeploymentId>, answer: Answer): Found<Endpoint> {
    match avoid
    case None => Picked(s.cache, model, s.coord.now, answer)
    case Some(d) => PickedOther(s.cache, model, d, s.coord.now, answer)
  }

  lemma RouteIsRecent(s: System, model: string, avoid: Option<DeploymentId>, answer: Answer, e: Endpoint, from: nat)
    requires SystemInv(s) && AnswerOk(s.coord, model, answer) && from < |s.past| && RememberedIfAny(s, model, from)
    requires Routed(s, model, avoid, answer) == Found(e)
    ensures RecentlyRoutable(s, model, e, from) && (avoid.Some? ==> e.dep != avoid.value)
  {
    var looking := ExcludeStep(model, "", answer);
    var looked := SystemStep(s, looking);
    SystemStepKeeps(s, looking);
    StepRemembers(s, looking, model, from);
    RoutedFromCache(s, model, avoid, answer, e);
    CachedIsRecent(looked, model, e, from);
    SameRecency(s, looked, model, e, from);
  }

  lemma SameRecency(s: System, looked: System, model: string, e: Endpoint, from: nat)
    requires s.coord == looked.coord && s.past == looked.past && RecentlyRoutable(looked, model, e, from)
    ensures RecentlyRoutable(s, model, e, from)
  {
  }

  /** Whatever is handed out is in the entry the lookup leaves behind. */
  lemma RoutedFromCache(s: System, model: string, avoid: Option<DeploymentId>, answer: Answer, e: Endpoint)
    requires Routed(s, model, avoid, answer) == Found(e)
    ensures var looked := LookedUp(s.cache, model, s.coord.now, answer);
      IsFresh(looked, model, s.coord.now) && e in looked[model].replicas
    ensures avoid.Some? ==> e.dep != avoid.value
  {
    match avoid
    case None => PickedFromCache(s.cache, model, s.coord.now, answer, e);
    case Some(d) => FirstOtherIs(Lookup(s.cache, model, s.coord.now, answer).value, d);
  }

  /** End-to-end freshness: in every run with reap ticks on time, whatever Pick or PickExcluding
      returns was, less than 2 s ago, READY on an ONLINE node with a data-plane address, and that
      node was heard from less than 42 s ago; PickExcluding never returns what it is to avoid. */
  lemma {:induction false} PickIsFresh(t0: Time, run: seq<SystemEvent>, model: string, avoid: Option<DeploymentId>,
      answer: Answer, e: Endpoint)
    requires SystemRuns(SystemStart(t0), run)
    requires var s := SystemAfter(SystemStart(t0), run);
      AnswerOk(s.coord, model, answer) && Routed(s, model, avoid, answer) == Found(e)
    ensures RecentlyRoutable(SystemAfter(SystemStart(t0), run), model, e, 0)
    ensures var s := SystemAfter(SystemStart(t0), run); exists i | 0 <= i < |s.past| :: ServedAt(s.past[i], s.coord.now, model, e)
    ensures avoid.Some? ==> e.dep != avoid.value
  {
    SystemRunKeeps(t0, run);
    var s := SystemAfter(SystemStart(t0), run);
    RouteIsRecent(s, model, avoid, answer, e, 0);
    RecentMeans(s, model, e, 0);
  }

  lemma RecentMeans(s: System, model: string, e: Endpoint, from: nat)
    requires RecentlyRoutable(s, model, e, from)
    ensures exists i | from <= i < |s.past| :: ServedAt(s.past[i], s.coord.now, model, e)
  {
    var i :| from <= i < |s.past|
      && 0 <= s.coord.now - s.past[i].now < CACHE_TTL
      && Routable(s.past[i].nodes, s.past[i].table.deploy, model, e)
      && s.coord.now - s.past[i].nodes[e.node].lastSeen < FRESHNESS_BOUND;
    RoutableMeans(s.past[i].nodes, s.past[i].table.deploy, model, e);
    assert ServedAt(s.past[i], s.coord.now, model, e);
  }

  /** In this state, less than 2 s ago, the endpoint was a READY replica of the model on an ONLINE
      node with that address, and the node was heard from less than 42 s ago. */
  ghost predicate ServedAt(c: State, now: Time, model: string, e: Endpoint) {
    && c.now <= now < c.now + 2 * SECOND
    && Serves(c.nodes, c.table.deploy, model, e)
    && now < c.nodes[e.node].lastSeen + 42 * SECOND
  }

  // ---- after an invalidation ----

  lemma {:induction false} SystemRunsPrefix(s: System, run: seq<SystemEvent>, k: nat)
    requires SystemRuns(s, run) && k <= |run|
    ensures SystemRuns(s, run[..k])
    decreases |run|
  {
    if k == |run| {
      assert run[..k] == run;
    } else {
      SystemRunsPrefix(s, Init(run), k);
      assert Init(run)[..k] == run[..k];
    }
  }

  /** The index in `past` of the coordinator state that step k of a run sees. */
  ghost function StateSeen(t0: Time, run: seq<SystemEvent>, k: nat): nat
    requires SystemRuns(SystemStart(t0), run) && k <= |run|
  {
    SystemRunsPrefix(SystemStart(t0), run, k);
    SystemRunKeeps(t0, run[..k]);
    |SystemAfter(SystemStart(t0), run[..k]).past| - 1
  }

  /** Since an invalidation the cache can only hold an answer given since. */
  lemma {:induction false} RememberedSince(t0: Time, run: seq<SystemEvent>, k: nat, model: string)
    requires SystemRuns(SystemStart(t0), run) && k < |run| && run[k] == InvalidateStep(model)
    ensures var s := SystemAfter(SystemStart(t0), run);
      StateSeen(t0, run, k) < |s.past| && RememberedIfAny(s, model, StateSeen(t0, run, k))
    decreases |run|
  {
    SystemRunKeeps(t0, Init(run));
    assert Init(run)[..k] == run[..k];
    var s := SystemAfter(SystemStart(t0), Init(run));
    if k == |run| - 1 {
      assert Init(run)[..k] == Init(run);
    } else {
      RememberedSince(t0, Init(run), k, model);
      StepRemembers(s, Last(run), model, StateSeen(t0, run, k));
      StepKeepsPast(s, Last(run));
    }
  }

  /** After an invalidation, however long ago and whatever happened since, whatever is routed
      was routable in a coordinator state no older than the invalidation, and is not the
      deployment to avoid: a retry never goes by what was known before the failure. */
  lemma {:induction false} RetryIsResolvedAfresh(t0: Time, run: seq<SystemEvent>, k: nat, model: string,
      avoid: Option<DeploymentId>,
                              answer: Answer, e: Endpoint)
    requires SystemRuns(SystemStart(t0), run) && k < |run| && run[k] == InvalidateStep(model)
    requires var s := SystemAfter(SystemStart(t0), run);
      AnswerOk(s.coord, model, answer) && Routed(s, model, avoid, answer) == Found(e)
    ensures var s := SystemAfter(SystemStart(t0), run);
      exists i | StateSeen(t0, run, k) <= i < |s.past| :: ServedAt(s.past[i], s.coord.now, model, e)
    ensures avoid.Some? ==> e.dep != avoid.value
  {
    SystemRunKeeps(t0, run);
    RememberedSince(t0, run, k, model);
    RouteIsRecent(SystemAfter(SystemStart(t0), run), model, avoid, answer, e, StateSeen(t0, run, k));
    RecentMeans(SystemAfter(SystemStart(t0), run), model, e, StateSeen(t0, run, k));
  }
}
