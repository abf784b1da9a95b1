/** The coordinator as a state machine: agent streams, admin calls, the reaper
    and the reconciler, each entry point one atomic step under one clock. */
module Coordinator {
  import opened Base
  import opened Registries
  import opened Deployments
  import opened Placement
  import opened Meanings
  import opened Schedulers

  const RECONCILE_INTERVAL: Time := 15 * SECOND

  datatype AgentMessage =
    | RegisterMsg(claimed: NodeId, info: NodeInfo)
    | HeartbeatMsg(activeJobs: seq<JobId>, active: seq<DeploymentId>, addr: string)
    | JobMsg(job: JobId, jobUpd: JobUpdate)
    | UpdateMsg(id: DeploymentId, upd: Update)
    | OtherMsg

  /** `streams` maps each open, registered stream to the node id it was acknowledged
      with; `lastReap` and `lastReconcile` remember when the two tickers last ran. */
  datatype State = State(
    now: Time,
    nodes: Nodes,
    streams: map<StreamId, NodeId>,
    closed: set<StreamId>,
    jobs: Jobs,
    table: Table,
    used: set<DeploymentId>,
    lastReap: Time,
    lastReconcile: Time)

  /** A step together with the choices the environment made in it: minted ids, map
      iteration orders, and whether each send was accepted. */
  datatype Event =
    | Advance(to: Time)
    | Receive(stream: StreamId, msg: AgentMessage, minted: NodeId, accepted: seq<bool>, missing: seq<DeploymentId>)
    | Disconnect(stream: StreamId)
    | Reap
    | Reconcile(order: seq<DeploymentId>, plan: seq<Attempt>)
    | Create(spec: Spec, replicas: nat, id: DeploymentId, outcome: Outcome)
    | Delete(id: DeploymentId, ok: bool)
    | RunJob(node: NodeId, job: JobId, ok: bool)

  function Start(now: Time): State {
    State(now, map[], map[], {}, map[], Table(map[], []), {}, now, now)
  }

  ghost predicate Enabled(s: State, e: Event) {
    match e
    case Advance(to) => s.now <= to
    case Receive(stream, msg, minted, accepted, missing) =>
      && stream !in s.closed
      && (msg.RegisterMsg? ==> minted != "" && minted !in s.nodes)
      && (stream in s.streams && msg.HeartbeatMsg? ==>
            HeartbeatOk(s.table.deploy, s.streams[stream], msg.active, s.now, accepted, missing))
      && (msg.UpdateMsg? ==> |accepted| == 1)
    case Disconnect(stream) => stream in s.streams
    case Reap => true
    case Reconcile(order, plan) => ReconcileOk(s.nodes, s.table, order, plan, s.now)
    case Create(spec, replicas, id, outcome) =>
      && id !in s.used
      && (CreateRefusal(spec, replicas).None? ==>
            OutcomeOk(s.nodes, Added(s.table, id, spec).deploy, id, s.now, outcome))
    case Delete(_, _) => true
    case RunJob(_, job, _) => job !in s.jobs
  }

  /** The first message on a stream must be a Register; anything else ends the stream. */
  function Received(s: State, stream: StreamId, msg: AgentMessage, minted: NodeId,
                    accepted: seq<bool>, missing: seq<DeploymentId>): State
    requires stream in s.streams && msg.HeartbeatMsg? ==> |accepted| == |msg.active|
    requires msg.UpdateMsg? ==> |accepted| == 1
  {
    match msg
    case RegisterMsg(claimed, info) =>
      var id := ResolvedId(claimed, minted);
      s.(nodes := Upserted(s.nodes, id, info, stream, s.now),
         streams := if stream in s.streams then s.streams else s.streams[stream := id])
    case HeartbeatMsg(activeJobs, active, addr) =>
      if stream !in s.streams then s.(closed := s.closed + {stream})
      else
        var node := s.streams[stream];
        var nodes := Touched(s.nodes, node, addr, s.now);
        s.(nodes := nodes, jobs := JobsReconciled(s.jobs, node, (set j | j in activeJobs), s.now),
           table := Heartbeaten(nodes, s.table, node, active, s.now, accepted, missing))
    case JobMsg(job, upd) =>
      if stream !in s.streams then s.(closed := s.closed + {stream})
      else s.(jobs := JobUpdated(s.jobs, s.streams[stream], job, upd, s.now))
    case UpdateMsg(id, upd) =>
      if stream !in s.streams then s.(closed := s.closed + {stream})
      else s.(table := Updated(s.nodes, s.table, s.streams[stream], id, upd, s.now, accepted[0]))
    case OtherMsg =>
      if stream !in s.streams then s.(closed := s.closed + {stream}) else s
  }

  function Step(s: State, e: Event): State
    requires Enabled(s, e)
  {
    match e
    case Advance(to) => s.(now := to)
    case Receive(stream, msg, minted, accepted, missing) => Received(s, stream, msg, minted, accepted, missing)
    case Disconnect(stream) =>
      s.(nodes := Disconnected(s.nodes, s.streams[stream]), streams := s.streams - {stream}, closed := s.closed + {stream})
    case Reap => s.(nodes := Reaped(s.nodes, HEARTBEAT_INTERVAL, s.now), lastReap := s.now)
    case Reconcile(order, plan) =>
      s.(table := Reconciled(s.nodes, s.table, order, plan, s.now), lastReconcile := s.now)
    case Create(spec, replicas, id, outcome) =>
      if CreateRefusal(spec, replicas).Some? then s
      else s.(table := Attempted(Added(s.table, id, spec), id, s.now, outcome), used := s.used + {id})
    case Delete(id, ok) => s.(table := Deleted(s.nodes, s.table, id, s.now, ok))
    case RunJob(node, job, ok) =>
      if ok && IsOnline(s.nodes, node) && Sendable(s.nodes, node)
      then s.(jobs := Dispatched(s.jobs, job, node, s.now)) else s
  }

  /** The registry's part of a step. */
  function NodesAfter(s: State, e: Event): Nodes {
    match e
    case Receive(stream, msg, minted, _, _) =>
      if msg.RegisterMsg? then Upserted(s.nodes, ResolvedId(msg.claimed, minted), msg.info, stream, s.now)
      else if msg.HeartbeatMsg? && stream in s.streams then Touched(s.nodes, s.streams[stream], msg.addr, s.now)
      else s.nodes
    case Disconnect(stream) => if stream in s.streams then Disconnected(s.nodes, s.streams[stream]) else s.nodes
    case Reap => Reaped(s.nodes, HEARTBEAT_INTERVAL, s.now)
    case _ => s.nodes
  }

  /** The open streams after a step. */
  function StreamsAfter(s: State, e: Event): map<StreamId, NodeId> {
    if e.Receive? && e.msg.RegisterMsg? && e.stream !in s.streams
    then s.streams[e.stream := ResolvedId(e.msg.claimed, e.minted)]
    else if e.Disconnect? then s.streams - {e.stream}
    else s.streams
  }

  lemma StepParts(s: State, e: Event)
    requires Enabled(s, e)
    ensures Step(s, e).nodes == NodesAfter(s, e) && Step(s, e).streams == StreamsAfter(s, e)
    ensures s.now <= Step(s, e).now && Step(s, e).lastReap == if e.Reap? then s.now else s.lastReap
  {
    if e.Receive? {
      ReceivedParts(s, e);
    }
  }

  lemma ReceivedParts(s: State, e: Event)
    requires Enabled(s, e) && e.Receive?
    ensures var s' := Received(s, e.stream, e.msg, e.minted, e.accepted, e.missing);
      && s'.nodes == NodesAfter(s, e) && s'.streams == StreamsAfter(s, e)
      && s'.now == s.now && s'.lastReap == s.lastReap
  {
    match e.msg
    case RegisterMsg(_, _) =>
    case HeartbeatMsg(_, _, _) =>
    case _ =>
  }

  // ---- what each step means ----

  /** Nothing but registry, jobs and deployment table may differ. */
  ghost predicate SameConnections(s: State, s': State) {
    && s'.now == s.now && s'.streams == s.streams && s'.closed == s.closed && s'.used == s.used
    && s'.lastReap == s.lastReap && s'.lastReconcile == s.lastReconcile
  }

  /** One message of an agent: the first one must be a Register and fixes which node the stream
      speaks for; after that each kind changes what it is about, and nothing else. */
  ghost predicate MessageMeans(s: State, s': State, stream: StreamId, msg: AgentMessage, minted: NodeId, ok: bool) {
    if stream !in s.streams then
      if msg.RegisterMsg? then
        var id := if msg.claimed != "" then msg.claimed else minted;
        && SameConnections(s, s'.(streams := s.streams)) && s'.streams == s.streams[stream := id]
        && RegisterMeans(s.nodes, s'.nodes, id, msg.info, stream, s.now) && s'.jobs == s.jobs && s'.table == s.table
      else s' == s.(closed := s.closed + {stream})
    else
      var node := s.streams[stream];
      && SameConnections(s, s')
      && match msg
         case RegisterMsg(claimed, info) =>
           && RegisterMeans(s.nodes, s'.nodes, if claimed != "" then claimed else minted, info, stream, s.now)
           && s'.jobs == s.jobs && s'.table == s.table
         case HeartbeatMsg(activeJobs, active, addr) =>
           && TouchMeans(s.nodes, s'.nodes, node, addr, s.now)
           && HeartbeatMeans(s.jobs, s'.jobs, node, (set j | j in activeJobs), s.now)
           && BeatMeans(s'.nodes, s.table, s'.table, node, active, s.now)
         case JobMsg(job, upd) =>
           s'.nodes == s.nodes && UpdateMeans(s.jobs, s'.jobs, node, job, upd, s.now) && s'.table == s.table
         case UpdateMsg(id, upd) =>
           s'.nodes == s.nodes && s'.jobs == s.jobs && ReportMeans(s.nodes, s.table, s'.table, node, id, upd, s.now, ok)
         case OtherMsg => s' == s
  }

  lemma ReceivedMeans(s: State, e: Event)
    requires Enabled(s, e) && e.Receive?
    ensures MessageMeans(s, Step(s, e), e.stream, e.msg, e.minted, |e.accepted| == 1 && e.accepted[0])
  {
    var node := if e.stream in s.streams then s.streams[e.stream] else "";
    match e.msg
    case RegisterMsg(claimed, info) =>
      RegistryMeans(s.nodes, if claimed != "" then claimed else e.minted, info, e.stream, "", s.now);
    case HeartbeatMsg(activeJobs, active, addr) =>
      if e.stream in s.streams {
        var nodes := Touched(s.nodes, node, addr, s.now);
        RegistryMeans(s.nodes, node, NodeInfo("", 0, []), e.stream, addr, s.now);
        JobsReconciledMeans(s.jobs, node, (set j | j in activeJobs), s.now);
        HeartbeatenMeans(nodes, s.table, node, active, s.now, e.accepted, e.missing);
      }
    case JobMsg(job, upd) => JobUpdatedMeans(s.jobs, node, job, upd, s.now);
    case UpdateMsg(id, upd) => UpdatedMeans(s.nodes, s.table, node, id, upd, s.now, e.accepted[0]);
    case OtherMsg =>
  }

  /** The other steps: teardown, the two tickers and the admin calls. */
  ghost predicate CallMeans(s: State, s': State, e: Event) {
    match e
    case Advance(to) => s' == s.(now := to)
    case Receive(stream, msg, minted, accepted, _) => MessageMeans(s, s', stream, msg, minted, |accepted| == 1 && accepted[0])
    case Disconnect(stream) =>
      && stream in s.streams && DisconnectMeans(s.nodes, s'.nodes, s.streams[stream])
      && s' == s.(nodes := s'.nodes, streams := s.streams - {stream}, closed := s.closed + {stream})
    case Reap => ReapMeans(s.nodes, s'.nodes, 30 * SECOND, s.now) && s' == s.(nodes := s'.nodes, lastReap := s.now)
    case Reconcile(_, plan) =>
      && ReconcileMeans(s.nodes, s.table.deploy, s'.table.deploy, plan, s.now)
      && s' == s.(table := s'.table, lastReconcile := s.now)
    case Create(spec, replicas, id, outcome) =>
      if spec.model == "" || replicas > 1 || spec.engine == EngineUnset || spec.engine == EngineNative("") then s' == s
      else
        var added := s.table.(deploy := s.table.deploy[id := Deployment(spec, None, map[])]);
        && PlaceMeans(added, s'.table, id, outcome, s.now)
        && (outcome.NoNode? ==> NoNodeSuits(s.nodes, added.deploy, id, s.now))
        && (!outcome.NoNode? ==> NodeSuits(s.nodes, added.deploy, id, outcome.node, s.now))
        && s' == s.(table := s'.table, used := s.used + {id})
    case Delete(id, ok) => DeleteMeans(s.nodes, s.table, s'.table, id, s.now, ok) && s' == s.(table := s'.table)
    case RunJob(node, job, ok) =>
      if ok && node in s.nodes && s.nodes[node].status == Online && s.nodes[node].send.Some?
      then s' == s.(jobs := s.jobs[job := Job(node, JobPending, s.now, "", 0)])
      else s' == s
  }

  lemma StepMeans(s: State, e: Event)
    requires Enabled(s, e)
    ensures CallMeans(s, Step(s, e), e)
  {
    match e
    case Receive(_, _, _, _, _) => ReceivedMeans(s, e);
    case Disconnect(stream) => RegistryMeans(s.nodes, s.streams[stream], NodeInfo("", 0, []), stream, "", s.now);
    case Reap => RegistryMeans(s.nodes, "", NodeInfo("", 0, []), 0, "", s.now);
    case Reconcile(order, plan) => ReconciledMeans(s.nodes, s.table, order, plan, s.now);
    case Create(spec, replicas, id, outcome) =>
      EligibleMeans(s.nodes, Added(s.table, id, spec).deploy, id, s.now);
      AttemptedMeans(Added(s.table, id, spec), id, s.now, outcome);
    case Delete(id, ok) => DeletedMeans(s.nodes, s.table, id, s.now, ok);
    case _ =>
  }

  // ---- runs ----

  /** `run` is a run from s when each event is enabled where it happens. */
  ghost predicate Runs(s: State, run: seq<Event>)
    decreases |run|, 0
  {
    run == [] || (Runs(s, Init(run)) && Enabled(After(s, Init(run)), Last(run)))
  }

  ghost function After(s: State, run: seq<Event>): State
    requires Runs(s, run)
    decreases |run|, 1
  {
    if run == [] then s else Step(After(s, Init(run)), Last(run))
  }

  lemma {:induction false} RunsPrefix(s: State, run: seq<Event>, i: nat)
    requires Runs(s, run) && i <= |run|
    ensures Runs(s, run[..i])
    decreases |run|
  {
    if i == |run| {
      assert run[..i] == run;
    } else {
      RunsPrefix(s, Init(run), i);
      assert Init(run)[..i] == run[..i];
    }
  }

  lemma RunsSnoc(s: State, run: seq<Event>, e: Event)
    requires Runs(s, run) && Enabled(After(s, run), e)
    ensures Runs(s, run + [e]) && After(s, run + [e]) == Step(After(s, run), e)
  {
    Snoc(run, e);
  }

  /** The state just before event i of a run. */
  ghost function At(s: State, run: seq<Event>, i: nat): State
    requires Runs(s, run) && i <= |run|
  {
    RunsPrefix(s, run, i);
    After(s, run[..i])
  }

  lemma AtStep(s: State, run: seq<Event>, i: nat)
    requires Runs(s, run) && i < |run|
    ensures Enabled(At(s, run, i), run[i])
    ensures At(s, run, i + 1) == Step(At(s, run, i), run[i])
  {
    RunsPrefix(s, run, i + 1);
    assert Init(run[..i + 1]) == run[..i] && Last(run[..i + 1]) == run[i];
  }

  // ---- the invariant of every run ----

  ghost predicate Inv(s: State) {
    && TableInv(s.table, s.used, s.now)
    && HandlesOnline(s.nodes)
    && SurvivedReap(s.nodes, s.lastReap)
    && s.lastReap <= s.now && s.lastReconcile <= s.now
    && s.streams.Keys !! s.closed
  }

  lemma StepKeepsTable(s: State, e: Event)
    requires Inv(s) && Enabled(s, e)
    ensures var s' := Step(s, e); TableInv(s'.table, s'.used, s'.now)
  {
    var t, used, now := s.table, s.used, s.now;
    match e
    case Advance(to) => LaterKeeps(t, used, now, to);
    case Receive(stream, msg, minted, accepted, missing) =>
      if stream in s.streams {
        var node := s.streams[stream];
        if msg.HeartbeatMsg? {
          HeartbeatenKeeps(Touched(s.nodes, node, msg.addr, now), t, used, node, msg.active, now, accepted, missing);
        } else if msg.UpdateMsg? {
          UpdatedKeeps(s.nodes, t, used, node, msg.id, msg.upd, now, accepted[0]);
        }
      }
    case Disconnect(stream) =>
    case Reap =>
    case Reconcile(order, plan) => ReconciledKeeps(s.nodes, t, used, order, plan, now);
    case Create(spec, replicas, id, outcome) =>
      if CreateRefusal(spec, replicas).None? {
        AddedKeeps(t, used, id, spec, now);
        AttemptKeeps(s.nodes, Added(t, id, spec), used + {id}, id, now, outcome);
      }
    case Delete(id, ok) => DeletedKeeps(s.nodes, t, used, id, now, ok);
    case RunJob(_, _, _) =>
  }

  lemma StepKeepsNodes(s: State, e: Event)
    requires Inv(s) && Enabled(s, e)
    ensures var s' := Step(s, e); HandlesOnline(s'.nodes) && SurvivedReap(s'.nodes, s'.lastReap)
  {
    StepParts(s, e);
    NodesStayWatched(s, e);
  }

  lemma NodesStayWatched(s: State, e: Event)
    requires HandlesOnline(s.nodes) && SurvivedReap(s.nodes, s.lastReap) && s.lastReap <= s.now
    ensures HandlesOnline(NodesAfter(s, e)) && SurvivedReap(NodesAfter(s, e), if e.Reap? then s.now else s.lastReap)
  {
  }

  lemma StepKeeps(s: State, e: Event)
    requires Inv(s) && Enabled(s, e)
    ensures Inv(Step(s, e))
  {
    StepKeepsTable(s, e);
    StepKeepsNodes(s, e);
  }

  /** Safety of the table over every run of a freshly started coordinator. */
  lemma {:induction false} RunKeeps(t0: Time, run: seq<Event>)
    requires Runs(Start(t0), run)
    ensures Inv(After(Start(t0), run))
    decreases |run|
  {
    if run == [] {
    } else {
      RunKeeps(t0, Init(run));
      StepKeeps(After(Start(t0), Init(run)), Last(run));
    }
  }
}
