/** The deployment table: desired models, their placements, and the history of
    placements, bans and commands the coordinator has produced. */
module Deployments {
  import opened Base
  import opened Registries

  type DeploymentId = string

  datatype Engine = EngineUnset | EngineNative(modelFile: string) | EngineContainer

  datatype Spec = Spec(model: string, engine: Engine, minVram: nat)

  datatype DeploymentState =
    | StateUnspecified | StatePulling | StateLoading | StateReady | StateFailed | StateStopped

  datatype Update = Update(state: DeploymentState, hostPort: nat, error: string, progress: nat)

  datatype Replica = Replica(
    node: NodeId,
    state: DeploymentState,
    hostPort: nat,
    progress: nat,
    error: string,
    placedAt: Time,
    lastUpdate: Time)

  datatype Deployment = Deployment(spec: Spec, replica: Option<Replica>, avoid: map<NodeId, Time>)

  type Deploys = map<DeploymentId, Deployment>

  const AVOID_AFTER_FAILURE: Time := 600 * SECOND
  const LOST_AFTER: Time := 60 * SECOND

  /** What the coordinator did, in order. `Started` is a StartDeployment that the
      stream accepted; `StopTried` is a StopDeployment handed to a live stream;
      `Unplaced` is a replica being cleared as lost on its node; `Banned` is an avoid entry
      being written; `Dropped` is a deployment being deleted. */
  datatype Entry =
    | Started(dep: DeploymentId, node: NodeId, at: Time)
    | Unplaced(dep: DeploymentId, node: NodeId, at: Time)
    | Banned(dep: DeploymentId, node: NodeId, at: Time, until: Time)
    | Dropped(dep: DeploymentId, at: Time)
    | StopTried(dep: DeploymentId, node: NodeId, at: Time, accepted: bool)

  datatype Table = Table(deploy: Deploys, history: seq<Entry>)

  // ---- placement rules ----

  function RequiredRunner(spec: Spec): Option<RunnerKind> {
    match spec.engine
    case EngineNative(_) => Some(RunnerNativeMetal)
    case EngineContainer => Some(RunnerDocker)
    case EngineUnset => None
  }

  /** The node a deployment is currently placed on, if any. */
  function NodeOf(deploy: Deploys, id: DeploymentId): Option<NodeId> {
    if id in deploy && deploy[id].replica.Some? then Some(deploy[id].replica.value.node) else None
  }

  ghost predicate Occupied(deploy: Deploys, id: DeploymentId, n: NodeId) {
    exists other | other in deploy :: other != id && NodeOf(deploy, other) == Some(n)
  }

  predicate BannedNow(d: Deployment, n: NodeId, now: Time) {
    n in d.avoid && now < d.avoid[n]
  }

  /** The hardware and liveness side of eligibility. */
  predicate Fits(nodes: Nodes, spec: Spec, n: NodeId) {
    && n in nodes
    && nodes[n].status == Online
    && nodes[n].send.Some?
    && RequiredRunner(spec).Some?
    && RequiredRunner(spec).value in nodes[n].info.runners
    && nodes[n].info.usableVram > 0
    && nodes[n].info.usableVram >= spec.minVram
  }

  ghost predicate Eligible(nodes: Nodes, deploy: Deploys, id: DeploymentId, n: NodeId, now: Time)
    requires id in deploy
  {
    Fits(nodes, deploy[id].spec, n) && !BannedNow(deploy[id], n, now) && !Occupied(deploy, id, n)
  }

  // ---- single writes; every operation is a composition of these ----

  function Placed(t: Table, id: DeploymentId, n: NodeId, now: Time): Table {
    if id !in t.deploy then t
    else Table(
      t.deploy[id := t.deploy[id].(replica := Some(Replica(n, StatePulling, 0, 0, "", now, now)))],
      t.history + [Started(id, n, now)])
  }

  function Cleared(t: Table, id: DeploymentId, now: Time): Table {
    if NodeOf(t.deploy, id).None? then t
    else Table(
      t.deploy[id := t.deploy[id].(replica := None)],
      t.history + [Unplaced(id, t.deploy[id].replica.value.node, now)])
  }

  function WithBan(t: Table, id: DeploymentId, now: Time): Table {
    if NodeOf(t.deploy, id).None? then t
    else
      var n := t.deploy[id].replica.value.node;
      var until := now + AVOID_AFTER_FAILURE;
      Table(
        t.deploy[id := t.deploy[id].(avoid := t.deploy[id].avoid[n := until])],
        t.history + [Banned(id, n, now, until)])
  }

  function StopSent(nodes: Nodes, t: Table, id: DeploymentId, n: NodeId, now: Time, accepted: bool): Table {
    if !Sendable(nodes, n) then t else t.(history := t.history + [StopTried(id, n, now, accepted)])
  }

  function Forgotten(t: Table, id: DeploymentId, now: Time): Table {
    if id !in t.deploy then t else Table(t.deploy - {id}, t.history + [Dropped(id, now)])
  }

  function Reported(r: Replica, upd: Update, now: Time): Replica {
    r.(state := upd.state, progress := upd.progress, error := upd.error, lastUpdate := now,
       hostPort := if upd.hostPort != 0 then upd.hostPort else r.hostPort)
  }

  // ---- Create ----

  datatype CreateError = InvalidSpec | ReplicasUnsupported

  function CreateRefusal(spec: Spec, replicas: nat): Option<CreateError> {
    if spec.model == "" then Some(InvalidSpec)
    else if replicas > 1 then Some(ReplicasUnsupported)
    else if RequiredRunner(spec).None? then Some(InvalidSpec)
    else if spec.engine == EngineNative("") then Some(InvalidSpec)
    else None
  }

  function Added(t: Table, id: DeploymentId, spec: Spec): Table {
    t.(deploy := t.deploy[id := Deployment(spec, None, map[])])
  }

  /** How one call of `place` ended. */
  datatype Outcome = NoNode | SendFailed(node: NodeId) | Success(node: NodeId)

  /** `selectNode` walks the registry in an arbitrary order: any eligible node may
      be chosen, and a refusal means there was none. */
  ghost predicate OutcomeOk(nodes: Nodes, deploy: Deploys, id: DeploymentId, now: Time, o: Outcome)
    requires id in deploy
  {
    match o
    case NoNode => forall n :: !Eligible(nodes, deploy, id, n, now)
    case SendFailed(n) => Eligible(nodes, deploy, id, n, now)
    case Success(n) => Eligible(nodes, deploy, id, n, now)
  }

  function Attempted(t: Table, id: DeploymentId, now: Time, o: Outcome): Table {
    match o
    case Success(n) => Placed(t, id, n, now)
    case _ => t
  }

  // ---- Delete, OnUpdate ----

  function Deleted(nodes: Nodes, t: Table, id: DeploymentId, now: Time, accepted: bool): Table {
    match NodeOf(t.deploy, id)
    case None => Forgotten(t, id, now)
    case Some(n) => StopSent(nodes, Forgotten(t, id, now), id, n, now, accepted)
  }

  function Updated(nodes: Nodes, t: Table, node: NodeId, id: DeploymentId, upd: Update, now: Time,
      accepted: bool): Table {
    if NodeOf(t.deploy, id) == Some(node) then
      t.(deploy := t.deploy[id := t.deploy[id].(replica := Some(Reported(t.deploy[id].replica.value, upd, now)))])
    else
      StopSent(nodes, t, id, node, now, accepted)
  }

  // ---- OnHeartbeat ----

  function WantedOn(deploy: Deploys, node: NodeId): set<DeploymentId> {
    set id | id in deploy && NodeOf(deploy, id) == Some(node)
  }

  function MissingOn(deploy: Deploys, node: NodeId, active: seq<DeploymentId>, now: Time): set<DeploymentId> {
    set id | id in deploy && NodeOf(deploy, id) == Some(node) && id !in active
             && now - deploy[id].replica.value.placedAt > LOST_AFTER
  }

  /** Stops for the reported ids that are not wanted, in report order. */
  function OrphansStopped(nodes: Nodes, t: Table, node: NodeId, active: seq<DeploymentId>, wanted: set<DeploymentId>,
                          now: Time, accepted: seq<bool>): Table
    requires |accepted| == |active|
    decreases |active|
  {
    if active == [] then t
    else
      var before := OrphansStopped(nodes, t, node, Init(active), wanted, now, Init(accepted));
      if Last(active) in wanted then before
      else StopSent(nodes, before, Last(active), node, now, Last(accepted))
  }

  function AllCleared(t: Table, ids: seq<DeploymentId>, now: Time): Table
    decreases |ids|
  {
    if ids == [] then t else Cleared(AllCleared(t, Init(ids), now), Last(ids), now)
  }

  ghost predicate HeartbeatOk(deploy: Deploys, node: NodeId, active: seq<DeploymentId>, now: Time,
                              accepted: seq<bool>, missing: seq<DeploymentId>)
  {
    |accepted| == |active| && Distinct(missing) && Elements(missing) == MissingOn(deploy, node, active, now)
  }

  function Heartbeaten(nodes: Nodes, t: Table, node: NodeId, active: seq<DeploymentId>, now: Time,
                       accepted: seq<bool>, missing: seq<DeploymentId>): Table
    requires |accepted| == |active|
  {
    AllCleared(OrphansStopped(nodes, t, node, active, WantedOn(t.deploy, node), now, accepted), missing, now)
  }

  // ---- Reconcile ----

  function SweptOne(nodes: Nodes, t: Table, id: DeploymentId, now: Time): Table {
    if NodeOf(t.deploy, id).None? then t
    else
      var r := t.deploy[id].replica.value;
      if !IsOnline(nodes, r.node) && now - r.lastUpdate > LOST_AFTER then Cleared(t, id, now)
      else if r.state == StateFailed && now - r.lastUpdate > LOST_AFTER then Cleared(WithBan(t, id, now), id, now)
      else t
  }

  function Swept(nodes: Nodes, t: Table, order: seq<DeploymentId>, now: Time): Table
    decreases |order|
  {
    if order == [] then t else SweptOne(nodes, Swept(nodes, t, Init(order), now), Last(order), now)
  }

  datatype Attempt = Attempt(id: DeploymentId, outcome: Outcome)

  function PlanRun(t: Table, plan: seq<Attempt>, now: Time): Table
    decreases |plan|
  {
    if plan == [] then t else Attempted(PlanRun(t, Init(plan), now), Last(plan).id, now, Last(plan).outcome)
  }

  /** Each attempt of the plan is legal in the table its predecessors left behind. */
  ghost predicate PlanOk(nodes: Nodes, t: Table, plan: seq<Attempt>, now: Time)
    decreases |plan|
  {
    plan == [] || (
      var before := PlanRun(t, Init(plan), now);
      && PlanOk(nodes, t, Init(plan), now)
      && Last(plan).id in before.deploy
      && NodeOf(before.deploy, Last(plan).id).None?
      && OutcomeOk(nodes, before.deploy, Last(plan).id, now, Last(plan).outcome))
  }

  function PlanIds(plan: seq<Attempt>): seq<DeploymentId> {
    seq(|plan|, i requires 0 <= i < |plan| => plan[i].id)
  }

  function UnplacedIds(deploy: Deploys): set<DeploymentId> {
    set id | id in deploy && NodeOf(deploy, id).None?
  }

  ghost predicate ReconcileOk(nodes: Nodes, t: Table, order: seq<DeploymentId>, plan: seq<Attempt>, now: Time) {
    && Distinct(order) && Elements(order) == t.deploy.Keys
    && var swept := Swept(nodes, t, order, now);
       && Distinct(PlanIds(plan)) && Elements(PlanIds(plan)) == UnplacedIds(swept.deploy)
       && PlanOk(nodes, swept, plan, now)
  }

  function Reconciled(nodes: Nodes, t: Table, order: seq<DeploymentId>, plan: seq<Attempt>, now: Time): Table {
    PlanRun(Swept(nodes, t, order, now), plan, now)
  }

  // ---- what the gateway sees ----

  datatype Endpoint = Endpoint(node: NodeId, dep: DeploymentId, host: string, port: nat)

  ghost predicate Routable(nodes: Nodes, deploy: Deploys, model: string, e: Endpoint) {
    && e.dep in deploy
    && deploy[e.dep].spec.model == model
    && deploy[e.dep].replica.Some?
    && deploy[e.dep].replica.value.state == StateReady
    && deploy[e.dep].replica.value.node == e.node
    && deploy[e.dep].replica.value.hostPort == e.port
    && IsOnline(nodes, e.node)
    && nodes[e.node].dataPlaneAddr == e.host
    && e.host != ""
  }

  // ---- what the operations mean, field by field ----

  /** The runner an engine needs is advertised. */
  predicate CanRun(info: NodeInfo, engine: Engine) {
    match engine
    case EngineNative(_) => RunnerNativeMetal in info.runners
    case EngineContainer => RunnerDocker in info.runners
    case EngineUnset => false
  }

  /** The machine and the connection are fit for the spec: ONLINE, reachable, with the runner, and
      with measured memory of at least the minimum. */
  ghost predicate MachineSuits(nodes: Nodes, spec: Spec, n: NodeId) {
    && n in nodes && nodes[n].status == Online && nodes[n].send.Some?
    && CanRun(nodes[n].info, spec.engine)
    && nodes[n].info.usableVram > 0 && nodes[n].info.usableVram >= spec.minVram
  }

  /** And it is neither avoided nor taken. */
  ghost predicate NodeSuits(nodes: Nodes, deploy: Deploys, id: DeploymentId, n: NodeId, now: Time)
    requires id in deploy
  {
    && MachineSuits(nodes, deploy[id].spec, n)
    && (n in deploy[id].avoid ==> deploy[id].avoid[n] <= now)
    && (forall other | other in deploy && other != id && deploy[other].replica.Some? :: deploy[other].replica.value.node != n)
  }

  lemma EligibleMeans(nodes: Nodes, deploy: Deploys, id: DeploymentId, now: Time)
    requires id in deploy
    ensures forall n :: Fits(nodes, deploy[id].spec, n) <==> MachineSuits(nodes, deploy[id].spec, n)
    ensures forall n :: Eligible(nodes, deploy, id, n, now) <==> NodeSuits(nodes, deploy, id, n, now)
  {
    forall n ensures Occupied(deploy, id, n) <==>
        !(forall other | other in deploy && other != id && deploy[other].replica.Some? :: deploy[other].replica.value.node != n)
    {
      assert forall other | other in deploy && deploy[other].replica.Some? ::
          NodeOf(deploy, other) == Some(deploy[other].replica.value.node);
    }
  }

  ghost predicate OtherDeploymentsStay(deploy: Deploys, deploy': Deploys, id: DeploymentId) {
    && (forall d | d in deploy && d != id :: d in deploy' && deploy'[d] == deploy[d])
    && (forall d | d in deploy' && d != id :: d in deploy)
  }

  /** A replica that has just been placed. */
  predicate JustPlaced(r: Replica, n: NodeId, now: Time) {
    && r.node == n && r.state == StatePulling && r.hostPort == 0 && r.progress == 0 && r.error == ""
    && r.placedAt == now && r.lastUpdate == now
  }

  ghost predicate PlaceMeans(t: Table, t': Table, id: DeploymentId, o: Outcome, now: Time)
    requires id in t.deploy
  {
    if o.Success? then
      && OtherDeploymentsStay(t.deploy, t'.deploy, id) && id in t'.deploy
      && t'.deploy[id].spec == t.deploy[id].spec && t'.deploy[id].avoid == t.deploy[id].avoid
      && t'.deploy[id].replica.Some? && JustPlaced(t'.deploy[id].replica.value, o.node, now)
      && t'.history == t.history + [Started(id, o.node, now)]
    else t' == t
  }

  lemma AttemptedMeans(t: Table, id: DeploymentId, now: Time, o: Outcome)
    requires id in t.deploy
    ensures PlaceMeans(t, Attempted(t, id, now, o), id, o, now)
  {
  }

  /** What a Stop leaves behind: a trace when the node can be reached, and nothing otherwise. */
  ghost predicate StopMeans(nodes: Nodes, h: seq<Entry>, h': seq<Entry>, id: DeploymentId, n: NodeId, now: Time, ok: bool) {
    h' == if n in nodes && nodes[n].send.Some? then h + [StopTried(id, n, now, ok)] else h
  }

  /** An update from the hosting node is taken over field by field, and a port of 0 means none; an
      update from anywhere else changes no deployment and is answered by a Stop. */
  ghost predicate ReportMeans(nodes: Nodes, t: Table, t': Table, node: NodeId, id: DeploymentId, upd: Update, now: Time, ok: bool) {
    if id in t.deploy && t.deploy[id].replica.Some? && t.deploy[id].replica.value.node == node then
      && t'.history == t.history && OtherDeploymentsStay(t.deploy, t'.deploy, id) && id in t'.deploy
      && t'.deploy[id].spec == t.deploy[id].spec && t'.deploy[id].avoid == t.deploy[id].avoid
      && t'.deploy[id].replica.Some?
      && var r, r' := t.deploy[id].replica.value, t'.deploy[id].replica.value;
         && r'.node == node && r'.placedAt == r.placedAt && r'.lastUpdate == now
         && r'.state == upd.state && r'.progress == upd.progress && r'.error == upd.error
         && (upd.hostPort != 0 ==> r'.hostPort == upd.hostPort) && (upd.hostPort == 0 ==> r'.hostPort == r.hostPort)
    else t'.deploy == t.deploy && StopMeans(nodes, t.history, t'.history, id, node, now, ok)
  }

  lemma UpdatedMeans(nodes: Nodes, t: Table, node: NodeId, id: DeploymentId, upd: Update, now: Time, ok: bool)
    ensures ReportMeans(nodes, t, Updated(nodes, t, node, id, upd, now, ok), node, id, upd, now, ok)
  {
  }

  /** The endpoint is a READY replica of the model, on an ONLINE node with a data-plane address. */
  ghost predicate Serves(nodes: Nodes, deploy: Deploys, model: string, e: Endpoint) {
    && e.dep in deploy && deploy[e.dep].spec.model == model
    && (exists r :: deploy[e.dep].replica == Some(r) && r.state == StateReady && r.node == e.node && r.hostPort == e.port)
    && e.node in nodes && nodes[e.node].status == Online && nodes[e.node].dataPlaneAddr == e.host && e.host != ""
  }

  lemma RoutableMeans(nodes: Nodes, deploy: Deploys, model: string, e: Endpoint)
    ensures Routable(nodes, deploy, model, e) <==> Serves(nodes, deploy, model, e)
  {
  }

  /** After a READY update with a port from the hosting node, every endpoint of the deployment has that port. */
  lemma ReadyPortIsRouted(nodes: Nodes, t: Table, node: NodeId, id: DeploymentId, upd: Update, now: Time, ok: bool,
                          model: string, e: Endpoint)
    requires NodeOf(t.deploy, id) == Some(node) && upd.state == StateReady && upd.hostPort != 0
    requires e.dep == id && Routable(nodes, Updated(nodes, t, node, id, upd, now, ok).deploy, model, e)
    ensures e.port == upd.hostPort && e.node == node
  {
  }

  ghost predicate DeleteMeans(nodes: Nodes, t: Table, t': Table, id: DeploymentId, now: Time, ok: bool) {
    && t'.deploy.Keys == t.deploy.Keys - {id} && (forall d | d in t'.deploy :: t'.deploy[d] == t.deploy[d])
    && (id !in t.deploy ==> t'.history == t.history)
    && (id in t.deploy && t.deploy[id].replica.None? ==> t'.history == t.history + [Dropped(id, now)])
    && (id in t.deploy && t.deploy[id].replica.Some? ==>
          StopMeans(nodes, t.history + [Dropped(id, now)], t'.history, id, t.deploy[id].replica.value.node, now, ok))
  }

  lemma DeletedMeans(nodes: Nodes, t: Table, id: DeploymentId, now: Time, ok: bool)
    ensures DeleteMeans(nodes, t, Deleted(nodes, t, id, now, ok), id, now, ok)
  {
  }

  /** The node should be running it, does not report it, and has had a minute to. */
  predicate IsLost(d: Deployment, id: DeploymentId, node: NodeId, active: seq<DeploymentId>, now: Time) {
    d.replica.Some? && d.replica.value.node == node && id !in active && now - d.replica.value.placedAt > 60 * SECOND
  }

  /** A heartbeat clears exactly the replicas its node has lost, and tries to stop exactly the
      reported deployments that are not placed there, if the node can be reached. */
  ghost predicate BeatMeans(nodes: Nodes, t: Table, t': Table, node: NodeId, active: seq<DeploymentId>, now: Time) {
    && t'.deploy.Keys == t.deploy.Keys
    && (forall id | id in t.deploy ::
          t'.deploy[id] == if IsLost(t.deploy[id], id, node, active, now) then t.deploy[id].(replica := None) else t.deploy[id])
    && t.history <= t'.history
    && (forall id :: StopTriedIn(t'.history[|t.history|..], id) <==>
          && id in active && node in nodes && nodes[node].send.Some?
          && !(id in t.deploy && t.deploy[id].replica.Some? && t.deploy[id].replica.value.node == node))
  }

  ghost predicate StopTriedIn(h: seq<Entry>, id: DeploymentId) {
    exists e | e in h :: e.StopTried? && e.dep == id
  }
}
