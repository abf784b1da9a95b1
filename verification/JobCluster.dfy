/** The coordinator together with one of its agents: what is proved of the job protocol between
    the two is true of the job table of the coordinator that everybody else is using too. */
module JobCluster {
  import opened Base
  import opened Registries
  import opened Schedulers
  import C = Coordinator
  import P = JobProtocol

  /** The whole coordinator, and the protocol's view of one agent and its jobs. */
  datatype Cluster = Cluster(coord: C.State, agent: P.State)

  /** `Coordinate` is any step of the coordinator that is not about this agent's jobs, `Act` any
      step of the agent on its own. `Run` dispatches a job to the agent. `Deliver` is the coordinator
      reading, on a stream of the agent, the message that the protocol's event reads. */
  datatype Event =
    | Coordinate(c: C.Event)
    | Act(p: P.Event)
    | Run(job: JobId)
    | Deliver(c: C.Event, p: P.Event)

  function Start(node: NodeId, now: Time): Cluster {
    Cluster(C.Start(now), P.Start(node, now))
  }

  predicate Owns(jobs: Jobs, node: NodeId, id: JobId) {
    id in jobs && jobs[id].node == node
  }

  /** The node's part of the job table. */
  function OwnJobs(jobs: Jobs, node: NodeId): Jobs {
    map id | id in jobs && jobs[id].node == node :: jobs[id]
  }

  /** Agents only report on jobs of their own, and no job id is empty. */
  predicate Elsewhere(c: C.State, e: C.Event, node: NodeId) {
    match e
    case Receive(stream, msg, _, _, _) =>
      stream in c.streams ==>
        if c.streams[stream] == node then !msg.JobMsg? && !msg.HeartbeatMsg?
        else msg.JobMsg? ==> !Owns(c.jobs, node, msg.job)
    case RunJob(n, job, _) => n != node && job != ""
    case _ => true
  }

  /** The message as it is on the wire. */
  predicate Carries(msg: C.AgentMessage, m: P.Message) {
    match m
    case JobMsg(id, upd) => msg == C.JobMsg(id, upd)
    case Beat(active, _) => msg.HeartbeatMsg? && active == set j | j in msg.activeJobs
  }

  ghost predicate Enabled(s: Cluster, e: Event) {
    match e
    case Coordinate(c) => C.Enabled(s.coord, c) && Elsewhere(s.coord, c, s.agent.node)
    case Act(p) => P.Enabled(s.agent, p) && !p.Tick? && !p.Dispatch? && !p.Process? && !p.ProcessOld?
    case Run(job) =>
      job != "" && job !in s.coord.jobs && IsOnline(s.coord.nodes, s.agent.node) && Sendable(s.coord.nodes, s.agent.node)
    case Deliver(c, p) =>
      && (p.Process? || p.ProcessOld?) && P.Enabled(s.agent, p) && C.Enabled(s.coord, c)
      && c.Receive? && c.stream in s.coord.streams && s.coord.streams[c.stream] == s.agent.node
      && Carries(c.msg, P.Read(s.agent, p).value)
  }

  ghost function Step(s: Cluster, e: Event): Cluster
    requires Enabled(s, e)
  {
    match e
    case Coordinate(c) =>
      Cluster(C.Step(s.coord, c), if c.Advance? then P.Step(s.agent.(now := s.coord.now), P.Tick(c.to)) else s.agent)
    case Act(p) => s.(agent := P.Step(s.agent, p))
    case Run(job) =>
      Cluster(C.Step(s.coord, C.RunJob(s.agent.node, job, true)),
              if P.Enabled(s.agent, P.Dispatch(job)) then P.Step(s.agent, P.Dispatch(job)) else s.agent)
    case Deliver(c, p) => Cluster(C.Step(s.coord, c), P.Step(s.agent, p))
  }

  ghost predicate Runs(s: Cluster, run: seq<Event>)
    decreases |run|, 0
  {
    run == [] || (Runs(s, Init(run)) && Enabled(After(s, Init(run)), Last(run)))
  }

  ghost function After(s: Cluster, run: seq<Event>): Cluster
    requires Runs(s, run)
    decreases |run|, 1
  {
    if run == [] then s else Step(After(s, Init(run)), Last(run))
  }

  /** What the run is to the protocol. */
  function Seen(e: Event): seq<P.Event> {
    match e
    case Coordinate(c) => if c.Advance? then [P.Tick(c.to)] else []
    case Act(p) => [p]
    case Run(job) => [P.Dispatch(job)]
    case Deliver(_, p) => [p]
  }

  function Projected(run: seq<Event>): seq<P.Event>
    decreases |run|
  {
    if run == [] then [] else Projected(Init(run)) + Seen(Last(run))
  }

  /** The protocol's table is the node's part of the coordinator's. */
  ghost predicate Linked(s: Cluster) {
    && s.agent.now == s.coord.now && s.agent.jobs == OwnJobs(s.coord.jobs, s.agent.node)
    && "" !in s.coord.jobs && P.Inv(s.agent)
  }

  // ---- steps ----

  /** Jobs change only if they are other nodes' before and after. */
  ghost predicate OnlyOthersChange(jobs: Jobs, jobs': Jobs, node: NodeId) {
    && (forall id | Owns(jobs, node, id) :: id in jobs' && jobs'[id] == jobs[id])
    && (forall id | Owns(jobs', node, id) :: Owns(jobs, node, id))
  }

  lemma OwnJobsStay(jobs: Jobs, jobs': Jobs, node: NodeId)
    requires OnlyOthersChange(jobs, jobs', node)
    ensures OwnJobs(jobs', node) == OwnJobs(jobs, node)
  {
    forall id ensures id in OwnJobs(jobs', node) <==> id in OwnJobs(jobs, node) {
      assert Owns(jobs', node, id) <==> Owns(jobs, node, id);
    }
    forall id | id in OwnJobs(jobs, node) ensures OwnJobs(jobs', node)[id] == OwnJobs(jobs, node)[id] {
      assert Owns(jobs, node, id);
    }
  }

  lemma OthersMessage(c: C.State, e: C.Event, node: NodeId)
    requires C.Enabled(c, e) && e.Receive? && Elsewhere(c, e, node) && "" !in c.jobs
    ensures OnlyOthersChange(c.jobs, C.Step(c, e).jobs, node) && "" !in C.Step(c, e).jobs && C.Step(c, e).now == c.now
  {
    C.ReceivedMeans(c, e);
    if e.stream in c.streams && e.msg.HeartbeatMsg? {
      OthersHeartbeat(c.jobs, C.Step(c, e).jobs, node, c.streams[e.stream], (set j | j in e.msg.activeJobs), c.now);
    }
  }

  lemma OthersHeartbeat(jobs: Jobs, jobs': Jobs, node: NodeId, sender: NodeId, active: set<JobId>, now: Time)
    requires HeartbeatMeans(jobs, jobs', sender, active, now) && sender != node && "" !in jobs
    ensures OnlyOthersChange(jobs, jobs', node) && "" !in jobs'
  {
  }

  lemma ElsewhereLeavesAlone(c: C.State, e: C.Event, node: NodeId)
    requires C.Enabled(c, e) && Elsewhere(c, e, node) && "" !in c.jobs
    ensures OwnJobs(C.Step(c, e).jobs, node) == OwnJobs(c.jobs, node) && "" !in C.Step(c, e).jobs
    ensures !e.Advance? ==> C.Step(c, e).now == c.now
  {
    if e.Receive? {
      OthersMessage(c, e, node);
    }
    OwnJobsStay(c.jobs, C.Step(c, e).jobs, node);
  }

  lemma UpdateIsLocal(jobs: Jobs, node: NodeId, id: JobId, upd: JobUpdate, now: Time)
    requires Owns(jobs, node, id) && id != ""
    ensures OwnJobs(JobUpdated(jobs, node, id, upd, now), node) == JobUpdated(OwnJobs(jobs, node), node, id, upd, now)
  {
    JobUpdatedMeans(jobs, node, id, upd, now);
  }

  lemma ReconcileIsLocal(jobs: Jobs, node: NodeId, active: set<JobId>, now: Time)
    ensures OwnJobs(JobsReconciled(jobs, node, active, now), node) == JobsReconciled(OwnJobs(jobs, node), node, active, now)
  {
  }

  lemma ReadIsKnown(s: P.State, p: P.Event)
    requires P.Inv(s) && P.Enabled(s, p) && (p.Process? || p.ProcessOld?)
    ensures P.Read(s, p).Some? && (P.Read(s, p).value.JobMsg? ==> P.Read(s, p).value.id in s.jobs)
  {
    if p.Process? {
      assert s.up[0] in s.up;
    } else {
      P.OldTail(s, p.k);
    }
  }

  lemma DeliveryIsRead(s: Cluster, e: Event)
    requires Linked(s) && Enabled(s, e) && e.Deliver?
    ensures Linked(Step(s, e))
  {
    var c, p := e.c, e.p;
    ReadIsKnown(s.agent, p);
    P.StepKeeps(s.agent, p);
    var m, node := P.Read(s.agent, p).value, s.agent.node;
    assert P.Step(s.agent, p).jobs == P.Heard(s.agent, m).jobs && P.Step(s.agent, p).node == node;
    ReceivedJobs(s.coord, c, node);
    match m
    case JobMsg(id, upd) => UpdateIsLocal(s.coord.jobs, node, id, upd, s.coord.now);
    case Beat(active, _) => ReconcileIsLocal(s.coord.jobs, node, active, s.coord.now);
  }

  lemma ReceivedJobs(c: C.State, e: C.Event, node: NodeId)
    requires C.Enabled(c, e) && e.Receive? && e.stream in c.streams && c.streams[e.stream] == node
    ensures C.Step(c, e).now == c.now
    ensures e.msg.JobMsg? ==> C.Step(c, e).jobs == JobUpdated(c.jobs, node, e.msg.job, e.msg.jobUpd, c.now)
    ensures e.msg.HeartbeatMsg? ==> C.Step(c, e).jobs == JobsReconciled(c.jobs, node, (set j | j in e.msg.activeJobs), c.now)
  {
  }

  lemma RunIsDispatch(s: Cluster, e: Event)
    requires Linked(s) && Enabled(s, e) && e.Run?
    ensures P.Enabled(s.agent, P.Dispatch(e.job)) && Linked(Step(s, e))
  {
    P.StepKeeps(s.agent, P.Dispatch(e.job));
    DispatchIsLocal(s.coord.jobs, s.agent.node, e.job, s.coord.now);
  }

  lemma DispatchIsLocal(jobs: Jobs, node: NodeId, id: JobId, now: Time)
    requires id !in jobs
    ensures OwnJobs(Dispatched(jobs, id, node, now), node) == Dispatched(OwnJobs(jobs, node), id, node, now)
  {
  }

  lemma {:induction false} OneEvent(s: P.State, p: P.Event)
    requires P.Enabled(s, p)
    ensures P.Runs(s, [p]) && P.After(s, [p]) == P.Step(s, p)
  {
    assert Init([p]) == [] && Last([p]) == p;
  }

  lemma CoordinateProjects(s: Cluster, e: Event)
    requires Linked(s) && Enabled(s, e) && e.Coordinate?
    ensures Linked(Step(s, e)) && P.Runs(s.agent, Seen(e)) && P.After(s.agent, Seen(e)) == Step(s, e).agent
  {
    ElsewhereLeavesAlone(s.coord, e.c, s.agent.node);
    assert s.agent.(now := s.coord.now) == s.agent;
    if e.c.Advance? {
      P.StepKeeps(s.agent, P.Tick(e.c.to));
      OneEvent(s.agent, P.Tick(e.c.to));
    }
  }

  lemma StepProjects(s: Cluster, e: Event)
    requires Linked(s) && Enabled(s, e)
    ensures Linked(Step(s, e)) && P.Runs(s.agent, Seen(e)) && P.After(s.agent, Seen(e)) == Step(s, e).agent
  {
    match e
    case Coordinate(c) => CoordinateProjects(s, e);
    case Act(p) => ActProjects(s, p);
    case Run(job) =>
      RunIsDispatch(s, e);
      OneEvent(s.agent, P.Dispatch(job));
    case Deliver(_, p) =>
      DeliveryIsRead(s, e);
      OneEvent(s.agent, p);
  }

  lemma ActProjects(s: Cluster, p: P.Event)
    requires Linked(s) && Enabled(s, Act(p))
    ensures Linked(Step(s, Act(p))) && P.Runs(s.agent, [p]) && P.After(s.agent, [p]) == P.Step(s.agent, p)
  {
    P.StepKeeps(s.agent, p);
    OneEvent(s.agent, p);
  }

  // ---- runs ----

  lemma {:induction false} Continue(s: P.State, run: seq<P.Event>, more: seq<P.Event>)
    requires P.Runs(s, run) && P.Runs(P.After(s, run), more)
    ensures P.Runs(s, run + more) && P.After(s, run + more) == P.After(P.After(s, run), more)
    decreases |more|
  {
    if more == [] {
      assert run + more == run;
    } else {
      Continue(s, run, Init(more));
      assert Init(run + more) == run + Init(more) && Last(run + more) == Last(more);
    }
  }

  /** Every run of coordinator and agent is a run of the job protocol, and the protocol's table is
      at all times the agent's part of the coordinator's. */
  lemma {:induction false} RunProjects(s: Cluster, run: seq<Event>)
    requires Linked(s) && Runs(s, run)
    ensures Linked(After(s, run))
    ensures P.Runs(s.agent, Projected(run)) && P.After(s.agent, Projected(run)) == After(s, run).agent
    decreases |run|
  {
    if run == [] {
    } else {
      RunProjects(s, Init(run));
      StepProjects(After(s, Init(run)), Last(run));
      Continue(s.agent, Projected(Init(run)), Seen(Last(run)));
    }
  }

  lemma StartIsLinked(node: NodeId, t0: Time)
    ensures Linked(Start(node, t0))
  {
  }

  /** Verdict agreement, for the coordinator's own table: in every run, whatever other agents and
      administrators do, once a job has finished at the agent, none of its updates was lost and none
      is on its way, the coordinator holds exactly the agent's terminal state, error and exit code. */
  lemma CoordinatorHoldsVerdict(node: NodeId, t0: Time, run: seq<Event>, id: JobId)
    requires Runs(Start(node, t0), run)
    requires var a := After(Start(node, t0), run).agent; id in a.verdicts && id !in a.lost && id !in P.Updates(a.up)
    ensures var s := After(Start(node, t0), run);
      && id in s.coord.jobs && s.coord.jobs[id].node == node && s.coord.jobs[id].state in FINAL_STATES
      && s.coord.jobs[id].state == s.agent.verdicts[id].state
      && s.coord.jobs[id].error == s.agent.verdicts[id].error
      && s.coord.jobs[id].exitCode == s.agent.verdicts[id].exitCode
  {
    StartIsLinked(node, t0);
    RunProjects(Start(node, t0), run);
    P.VerdictAgrees(node, t0, Projected(run), id);
    NodeIsKept(Start(node, t0), run);
  }

  /** And never changes it again. */
  lemma CoordinatorKeepsVerdict(s: Cluster, run: seq<Event>, id: JobId)
    requires Linked(s) && Runs(s, run)
    requires P.Settled(s.agent, id)
    ensures var s' := After(s, run); id in s.coord.jobs && id in s'.coord.jobs && s'.coord.jobs[id] == s.coord.jobs[id]
  {
    RunProjects(s, run);
    P.VerdictIsFinal(s.agent, Projected(run), id);
    NodeIsKept(s, run);
    assert After(s, run).agent.jobs[id] == s.agent.jobs[id];
  }

  lemma ProtocolKeepsNode(s: P.State, p: P.Event)
    requires P.Enabled(s, p)
    ensures P.Step(s, p).node == s.node
  {
  }

  lemma StepKeepsNode(s: Cluster, e: Event)
    requires Enabled(s, e)
    ensures Step(s, e).agent.node == s.agent.node
  {
    match e
    case Coordinate(c) =>
    case Act(p) => ProtocolKeepsNode(s.agent, p);
    case Run(job) =>
    case Deliver(_, p) => ProtocolKeepsNode(s.agent, p);
  }

  lemma {:induction false} NodeIsKept(s: Cluster, run: seq<Event>)
    requires Runs(s, run)
    ensures After(s, run).agent.node == s.agent.node
    decreases |run|
  {
    if run == [] {
    } else {
      NodeIsKept(s, Init(run));
      StepKeepsNode(After(s, Init(run)), Last(run));
    }
  }
}
