/** The coordinator process: one object holding the registry, the scheduler and the deployment
    manager, whose entry points take exactly the steps of the coordinator's state machine. */
module Servers {
  import opened Base
  import opened Registries
  import opened Deployments
  import opened Schedulers
  import opened Managers
  import opened Coordinator

  /** What the admin service answers to a dispatch. */
  datatype RunStatus = Accepted | InvalidArgument | NotFound | FailedPrecondition | Unavailable

  class Server {
    const reg: Registry
    const sched: Scheduler
    const deploy: Manager
    var streams: map<StreamId, NodeId>
    var closed: set<StreamId>

    /** The object is in state s of the state machine. */
    ghost predicate Shows(s: State)
      reads this, reg, sched, deploy
    {
      && sched.reg == reg && deploy.reg == reg
      && s.nodes == reg.nodes && s.jobs == sched.jobs && s.table == deploy.Contents()
      && s.streams == streams && s.closed == closed
    }

    constructor (ghost now: Time)
      ensures Shows(Start(now))
    {
      var nodes := new Registry();
      reg := nodes;
      sched := new Scheduler(nodes);
      deploy := new Manager(nodes);
      streams, closed := map[], {};
    }

    /** One turn of a stream's receive loop, the first one included. */
    method Receive(stream: StreamId, msg: AgentMessage, minted: NodeId, now: Time, ghost s: State)
      returns (ghost e: Event)
      requires Shows(s) && s.now == now
      requires stream !in closed && minted != "" && minted !in reg.nodes
      modifies this, reg, sched, deploy
      ensures e.Receive? && e.stream == stream && e.msg == msg && e.minted == minted
      ensures Enabled(s, e) && Shows(Step(s, e)) && CallMeans(s, Step(s, e), e)
    {
      if stream !in streams {
        e := Event.Receive(stream, msg, minted, if msg.UpdateMsg? then [false] else [], []);
        First(stream, msg, minted, now, s);
        StepMeans(s, e);
        return;
      }
      var node := streams[stream];
      match msg {
        case HeartbeatMsg(activeJobs, active, addr) =>
          reg.Touch(node, addr, now);
          sched.Reconcile(node, activeJobs, now);
          var accepted, missing := deploy.OnHeartbeat(node, active, now);
          e := Event.Receive(stream, msg, minted, accepted, missing);
        case JobMsg(job, upd) =>
          e := Event.Receive(stream, msg, minted, [], []);
          sched.OnJobUpdate(node, job, upd, now);
        case UpdateMsg(id, upd) =>
          var accepted := deploy.OnUpdate(node, id, upd, now);
          e := Event.Receive(stream, msg, minted, [accepted], []);
        case RegisterMsg(claimed, info) =>
          e := Event.Receive(stream, msg, minted, [], []);
          var _ := reg.Upsert(claimed, info, stream, minted, now);
        case OtherMsg =>
          e := Event.Receive(stream, msg, minted, [], []);
      }
      StepMeans(s, e);
    }

    /** The first message must be a Register; anything else ends the stream. */
    method First(stream: StreamId, msg: AgentMessage, minted: NodeId, now: Time, ghost s: State)
      requires Shows(s) && s.now == now
      requires stream !in closed && stream !in streams && minted != "" && minted !in reg.nodes
      modifies this, reg
      ensures Shows(Received(s, stream, msg, minted, if msg.UpdateMsg? then [false] else [], []))
    {
      if !msg.RegisterMsg? {
        closed := closed + {stream};
        return;
      }
      var id := reg.Upsert(msg.claimed, msg.info, stream, minted, now);
      streams := streams[stream := id];
    }

    /** The deferred disconnect when a stream's loop returns. */
    method Hangup(stream: StreamId, ghost s: State)
      requires Shows(s) && stream in streams
      modifies this, reg
      ensures Enabled(s, Disconnect(stream)) && Shows(Step(s, Disconnect(stream)))
      ensures CallMeans(s, Step(s, Disconnect(stream)), Disconnect(stream))
    {
      StepMeans(s, Disconnect(stream));
      reg.MarkDisconnected(streams[stream]);
      streams := streams - {stream};
      closed := closed + {stream};
    }

    method ReapTick(now: Time, ghost s: State)
      requires Shows(s) && s.now == now
      modifies reg
      ensures Shows(Step(s, Event.Reap)) && CallMeans(s, Step(s, Event.Reap), Event.Reap)
    {
      StepMeans(s, Event.Reap);
      reg.Reap(HEARTBEAT_INTERVAL, now);
    }

    method ReconcileTick(now: Time, ghost s: State) returns (ghost e: Event)
      requires Shows(s) && s.now == now
      modifies deploy
      ensures e.Reconcile? && Enabled(s, e) && Shows(Step(s, e)) && CallMeans(s, Step(s, e), e)
    {
      var order, plan := deploy.Reconcile(now);
      e := Event.Reconcile(order, plan);
      StepMeans(s, e);
    }

    method CreateDeployment(spec: Spec, replicas: nat, minted: DeploymentId, now: Time, ghost s: State)
      returns (error: Option<CreateError>, ghost e: Event)
      requires Shows(s) && s.now == now && minted !in s.used
      modifies deploy
      ensures error == CreateRefusal(spec, replicas)
      ensures e.Create? && e.spec == spec && e.replicas == replicas && e.id == minted
      ensures Enabled(s, e) && Shows(Step(s, e)) && CallMeans(s, Step(s, e), e)
    {
      ghost var outcome;
      error, outcome := deploy.Create(spec, replicas, minted, now);
      e := Event.Create(spec, replicas, minted, outcome);
      StepMeans(s, e);
    }

    method DeleteDeployment(id: DeploymentId, now: Time, ghost s: State) returns (known: bool, ghost e: Event)
      requires Shows(s) && s.now == now
      modifies deploy
      ensures known <==> id in s.table.deploy
      ensures e.Delete? && e.id == id && Enabled(s, e) && Shows(Step(s, e)) && CallMeans(s, Step(s, e), e)
    {
      ghost var accepted;
      known, accepted := deploy.Delete(id, now);
      e := Event.Delete(id, accepted);
      StepMeans(s, e);
    }

    /** An admin dispatch. Each refusal has its own status, and a refused job leaves no trace. */
    method RunJob(node: NodeId, image: string, minted: JobId, now: Time, ghost s: State)
      returns (status: RunStatus, ghost e: Event)
      requires Shows(s) && s.now == now && minted !in sched.jobs
      modifies sched
      ensures e == Event.RunJob(node, minted, status == Accepted)
      ensures Enabled(s, e) && Shows(Step(s, e)) && CallMeans(s, Step(s, e), e)
      ensures status == InvalidArgument <==> node == "" || image == ""
      ensures status == NotFound <==> node != "" && image != "" && node !in s.nodes
      ensures status == FailedPrecondition <==>
        node != "" && image != "" && node in s.nodes && !(IsOnline(s.nodes, node) && Sendable(s.nodes, node))
      ensures status == Accepted ==> minted in sched.jobs
      ensures status != Accepted ==> Step(s, e) == s
    {
      if node == "" || image == "" {
        e := Event.RunJob(node, minted, false);
        StepMeans(s, e);
        return InvalidArgument, e;
      }
      var error := sched.RunJob(node, minted, now);
      e := Event.RunJob(node, minted, error.None?);
      StepMeans(s, e);
      if error.None? {
        return Accepted, e;
      }
      match error.value
      case UnknownNode => return NotFound, e;
      case NodeOffline => return FailedPrecondition, e;
      case SendError => return Unavailable, e;
    }
  }
}
