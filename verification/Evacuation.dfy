/** Bounded-time facts. With reap ticks at most one heartbeat interval apart and
    reconcile ticks at most 15 s apart, a silent node is OFFLINE within 40 s and hosts
    nothing after 115 s; and every ONLINE node was heard from within 40 s. */
module Evacuation {
  import opened Base
  import opened Registries
  import opened Deployments
  import opened Placement
  import opened Coordinator
  import opened PlacementRuns

  /** Silence after which a node cannot still be ONLINE: the reap threshold plus one tick. */
  const OFFLINE_BOUND: Time := MISSED_INTERVALS * HEARTBEAT_INTERVAL + HEARTBEAT_INTERVAL

  /** Silence after which a node cannot still host a replica. */
  const EVACUATION_BOUND: Time := OFFLINE_BOUND + LOST_AFTER + RECONCILE_INTERVAL

  /** The reaper is not overdue. */
  predicate ReapOnTime(s: State) {
    s.now <= s.lastReap + HEARTBEAT_INTERVAL
  }

  /** Neither ticker is overdue. */
  predicate Timely(s: State) {
    ReapOnTime(s) && s.now <= s.lastReconcile + RECONCILE_INTERVAL
  }

  ghost predicate TimelyRun(s: State, run: seq<Event>)
    requires Runs(s, run)
    decreases |run|
  {
    Timely(After(s, run)) && (run == [] || TimelyRun(s, Init(run)))
  }

  /** The event is a message from n: a Register that resolves to it, or anything else on its stream. */
  predicate Speaks(s: State, e: Event, n: NodeId) {
    && e.Receive?
    && if e.msg.RegisterMsg? then ResolvedId(e.msg.claimed, e.minted) == n
       else e.stream in s.streams && s.streams[e.stream] == n
  }

  ghost predicate Silent(s: State, run: seq<Event>, n: NodeId)
    requires Runs(s, run)
    decreases |run|
  {
    run == [] || (Silent(s, Init(run), n) && !Speaks(After(s, Init(run)), Last(run), n))
  }

  // ---- how replicas change in one atomic step ----

  /** Each replica after the step was there before, or was just placed on an ONLINE
      node, or was just reported on by `speaker`, the node hosting it. */
  ghost predicate ReplicasFrom(nodes: Nodes, deploy: Deploys, deploy': Deploys, now: Time, speaker: Option<NodeId>) {
    forall id | id in deploy' && deploy'[id].replica.Some? ::
      var r := deploy'[id].replica.value;
      || (id in deploy && deploy[id].replica == Some(r))
      || (r.lastUpdate == now && IsOnline(nodes, r.node))
      || (r.lastUpdate == now && speaker == Some(r.node))
  }

  lemma {:induction false} SweptFrom(nodes: Nodes, t: Table, order: seq<DeploymentId>, now: Time)
    ensures ReplicasFrom(nodes, t.deploy, Swept(nodes, t, order, now).deploy, now, None)
    decreases |order|
  {
    if order == [] {
    } else {
      SweptFrom(nodes, t, Init(order), now);
    }
  }

  lemma {:induction false} PlanRunFrom(nodes: Nodes, t0: Table, t: Table, plan: seq<Attempt>, now: Time)
    requires PlanOk(nodes, t, plan, now) && ReplicasFrom(nodes, t0.deploy, t.deploy, now, None)
    ensures ReplicasFrom(nodes, t0.deploy, PlanRun(t, plan, now).deploy, now, None)
    decreases |plan|
  {
    if plan == [] {
    } else {
      PlanRunFrom(nodes, t0, t, Init(plan), now);
    }
  }

  lemma {:induction false} AllClearedFrom(nodes: Nodes, t: Table, ids: seq<DeploymentId>, now: Time)
    ensures ReplicasFrom(nodes, t.deploy, AllCleared(t, ids, now).deploy, now, None)
    decreases |ids|
  {
    if ids == [] {
    } else {
      AllClearedFrom(nodes, t, Init(ids), now);
    }
  }

  function Speaker(s: State, e: Event): Option<NodeId> {
    if e.Receive? && !e.msg.RegisterMsg? && e.stream in s.streams then Some(s.streams[e.stream]) else None
  }

  lemma HeartbeatFrom(s: State, nodes: Nodes, node: NodeId, active: seq<DeploymentId>, accepted: seq<bool>,
      missing: seq<DeploymentId>)
    requires Inv(s) && |accepted| == |active|
    ensures var t := Heartbeaten(nodes, s.table, node, active, s.now, accepted, missing);
      ReplicasFrom(s.nodes, s.table.deploy, t.deploy, s.now, None)
  {
    OrphansStoppedKeeps(nodes, s.table, s.used, node, active, s.now, accepted);
    var stopped := OrphansStopped(nodes, s.table, node, active, WantedOn(s.table.deploy, node), s.now, accepted);
    AllClearedFrom(s.nodes, stopped, missing, s.now);
  }

  lemma ReconcileFrom(s: State, order: seq<DeploymentId>, plan: seq<Attempt>)
    requires ReconcileOk(s.nodes, s.table, order, plan, s.now)
    ensures ReplicasFrom(s.nodes, s.table.deploy, Reconciled(s.nodes, s.table, order, plan, s.now).deploy, s.now, None)
  {
    SweptFrom(s.nodes, s.table, order, s.now);
    PlanRunFrom(s.nodes, s.table, Swept(s.nodes, s.table, order, s.now), plan, s.now);
  }

  lemma ReceiveFrom(s: State, e: Event)
    requires Inv(s) && Enabled(s, e) && e.Receive?
    ensures ReplicasFrom(s.nodes, s.table.deploy, Step(s, e).table.deploy, s.now, Speaker(s, e))
  {
    if e.stream in s.streams && e.msg.HeartbeatMsg? {
      var node := s.streams[e.stream];
      HeartbeatFrom(s, Touched(s.nodes, node, e.msg.addr, s.now), node, e.msg.active, e.accepted, e.missing);
    }
  }

  lemma AdminFrom(s: State, e: Event)
    requires Enabled(s, e) && (e.Create? || e.Delete?)
    ensures ReplicasFrom(s.nodes, s.table.deploy, Step(s, e).table.deploy, s.now, None)
  {
  }

  lemma StepReplicas(s: State, e: Event)
    requires Inv(s) && Enabled(s, e)
    ensures ReplicasFrom(s.nodes, s.table.deploy, Step(s, e).table.deploy, s.now, Speaker(s, e))
  {
    if e.Receive? {
      ReceiveFrom(s, e);
    } else if e.Reconcile? {
      ReconcileFrom(s, e.order, e.plan);
    } else if e.Create? || e.Delete? {
      AdminFrom(s, e);
    }
  }

  // ---- nothing is stamped in the future ----

  ghost predicate PastOnly(s: State) {
    && (forall n | n in s.nodes :: s.nodes[n].lastSeen <= s.now)
    && (forall id | id in s.table.deploy && s.table.deploy[id].replica.Some? ::
          s.table.deploy[id].replica.value.lastUpdate <= s.now)
  }

  lemma StepKeepsPast(s: State, e: Event)
    requires Inv(s) && PastOnly(s) && Enabled(s, e)
    ensures PastOnly(Step(s, e))
  {
    var s' := Step(s, e);
    StepReplicas(s, e);
    assert s.now <= s'.now;
    forall n | n in s'.nodes ensures s'.nodes[n].lastSeen <= s'.now {
    }
  }

  lemma {:induction false} RunKeepsPast(t0: Time, run: seq<Event>)
    requires Runs(Start(t0), run)
    ensures PastOnly(After(Start(t0), run)) && Inv(After(Start(t0), run))
    decreases |run|
  {
    if run == [] {
    } else {
      RunKeepsPast(t0, Init(run));
      StepKeepsPast(After(Start(t0), Init(run)), Last(run));
      StepKeeps(After(Start(t0), Init(run)), Last(run));
    }
  }

  // ---- recency of ONLINE nodes ----

  /** In every run, at every moment at which the reaper is not overdue, each ONLINE node was
      heard from within four intervals. */
  lemma OnlineMeansRecentlyHeard(t0: Time, run: seq<Event>, n: NodeId)
    requires Runs(Start(t0), run)
    requires var s := After(Start(t0), run); ReapOnTime(s) && IsOnline(s.nodes, n)
    ensures var s := After(Start(t0), run); s.now - 40 * SECOND <= s.nodes[n].lastSeen <= s.now
  {
    RunKeepsPast(t0, run);
  }

  // ---- evacuation ----

  /** Every deployment the sweep visits that is stuck on a dead node leaves it. */
  lemma {:induction false} SweepClears(nodes: Nodes, t: Table, order: seq<DeploymentId>, now: Time, id: DeploymentId,
      n: NodeId)
    requires !IsOnline(nodes, n) && id in order
    requires id in t.deploy && NodeOf(t.deploy, id) == Some(n) ==> now - t.deploy[id].replica.value.lastUpdate > LOST_AFTER
    ensures NodeOf(Swept(nodes, t, order, now).deploy, id) != Some(n)
    decreases |order|
  {
    var before := Swept(nodes, t, Init(order), now);
    SweptFrom(nodes, t, Init(order), now);
    InitLast(order);
    if Last(order) != id {
      SweepClears(nodes, t, Init(order), now, id, n);
    }
  }

  lemma {:induction false} PlanRunAvoids(nodes: Nodes, t: Table, plan: seq<Attempt>, now: Time, id: DeploymentId,
      n: NodeId)
    requires PlanOk(nodes, t, plan, now) && !IsOnline(nodes, n) && NodeOf(t.deploy, id) != Some(n)
    ensures NodeOf(PlanRun(t, plan, now).deploy, id) != Some(n)
    decreases |plan|
  {
    if plan == [] {
    } else {
      PlanRunAvoids(nodes, t, Init(plan), now, id, n);
    }
  }

  ghost predicate HostsNothing(deploy: Deploys, n: NodeId) {
    forall id | id in deploy :: NodeOf(deploy, id) != Some(n)
  }

  lemma ReconcileEvacuates(s: State, order: seq<DeploymentId>, plan: seq<Attempt>, n: NodeId)
    requires Inv(s) && ReconcileOk(s.nodes, s.table, order, plan, s.now)
    requires !IsOnline(s.nodes, n)
    requires forall id | id in s.table.deploy && NodeOf(s.table.deploy, id) == Some(n) ::
      s.now - s.table.deploy[id].replica.value.lastUpdate > LOST_AFTER
    ensures HostsNothing(Reconciled(s.nodes, s.table, order, plan, s.now).deploy, n)
  {
    var swept := Swept(s.nodes, s.table, order, s.now);
    forall id: DeploymentId ensures NodeOf(Reconciled(s.nodes, s.table, order, plan, s.now).deploy, id) != Some(n) {
      SweptFrom(s.nodes, s.table, order, s.now);
      if id in s.table.deploy {
        assert id in Elements(order);
        SweepClears(s.nodes, s.table, order, s.now, id, n);
      }
      PlanRunAvoids(s.nodes, swept, plan, s.now, id, n);
    }
  }

  /** What holds of node n at every moment of a silence that began at `since`. */
  ghost predicate Fading(s: State, n: NodeId, since: Time) {
    && (n in s.nodes ==> s.nodes[n].lastSeen <= since)
    && (forall id | id in s.table.deploy && NodeOf(s.table.deploy, id) == Some(n) ::
          s.table.deploy[id].replica.value.lastUpdate <= since + OFFLINE_BOUND)
    && (s.lastReconcile > since + OFFLINE_BOUND + LOST_AFTER ==> HostsNothing(s.table.deploy, n))
  }

  lemma SilentIsOffline(s: State, n: NodeId, since: Time)
    requires Inv(s) && Timely(s) && Fading(s, n, since)
    requires s.now > since + OFFLINE_BOUND
    ensures !IsOnline(s.nodes, n)
  {
  }

  lemma SilentIsNotSeen(s: State, e: Event, n: NodeId, since: Time)
    requires !Speaks(s, e, n) && (n in s.nodes ==> s.nodes[n].lastSeen <= since)
    ensures n in NodesAfter(s, e) ==> NodesAfter(s, e)[n].lastSeen <= since
  {
  }

  /** A replica on a silent node was there before, or was placed before the node went OFFLINE. */
  lemma SilentReplicas(s: State, e: Event, n: NodeId, since: Time, id: DeploymentId)
    requires Inv(s) && Timely(s) && Enabled(s, e) && Fading(s, n, since) && !Speaks(s, e, n)
    requires NodeOf(Step(s, e).table.deploy, id) == Some(n)
    ensures Step(s, e).table.deploy[id].replica.value.lastUpdate <= since + OFFLINE_BOUND
    ensures s.now <= since + OFFLINE_BOUND || NodeOf(s.table.deploy, id) == Some(n)
  {
    StepReplicas(s, e);
    if s.now > since + OFFLINE_BOUND {
      SilentIsOffline(s, n, since);
    }
  }

  lemma StepFades(s: State, e: Event, n: NodeId, since: Time)
    requires Inv(s) && Timely(s) && Enabled(s, e) && Fading(s, n, since) && !Speaks(s, e, n)
    ensures Fading(Step(s, e), n, since)
  {
    var s' := Step(s, e);
    StepParts(s, e);
    SilentIsNotSeen(s, e, n, since);
    forall id | id in s'.table.deploy && NodeOf(s'.table.deploy, id) == Some(n)
      ensures s'.table.deploy[id].replica.value.lastUpdate <= since + OFFLINE_BOUND
    {
      SilentReplicas(s, e, n, since, id);
    }
    if s'.lastReconcile > since + OFFLINE_BOUND + LOST_AFTER {
      StaysEmpty(s, e, n, since);
    }
  }

  lemma StaysEmpty(s: State, e: Event, n: NodeId, since: Time)
    requires Inv(s) && Timely(s) && Enabled(s, e) && Fading(s, n, since) && !Speaks(s, e, n)
    requires Step(s, e).lastReconcile > since + OFFLINE_BOUND + LOST_AFTER
    ensures HostsNothing(Step(s, e).table.deploy, n)
  {
    if e.Reconcile? {
      SilentIsOffline(s, n, since);
      ReconcileEvacuates(s, e.order, e.plan, n);
    } else {
      forall id | id in Step(s, e).table.deploy ensures NodeOf(Step(s, e).table.deploy, id) != Some(n) {
        if NodeOf(Step(s, e).table.deploy, id) == Some(n) {
          SilentReplicas(s, e, n, since, id);
        }
      }
    }
  }

  lemma {:induction false} SilenceFades(s: State, run: seq<Event>, n: NodeId, since: Time)
    requires Inv(s) && Fading(s, n, since)
    requires Runs(s, run) && TimelyRun(s, run) && Silent(s, run, n)
    ensures Fading(After(s, run), n, since) && Inv(After(s, run))
    decreases |run|
  {
    if run == [] {
    } else {
      SilenceFades(s, Init(run), n, since);
      StepFades(After(s, Init(run)), Last(run), n, since);
      StepKeeps(After(s, Init(run)), Last(run));
    }
  }

  /** No Start goes to a silent node once it has been silent for longer than the offline bound. */
  lemma {:induction false} NoLateStarts(s: State, run: seq<Event>, n: NodeId, since: Time)
    requires Inv(s) && Fading(s, n, since)
    requires Runs(s, run) && TimelyRun(s, run) && Silent(s, run, n)
    ensures var h, h' := s.table.history, After(s, run).table.history;
      h <= h' && forall j | |h| <= j < |h'| && h'[j].Started? && h'[j].node == n :: h'[j].at <= since + OFFLINE_BOUND
    decreases |run|
  {
    if run == [] {
    } else {
      var pre := After(s, Init(run));
      NoLateStarts(s, Init(run), n, since);
      SilenceFades(s, Init(run), n, since);
      StepExtends(pre, Last(run));
      if pre.now > since + OFFLINE_BOUND {
        SilentIsOffline(pre, n, since);
      }
    }
  }

  /** Bounded evacuation. Take any run up to a moment, and let n say nothing from then
      on while both tickers stay on time. Once more than 40 s have passed n is not ONLINE
      and no further Start is sent to it; once more than 115 s have passed no deployment has
      a replica on n. Since the run after the moment is arbitrary, all three hold from then on. */
  lemma DeadNodeIsEvacuated(t0: Time, past: seq<Event>, future: seq<Event>, n: NodeId)
    requires Runs(Start(t0), past)
    requires var s := After(Start(t0), past); Runs(s, future) && TimelyRun(s, future) && Silent(s, future, n)
    ensures var s := After(Start(t0), past);
      var s' := After(s, future);
      && (s'.now - s.now > 40 * SECOND ==> !(n in s'.nodes && s'.nodes[n].status == Online))
      && (s'.now - s.now > 115 * SECOND ==>
            forall id | id in s'.table.deploy && s'.table.deploy[id].replica.Some? :: s'.table.deploy[id].replica.value.node != n)
      && s.table.history <= s'.table.history
      && (forall j | |s.table.history| <= j < |s'.table.history| ::
            s'.table.history[j].Started? && s'.table.history[j].node == n ==> s'.table.history[j].at - s.now <= 40 * SECOND)
  {
    var s := After(Start(t0), past);
    RunKeepsPast(t0, past);
    TimelyAtStart(s, future);
    SilenceFades(s, future, n, s.now);
    NoLateStarts(s, future, n, s.now);
    var s' := After(s, future);
    if s'.now - s.now > OFFLINE_BOUND {
      SilentIsOffline(s', n, s.now);
    }
    forall id | id in s'.table.deploy && s'.table.deploy[id].replica.Some?
      ensures NodeOf(s'.table.deploy, id) == Some(s'.table.deploy[id].replica.value.node) {}
  }

  lemma {:induction false} TimelyAtStart(s: State, run: seq<Event>)
    requires Runs(s, run) && TimelyRun(s, run)
    ensures Timely(s)
    decreases |run|
  {
    if run == [] {
    } else {
      TimelyAtStart(s, Init(run));
    }
  }
}
