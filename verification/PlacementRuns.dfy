/** Placement over whole runs: exclusivity, where Starts may go, the Start/Stop
    discipline of the command history, and bans. */
module PlacementRuns {
  import opened Base
  import opened Registries
  import opened Deployments
  import opened Placement
  import opened Coordinator

  // ---- what one step may append to the history ----

  /** t' extends t: the old history is a prefix, specs of surviving deployments are
      unchanged, and every new Start went to a node that fits its deployment's spec. */
  ghost predicate Extends(nodes: Nodes, t: Table, t': Table, now: Time) {
    && t.history <= t'.history
    && (forall id | id in t.deploy && id in t'.deploy :: t'.deploy[id].spec == t.deploy[id].spec)
    && (forall j | |t.history| <= j < |t'.history| ::
          && t'.history[j].at == now
          && (t'.history[j].Started? ==>
                t'.history[j].dep in t'.deploy && Fits(nodes, t'.deploy[t'.history[j].dep].spec, t'.history[j].node)))
  }

  lemma ExtendsTransitive(nodes: Nodes, a: Table, b: Table, c: Table, now: Time)
    requires Extends(nodes, a, b, now) && Extends(nodes, b, c, now) && b.deploy.Keys <= c.deploy.Keys
    requires a.deploy.Keys * c.deploy.Keys <= b.deploy.Keys
    ensures Extends(nodes, a, c, now)
  {
    forall j | |a.history| <= j < |c.history|
      ensures c.history[j].at == now
      ensures c.history[j].Started? ==>
        c.history[j].dep in c.deploy && Fits(nodes, c.deploy[c.history[j].dep].spec, c.history[j].node)
    {
      if j < |b.history| {
        assert b.history[j] == c.history[j];
      }
    }
  }

  lemma ClearedExtends(nodes: Nodes, t: Table, id: DeploymentId, now: Time)
    ensures Extends(nodes, t, Cleared(t, id, now), now) && Cleared(t, id, now).deploy.Keys == t.deploy.Keys
  {
  }

  lemma SweptOneExtends(nodes: Nodes, t: Table, id: DeploymentId, now: Time)
    ensures var t' := SweptOne(nodes, t, id, now); Extends(nodes, t, t', now) && t'.deploy.Keys == t.deploy.Keys
  {
    ClearedExtends(nodes, t, id, now);
    FailureExtends(nodes, t, id, now);
  }

  lemma FailureExtends(nodes: Nodes, t: Table, id: DeploymentId, now: Time)
    ensures var t' := Cleared(WithBan(t, id, now), id, now); Extends(nodes, t, t', now) && t'.deploy.Keys == t.deploy.Keys
  {
    var b := WithBan(t, id, now);
    assert Extends(nodes, t, b, now) && b.deploy.Keys == t.deploy.Keys;
    ClearedExtends(nodes, b, id, now);
    ExtendsTransitive(nodes, t, b, Cleared(b, id, now), now);
  }

  lemma {:induction false} SweptExtends(nodes: Nodes, t: Table, order: seq<DeploymentId>, now: Time)
    ensures var t' := Swept(nodes, t, order, now); Extends(nodes, t, t', now) && t'.deploy.Keys == t.deploy.Keys
    decreases |order|
  {
    if order == [] {
    } else {
      var b := Swept(nodes, t, Init(order), now);
      SweptExtends(nodes, t, Init(order), now);
      SweptOneExtends(nodes, b, Last(order), now);
      ExtendsTransitive(nodes, t, b, SweptOne(nodes, b, Last(order), now), now);
    }
  }

  lemma {:induction false} PlanRunExtends(nodes: Nodes, t: Table, plan: seq<Attempt>, now: Time)
    requires PlanOk(nodes, t, plan, now)
    ensures var t' := PlanRun(t, plan, now); Extends(nodes, t, t', now) && t'.deploy.Keys == t.deploy.Keys
    decreases |plan|
  {
    if plan == [] {
    } else {
      var b := PlanRun(t, Init(plan), now);
      PlanRunExtends(nodes, t, Init(plan), now);
      ExtendsTransitive(nodes, t, b, Attempted(b, Last(plan).id, now, Last(plan).outcome), now);
    }
  }

  lemma {:induction false} OrphansStoppedExtends(nodes: Nodes, t: Table, node: NodeId, active: seq<DeploymentId>,
      wanted: set<DeploymentId>, now: Time, accepted: seq<bool>)
    requires |accepted| == |active|
    ensures var t' := OrphansStopped(nodes, t, node, active, wanted, now, accepted);
      Extends(nodes, t, t', now) && t'.deploy == t.deploy
    decreases |active|
  {
    if active == [] {
    } else {
      var b := OrphansStopped(nodes, t, node, Init(active), wanted, now, Init(accepted));
      OrphansStoppedExtends(nodes, t, node, Init(active), wanted, now, Init(accepted));
      ExtendsTransitive(nodes, t, b, StopSent(nodes, b, Last(active), node, now, Last(accepted)), now);
    }
  }

  lemma {:induction false} AllClearedExtends(nodes: Nodes, t: Table, ids: seq<DeploymentId>, now: Time)
    ensures var t' := AllCleared(t, ids, now); Extends(nodes, t, t', now) && t'.deploy.Keys == t.deploy.Keys
    decreases |ids|
  {
    if ids == [] {
    } else {
      var b := AllCleared(t, Init(ids), now);
      AllClearedExtends(nodes, t, Init(ids), now);
      ClearedExtends(nodes, b, Last(ids), now);
      ExtendsTransitive(nodes, t, b, Cleared(b, Last(ids), now), now);
    }
  }

  lemma DeletedExtends(nodes: Nodes, t: Table, id: DeploymentId, now: Time, ok: bool)
    ensures Extends(nodes, t, Deleted(nodes, t, id, now, ok), now)
  {
    var b := Forgotten(t, id, now);
    assert Extends(nodes, t, b, now);
    if NodeOf(t.deploy, id).Some? {
      ExtendsTransitive(nodes, t, b, StopSent(nodes, b, id, NodeOf(t.deploy, id).value, now, ok), now);
    }
  }

  lemma ReconcileExtends(nodes: Nodes, t: Table, order: seq<DeploymentId>, plan: seq<Attempt>, now: Time)
    requires ReconcileOk(nodes, t, order, plan, now)
    ensures Extends(nodes, t, Reconciled(nodes, t, order, plan, now), now)
  {
    var b := Swept(nodes, t, order, now);
    SweptExtends(nodes, t, order, now);
    PlanRunExtends(nodes, b, plan, now);
    ExtendsTransitive(nodes, t, b, PlanRun(b, plan, now), now);
  }

  lemma CreateExtends(nodes: Nodes, t: Table, id: DeploymentId, spec: Spec, now: Time, outcome: Outcome)
    requires id !in t.deploy && OutcomeOk(nodes, Added(t, id, spec).deploy, id, now, outcome)
    ensures Extends(nodes, t, Attempted(Added(t, id, spec), id, now, outcome), now)
  {
    var b := Added(t, id, spec);
    assert Extends(nodes, t, b, now);
    ExtendsTransitive(nodes, t, b, Attempted(b, id, now, outcome), now);
  }

  lemma UpdatedExtends(nodes: Nodes, t: Table, node: NodeId, id: DeploymentId, upd: Update, now: Time, ok: bool)
    ensures Extends(nodes, t, Updated(nodes, t, node, id, upd, now, ok), now)
  {
  }

  lemma ReceiveExtends(s: State, e: Event)
    requires Enabled(s, e) && e.Receive?
    ensures Extends(s.nodes, s.table, Step(s, e).table, s.now)
  {
    if e.stream in s.streams {
      var node := s.streams[e.stream];
      if e.msg.HeartbeatMsg? {
        var nodes := Touched(s.nodes, node, e.msg.addr, s.now);
        HeartbeatExtends(s.nodes, nodes, s.table, node, e.msg.active, s.now, e.accepted, e.missing);
      } else if e.msg.UpdateMsg? {
        UpdatedExtends(s.nodes, s.table, node, e.msg.id, e.msg.upd, s.now, e.accepted[0]);
      }
    }
  }

  lemma StepExtends(s: State, e: Event)
    requires Inv(s) && Enabled(s, e)
    ensures Extends(s.nodes, s.table, Step(s, e).table, s.now)
  {
    var t, now := s.table, s.now;
    match e
    case Advance(to) =>
    case Receive(stream, msg, minted, accepted, missing) =>
      ReceiveExtends(s, e);
    case Disconnect(stream) =>
    case Reap =>
    case Reconcile(order, plan) => ReconcileExtends(s.nodes, t, order, plan, now);
    case Create(spec, replicas, id, outcome) =>
      if CreateRefusal(spec, replicas).None? {
        CreateExtends(s.nodes, t, id, spec, now, outcome);
      }
    case Delete(id, ok) => DeletedExtends(s.nodes, t, id, now, ok);
    case RunJob(_, _, _) =>
  }

  /** A heartbeat starts nothing, so its Stops extend the table under any view of the registry. */
  lemma HeartbeatExtends(nodes: Nodes, touched: Nodes, t: Table, node: NodeId, active: seq<DeploymentId>, now: Time,
                         accepted: seq<bool>, missing: seq<DeploymentId>)
    requires |accepted| == |active|
    ensures Extends(nodes, t, Heartbeaten(touched, t, node, active, now, accepted, missing), now)
  {
    var wanted := WantedOn(t.deploy, node);
    var b := OrphansStopped(touched, t, node, active, wanted, now, accepted);
    StopsOnly(touched, t, node, active, wanted, now, accepted);
    OrphansStoppedExtends(touched, t, node, active, wanted, now, accepted);
    assert Extends(nodes, t, b, now);
    AllClearedExtends(nodes, b, missing, now);
    ExtendsTransitive(nodes, t, b, AllCleared(b, missing, now), now);
  }

  lemma {:induction false} StopsOnly(nodes: Nodes, t: Table, node: NodeId, active: seq<DeploymentId>,
      wanted: set<DeploymentId>, now: Time, accepted: seq<bool>)
    requires |accepted| == |active|
    ensures var t' := OrphansStopped(nodes, t, node, active, wanted, now, accepted);
      t.history <= t'.history && forall j | |t.history| <= j < |t'.history| :: t'.history[j].StopTried?
    decreases |active|
  {
    if active == [] {
    } else {
      StopsOnly(nodes, t, node, Init(active), wanted, now, Init(accepted));
    }
  }

  // ---- theorems ----

  /** In no run do two deployments ever have replicas on one node. */
  lemma OneDeploymentPerNode(t0: Time, run: seq<Event>, a: DeploymentId, b: DeploymentId)
    requires Runs(Start(t0), run)
    requires a != b
    ensures var deploy := After(Start(t0), run).table.deploy;
      NodeOf(deploy, a).Some? ==> NodeOf(deploy, a) != NodeOf(deploy, b)
    ensures var deploy := After(Start(t0), run).table.deploy;
      a in deploy && b in deploy && deploy[a].replica.Some? && deploy[b].replica.Some? ==>
        deploy[a].replica.value.node != deploy[b].replica.value.node
  {
    RunKeeps(t0, run);
    var deploy := After(Start(t0), run).table.deploy;
    assert b in deploy && deploy[b].replica.Some? ==> NodeOf(deploy, b) == Some(deploy[b].replica.value.node);
  }

  /** Every Start a run ever sends goes, at the time of the step that sends it, to a
      node that is ONLINE with a live stream, advertises the runner the spec needs, and
      has measured usable memory of at least the minimum. */
  lemma StartsGoWhereTheyFit(t0: Time, run: seq<Event>, i: nat, j: nat)
    requires Runs(Start(t0), run) && i < |run|
    requires |At(Start(t0), run, i).table.history| <= j < |At(Start(t0), run, i + 1).table.history|
    requires At(Start(t0), run, i + 1).table.history[j].Started?
    ensures var pre, post := At(Start(t0), run, i), At(Start(t0), run, i + 1);
      var start := post.table.history[j];
      && start.at == pre.now
      && start.dep in post.table.deploy
      && var spec := post.table.deploy[start.dep].spec;
         && Fits(pre.nodes, spec, start.node)
         && start.node in pre.nodes
         && var node := pre.nodes[start.node];
            && node.status == Online && node.send.Some?
            && (spec.engine.EngineNative? ==> RunnerNativeMetal in node.info.runners)
            && (spec.engine.EngineContainer? ==> RunnerDocker in node.info.runners)
            && !spec.engine.EngineUnset?
            && node.info.usableVram > 0 && node.info.usableVram >= spec.minVram
  {
    var pre, post := At(Start(t0), run, i), At(Start(t0), run, i + 1);
    RunsPrefix(Start(t0), run, i);
    RunKeeps(t0, run[..i]);
    AtStep(Start(t0), run, i);
    StepExtends(pre, run[i]);
    EligibleMeans(pre.nodes, post.table.deploy, post.table.history[j].dep, pre.now);
  }

  lemma BansLastTenMinutes(h: seq<Entry>, k: nat)
    requires Disciplined(h) && k < |h|
    ensures forall i | 0 <= i < k && h[i].Banned? && h[k].Started? && h[i].dep == h[k].dep && h[i].node == h[k].node ::
              h[k].at - h[i].at >= 600 * SECOND
  {
    DisciplinedAt(h, k);
    forall i | 0 <= i < k && h[i].Banned? && h[k].Started? && h[i].dep == h[k].dep && h[i].node == h[k].node
      ensures h[k].at - h[i].at >= 600 * SECOND
    {
      DisciplinedAt(h, i);
      assert h[i] in h[..k];
    }
  }

  /** The command history of every run: a Start goes out only while its deployment is
      unplaced, to a node nothing occupies, after every ban recorded for the pair has
      ended; a Stop never goes to the node its deployment is placed on; an unplacing
      clears the placement that was there; and a deployment's recorded ban deadlines
      for a node never move earlier. */
  lemma HistoryIsDisciplined(t0: Time, run: seq<Event>, k: nat)
    requires Runs(Start(t0), run)
    requires k < |After(Start(t0), run).table.history|
    ensures var h := After(Start(t0), run).table.history; EntryOk(h[..k], h[k])
    ensures var h := After(Start(t0), run).table.history;
      && (h[k].Unplaced? ==> h[k].at - StartTime(h[..k], h[k].dep) > 60 * SECOND)
      && (h[k].Banned? ==> h[k].until - h[k].at == 600 * SECOND)
      && (forall i | 0 <= i < k && h[i].Banned? && h[k].Started? && h[i].dep == h[k].dep && h[i].node == h[k].node ::
            h[k].at - h[i].at >= 600 * SECOND)
  {
    RunKeeps(t0, run);
    BansLastTenMinutes(After(Start(t0), run).table.history, k);
    DisciplinedAt(After(Start(t0), run).table.history, k);
  }

  /** Starts and unplacings of one deployment alternate, and the table's placement is the last word. */
  lemma StartsAndUnplacingsAlternate(t0: Time, run: seq<Event>, i: nat, j: nat)
    requires Runs(Start(t0), run)
    requires var h := After(Start(t0), run).table.history;
      i < j < |h| && h[i].Started? && h[j].Started? && h[i].dep == h[j].dep
    ensures var h := After(Start(t0), run).table.history;
      exists k :: i < k < j && h[k].Unplaced? && h[k].dep == h[i].dep && h[k].node == h[i].node
    ensures var s := After(Start(t0), run);
      forall d: DeploymentId :: PlacedOn(s.table.history, d) == NodeOf(s.table.deploy, d)
  {
    RunKeeps(t0, run);
    StartsAlternate(After(Start(t0), run).table.history, i, j);
  }

  // ---- bans in the table ----

  ghost predicate BansNoEarlier(t: Table, t': Table) {
    forall id, n | id in t.deploy && id in t'.deploy && n in t.deploy[id].avoid ::
      n in t'.deploy[id].avoid && t.deploy[id].avoid[n] <= t'.deploy[id].avoid[n]
  }

  lemma SweptOneBans(nodes: Nodes, t: Table, used: set<DeploymentId>, id: DeploymentId, now: Time)
    requires BansKept(t, used, now)
    ensures var t' := SweptOne(nodes, t, id, now); BansNoEarlier(t, t') && t'.deploy.Keys == t.deploy.Keys
  {
  }

  lemma {:induction false} SweptBans(nodes: Nodes, t: Table, used: set<DeploymentId>, order: seq<DeploymentId>,
      now: Time)
    requires TableInv(t, used, now)
    ensures var t' := Swept(nodes, t, order, now); BansNoEarlier(t, t') && t'.deploy.Keys == t.deploy.Keys
    decreases |order|
  {
    if order == [] {
    } else {
      SweptBans(nodes, t, used, Init(order), now);
      SweptKeeps(nodes, t, used, Init(order), now);
      SweptOneBans(nodes, Swept(nodes, t, Init(order), now), used, Last(order), now);
    }
  }

  lemma {:induction false} PlanRunBans(t: Table, plan: seq<Attempt>, now: Time)
    ensures var t' := PlanRun(t, plan, now);
      t'.deploy.Keys == t.deploy.Keys && forall id | id in t.deploy :: t'.deploy[id].avoid == t.deploy[id].avoid
    decreases |plan|
  {
    if plan == [] {
    } else {
      PlanRunBans(t, Init(plan), now);
    }
  }

  lemma {:induction false} AllClearedBans(t: Table, ids: seq<DeploymentId>, now: Time)
    ensures var t' := AllCleared(t, ids, now);
      t'.deploy.Keys == t.deploy.Keys && forall id | id in t.deploy :: t'.deploy[id].avoid == t.deploy[id].avoid
    decreases |ids|
  {
    if ids == [] {
    } else {
      AllClearedBans(t, Init(ids), now);
    }
  }

  lemma HeartbeatBans(nodes: Nodes, t: Table, used: set<DeploymentId>, node: NodeId, active: seq<DeploymentId>,
      now: Time,
                      accepted: seq<bool>, missing: seq<DeploymentId>)
    requires TableInv(t, used, now) && |accepted| == |active|
    ensures var t' := Heartbeaten(nodes, t, node, active, now, accepted, missing);
      BansNoEarlier(t, t') && t'.deploy.Keys == t.deploy.Keys
  {
    OrphansStoppedKeeps(nodes, t, used, node, active, now, accepted);
    AllClearedBans(OrphansStopped(nodes, t, node, active, WantedOn(t.deploy, node), now, accepted), missing, now);
  }

  lemma ReconcileBans(nodes: Nodes, t: Table, used: set<DeploymentId>, order: seq<DeploymentId>, plan: seq<Attempt>,
      now: Time)
    requires TableInv(t, used, now)
    ensures var t' := Reconciled(nodes, t, order, plan, now); BansNoEarlier(t, t') && t'.deploy.Keys == t.deploy.Keys
  {
    SweptBans(nodes, t, used, order, now);
    PlanRunBans(Swept(nodes, t, order, now), plan, now);
  }

  lemma ReceiveBans(s: State, e: Event)
    requires Inv(s) && Enabled(s, e) && e.Receive?
    ensures BansNoEarlier(s.table, Step(s, e).table) && Step(s, e).table.deploy.Keys == s.table.deploy.Keys
  {
    if e.stream in s.streams && e.msg.HeartbeatMsg? {
      var node := s.streams[e.stream];
      var nodes := Touched(s.nodes, node, e.msg.addr, s.now);
      HeartbeatBans(nodes, s.table, s.used, node, e.msg.active, s.now, e.accepted, e.missing);
    }
  }

  lemma StepBans(s: State, e: Event)
    requires Inv(s) && Enabled(s, e)
    ensures BansNoEarlier(s.table, Step(s, e).table)
    ensures s.used <= Step(s, e).used
    ensures forall id | id in Step(s, e).table.deploy :: id in s.table.deploy || id !in s.used
  {
    if e.Receive? {
      ReceiveBans(s, e);
    } else if e.Reconcile? {
      ReconcileBans(s.nodes, s.table, s.used, e.order, e.plan, s.now);
    }
  }

  /** Between any two moments of a run at which a deployment exists, its ban deadlines only move later. */
  lemma {:induction false} BanDeadlinesOnlyGrow(t0: Time, run: seq<Event>, i: nat, d: DeploymentId, n: NodeId)
    requires Runs(Start(t0), run) && i <= |run|
    requires var was := At(Start(t0), run, i).table.deploy; d in was && n in was[d].avoid
    requires d in After(Start(t0), run).table.deploy
    ensures var was, later := At(Start(t0), run, i).table.deploy, After(Start(t0), run).table.deploy;
      n in later[d].avoid && was[d].avoid[n] <= later[d].avoid[n]
    ensures At(Start(t0), run, i).used <= After(Start(t0), run).used
    decreases |run|
  {
    var s0 := Start(t0);
    if i == |run| {
      assert run[..i] == run;
    } else {
      var pre := After(s0, Init(run));
      RunKeeps(t0, Init(run));
      StepBans(pre, Last(run));
      UsedGrows(t0, Init(run), i);
      assert Init(run)[..i] == run[..i];
      RunsPrefix(s0, run, i);
      RunKeeps(t0, run[..i]);
      BanDeadlinesOnlyGrow(t0, Init(run), i, d, n);
    }
  }

  lemma {:induction false} UsedGrows(t0: Time, run: seq<Event>, i: nat)
    requires Runs(Start(t0), run) && i <= |run|
    ensures At(Start(t0), run, i).used <= After(Start(t0), run).used
    decreases |run|
  {
    if i == |run| {
      assert run[..i] == run;
    } else {
      RunKeeps(t0, Init(run));
      StepBans(After(Start(t0), Init(run)), Last(run));
      UsedGrows(t0, Init(run), i);
      assert Init(run)[..i] == run[..i];
    }
  }
}
