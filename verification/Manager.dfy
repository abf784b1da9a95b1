/** The deployment manager as the coordinator runs it: a table updated in place,
    loops over maps in whatever order they yield, and sends that may fail. */
module Managers {
  import opened Base
  import opened Registries
  import opened Deployments
  import opened Meanings

  /** `seen` lists, once each, the members of `all` that are no longer to be visited. */
  ghost predicate Visited(seen: seq<DeploymentId>, all: set<DeploymentId>, todo: set<DeploymentId>) {
    Distinct(seen) && Elements(seen) == all - todo
  }

  lemma VisitOne(seen: seq<DeploymentId>, all: set<DeploymentId>, todo: set<DeploymentId>, id: DeploymentId)
    requires Visited(seen, all, todo) && id in todo && id in all
    ensures Visited(seen + [id], all, todo - {id})
  {
    assert id !in Elements(seen);
    DistinctSnoc(seen, id);
  }

  lemma VisitUnplaced(before: Deploys, after: Deploys, todo: set<DeploymentId>, seen: seq<DeploymentId>,
      id: DeploymentId)
    requires Visited(seen, UnplacedIds(before), todo) && id in todo && id in after && after.Keys == before.Keys
    requires forall other | other in after && other != id :: after[other] == before[other]
    ensures Visited(if after[id].replica.None? then seen + [id] else seen, UnplacedIds(after), todo - {id})
  {
    assert id !in Elements(seen);
    DistinctSnoc(seen, id);
    assert UnplacedIds(after) - {id} == UnplacedIds(before) - {id};
  }

  ghost predicate StillUnplaced(deploy: Deploys, ids: seq<DeploymentId>) {
    forall j | 0 <= j < |ids| :: ids[j] in deploy && NodeOf(deploy, ids[j]).None?
  }

  lemma StillUnplacedHead(deploy: Deploys, ids: seq<DeploymentId>, i: nat)
    requires i < |ids| && Distinct(ids) && StillUnplaced(deploy, ids[i..])
    ensures ids[i] in deploy && NodeOf(deploy, ids[i]).None?
    ensures StillUnplaced(deploy, ids[i + 1..]) && ids[i] !in ids[i + 1..]
  {
    assert ids[i..] == [ids[i]] + ids[i + 1..];
    var tail := ids[i + 1..];
    forall j | 0 <= j < |tail| ensures tail[j] in deploy && NodeOf(deploy, tail[j]).None? {
      assert tail[j] == ids[i..][j + 1];
    }
  }

  /** An attempt for one deployment leaves the others as they were. */
  lemma OthersStillUnplaced(before: Deploys, after: Deploys, ids: seq<DeploymentId>, id: DeploymentId)
    requires StillUnplaced(before, ids) && id !in ids && before.Keys <= after.Keys
    requires forall other | other in before && other != id :: after[other] == before[other]
    ensures StillUnplaced(after, ids)
  {
  }

  /** A legal attempt at the end of a plan keeps the plan legal. */
  lemma PlanGrows(nodes: Nodes, t: Table, plan: seq<Attempt>, a: Attempt, now: Time)
    requires PlanOk(nodes, t, plan, now)
    requires var before := PlanRun(t, plan, now);
      a.id in before.deploy && NodeOf(before.deploy, a.id).None? && OutcomeOk(nodes, before.deploy, a.id, now, a.outcome)
    ensures PlanOk(nodes, t, plan + [a], now)
    ensures PlanRun(t, plan + [a], now) == Attempted(PlanRun(t, plan, now), a.id, now, a.outcome)
    ensures PlanIds(plan + [a]) == PlanIds(plan) + [a.id]
  {
    Snoc(plan, a);
  }

  class Manager {
    const reg: Registry
    var deploy: Deploys
    ghost var history: seq<Entry>

    ghost function Contents(): Table
      reads this
    {
      Table(deploy, history)
    }

    constructor (reg: Registry)
      ensures this.reg == reg && Contents() == Table(map[], [])
    {
      this.reg := reg;
      deploy := map[];
      history := [];
    }

    /** Handing a message to a live stream: the transport decides. */
    method Transmit() returns (accepted: bool) {
      accepted := *;
    }

    method OccupiedNodes(id: DeploymentId) returns (occupied: set<NodeId>)
      ensures forall n :: n in occupied <==> Occupied(deploy, id, n)
    {
      occupied := {};
      var todo := deploy.Keys;
      while todo != {}
        invariant todo <= deploy.Keys
        invariant forall n :: n in occupied <==>
                  exists other | other in deploy :: other !in todo && other != id && NodeOf(deploy, other) == Some(n)
        decreases |todo|
      {
        var other :| other in todo;
        todo := todo - {other};
        if other != id && deploy[other].replica.Some? {
          assert NodeOf(deploy, other) == Some(deploy[other].replica.value.node);
          occupied := occupied + {deploy[other].replica.value.node};
        }
      }
    }

    /** Chooses some eligible node, and refuses only when there is none. */
    method SelectNode(id: DeploymentId, now: Time) returns (r: Option<NodeId>)
      requires id in deploy
      ensures r.None? ==> forall n :: !Eligible(reg.nodes, deploy, id, n, now)
      ensures r.Some? ==> Eligible(reg.nodes, deploy, id, r.value, now)
      ensures r.None? ==> forall n :: !NodeSuits(reg.nodes, deploy, id, n, now)
      ensures r.Some? ==> NodeSuits(reg.nodes, deploy, id, r.value, now)
    {
      EligibleMeans(reg.nodes, deploy, id, now);
      var kind := RequiredRunner(deploy[id].spec);
      if kind.None? {
        return None;
      }
      var occupied := OccupiedNodes(id);
      var avoid := deploy[id].avoid;
      var minVram := deploy[id].spec.minVram;
      var todo := reg.nodes.Keys;
      while todo != {}
        invariant todo <= reg.nodes.Keys
        invariant forall n | n in reg.nodes && n !in todo :: !Eligible(reg.nodes, deploy, id, n, now)
        decreases |todo|
      {
        var n :| n in todo;
        todo := todo - {n};
        var node := reg.nodes[n];
        if node.status != Online || node.send.None? {
          continue;
        }
        if n in avoid && now < avoid[n] {
          continue;
        }
        if kind.value !in node.info.runners {
          continue;
        }
        if n in occupied {
          continue;
        }
        var usable := node.info.usableVram;
        if usable == 0 {
          continue;
        }
        if minVram > 0 && usable < minVram {
          continue;
        }
        return Some(n);
      }
      return None;
    }

    method Place(id: DeploymentId, now: Time) returns (outcome: Outcome)
      requires id in deploy
      modifies this
      ensures OutcomeOk(reg.nodes, old(deploy), id, now, outcome)
      ensures Contents() == Attempted(old(Contents()), id, now, outcome)
      ensures PlaceMeans(old(Contents()), Contents(), id, outcome, now)
      ensures outcome.NoNode? ==> forall n :: !NodeSuits(reg.nodes, old(deploy), id, n, now)
      ensures !outcome.NoNode? ==> NodeSuits(reg.nodes, old(deploy), id, outcome.node, now)
    {
      var node := SelectNode(id, now);
      if node.None? {
        return NoNode;
      }
      var accepted := Transmit();
      if !accepted {
        return SendFailed(node.value);
      }
      deploy := deploy[id := deploy[id].(replica := Some(Replica(node.value, StatePulling, 0, 0, "", now, now)))];
      history := history + [Started(id, node.value, now)];
      return Success(node.value);
    }

    /** `minted` is the id the generator hands out; it has never been used before. */
    method Create(spec: Spec, replicas: nat, minted: DeploymentId, now: Time)
      returns (error: Option<CreateError>, ghost outcome: Outcome)
      modifies this
      ensures error == CreateRefusal(spec, replicas)
      ensures error == Some(ReplicasUnsupported) <==> spec.model != "" && replicas > 1
      ensures error == Some(InvalidSpec) <==>
        spec.model == "" || (replicas <= 1 && (spec.engine == EngineUnset || spec.engine == EngineNative("")))
      ensures error.Some? ==> Contents() == old(Contents())
      ensures error.None? ==>
        && minted in deploy && deploy[minted].spec == spec && deploy[minted].avoid == map[]
        && OtherDeploymentsStay(old(deploy), deploy, minted)
      ensures error.None? ==>
        var added := Added(old(Contents()), minted, spec);
        && OutcomeOk(reg.nodes, added.deploy, minted, now, outcome)
        && Contents() == Attempted(added, minted, now, outcome)
    {
      outcome := NoNode;
      if spec.model == "" {
        return Some(InvalidSpec), outcome;
      }
      if replicas > 1 {
        return Some(ReplicasUnsupported), outcome;
      }
      if spec.engine == EngineUnset {
        return Some(InvalidSpec), outcome;
      }
      if spec.engine.EngineNative? && spec.engine.modelFile == "" {
        return Some(InvalidSpec), outcome;
      }
      deploy := deploy[minted := Deployment(spec, None, map[])];
      var o := Place(minted, now);
      return None, o;
    }

    method SendStop(node: NodeId, id: DeploymentId, now: Time) returns (accepted: bool)
      modifies this`history
      ensures Contents() == StopSent(reg.nodes, old(Contents()), id, node, now, accepted)
      ensures StopMeans(reg.nodes, old(history), history, id, node, now, accepted)
    {
      var n := reg.Get(node);
      if n.None? || n.value.send.None? {
        return false;
      }
      accepted := Transmit();
      history := history + [StopTried(id, node, now, accepted)];
    }

    method Delete(id: DeploymentId, now: Time) returns (known: bool, ghost accepted: bool)
      modifies this
      ensures known <==> id in old(deploy)
      ensures Contents() == Deleted(reg.nodes, old(Contents()), id, now, accepted)
      ensures DeleteMeans(reg.nodes, old(Contents()), Contents(), id, now, accepted)
    {
      accepted := false;
      if id !in deploy {
        return false, accepted;
      }
      var replica := deploy[id].replica;
      deploy := deploy - {id};
      history := history + [Dropped(id, now)];
      if replica.None? {
        return true, accepted;
      }
      var ok := SendStop(replica.value.node, id, now);
      return true, ok;
    }

    method OnUpdate(node: NodeId, id: DeploymentId, upd: Update, now: Time) returns (ghost accepted: bool)
      modifies this
      ensures Contents() == Updated(reg.nodes, old(Contents()), node, id, upd, now, accepted)
      ensures ReportMeans(reg.nodes, old(Contents()), Contents(), node, id, upd, now, accepted)
    {
      accepted := false;
      if id !in deploy || deploy[id].replica.None? || deploy[id].replica.value.node != node {
        var ok := SendStop(node, id, now);
        return ok;
      }
      var r := deploy[id].replica.value;
      r := r.(state := upd.state, progress := upd.progress, error := upd.error, lastUpdate := now);
      if upd.hostPort != 0 {
        r := r.(hostPort := upd.hostPort);
      }
      deploy := deploy[id := deploy[id].(replica := Some(r))];
    }

    method OnHeartbeat(node: NodeId, active: seq<DeploymentId>, now: Time)
      returns (ghost accepted: seq<bool>, ghost cleared: seq<DeploymentId>)
      modifies this
      ensures HeartbeatOk(old(deploy), node, active, now, accepted, cleared)
      ensures Contents() == Heartbeaten(reg.nodes, old(Contents()), node, active, now, accepted, cleared)
      ensures BeatMeans(reg.nodes, old(Contents()), Contents(), node, active, now)
    {
      var wanted, missing := Survey(node, active, now);
      ghost var before := Contents();
      accepted := [];
      for i := 0 to |active|
        invariant |accepted| == i && deploy == before.deploy
        invariant Contents() == OrphansStopped(reg.nodes, before, node, active[..i], wanted, now, accepted)
      {
        assert Init(active[..i + 1]) == active[..i] && Last(active[..i + 1]) == active[i];
        var ok := false;
        if active[i] !in wanted {
          ok := SendStop(node, active[i], now);
        }
        ghost var grown := accepted + [ok];
        assert Init(grown) == accepted && Last(grown) == ok;
        accepted := grown;
      }
      assert active[..|active|] == active;
      ghost var stopped := Contents();
      for i := 0 to |missing|
        invariant Contents() == AllCleared(stopped, missing[..i], now)
      {
        assert Init(missing[..i + 1]) == missing[..i] && Last(missing[..i + 1]) == missing[i];
        Unplace(missing[i], now);
      }
      assert missing[..|missing|] == missing;
      cleared := missing;
      HeartbeatenMeans(reg.nodes, before, node, active, now, accepted, cleared);
    }

    /** The first pass of a heartbeat: what this node should run, and what it has silently lost. */
    method Survey(node: NodeId, active: seq<DeploymentId>, now: Time)
      returns (wanted: set<DeploymentId>, missing: seq<DeploymentId>)
      ensures wanted == WantedOn(deploy, node)
      ensures Distinct(missing) && Elements(missing) == MissingOn(deploy, node, active, now)
    {
      wanted, missing := {}, [];
      var todo := deploy.Keys;
      while todo != {}
        invariant todo <= deploy.Keys
        invariant wanted == set id | id in WantedOn(deploy, node) && id !in todo
        invariant Distinct(missing)
        invariant forall id :: id in missing <==> id in MissingOn(deploy, node, active, now) && id !in todo
        decreases |todo|
      {
        var id :| id in todo;
        todo := todo - {id};
        if deploy[id].replica.None? || deploy[id].replica.value.node != node {
          continue;
        }
        assert id in WantedOn(deploy, node);
        wanted := wanted + {id};
        if id !in active && now - deploy[id].replica.value.placedAt > LOST_AFTER {
          missing := missing + [id];
        }
      }
    }

    method Unplace(id: DeploymentId, now: Time)
      modifies this
      ensures Contents() == Cleared(old(Contents()), id, now)
      ensures OtherDeploymentsStay(old(deploy), deploy, id) && (id in deploy <==> id in old(deploy))
      ensures id in deploy ==> deploy[id] == old(deploy)[id].(replica := None)
    {
      if id in deploy && deploy[id].replica.Some? {
        history := history + [Unplaced(id, deploy[id].replica.value.node, now)];
        deploy := deploy[id := deploy[id].(replica := None)];
      }
    }

    method SweepOne(id: DeploymentId, now: Time)
      requires id in deploy
      modifies this
      ensures Contents() == SweptOne(reg.nodes, old(Contents()), id, now)
      ensures deploy.Keys == old(deploy).Keys
      ensures forall other | other in deploy && other != id :: deploy[other] == old(deploy)[other]
      ensures deploy[id] == SweptTo(reg.nodes, old(deploy)[id], now)
    {
      if deploy[id].replica.None? {
        return;
      }
      var r := deploy[id].replica.value;
      var node := reg.Get(r.node);
      var gone := node.None? || node.value.status != Online;
      if gone && now - r.lastUpdate > LOST_AFTER {
        Unplace(id, now);
        return;
      }
      if r.state == StateFailed && now - r.lastUpdate > LOST_AFTER {
        deploy := deploy[id := deploy[id].(avoid := deploy[id].avoid[r.node := now + AVOID_AFTER_FAILURE])];
        history := history + [Banned(id, r.node, now, now + AVOID_AFTER_FAILURE)];
        Unplace(id, now);
      }
    }

    /** Re-places deployments whose node died, that failed, or that never placed. */
    method Reconcile(now: Time) returns (ghost order: seq<DeploymentId>, ghost plan: seq<Attempt>)
      modifies this
      ensures ReconcileOk(reg.nodes, old(Contents()), order, plan, now)
      ensures Contents() == Reconciled(reg.nodes, old(Contents()), order, plan, now)
      ensures ReconcileMeans(reg.nodes, old(deploy), deploy, plan, now)
    {
      var toPlace;
      order, toPlace := Sweep(now);
      plan := PlaceAll(toPlace, now);
      ReconciledMeans(reg.nodes, old(Contents()), order, plan, now);
    }

    method Sweep(now: Time) returns (ghost order: seq<DeploymentId>, toPlace: seq<DeploymentId>)
      modifies this
      ensures Distinct(order) && Elements(order) == old(deploy).Keys
      ensures Contents() == Swept(reg.nodes, old(Contents()), order, now)
      ensures Distinct(toPlace) && Elements(toPlace) == UnplacedIds(deploy)
    {
      order, toPlace := [], [];
      var todo := deploy.Keys;
      while todo != {}
        invariant todo <= deploy.Keys == old(deploy).Keys
        invariant Visited(order, deploy.Keys, todo)
        invariant Contents() == Swept(reg.nodes, old(Contents()), order, now)
        invariant Visited(toPlace, UnplacedIds(deploy), todo)
        decreases |todo|
      {
        var id :| id in todo;
        VisitOne(order, deploy.Keys, todo, id);
        VisitUnplaced(deploy, SweptOne(reg.nodes, Contents(), id, now).deploy, todo, toPlace, id);
        Snoc(order, id);
        todo := todo - {id};
        SweepOne(id, now);
        order := order + [id];
        if deploy[id].replica.None? {
          toPlace := toPlace + [id];
        }
      }
    }

    method PlaceAll(toPlace: seq<DeploymentId>, now: Time) returns (ghost plan: seq<Attempt>)
      requires Distinct(toPlace)
      requires Elements(toPlace) <= UnplacedIds(deploy)
      modifies this
      ensures PlanIds(plan) == toPlace
      ensures PlanOk(reg.nodes, old(Contents()), plan, now)
      ensures Contents() == PlanRun(old(Contents()), plan, now)
    {
      plan := [];
      assert forall j | 0 <= j < |toPlace| :: toPlace[j] in Elements(toPlace);
      for i := 0 to |toPlace|
        invariant PlanIds(plan) == toPlace[..i]
        invariant PlanOk(reg.nodes, old(Contents()), plan, now)
        invariant Contents() == PlanRun(old(Contents()), plan, now)
        invariant StillUnplaced(deploy, toPlace[i..])
      {
        ghost var before := deploy;
        StillUnplacedHead(before, toPlace, i);
        plan := PlaceNext(toPlace[i], now, old(Contents()), plan);
        assert toPlace[..i + 1] == toPlace[..i] + [toPlace[i]];
        OthersStillUnplaced(before, deploy, toPlace[i + 1..], toPlace[i]);
      }
    }

    method PlaceNext(id: DeploymentId, now: Time, ghost t: Table, ghost plan: seq<Attempt>)
      returns (ghost grown: seq<Attempt>)
      requires id in deploy && NodeOf(deploy, id).None?
      requires PlanOk(reg.nodes, t, plan, now) && Contents() == PlanRun(t, plan, now)
      modifies this
      ensures PlanOk(reg.nodes, t, grown, now) && Contents() == PlanRun(t, grown, now)
      ensures PlanIds(grown) == PlanIds(plan) + [id]
      ensures deploy.Keys == old(deploy).Keys
      ensures forall other | other in deploy && other != id :: deploy[other] == old(deploy)[other]
    {
      var o := Place(id, now);
      PlanGrows(reg.nodes, t, plan, Attempt(id, o), now);
      grown := plan + [Attempt(id, o)];
    }

    method Resolve(model: string) returns (out: seq<Endpoint>)
      ensures Distinct(out)
      ensures forall e :: e in out <==> Routable(reg.nodes, deploy, model, e)
      ensures forall e :: e in out <==> Serves(reg.nodes, deploy, model, e)
    {
      out := [];
      var todo := deploy.Keys;
      while todo != {}
        invariant todo <= deploy.Keys
        invariant Distinct(out)
        invariant forall e :: e in out <==> Routable(reg.nodes, deploy, model, e) && e.dep !in todo
        decreases |todo|
      {
        var id :| id in todo;
        todo := todo - {id};
        var d := deploy[id];
        if d.spec.model != model || d.replica.None? || d.replica.value.state != StateReady {
          continue;
        }
        var r := d.replica.value;
        var node := reg.Get(r.node);
        if node.None? || node.value.status != Online || node.value.dataPlaneAddr == "" {
          continue;
        }
        out := out + [Endpoint(r.node, id, node.value.dataPlaneAddr, r.hostPort)];
      }
    }

    /** Every desired model name, once each, in order. */
    method DeployedModels() returns (names: seq<string>)
      ensures Ascending(names)
      ensures forall m :: m in names <==> exists id | id in deploy :: deploy[id].spec.model == m
    {
      names := [];
      var todo := set id | id in deploy :: deploy[id].spec.model;
      ghost var all := todo;
      while todo != {}
        invariant todo <= all
        invariant Ascending(names) && forall m :: m in names <==> m in all && m !in todo
        decreases |todo|
      {
        var m :| m in todo;
        todo := todo - {m};
        names := InsertName(names, m);
      }
    }

    /** A model is listed, in order, exactly when a request for it can be routed. */
    method ServableModels() returns (names: seq<string>)
      ensures Ascending(names)
      ensures forall m :: m in names <==> exists e :: Routable(reg.nodes, deploy, m, e)
    {
      var all := DeployedModels();
      names := [];
      for i := 0 to |all|
        invariant Ascending(names) && forall x | x in names :: x in all[..i]
        invariant forall m :: m in names <==> m in all[..i] && exists e :: Routable(reg.nodes, deploy, m, e)
      {
        var m := all[i];
        assert all[..i + 1] == all[..i] + [m];
        var reps := Resolve(m);
        if |reps| > 0 {
          assert Routable(reg.nodes, deploy, m, reps[0]);
          forall j | 0 <= j < |names| ensures Precedes(names[j], m) {
            assert names[j] in all[..i];
          }
          names := names + [m];
        } else {
          assert forall e :: Routable(reg.nodes, deploy, m, e) ==> e in reps;
        }
      }
      assert all[..|all|] == all;
      forall m, e | Routable(reg.nodes, deploy, m, e) ensures m in all {
        assert deploy[e.dep].spec.model == m;
      }
    }
  }
}
