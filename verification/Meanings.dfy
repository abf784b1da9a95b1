/** What a heartbeat and a reconcile do to the deployment table as a whole, said deployment by
    deployment and without the sequence of writes they are made of. */
module Meanings {
  import opened Base
  import opened Registries
  import opened Deployments

  // ---- heartbeat ----

  lemma {:induction false} StopsSaid(nodes: Nodes, t: Table, node: NodeId, active: seq<DeploymentId>,
      wanted: set<DeploymentId>, now: Time, accepted: seq<bool>)
    requires |accepted| == |active|
    ensures var t' := OrphansStopped(nodes, t, node, active, wanted, now, accepted);
      && t'.deploy == t.deploy && t.history <= t'.history
      && forall id :: StopTriedIn(t'.history[|t.history|..], id) <==>
           id in active && id !in wanted && node in nodes && nodes[node].send.Some?
    decreases |active|
  {
    var k := |t.history|;
    if active == [] {
      assert t.history[k..] == [];
    } else {
      StopsSaid(nodes, t, node, Init(active), wanted, now, Init(accepted));
      InitLast(active);
      var before := OrphansStopped(nodes, t, node, Init(active), wanted, now, Init(accepted));
      var stop := StopTried(Last(active), node, now, Last(accepted));
      assert (before.history + [stop])[k..] == before.history[k..] + [stop];
      assert stop in before.history[k..] + [stop];
    }
  }

  lemma {:induction false} ClearsSaid(t: Table, ids: seq<DeploymentId>, now: Time)
    ensures var t' := AllCleared(t, ids, now);
      && t'.deploy.Keys == t.deploy.Keys && t.history <= t'.history
      && (forall id | id in t.deploy ::
            t'.deploy[id] == if id in ids then t.deploy[id].(replica := None) else t.deploy[id])
      && (forall e | e in t'.history[|t.history|..] :: e.Unplaced?)
    decreases |ids|
  {
    var k := |t.history|;
    if ids == [] {
      assert t.history[k..] == [];
    } else {
      ClearsSaid(t, Init(ids), now);
      InitLast(ids);
      var before := AllCleared(t, Init(ids), now);
      if NodeOf(before.deploy, Last(ids)).Some? {
        var e := Unplaced(Last(ids), before.deploy[Last(ids)].replica.value.node, now);
        assert (before.history + [e])[k..] == before.history[k..] + [e];
      }
    }
  }

  lemma HeartbeatenMeans(nodes: Nodes, t: Table, node: NodeId, active: seq<DeploymentId>, now: Time,
                         accepted: seq<bool>, missing: seq<DeploymentId>)
    requires HeartbeatOk(t.deploy, node, active, now, accepted, missing)
    ensures BeatMeans(nodes, t, Heartbeaten(nodes, t, node, active, now, accepted, missing), node, active, now)
  {
    var wanted := WantedOn(t.deploy, node);
    var b := OrphansStopped(nodes, t, node, active, wanted, now, accepted);
    var t' := AllCleared(b, missing, now);
    StopsSaid(nodes, t, node, active, wanted, now, accepted);
    ClearsSaid(b, missing, now);
    forall id | id in t.deploy ensures id in missing <==> IsLost(t.deploy[id], id, node, active, now) {
      assert id in missing <==> id in Elements(missing);
    }
    assert t'.history[|t.history|..] == b.history[|t.history|..] + t'.history[|b.history|..];
    forall id ensures StopTriedIn(t'.history[|t.history|..], id) <==> StopTriedIn(b.history[|t.history|..], id) {}
  }

  // ---- reconcile ----

  /** The replica's node has been gone for a minute without a word about the replica. */
  predicate IsStranded(nodes: Nodes, d: Deployment, now: Time) {
    && d.replica.Some? && now - d.replica.value.lastUpdate > 60 * SECOND
    && !(d.replica.value.node in nodes && nodes[d.replica.value.node].status == Online)
  }

  /** The replica failed a minute ago on a node that is still there. */
  predicate IsBroken(nodes: Nodes, d: Deployment, now: Time) {
    && d.replica.Some? && now - d.replica.value.lastUpdate > 60 * SECOND && !IsStranded(nodes, d, now)
    && d.replica.value.state == StateFailed
  }

  /** What the sweep makes of one deployment: a stranded replica goes, a broken one goes and its
      node is avoided for ten minutes, and everything else stays. */
  function SweptTo(nodes: Nodes, d: Deployment, now: Time): Deployment {
    if IsStranded(nodes, d, now) then d.(replica := None)
    else if IsBroken(nodes, d, now)
    then d.(replica := None, avoid := d.avoid[d.replica.value.node := now + 600 * SECOND])
    else d
  }

  lemma SweptOneSaid(nodes: Nodes, t: Table, id: DeploymentId, now: Time)
    ensures var t' := SweptOne(nodes, t, id, now);
      && t'.deploy.Keys == t.deploy.Keys
      && forall d | d in t.deploy :: t'.deploy[d] == if d == id then SweptTo(nodes, t.deploy[d], now) else t.deploy[d]
  {
  }

  lemma {:induction false} SweptSaid(nodes: Nodes, t: Table, order: seq<DeploymentId>, now: Time)
    requires Distinct(order)
    ensures var t' := Swept(nodes, t, order, now);
      && t'.deploy.Keys == t.deploy.Keys
      && forall d | d in t.deploy :: t'.deploy[d] == if d in order then SweptTo(nodes, t.deploy[d], now) else t.deploy[d]
    decreases |order|
  {
    if order == [] {
    } else {
      SweptSaid(nodes, t, Init(order), now);
      SweptOneSaid(nodes, Swept(nodes, t, Init(order), now), Last(order), now);
      InitLast(order);
      assert Last(order) !in Init(order);
    }
  }

  /** A deployment as the plan may leave it: as it was, or just placed on a machine that suits it. */
  ghost predicate MayBecome(nodes: Nodes, d: Deployment, d': Deployment, now: Time) {
    || d' == d
    || (&& d.replica.None? && d'.spec == d.spec && d'.avoid == d.avoid && d'.replica.Some?
        && var n := d'.replica.value.node;
           JustPlaced(d'.replica.value, n, now) && MachineSuits(nodes, d.spec, n) && (n in d.avoid ==> d.avoid[n] <= now))
  }

  lemma {:induction false} PlanSaid(nodes: Nodes, t: Table, plan: seq<Attempt>, now: Time)
    requires PlanOk(nodes, t, plan, now)
    ensures var t' := PlanRun(t, plan, now);
      t'.deploy.Keys == t.deploy.Keys && forall d | d in t.deploy :: MayBecome(nodes, t.deploy[d], t'.deploy[d], now)
    decreases |plan|
  {
    if plan == [] {
    } else {
      PlanSaid(nodes, t, Init(plan), now);
      var b := PlanRun(t, Init(plan), now);
      EligibleMeans(nodes, b.deploy, Last(plan).id, now);
      AttemptedMeans(b, Last(plan).id, now, Last(plan).outcome);
    }
  }

  ghost predicate NoNodeSuits(nodes: Nodes, deploy: Deploys, id: DeploymentId, now: Time)
    requires id in deploy
  {
    forall n :: !NodeSuits(nodes, deploy, id, n, now)
  }

  ghost predicate SendRefused(plan: seq<Attempt>, id: DeploymentId) {
    exists a | a in plan :: a.id == id && a.outcome.SendFailed?
  }

  /** Placing one deployment frees no node for another. */
  lemma StillNoNode(nodes: Nodes, t: Table, a: Attempt, now: Time, id: DeploymentId)
    requires a.id in t.deploy && t.deploy[a.id].replica.None? && id in t.deploy && id != a.id
    requires NoNodeSuits(nodes, t.deploy, id, now)
    ensures id in Attempted(t, a.id, now, a.outcome).deploy
    ensures NoNodeSuits(nodes, Attempted(t, a.id, now, a.outcome).deploy, id, now)
  {
    var t' := Attempted(t, a.id, now, a.outcome);
    assert forall d | d in t.deploy && t.deploy[d].replica.Some? :: d in t'.deploy && t'.deploy[d] == t.deploy[d];
    assert t'.deploy[id] == t.deploy[id];
    forall n ensures !NodeSuits(nodes, t'.deploy, id, n, now) {
      assert !NodeSuits(nodes, t.deploy, id, n, now);
      if MachineSuits(nodes, t.deploy[id].spec, n) && (n in t.deploy[id].avoid ==> t.deploy[id].avoid[n] <= now) {
        var other :| other in t.deploy && other != id && t.deploy[other].replica.Some? && t.deploy[other].replica.value.node == n;
        assert t'.deploy[other] == t.deploy[other];
      }
    }
  }

  /** A deployment that the plan tried and that is still unplaced was refused by a node it was sent
      to, or no node suits it. */
  lemma {:induction false} PlanLeavesNone(nodes: Nodes, t: Table, plan: seq<Attempt>, now: Time, id: DeploymentId)
    requires PlanOk(nodes, t, plan, now) && id in PlanIds(plan) && Distinct(PlanIds(plan))
    ensures var t' := PlanRun(t, plan, now);
      && id in t'.deploy
      && (t'.deploy[id].replica.None? ==> SendRefused(plan, id) || NoNodeSuits(nodes, t'.deploy, id, now))
    decreases |plan|
  {
    var b, a := PlanRun(t, Init(plan), now), Last(plan);
    PlanSaid(nodes, t, plan, now);
    InitLast(plan);
    assert PlanIds(plan) == PlanIds(Init(plan)) + [a.id];
    if a.id == id {
      EligibleMeans(nodes, b.deploy, id, now);
      assert a in plan;
    } else {
      assert Distinct(PlanIds(Init(plan))) by {
        assert forall i | 0 <= i < |plan| - 1 :: PlanIds(Init(plan))[i] == PlanIds(plan)[i];
      }
      PlanLeavesNone(nodes, t, Init(plan), now, id);
      if b.deploy[id].replica.None? && !SendRefused(Init(plan), id) {
        StillNoNode(nodes, b, a, now, id);
      }
    }
  }

  /** Every deployment ends a reconcile as the sweep leaves it, or is then placed; and if it is
      still unplaced, a send was refused or no node suits it. */
  ghost predicate ReconcileMeans(nodes: Nodes, deploy: Deploys, deploy': Deploys, plan: seq<Attempt>, now: Time) {
    && deploy'.Keys == deploy.Keys
    && (forall id | id in deploy :: MayBecome(nodes, SweptTo(nodes, deploy[id], now), deploy'[id], now))
    && (forall id | id in deploy' && deploy'[id].replica.None? :: SendRefused(plan, id) || NoNodeSuits(nodes, deploy', id, now))
  }

  lemma ReconciledMeans(nodes: Nodes, t: Table, order: seq<DeploymentId>, plan: seq<Attempt>, now: Time)
    requires ReconcileOk(nodes, t, order, plan, now)
    ensures ReconcileMeans(nodes, t.deploy, Reconciled(nodes, t, order, plan, now).deploy, plan, now)
  {
    var swept := Swept(nodes, t, order, now);
    var t' := PlanRun(swept, plan, now);
    SweptSaid(nodes, t, order, now);
    PlanSaid(nodes, swept, plan, now);
    forall id | id in t.deploy ensures id in order {
      assert id in Elements(order);
    }
    forall id | id in t'.deploy && t'.deploy[id].replica.None?
      ensures SendRefused(plan, id) || NoNodeSuits(nodes, t'.deploy, id, now)
    {
      assert swept.deploy[id].replica.None?;
      assert id in Elements(PlanIds(plan));
      PlanLeavesNone(nodes, swept, plan, now, id);
    }
  }
}
