/** What every write to the deployment table keeps: one deployment per node, a
    history that tells exactly where each deployment is, Starts and unplacings
    that alternate with a grace period between, Stops that never hit a wanted
    replica, and bans that hold. */
module Placement {
  import opened Base
  import opened Registries
  import opened Deployments

  /** Where the history alone says a deployment is placed. */
  function PlacedOn(h: seq<Entry>, d: DeploymentId): Option<NodeId>
    decreases |h|
  {
    if h == [] then None
    else match Last(h)
      case Started(dep, n, _) => if dep == d then Some(n) else PlacedOn(Init(h), d)
      case Unplaced(dep, _, _) => if dep == d then None else PlacedOn(Init(h), d)
      case Dropped(dep, _) => if dep == d then None else PlacedOn(Init(h), d)
      case _ => PlacedOn(Init(h), d)
  }

  /** When the history last started a deployment; 0 if never. */
  function StartTime(h: seq<Entry>, d: DeploymentId): Time
    decreases |h|
  {
    if h == [] then 0 else if Last(h).Started? && Last(h).dep == d then Last(h).at else StartTime(Init(h), d)
  }

  ghost predicate IsDropped(h: seq<Entry>, d: DeploymentId) {
    exists e | e in h :: e.Dropped? && e.dep == d
  }

  /** What must have been true of the history before an entry was written. */
  ghost predicate EntryOk(h: seq<Entry>, e: Entry) {
    match e
    case Started(d, n, at) =>
      && !IsDropped(h, d)
      && PlacedOn(h, d) == None
      && (forall other: DeploymentId :: PlacedOn(h, other) != Some(n))
      && (forall b | b in h && b.Banned? && b.dep == d && b.node == n :: b.until <= at)
    case Unplaced(d, n, at) => PlacedOn(h, d) == Some(n) && at - StartTime(h, d) > LOST_AFTER
    case Banned(d, n, at, until) =>
      && PlacedOn(h, d) == Some(n)
      && until == at + AVOID_AFTER_FAILURE
      && (forall b | b in h && b.Banned? && b.dep == d && b.node == n :: b.until <= until)
    case Dropped(d, _) => !IsDropped(h, d)
    case StopTried(d, n, _, _) => PlacedOn(h, d) != Some(n)
  }

  ghost predicate Disciplined(h: seq<Entry>)
    decreases |h|
  {
    h == [] || (Disciplined(Init(h)) && EntryOk(Init(h), Last(h)))
  }

  ghost predicate Exclusive(deploy: Deploys) {
    forall a, b | a in deploy && b in deploy && a != b && NodeOf(deploy, a).Some? ::
      NodeOf(deploy, a) != NodeOf(deploy, b)
  }

  /** The recorded bans are still in force in the table, and none reaches past now + 10 min. */
  ghost predicate BansKept(t: Table, used: set<DeploymentId>, now: Time) {
    && (forall b | b in t.history && b.Banned? ::
          b.dep in used && (b.dep in t.deploy ==> b.node in t.deploy[b.dep].avoid && b.until <= t.deploy[b.dep].avoid[b.node]))
    && (forall id, n | id in t.deploy && n in t.deploy[id].avoid :: t.deploy[id].avoid[n] <= now + AVOID_AFTER_FAILURE)
  }

  ghost predicate Agrees(t: Table) {
    forall d: DeploymentId :: PlacedOn(t.history, d) == NodeOf(t.deploy, d)
  }

  /** A replica is no older than its Start, and no deployment in the table was ever deleted. */
  ghost predicate Dated(t: Table, used: set<DeploymentId>, now: Time) {
    && (forall id | id in t.deploy && t.deploy[id].replica.Some? ::
          var r := t.deploy[id].replica.value;
          StartTime(t.history, id) <= r.placedAt <= r.lastUpdate && r.placedAt <= now)
    && (forall e | e in t.history && e.Dropped? :: e.dep in used && e.dep !in t.deploy)
  }

  /** Clearing the replica now would respect the grace period. */
  predicate Overdue(deploy: Deploys, id: DeploymentId, now: Time) {
    NodeOf(deploy, id).Some? ==> now - deploy[id].replica.value.placedAt > LOST_AFTER
  }

  /** The invariant of the deployment table. `used` is every id ever handed out. */
  ghost predicate TableInv(t: Table, used: set<DeploymentId>, now: Time) {
    && Exclusive(t.deploy)
    && t.deploy.Keys <= used
    && (forall id | id in t.deploy :: RequiredRunner(t.deploy[id].spec).Some?)
    && Agrees(t)
    && Dated(t, used, now)
    && Disciplined(t.history)
    && BansKept(t, used, now)
  }

  // ---- one write at a time ----

  lemma HistoryGrows(h: seq<Entry>, e: Entry)
    requires Disciplined(h) && EntryOk(h, e)
    ensures Disciplined(h + [e])
  {
    Snoc(h, e);
  }

  lemma PlacedOnSnoc(h: seq<Entry>, e: Entry)
    ensures forall d :: PlacedOn(h + [e], d) == (
                          if (e.Started? || e.Unplaced? || e.Dropped?) && e.dep == d
                          then (if e.Started? then Some(e.node) else None)
                          else PlacedOn(h, d))
    ensures forall d :: StartTime(h + [e], d) == if e.Started? && e.dep == d then e.at else StartTime(h, d)
    ensures forall d :: IsDropped(h + [e], d) <==> IsDropped(h, d) || (e.Dropped? && e.dep == d)
  {
    assert e in h + [e];
    Snoc(h, e);
  }

  lemma PlacedKeeps(nodes: Nodes, t: Table, used: set<DeploymentId>, id: DeploymentId, n: NodeId, now: Time)
    requires TableInv(t, used, now)
    requires id in t.deploy && NodeOf(t.deploy, id).None?
    requires Eligible(nodes, t.deploy, id, n, now)
    ensures TableInv(Placed(t, id, n, now), used, now)
  {
    var e := Started(id, n, now);
    var t' := Placed(t, id, n, now);
    forall other: DeploymentId ensures PlacedOn(t.history, other) != Some(n) {
      assert PlacedOn(t.history, other) == NodeOf(t.deploy, other);
    }
    assert PlacedOn(t.history, id) == NodeOf(t.deploy, id);
    HistoryGrows(t.history, e);
    PlacedOnSnoc(t.history, e);
    forall a, b | a in t'.deploy && b in t'.deploy && a != b && NodeOf(t'.deploy, a).Some?
      ensures NodeOf(t'.deploy, a) != NodeOf(t'.deploy, b)
    {
      assert NodeOf(t'.deploy, a) == if a == id then Some(n) else NodeOf(t.deploy, a);
      assert NodeOf(t'.deploy, b) == if b == id then Some(n) else NodeOf(t.deploy, b);
    }
  }

  lemma ClearedKeeps(t: Table, used: set<DeploymentId>, id: DeploymentId, now: Time)
    requires TableInv(t, used, now) && Overdue(t.deploy, id, now)
    ensures TableInv(Cleared(t, id, now), used, now)
  {
    if NodeOf(t.deploy, id).Some? {
      var e := Unplaced(id, t.deploy[id].replica.value.node, now);
      assert PlacedOn(t.history, id) == NodeOf(t.deploy, id);
      HistoryGrows(t.history, e);
      PlacedOnSnoc(t.history, e);
      var t' := Cleared(t, id, now);
      forall a | a in t'.deploy ensures NodeOf(t'.deploy, a) == if a == id then None else NodeOf(t.deploy, a) {}
    }
  }

  lemma WithBanKeeps(t: Table, used: set<DeploymentId>, id: DeploymentId, now: Time)
    requires TableInv(t, used, now)
    ensures TableInv(WithBan(t, id, now), used, now)
    ensures NodeOf(WithBan(t, id, now).deploy, id) == NodeOf(t.deploy, id)
  {
    if NodeOf(t.deploy, id).Some? {
      var n := t.deploy[id].replica.value.node;
      var e := Banned(id, n, now, now + AVOID_AFTER_FAILURE);
      assert PlacedOn(t.history, id) == NodeOf(t.deploy, id);
      HistoryGrows(t.history, e);
      PlacedOnSnoc(t.history, e);
      var t' := WithBan(t, id, now);
      forall a ensures NodeOf(t'.deploy, a) == NodeOf(t.deploy, a) {}
    }
  }

  lemma StopSentKeeps(nodes: Nodes, t: Table, used: set<DeploymentId>, id: DeploymentId, n: NodeId, now: Time,
      accepted: bool)
    requires TableInv(t, used, now)
    requires NodeOf(t.deploy, id) != Some(n)
    ensures TableInv(StopSent(nodes, t, id, n, now, accepted), used, now)
  {
    if Sendable(nodes, n) {
      var e := StopTried(id, n, now, accepted);
      assert PlacedOn(t.history, id) == NodeOf(t.deploy, id);
      HistoryGrows(t.history, e);
      PlacedOnSnoc(t.history, e);
    }
  }

  lemma ForgottenKeeps(t: Table, used: set<DeploymentId>, id: DeploymentId, now: Time)
    requires TableInv(t, used, now)
    ensures TableInv(Forgotten(t, id, now), used, now)
    ensures NodeOf(Forgotten(t, id, now).deploy, id) == None
  {
    if id in t.deploy {
      var t' := Forgotten(t, id, now);
      HistoryGrows(t.history, Dropped(id, now));
      PlacedOnSnoc(t.history, Dropped(id, now));
      forall a ensures NodeOf(t'.deploy, a) == if a == id then None else NodeOf(t.deploy, a) {}
    }
  }

  lemma AddedKeeps(t: Table, used: set<DeploymentId>, id: DeploymentId, spec: Spec, now: Time)
    requires TableInv(t, used, now) && id !in used && RequiredRunner(spec).Some?
    ensures TableInv(Added(t, id, spec), used + {id}, now)
  {
    var t' := Added(t, id, spec);
    forall a ensures NodeOf(t'.deploy, a) == NodeOf(t.deploy, a) {}
  }

  lemma LaterKeeps(t: Table, used: set<DeploymentId>, now: Time, later: Time)
    requires TableInv(t, used, now) && now <= later
    ensures TableInv(t, used, later)
  {
  }

  // ---- whole operations ----

  lemma AttemptKeeps(nodes: Nodes, t: Table, used: set<DeploymentId>, id: DeploymentId, now: Time, o: Outcome)
    requires TableInv(t, used, now)
    requires id in t.deploy && NodeOf(t.deploy, id).None? && OutcomeOk(nodes, t.deploy, id, now, o)
    ensures TableInv(Attempted(t, id, now, o), used, now)
  {
    if o.Success? {
      PlacedKeeps(nodes, t, used, id, o.node, now);
    }
  }

  lemma DeletedKeeps(nodes: Nodes, t: Table, used: set<DeploymentId>, id: DeploymentId, now: Time, accepted: bool)
    requires TableInv(t, used, now)
    ensures TableInv(Deleted(nodes, t, id, now, accepted), used, now)
  {
    var n := NodeOf(t.deploy, id);
    ForgottenKeeps(t, used, id, now);
    if n.Some? {
      StopSentKeeps(nodes, Forgotten(t, id, now), used, id, n.value, now, accepted);
    }
  }

  lemma UpdatedKeeps(nodes: Nodes, t: Table, used: set<DeploymentId>, node: NodeId, id: DeploymentId, upd: Update,
                     now: Time, accepted: bool)
    requires TableInv(t, used, now)
    ensures TableInv(Updated(nodes, t, node, id, upd, now, accepted), used, now)
  {
    if NodeOf(t.deploy, id) == Some(node) {
      var t' := Updated(nodes, t, node, id, upd, now, accepted);
      forall a ensures NodeOf(t'.deploy, a) == NodeOf(t.deploy, a) {}
    } else {
      StopSentKeeps(nodes, t, used, id, node, now, accepted);
    }
  }

  lemma {:induction false} OrphansStoppedKeeps(nodes: Nodes, t: Table, used: set<DeploymentId>, node: NodeId,
      active: seq<DeploymentId>, now: Time, accepted: seq<bool>)
    requires TableInv(t, used, now) && |accepted| == |active|
    ensures var t' := OrphansStopped(nodes, t, node, active, WantedOn(t.deploy, node), now, accepted);
      TableInv(t', used, now) && t'.deploy == t.deploy
    decreases |active|
  {
    if active == [] {
    } else {
      OrphansStoppedKeeps(nodes, t, used, node, Init(active), now, Init(accepted));
      var before := OrphansStopped(nodes, t, node, Init(active), WantedOn(t.deploy, node), now, Init(accepted));
      if Last(active) !in WantedOn(t.deploy, node) {
        StopSentKeeps(nodes, before, used, Last(active), node, now, Last(accepted));
      }
    }
  }

  lemma {:induction false} AllClearedKeeps(t: Table, used: set<DeploymentId>, ids: seq<DeploymentId>, now: Time)
    requires TableInv(t, used, now) && forall i | 0 <= i < |ids| :: Overdue(t.deploy, ids[i], now)
    ensures TableInv(AllCleared(t, ids, now), used, now)
    ensures forall id | Overdue(t.deploy, id, now) :: Overdue(AllCleared(t, ids, now).deploy, id, now)
    decreases |ids|
  {
    if ids == [] {
    } else {
      AllClearedKeeps(t, used, Init(ids), now);
      assert Overdue(t.deploy, ids[|ids| - 1], now);
      ClearedKeeps(AllCleared(t, Init(ids), now), used, Last(ids), now);
    }
  }

  lemma HeartbeatenKeeps(nodes: Nodes, t: Table, used: set<DeploymentId>, node: NodeId, active: seq<DeploymentId>,
                         now: Time, accepted: seq<bool>, missing: seq<DeploymentId>)
    requires TableInv(t, used, now) && HeartbeatOk(t.deploy, node, active, now, accepted, missing)
    ensures TableInv(Heartbeaten(nodes, t, node, active, now, accepted, missing), used, now)
  {
    OrphansStoppedKeeps(nodes, t, used, node, active, now, accepted);
    forall i | 0 <= i < |missing| ensures Overdue(t.deploy, missing[i], now) {
      assert missing[i] in Elements(missing);
    }
    AllClearedKeeps(OrphansStopped(nodes, t, node, active, WantedOn(t.deploy, node), now, accepted), used, missing, now);
  }

  lemma {:induction false} SweptKeeps(nodes: Nodes, t: Table, used: set<DeploymentId>, order: seq<DeploymentId>,
      now: Time)
    requires TableInv(t, used, now)
    ensures TableInv(Swept(nodes, t, order, now), used, now)
    decreases |order|
  {
    if order == [] {
    } else {
      SweptKeeps(nodes, t, used, Init(order), now);
      SweptOneKeeps(nodes, Swept(nodes, t, Init(order), now), used, Last(order), now);
    }
  }

  lemma SweptOneKeeps(nodes: Nodes, t: Table, used: set<DeploymentId>, id: DeploymentId, now: Time)
    requires TableInv(t, used, now)
    ensures TableInv(SweptOne(nodes, t, id, now), used, now)
  {
    if NodeOf(t.deploy, id).Some? && now - t.deploy[id].replica.value.lastUpdate > LOST_AFTER {
      assert Overdue(t.deploy, id, now);
      ClearedKeeps(t, used, id, now);
      WithBanKeeps(t, used, id, now);
      ClearedKeeps(WithBan(t, id, now), used, id, now);
    }
  }

  lemma {:induction false} PlanRunKeeps(nodes: Nodes, t: Table, used: set<DeploymentId>, plan: seq<Attempt>, now: Time)
    requires TableInv(t, used, now) && PlanOk(nodes, t, plan, now)
    ensures TableInv(PlanRun(t, plan, now), used, now)
    decreases |plan|
  {
    if plan == [] {
    } else {
      PlanRunKeeps(nodes, t, used, Init(plan), now);
      AttemptKeeps(nodes, PlanRun(t, Init(plan), now), used, Last(plan).id, now, Last(plan).outcome);
    }
  }

  lemma ReconciledKeeps(nodes: Nodes, t: Table, used: set<DeploymentId>, order: seq<DeploymentId>,
      plan: seq<Attempt>, now: Time)
    requires TableInv(t, used, now) && ReconcileOk(nodes, t, order, plan, now)
    ensures TableInv(Reconciled(nodes, t, order, plan, now), used, now)
  {
    SweptKeeps(nodes, t, used, order, now);
    PlanRunKeeps(nodes, Swept(nodes, t, order, now), used, plan, now);
  }

  // ---- reading a disciplined history ----

  lemma {:induction false} DisciplinedAt(h: seq<Entry>, i: nat)
    requires Disciplined(h) && i < |h|
    ensures Disciplined(h[..i]) && EntryOk(h[..i], h[i])
    decreases |h|
  {
    if i < |h| - 1 {
      DisciplinedAt(Init(h), i);
      assert Init(h)[..i] == h[..i];
    }
  }

  lemma {:induction false} DroppedStays(h: seq<Entry>, i: nat, j: nat, d: DeploymentId)
    requires i <= j <= |h| && IsDropped(h[..i], d)
    ensures IsDropped(h[..j], d)
  {
    assert h[..i] <= h[..j];
  }

  /** A deployment stays where the history put it until the history clears or deletes it. */
  lemma {:induction false} PlacedUntilUnplaced(h: seq<Entry>, i: nat, j: nat, d: DeploymentId, n: NodeId)
    requires Disciplined(h) && i < j <= |h|
    requires h[i].Started? && h[i].dep == d && h[i].node == n
    requires forall k | i < k < j :: !(h[k].Unplaced? && h[k].dep == d)
    ensures IsDropped(h[..j], d) || PlacedOn(h[..j], d) == Some(n)
    decreases j
  {
    assert Init(h[..j]) == h[..j - 1] && Last(h[..j]) == h[j - 1];
    if i == j - 1 {
    } else {
      PlacedUntilUnplaced(h, i, j - 1, d, n);
      if IsDropped(h[..j - 1], d) {
        DroppedStays(h, j - 1, j, d);
      } else {
        DisciplinedAt(h, j - 1);
        assert h[j - 1] in h[..j];
      }
    }
  }

  /** A deleted deployment is nowhere and stays nowhere. */
  lemma {:induction false} DroppedIsNowhere(h: seq<Entry>, d: DeploymentId)
    requires Disciplined(h) && IsDropped(h, d)
    ensures PlacedOn(h, d) == None
    decreases |h|
  {
    InitLast(h);
    if IsDropped(Init(h), d) {
      DroppedIsNowhere(Init(h), d);
    } else {
      assert Last(h).Dropped? && Last(h).dep == d;
    }
  }

  /** Between two Starts of one deployment, its replica on the first node was cleared. */
  lemma {:induction false} StartsAlternate(h: seq<Entry>, i: nat, j: nat)
    requires Disciplined(h) && i < j < |h|
    requires h[i].Started? && h[j].Started? && h[i].dep == h[j].dep
    ensures exists k :: i < k < j && h[k].Unplaced? && h[k].dep == h[i].dep && h[k].node == h[i].node
  {
    var d, n := h[i].dep, h[i].node;
    if forall k | i < k < j :: !(h[k].Unplaced? && h[k].dep == d) {
      PlacedUntilUnplaced(h, i, j, d, n);
      DisciplinedAt(h, j);
    } else {
      FirstUnplacing(h, i, j, d);
    }
  }

  lemma {:induction false} FirstUnplacing(h: seq<Entry>, i: nat, j: nat, d: DeploymentId)
    requires Disciplined(h) && i < j <= |h|
    requires h[i].Started? && h[i].dep == d
    requires exists k :: i < k < j && h[k].Unplaced? && h[k].dep == d
    ensures exists k :: i < k < j && h[k].Unplaced? && h[k].dep == d && h[k].node == h[i].node
    decreases j
  {
    if exists k :: i < k < j - 1 && h[k].Unplaced? && h[k].dep == d {
      FirstUnplacing(h, i, j - 1, d);
    } else {
      PlacedUntilUnplaced(h, i, j - 1, d, h[i].node);
      DisciplinedAt(h, j - 1);
      if IsDropped(h[..j - 1], d) {
        DroppedIsNowhere(h[..j - 1], d);
      }
    }
  }
}
