/** The deployment manager with its lock taken apart: every hold of the table's lock, every Start
    sent and every Stop sent is a step of its own. A Start is logged when the stream accepts it,
    and any number of creates and deletes, the reconciler and the agents' messages interleave. */
module Races {
  import opened Base
  import opened Registries
  import opened Deployments
  import opened Placement

  /** How far `place` has got: it has looked which nodes other deployments occupy, then copied the
      avoid list, then chosen from a snapshot of the registry, then had its Start accepted. */
  datatype Phase =
    | Idle
    | Surveyed(occupied: set<NodeId>)
    | Briefed(occupied: set<NodeId>, avoid: map<NodeId, Time>)
    | Chosen(node: NodeId)
    | Sent(node: NodeId)

  /** A goroutine with deployments to place; the first of them is being placed. */
  datatype Placer = Placer(todo: seq<DeploymentId>, phase: Phase)

  /** What the handler of a message or a delete has left to do once it has released the lock:
      deployments to stop on its node, one by one, and then replicas to clear that it judged lost there. */
  datatype Errand = Errand(node: NodeId, stops: seq<DeploymentId>, lost: seq<DeploymentId>)

  type PlacerId = nat
  type ErrandId = nat

  const RECONCILER: PlacerId := 0

  /** `dead` holds deleted deployments, which a placer may still have in its hands. */
  datatype State = State(
    now: Time,
    nodes: Nodes,
    table: Table,
    dead: Deploys,
    placers: map<PlacerId, Placer>,
    errands: map<ErrandId, Errand>)

  datatype Event =
    | Advance(to: Time)
    | RegistryChange(nodes: Nodes)
    | Enlist(p: PlacerId, id: DeploymentId, spec: Spec)
    | Sweep(order: seq<DeploymentId>, unplaced: seq<DeploymentId>)
    | Survey(p: PlacerId)
    | Brief(p: PlacerId)
    | Choose(p: PlacerId, pick: Option<NodeId>)
    | Send(p: PlacerId, ok: bool)
    | Record(p: PlacerId)
    | Update(x: ErrandId, node: NodeId, id: DeploymentId, upd: Deployments.Update)
    | Heartbeat(x: ErrandId, node: NodeId, active: seq<DeploymentId>, lost: seq<DeploymentId>)
    | Delete(x: ErrandId, id: DeploymentId)
    | StopNext(x: ErrandId, ok: bool)
    | ClearNext(x: ErrandId)

  function Start(nodes: Nodes, now: Time): State {
    State(now, nodes, Table(map[], []), map[], map[RECONCILER := Placer([], Idle)], map[])
  }

  /** All deployment objects, those still in the table and those deleted. */
  function Objects(s: State): Deploys {
    s.table.deploy + s.dead
  }

  /** The deployment a placer is busy with. */
  function Current(s: State, p: PlacerId): Option<DeploymentId> {
    if p in s.placers && s.placers[p].todo != [] then Some(s.placers[p].todo[0]) else None
  }

  predicate Busy(s: State, p: PlacerId) {
    Current(s, p).Some? && Current(s, p).value in Objects(s)
  }

  /** The nodes that host some other deployment. */
  function HostsOfOthers(deploy: Deploys, id: DeploymentId): set<NodeId> {
    set other | other in deploy && other != id && deploy[other].replica.Some? :: deploy[other].replica.value.node
  }

  /** What `selectNode` accepts, going by what it has seen so far and by the registry now. */
  predicate Acceptable(s: State, spec: Spec, seen: Phase, n: NodeId)
    requires seen.Briefed?
  {
    Fits(s.nodes, spec, n) && !(n in seen.avoid && s.now < seen.avoid[n]) && n !in seen.occupied
  }

  /** Create enlists a placer for its new deployment; the one reconciler enlists what its sweep
      left unplaced, and only when it is done with the previous sweep. */
  ghost predicate Enabled(s: State, e: Event) {
    match e
    case Advance(to) => s.now <= to
    case RegistryChange(_) => true
    case Enlist(p, id, spec) => p !in s.placers && id !in Objects(s) && RequiredRunner(spec).Some?
    case Sweep(order, unplaced) =>
      && Current(s, RECONCILER).None?
      && Distinct(order) && Elements(order) == s.table.deploy.Keys
      && Distinct(unplaced) && Elements(unplaced) == UnplacedIds(Swept(s.nodes, s.table, order, s.now).deploy)
    case Survey(p) => Busy(s, p) && s.placers[p].phase.Idle?
    case Brief(p) => Busy(s, p) && s.placers[p].phase.Surveyed?
    case Choose(p, pick) =>
      && Busy(s, p) && s.placers[p].phase.Briefed?
      && var spec := Objects(s)[s.placers[p].todo[0]].spec;
         && (pick.Some? ==> Acceptable(s, spec, s.placers[p].phase, pick.value))
         && (pick.None? ==> forall n :: !Acceptable(s, spec, s.placers[p].phase, n))
    case Send(p, _) => Busy(s, p) && s.placers[p].phase.Chosen?
    case Record(p) => Busy(s, p) && s.placers[p].phase.Sent?
    case Update(x, _, _, _) => x !in s.errands
    case Heartbeat(x, node, active, lost) =>
      x !in s.errands && Distinct(lost) && Elements(lost) == MissingOn(s.table.deploy, node, active, s.now)
    case Delete(x, _) => x !in s.errands
    case StopNext(x, _) => x in s.errands && s.errands[x].stops != []
    case ClearNext(x) => x in s.errands && s.errands[x].stops == [] && s.errands[x].lost != []
  }

  function InPhase(s: State, p: PlacerId, phase: Phase): State
    requires p in s.placers
  {
    s.(placers := s.placers[p := s.placers[p].(phase := phase)])
  }

  /** On to the next deployment on the list. */
  function Next(s: State, p: PlacerId): State
    requires p in s.placers && s.placers[p].todo != []
  {
    s.(placers := s.placers[p := Placer(s.placers[p].todo[1..], Idle)])
  }

  function NewReplica(d: Deployment, n: NodeId, now: Time): Deployment {
    d.(replica := Some(Replica(n, StatePulling, 0, 0, "", now, now)))
  }

  /** Records through the pointer; on a deleted deployment nobody ever sees it. */
  function Recorded(t: Table, id: DeploymentId, n: NodeId, now: Time): Table {
    if id in t.deploy then t.(deploy := t.deploy[id := NewReplica(t.deploy[id], n, now)]) else t
  }

  /** Clears whatever replica the deployment has by now, as one judged lost on n. */
  function ClearedAs(t: Table, id: DeploymentId, n: NodeId, now: Time): Table {
    if NodeOf(t.deploy, id).None? then t
    else Table(t.deploy[id := t.deploy[id].(replica := None)], t.history + [Unplaced(id, n, now)])
  }

  /** The reported deployments that are not wanted, in report order. */
  function Orphans(active: seq<DeploymentId>, wanted: set<DeploymentId>): seq<DeploymentId>
    decreases |active|
  {
    if active == [] then []
    else Orphans(Init(active), wanted) + (if Last(active) in wanted then [] else [Last(active)])
  }

  function WithErrand(s: State, x: ErrandId, errand: Errand): State {
    s.(errands := s.errands[x := errand])
  }

  function Step(s: State, e: Event): State
    requires Enabled(s, e)
  {
    match e
    case Advance(to) => s.(now := to)
    case RegistryChange(nodes) => s.(nodes := nodes)
    case Enlist(p, id, spec) => s.(table := Added(s.table, id, spec), placers := s.placers[p := Placer([id], Idle)])
    case Sweep(order, unplaced) =>
      s.(table := Swept(s.nodes, s.table, order, s.now), placers := s.placers[RECONCILER := Placer(unplaced, Idle)])
    case Survey(p) => InPhase(s, p, Surveyed(HostsOfOthers(s.table.deploy, s.placers[p].todo[0])))
    case Brief(p) => InPhase(s, p, Briefed(s.placers[p].phase.occupied, Objects(s)[s.placers[p].todo[0]].avoid))
    case Choose(p, pick) => if pick.None? then Next(s, p) else InPhase(s, p, Chosen(pick.value))
    case Send(p, ok) =>
      var id, n := s.placers[p].todo[0], s.placers[p].phase.node;
      if !ok then Next(s, p)
      else InPhase(s, p, Sent(n)).(table := s.table.(history := s.table.history + [Started(id, n, s.now)]))
    case Record(p) =>
      Next(s, p).(table := Recorded(s.table, s.placers[p].todo[0], s.placers[p].phase.node, s.now))
    case Update(x, node, id, upd) =>
      if NodeOf(s.table.deploy, id) == Some(node)
      then s.(table := Updated(s.nodes, s.table, node, id, upd, s.now, false))
      else WithErrand(s, x, Errand(node, [id], []))
    case Heartbeat(x, node, active, lost) =>
      WithErrand(s, x, Errand(node, Orphans(active, WantedOn(s.table.deploy, node)), lost))
    case Delete(x, id) =>
      var dropped := s.(table := Forgotten(s.table, id, s.now),
                        dead := if id in s.table.deploy then s.dead[id := s.table.deploy[id]] else s.dead);
      if NodeOf(s.table.deploy, id).None? then dropped
      else WithErrand(dropped, x, Errand(NodeOf(s.table.deploy, id).value, [id], []))
    case StopNext(x, ok) =>
      var errand := s.errands[x];
      WithErrand(s, x, errand.(stops := errand.stops[1..])).(
        table := StopSent(s.nodes, s.table, errand.stops[0], errand.node, s.now, ok))
    case ClearNext(x) =>
      var errand := s.errands[x];
      WithErrand(s, x, errand.(lost := errand.lost[1..])).(
        table := ClearedAs(s.table, errand.lost[0], errand.node, s.now))
  }

  ghost predicate Runs(s: State, run: seq<Event>)
    decreases |run|, 0
  {
    run == [] || (Runs(s, Init(run)) && Enabled(After(s, Init(run)), Last(run)))
  }

  ghost function After(s: State, run: seq<Event>): State
    requires Runs(s, run)
    decreases |run|, 1
  {
    if run == [] then s else Step(After(s, Init(run)), Last(run))
  }

  lemma {:induction false} RunsSnoc(s: State, run: seq<Event>, e: Event)
    requires Runs(s, run) && Enabled(After(s, run), e)
    ensures Runs(s, run + [e]) && After(s, run + [e]) == Step(After(s, run), e)
  {
    Snoc(run, e);
  }

  lemma {:induction false} RunsConcat(s: State, run: seq<Event>, more: seq<Event>)
    requires Runs(s, run) && Runs(After(s, run), more)
    ensures Runs(s, run + more) && After(s, run + more) == After(After(s, run), more)
    decreases |more|
  {
    if more == [] {
      assert run + more == run;
    } else {
      RunsConcat(s, run, Init(more));
      assert Init(run + more) == run + Init(more) && Last(run + more) == Last(more);
    }
  }

  // ---- which steps keep the discipline ----

  /** Placer p has had its Start of d accepted by n and has not recorded it. */
  predicate InWindow(s: State, p: PlacerId, d: DeploymentId, n: NodeId) {
    Current(s, p) == Some(d) && s.placers[p].phase == Sent(n)
  }

  /** n accepted a Start of d that the table does not show yet. */
  ghost predicate Unrecorded(s: State, d: DeploymentId, n: NodeId) {
    d in s.table.deploy && exists p :: InWindow(s, p, d, n)
  }

  /** The table shows d on n, or soon will. */
  ghost predicate Holds(s: State, d: DeploymentId, n: NodeId) {
    NodeOf(s.table.deploy, d) == Some(n) || Unrecorded(s, d, n)
  }

  /** What a step must not do. A Start must not go out for a deployment that has been deleted or is
      held by a node, nor to a node that holds one, nor to one banned since the avoid list was
      copied. A Stop must not go out to a node that by now holds the deployment. A clearing must
      not find a replica other than the one judged lost: one on another node, or one whose Start
      is not older than the grace period. */
  ghost predicate Clean(s: State, e: Event)
    requires Enabled(s, e)
  {
    match e
    case Send(p, ok) => ok ==> SendClean(s, s.placers[p].todo[0], s.placers[p].phase.node)
    case StopNext(x, _) => Sendable(s.nodes, s.errands[x].node) ==> !Holds(s, s.errands[x].stops[0], s.errands[x].node)
    case ClearNext(x) => ClearClean(s, s.errands[x].lost[0], s.errands[x].node)
    case _ => true
  }

  ghost predicate SendClean(s: State, d: DeploymentId, n: NodeId) {
    && d in s.table.deploy
    && (forall m :: !Holds(s, d, m))
    && (forall other :: !Holds(s, other, n))
    && !BannedNow(s.table.deploy[d], n, s.now)
  }

  ghost predicate ClearClean(s: State, d: DeploymentId, n: NodeId) {
    NodeOf(s.table.deploy, d).Some? ==>
      NodeOf(s.table.deploy, d) == Some(n) && s.now - StartTime(s.table.history, d) > LOST_AFTER
  }

  ghost predicate CleanRun(s: State, run: seq<Event>)
    requires Runs(s, run)
    decreases |run|
  {
    run == [] || (CleanRun(s, Init(run)) && Clean(After(s, Init(run)), Last(run)))
  }

  // ---- the invariant of clean runs ----

  /** A deployment in the table has a replica, or one placer in its window, or neither. */
  ghost predicate OnePlace(s: State) {
    && s.table.deploy.Keys !! s.dead.Keys
    && (forall p, d, n | d in s.table.deploy && InWindow(s, p, d, n) :: NodeOf(s.table.deploy, d).None?)
    && (forall p, q, d, m, n | d in s.table.deploy && InWindow(s, p, d, m) && InWindow(s, q, d, n) :: p == q)
  }

  ghost predicate Logged(s: State) {
    && (forall d, n :: PlacedOn(s.table.history, d) == Some(n) <==> Holds(s, d, n))
    && (forall d :: IsDropped(s.table.history, d) <==> d in s.dead)
  }

  /** Replicas are no older than their Starts. */
  ghost predicate Dates(s: State) {
    && (forall d | d in s.table.deploy && s.table.deploy[d].replica.Some? ::
          var r := s.table.deploy[d].replica.value;
          StartTime(s.table.history, d) <= r.placedAt <= r.lastUpdate && r.placedAt <= s.now)
    && (forall p, d, n | InWindow(s, p, d, n) :: StartTime(s.table.history, d) <= s.now)
  }

  /** Recorded bans are in force, and every ban in force is recorded. */
  ghost predicate Bans(s: State) {
    && BansKept(s.table, s.table.deploy.Keys + s.dead.Keys, s.now)
    && (forall id, n | id in s.table.deploy && n in s.table.deploy[id].avoid ::
          BanEntry(id, n, s.table.deploy[id].avoid[n]) in s.table.history)
  }

  function BanEntry(id: DeploymentId, n: NodeId, until: Time): Entry {
    Banned(id, n, until - AVOID_AFTER_FAILURE, until)
  }

  ghost predicate Inv(s: State) {
    OnePlace(s) && Logged(s) && Dates(s) && Bans(s) && Disciplined(s.table.history)
  }

  // ---- single writes to the table ----

  /** The same goroutines at the same places, over the same deployments. */
  ghost predicate SameWindows(s: State, s': State) {
    s'.placers == s.placers && s'.dead == s.dead && s'.table.deploy.Keys == s.table.deploy.Keys && s.now <= s'.now
  }

  lemma WindowsStay(s: State, s': State)
    requires SameWindows(s, s')
    ensures forall p, d, n :: InWindow(s', p, d, n) <==> InWindow(s, p, d, n)
    ensures forall d, n :: Unrecorded(s', d, n) <==> Unrecorded(s, d, n)
  {
    forall d, n ensures Unrecorded(s', d, n) <==> Unrecorded(s, d, n) {
      assert forall p :: InWindow(s', p, d, n) <==> InWindow(s, p, d, n);
    }
  }

  /** No replica has moved; some may have been reported on. */
  ghost predicate SameReplicas(s: State, s': State) {
    forall d | d in s.table.deploy && d in s'.table.deploy ::
      var r, r' := s.table.deploy[d].replica, s'.table.deploy[d].replica;
      r == r' || (r.Some? && r'.Some? && r'.value.node == r.value.node && r'.value.placedAt == r.value.placedAt
                  && r'.value.lastUpdate == s'.now)
  }

  /** A write that moves no replica and opens or closes no window keeps places and dates. */
  lemma SamePlaces(s: State, s': State)
    requires OnePlace(s) && Dates(s) && SameWindows(s, s') && SameReplicas(s, s')
    requires forall d :: StartTime(s'.table.history, d) == StartTime(s.table.history, d)
    ensures OnePlace(s') && Dates(s') && forall d, m :: Holds(s', d, m) <==> Holds(s, d, m)
  {
    WindowsStay(s, s');
    forall d ensures NodeOf(s'.table.deploy, d) == NodeOf(s.table.deploy, d) {}
    forall d, m ensures Holds(s', d, m) <==> Holds(s, d, m) {}
  }

  /** A write that logs neither a placement nor a deletion. */
  lemma StillLogged(s: State, s': State)
    requires Logged(s) && s'.dead == s.dead && forall d, m :: Holds(s', d, m) <==> Holds(s, d, m)
    requires forall d :: PlacedOn(s'.table.history, d) == PlacedOn(s.table.history, d)
    requires forall d :: IsDropped(s'.table.history, d) <==> IsDropped(s.table.history, d)
    ensures Logged(s')
  {
    forall d, m ensures PlacedOn(s'.table.history, d) == Some(m) <==> Holds(s', d, m) {
      assert PlacedOn(s.table.history, d) == Some(m) <==> Holds(s, d, m);
    }
  }

  /** Bans stand as long as the avoid lists do and no ban is logged. */
  lemma SameBans(s: State, s': State)
    requires Bans(s) && s.now <= s'.now && s'.table.deploy.Keys == s.table.deploy.Keys && s'.dead.Keys == s.dead.Keys
    requires s'.table.history == s.table.history || exists e: Entry | !e.Banned? :: s'.table.history == s.table.history + [e]
    requires forall d | d in s.table.deploy :: s'.table.deploy[d].avoid == s.table.deploy[d].avoid
    ensures Bans(s')
  {
  }

  /** Steps that leave table, placers and deleted deployments alone keep the invariant. */
  lemma UntouchedKeepsInv(s: State, s': State)
    requires Inv(s) && s'.table == s.table && SameWindows(s, s')
    ensures Inv(s')
  {
    SamePlaces(s, s');
    StillLogged(s, s');
    SameBans(s, s');
  }

  lemma ClearedKeepsLog(s: State, s': State, id: DeploymentId, n: NodeId)
    requires Inv(s) && NodeOf(s.table.deploy, id) == Some(n) && s'.dead == s.dead
    requires s'.table.history == s.table.history + [Unplaced(id, n, s.now)]
    requires forall d :: NodeOf(s'.table.deploy, d) == if d == id then None else NodeOf(s.table.deploy, d)
    requires forall d, m :: Unrecorded(s', d, m) <==> Unrecorded(s, d, m)
    ensures Logged(s') && forall d :: StartTime(s'.table.history, d) == StartTime(s.table.history, d)
  {
    PlacedOnSnoc(s.table.history, Unplaced(id, n, s.now));
    forall m ensures !Unrecorded(s, id, m) {
      assert forall p :: !InWindow(s, p, id, m);
    }
    forall d, m ensures PlacedOn(s'.table.history, d) == Some(m) <==> Holds(s', d, m) {
      assert PlacedOn(s.table.history, d) == Some(m) <==> Holds(s, d, m);
    }
  }

  lemma ClearedKeepsPlaces(s: State, s': State, id: DeploymentId, n: NodeId)
    requires Inv(s) && NodeOf(s.table.deploy, id) == Some(n) && SameWindows(s, s')
    requires s'.table == ClearedAs(s.table, id, n, s.now)
    ensures OnePlace(s') && Dates(s') && Logged(s')
  {
    WindowsStay(s, s');
    forall d ensures NodeOf(s'.table.deploy, d) == if d == id then None else NodeOf(s.table.deploy, d) {}
    ClearedKeepsLog(s, s', id, n);
  }

  lemma ClearedKeepsInv(s: State, s': State, id: DeploymentId, n: NodeId)
    requires Inv(s) && ClearClean(s, id, n) && SameWindows(s, s') && s'.table == ClearedAs(s.table, id, n, s.now)
    ensures Inv(s')
  {
    if NodeOf(s.table.deploy, id).None? {
      UntouchedKeepsInv(s, s');
    } else {
      assert Holds(s, id, n) && PlacedOn(s.table.history, id) == Some(n);
      HistoryGrows(s.table.history, Unplaced(id, n, s.now));
      ClearedKeepsPlaces(s, s', id, n);
      SameBans(s, s');
    }
  }

  /** A clearing that finds another replica shows in the history. */
  lemma ClearBreaks(s: State, id: DeploymentId, n: NodeId)
    requires Inv(s) && !ClearClean(s, id, n)
    ensures !Disciplined(ClearedAs(s.table, id, n, s.now).history)
  {
    var m := NodeOf(s.table.deploy, id).value;
    assert Holds(s, id, m) && PlacedOn(s.table.history, id) == Some(m);
    Snoc(s.table.history, Unplaced(id, n, s.now));
  }

  lemma WithBanKeepsBans(s: State, s': State, id: DeploymentId, n: NodeId)
    requires Bans(s) && NodeOf(s.table.deploy, id) == Some(n)
    requires s' == s.(table := WithBan(s.table, id, s.now))
    ensures Bans(s')
    ensures forall b | b in s.table.history && b.Banned? && b.dep == id && b.node == n :: b.until <= s.now + AVOID_AFTER_FAILURE
  {
    assert s'.table.history == s.table.history + [BanEntry(id, n, s.now + AVOID_AFTER_FAILURE)];
  }

  lemma WithBanKeepsInv(s: State, id: DeploymentId)
    requires Inv(s)
    ensures Inv(s.(table := WithBan(s.table, id, s.now)))
    ensures forall d :: StartTime(WithBan(s.table, id, s.now).history, d) == StartTime(s.table.history, d)
  {
    if NodeOf(s.table.deploy, id).Some? {
      var n := s.table.deploy[id].replica.value.node;
      var s' := s.(table := WithBan(s.table, id, s.now));
      var e := Banned(id, n, s.now, s.now + AVOID_AFTER_FAILURE);
      assert Holds(s, id, n) && PlacedOn(s.table.history, id) == Some(n);
      WithBanKeepsBans(s, s', id, n);
      HistoryGrows(s.table.history, e);
      PlacedOnSnoc(s.table.history, e);
      SamePlaces(s, s');
      StillLogged(s, s');
    }
  }

  lemma StopKeepsInv(s: State, s': State, id: DeploymentId, n: NodeId, ok: bool)
    requires Inv(s) && (Sendable(s.nodes, n) ==> !Holds(s, id, n))
    requires SameWindows(s, s') && s'.table == StopSent(s.nodes, s.table, id, n, s.now, ok)
    ensures Inv(s')
  {
    if Sendable(s.nodes, n) {
      var e := StopTried(id, n, s.now, ok);
      assert PlacedOn(s.table.history, id) != Some(n);
      HistoryGrows(s.table.history, e);
      PlacedOnSnoc(s.table.history, e);
      SamePlaces(s, s');
      StillLogged(s, s');
      SameBans(s, s');
    } else {
      UntouchedKeepsInv(s, s');
    }
  }

  lemma StopBreaks(s: State, id: DeploymentId, n: NodeId, ok: bool)
    requires Inv(s) && Sendable(s.nodes, n) && Holds(s, id, n)
    ensures !Disciplined(StopSent(s.nodes, s.table, id, n, s.now, ok).history)
  {
    assert PlacedOn(s.table.history, id) == Some(n);
    Snoc(s.table.history, StopTried(id, n, s.now, ok));
  }
}
