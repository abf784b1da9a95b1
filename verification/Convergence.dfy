/** Heartbeat convergence: one sampled heartbeat, its Stops delivered and the cancelled
    engines gone, leaves an agent running only what is placed on it. */
module Convergence {
  import opened Base
  import opened Registries
  import opened Deployments
  import opened PlacementRuns
  import opened Clients

  datatype Command = StartCmd(id: DeploymentId) | StopCmd(id: DeploymentId)

  /** What a node receives of a piece of history, in order. */
  function Commands(h: seq<Entry>, n: NodeId): seq<Command>
    decreases |h|
  {
    if h == [] then [] else Commands(Init(h), n) + Received(Last(h), n)
  }

  function Received(e: Entry, n: NodeId): seq<Command> {
    match e
    case Started(d, m, _) => if m == n then [StartCmd(d)] else []
    case StopTried(d, m, _, accepted) => if m == n && accepted then [StopCmd(d)] else []
    case _ => []
  }

  /** One node's side of the system: the coordinator's table, the agent's deployments,
      a heartbeat on its way up, and the commands on their way down. */
  datatype Link = Link(
    nodes: Nodes,
    table: Table,
    active: Active,
    beat: Option<seq<DeploymentId>>,
    down: seq<Command>)

  datatype LinkEvent =
    | Process(addr: string, accepted: seq<bool>, missing: seq<DeploymentId>)
    | Report(id: DeploymentId, upd: Update, ok: bool)
    | Deliver
    | Finish(id: DeploymentId)

  /** The agent samples its active deployments and sends them up. */
  predicate Sampled(s: Link) {
    s.beat.Some? && (set id | id in s.beat.value) == s.active.Keys
  }

  /** Every Stop of the heartbeat is accepted by the live stream; no placement happens. */
  ghost predicate LinkEnabled(s: Link, n: NodeId, now: Time, e: LinkEvent) {
    match e
    case Process(addr, accepted, missing) =>
      && s.beat.Some?
      && HeartbeatOk(s.table.deploy, n, s.beat.value, now, accepted, missing)
      && (forall i | 0 <= i < |accepted| :: accepted[i])
    case Report(_, _, _) => true
    case Deliver => s.down != []
    case Finish(id) => id in s.active
  }

  function Delivered(active: Active, c: Command): Active {
    match c
    case StartCmd(id) => Begun(active, id)
    case StopCmd(id) => Cancelled(active, id)
  }

  function LinkStep(s: Link, n: NodeId, now: Time, e: LinkEvent): Link
    requires LinkEnabled(s, n, now, e)
  {
    match e
    case Process(addr, accepted, missing) =>
      var nodes := Touched(s.nodes, n, addr, now);
      var t := Heartbeaten(nodes, s.table, n, s.beat.value, now, accepted, missing);
      HeartbeatExtends(nodes, nodes, s.table, n, s.beat.value, now, accepted, missing);
      s.(nodes := nodes, table := t, beat := None, down := s.down + Commands(t.history[|s.table.history|..], n))
    case Report(id, upd, ok) =>
      var t := Updated(s.nodes, s.table, n, id, upd, now, ok);
      s.(table := t, down := s.down + Commands(t.history[|s.table.history|..], n))
    case Deliver => s.(active := Delivered(s.active, s.down[0]), down := s.down[1..])
    case Finish(id) => s.(active := Finished(s.active, id))
  }

  ghost predicate LinkRuns(s: Link, n: NodeId, run: seq<(Time, LinkEvent)>)
    decreases |run|, 0
  {
    run == [] || (LinkRuns(s, n, Init(run)) && LinkEnabled(LinkAfter(s, n, Init(run)), n, Last(run).0, Last(run).1))
  }

  ghost function LinkAfter(s: Link, n: NodeId, run: seq<(Time, LinkEvent)>): Link
    requires LinkRuns(s, n, run)
    decreases |run|, 1
  {
    if run == [] then s else LinkStep(LinkAfter(s, n, Init(run)), n, Last(run).0, Last(run).1)
  }

  // ---- the Stops of one heartbeat ----

  lemma CommandsSnoc(h: seq<Entry>, k: nat, e: Entry, n: NodeId)
    requires k <= |h|
    ensures Commands((h + [e])[k..], n) == Commands(h[k..], n) + Received(e, n)
  {
    assert (h + [e])[k..] == h[k..] + [e];
    Snoc(h[k..], e);
  }

  /** The heartbeat's Stops are exactly the reported ids that are not wanted. */
  lemma {:induction false} OrphanCommands(nodes: Nodes, t: Table, n: NodeId, active: seq<DeploymentId>,
      wanted: set<DeploymentId>, now: Time, accepted: seq<bool>)
    requires |accepted| == |active| && Sendable(nodes, n)
    requires forall i | 0 <= i < |accepted| :: accepted[i]
    ensures var t' := OrphansStopped(nodes, t, n, active, wanted, now, accepted);
      && t'.deploy == t.deploy && t.history <= t'.history
      && forall c :: c in Commands(t'.history[|t.history|..], n) <==> c.StopCmd? && c.id in active && c.id !in wanted
    decreases |active|
  {
    var k := |t.history|;
    if active == [] {
      assert t.history[k..] == [];
    } else {
      OrphanCommands(nodes, t, n, Init(active), wanted, now, Init(accepted));
      var before := OrphansStopped(nodes, t, n, Init(active), wanted, now, Init(accepted));
      InitLast(active);
      var stop := StopTried(Last(active), n, now, true);
      CommandsSnoc(before.history, k, stop, n);
    }
  }

  lemma {:induction false} ClearingSendsNothing(t: Table, k: nat, ids: seq<DeploymentId>, now: Time, n: NodeId)
    requires k <= |t.history|
    ensures var t' := AllCleared(t, ids, now);
      t.history <= t'.history && Commands(t'.history[k..], n) == Commands(t.history[k..], n)
    decreases |ids|
  {
    if ids == [] {
    } else {
      ClearingSendsNothing(t, k, Init(ids), now, n);
      var before := AllCleared(t, Init(ids), now);
      if NodeOf(before.deploy, Last(ids)).Some? {
        var e := Unplaced(Last(ids), before.deploy[Last(ids)].replica.value.node, now);
        CommandsSnoc(before.history, k, e, n);
      }
    }
  }

  lemma {:induction false} ClearedNodeOf(t: Table, ids: seq<DeploymentId>, now: Time, id: DeploymentId)
    ensures NodeOf(AllCleared(t, ids, now).deploy, id) == if id in Elements(ids) then None else NodeOf(t.deploy, id)
    decreases |ids|
  {
    if ids == [] {
    } else {
      ClearedNodeOf(t, Init(ids), now, id);
      InitLast(ids);
    }
  }

  // ---- the invariant of a converging link ----

  /** Relative to the sample: nothing new runs, no Start is in flight, the placements of
      sampled deployments stand, and — once the heartbeat has been processed — every
      unwanted deployment still running is cancelled or about to be. */
  ghost predicate Converging(s0: Link, s: Link, n: NodeId) {
    var wanted := WantedOn(s0.table.deploy, n);
    && Sendable(s.nodes, n)
    && s.active.Keys <= s0.active.Keys
    && (forall c | c in s.down :: c.StopCmd?)
    && (s.beat == s0.beat || s.beat == None)
    && (s.beat.Some? ==> forall id: DeploymentId :: NodeOf(s.table.deploy, id) == NodeOf(s0.table.deploy, id))
    && (forall id | id in s0.active && id in wanted :: NodeOf(s.table.deploy, id) == Some(n))
    && (s.beat.None? ==> forall id | id in s.active && id !in wanted :: s.active[id] || StopCmd(id) in s.down)
  }

  /** A wanted deployment that no Stop is heading for. */
  ghost predicate Calm(s: Link, id: DeploymentId) {
    StopCmd(id) !in s.down && (id in s.active ==> !s.active[id])
  }

  lemma ProcessConverges(s0: Link, s: Link, n: NodeId, now: Time, e: LinkEvent)
    requires Sampled(s0) && Converging(s0, s, n) && e.Process? && LinkEnabled(s, n, now, e)
    ensures Converging(s0, LinkStep(s, n, now, e), n)
    ensures forall id | id in s0.active && id in WantedOn(s0.table.deploy, n) && Calm(s, id) :: Calm(LinkStep(s, n, now, e), id)
  {
    var active := s.beat.value;
    var nodes := Touched(s.nodes, n, e.addr, now);
    var wanted := WantedOn(s.table.deploy, n);
    assert wanted == WantedOn(s0.table.deploy, n) by {
      forall id ensures id in wanted <==> id in WantedOn(s0.table.deploy, n) {
        assert NodeOf(s.table.deploy, id) == NodeOf(s0.table.deploy, id);
      }
    }
    OrphanCommands(nodes, s.table, n, active, wanted, now, e.accepted);
    var stopped := OrphansStopped(nodes, s.table, n, active, wanted, now, e.accepted);
    ClearingSendsNothing(stopped, |s.table.history|, e.missing, now, n);
    var s' := LinkStep(s, n, now, e);
    assert forall id :: id in active <==> id in s0.active;
    forall id | id in s0.active && id in wanted ensures NodeOf(s'.table.deploy, id) == Some(n) {
      ClearedNodeOf(stopped, e.missing, now, id);
      assert id !in MissingOn(s.table.deploy, n, active, now);
    }
  }

  lemma ReportConverges(s0: Link, s: Link, n: NodeId, now: Time, e: LinkEvent)
    requires Sampled(s0) && Converging(s0, s, n) && e.Report? && LinkEnabled(s, n, now, e)
    ensures Converging(s0, LinkStep(s, n, now, e), n)
    ensures forall id | id in s0.active && id in WantedOn(s0.table.deploy, n) && Calm(s, id) :: Calm(LinkStep(s, n, now, e), id)
  {
    var s' := LinkStep(s, n, now, e);
    var k := |s.table.history|;
    var stop := StopTried(e.id, n, now, e.ok);
    assert s.table.history[k..] == [];
    CommandsSnoc(s.table.history, k, stop, n);
    forall id ensures NodeOf(s'.table.deploy, id) == NodeOf(s.table.deploy, id) {
    }
  }

  lemma AgentStepConverges(s0: Link, s: Link, n: NodeId, now: Time, e: LinkEvent)
    requires Sampled(s0) && Converging(s0, s, n) && (e.Deliver? || e.Finish?) && LinkEnabled(s, n, now, e)
    ensures Converging(s0, LinkStep(s, n, now, e), n)
    ensures forall id | Calm(s, id) :: Calm(LinkStep(s, n, now, e), id)
  {
    if e.Deliver? {
      assert s.down == [s.down[0]] + s.down[1..];
      assert s.down[0] in s.down;
    }
  }

  lemma {:induction false} LinkConverges(s0: Link, n: NodeId, run: seq<(Time, LinkEvent)>)
    requires Sampled(s0) && Sendable(s0.nodes, n) && LinkRuns(s0, n, run)
    requires forall c | c in s0.down :: c.StopCmd?
    ensures Converging(s0, LinkAfter(s0, n, run), n)
    ensures forall id | id in s0.active && id in WantedOn(s0.table.deploy, n) && Calm(s0, id) ::
              Calm(LinkAfter(s0, n, run), id)
    decreases |run|
  {
    if run == [] {
    } else {
      LinkConverges(s0, n, Init(run));
      var s, now, e := LinkAfter(s0, n, Init(run)), Last(run).0, Last(run).1;
      if e.Process? {
        ProcessConverges(s0, s, n, now, e);
      } else if e.Report? {
        ReportConverges(s0, s, n, now, e);
      } else {
        AgentStepConverges(s0, s, n, now, e);
      }
    }
  }

  /** Convergence from any pair of coordinator and agent states, an empty table after a
      restart included. Start from a fresh sample, with a live stream and no Start in
      flight, and let the processing of the heartbeat, deployment updates, deliveries and
      engine exits interleave in any way. When the heartbeat has been processed, its Stops
      delivered and the cancelled engines have gone, everything the agent runs is placed on
      it; and at every moment a wanted deployment that no older Stop was heading for is
      still placed there and has not been cancelled. */
  lemma HeartbeatConverges(s0: Link, n: NodeId, run: seq<(Time, LinkEvent)>)
    requires Sampled(s0) && Sendable(s0.nodes, n) && LinkRuns(s0, n, run)
    requires forall c | c in s0.down :: c.StopCmd?
    ensures var s := LinkAfter(s0, n, run);
      s.beat.None? && s.down == [] && (forall id | id in s.active :: !s.active[id]) ==>
        forall id | id in s.active ::
          id in s.table.deploy && s.table.deploy[id].replica.Some? && s.table.deploy[id].replica.value.node == n
    ensures var s := LinkAfter(s0, n, run);
      forall id | id in s0.active && id in WantedOn(s0.table.deploy, n) && !s0.active[id] && StopCmd(id) !in s0.down ::
        && NodeOf(s.table.deploy, id) == Some(n)
        && StopCmd(id) !in s.down
        && (id in s.active ==> !s.active[id])
  {
    LinkConverges(s0, n, run);
    var s := LinkAfter(s0, n, run);
    forall id | id in s0.active && id in WantedOn(s0.table.deploy, n) && !s0.active[id] && StopCmd(id) !in s0.down
      ensures NodeOf(s.table.deploy, id) == Some(n) && StopCmd(id) !in s.down && (id in s.active ==> !s.active[id])
    {
      assert Calm(s0, id);
      assert Calm(s, id);
    }
  }
}
