/** Runs in which the lock-granular coordinator breaks what its entry points keep when they are
    taken one at a time: one run for each way a step can fail to be clean. */
module RaceRuns {
  import opened Base
  import opened Registries
  import opened Deployments
  import opened Placement
  import opened Races
  import opened Overlaps
  import Clients
  import Convergence

  const NODE := Node(NodeInfo("h", 1, [RunnerDocker]), 0, Online, "", Some(0))
  const SPEC := Spec("m", EngineContainer, 0)
  const FREE := Deployment(SPEC, None, map[])
  const ONE_NODE: Nodes := map["n" := NODE]
  const TWO_NODES: Nodes := map["m" := NODE, "n" := NODE]

  lemma {:induction false} OneMore(s0: State, run: seq<Event>, e: Event, s': State)
    requires Runs(s0, run) && Enabled(After(s0, run), e) && Step(After(s0, run), e) == s'
    ensures Runs(s0, run + [e]) && After(s0, run + [e]) == s'
  {
    RunsSnoc(s0, run, e);
  }

  lemma FreeNodeSuits(s: State, id: DeploymentId, n: NodeId)
    requires n in s.nodes && s.nodes[n] == NODE && id in s.table.deploy && s.table.deploy[id].spec == SPEC
    requires n !in s.table.deploy[id].avoid
    requires forall other | other in s.table.deploy && other != id :: NodeOf(s.table.deploy, other) != Some(n)
    ensures Suits(s, id, n)
  {
    assert RunnerDocker in NODE.info.runners;
  }

  // ---- two creates and one node ----

  /** Two creates have added their deployments and are about to place them. */
  const TWO_CREATES := State(0, ONE_NODE, Table(map["a" := FREE, "b" := FREE], []), map[],
                             map[RECONCILER := Placer([], Idle), 1 := Placer(["a"], Idle), 2 := Placer(["b"], Idle)], map[])

  /** One create has. */
  const ONE_CREATE := State(0, ONE_NODE, Table(map["a" := FREE], []), map[],
                            map[RECONCILER := Placer([], Idle), 1 := Placer(["a"], Idle)], map[])

  lemma {:induction false} OneCreateIsReachable() returns (run: seq<Event>)
    ensures Runs(Start(ONE_NODE, 0), run) && After(Start(ONE_NODE, 0), run) == ONE_CREATE
  {
    OneMore(Start(ONE_NODE, 0), [], Enlist(1, "a", SPEC), ONE_CREATE);
    run := [] + [Enlist(1, "a", SPEC)];
  }

  lemma {:induction false} TwoCreatesAreReachable() returns (run: seq<Event>)
    ensures Runs(Start(ONE_NODE, 0), run) && After(Start(ONE_NODE, 0), run) == TWO_CREATES
  {
    run := OneCreateIsReachable();
    var b := Enlist(2, "b", SPEC);
    assert Step(ONE_CREATE, b).table.deploy == TWO_CREATES.table.deploy;
    assert Step(ONE_CREATE, b).placers == TWO_CREATES.placers;
    OneMore(Start(ONE_NODE, 0), run, b, TWO_CREATES);
    run := run + [b];
  }

  lemma TwoCreatesContest()
    ensures Poised(TWO_CREATES) && Suits(TWO_CREATES, "a", "n") && Suits(TWO_CREATES, "b", "n")
    ensures Lists(TWO_CREATES, 1, "a") && Lists(TWO_CREATES, 2, "b")
  {
    FreeNodeSuits(TWO_CREATES, "a", "n");
    FreeNodeSuits(TWO_CREATES, "b", "n");
  }

  /** Two creates that overlap and one node: both deployments end up on it. */
  lemma {:induction false} TwoCreatesShareANode() returns (run: seq<Event>)
    ensures Runs(Start(ONE_NODE, 0), run) && !Exclusive(After(Start(ONE_NODE, 0), run).table.deploy)
  {
    var enlisted := TwoCreatesAreReachable();
    TwoCreatesContest();
    var lost := ContestIsLost(TWO_CREATES, 1, 2, "a", "b", "n");
    RunsConcat(Start(ONE_NODE, 0), enlisted, lost);
    run := enlisted + lost;
  }

  /** What sending and recording in one go comes to. */
  function Landed(s: State, p: PlacerId, d: DeploymentId, n: NodeId): State
    requires p in s.placers && s.placers[p].todo != [] && d in s.table.deploy
  {
    s.(table := Table(s.table.deploy[d := NewReplica(s.table.deploy[d], n, s.now)], s.table.history + [Started(d, n, s.now)]),
       placers := s.placers[p := Placer(s.placers[p].todo[1..], Idle)])
  }

  lemma {:induction false} LandRun(s: State, p: PlacerId, d: DeploymentId, n: NodeId) returns (run: seq<Event>)
    requires Current(s, p) == Some(d) && s.placers[p].phase == Chosen(n) && d in s.table.deploy
    ensures Runs(s, run) && After(s, run) == Landed(s, p, d, n)
  {
    SendAndRecordFacts(s, p, d, n);
    RunsSnoc(s, [], Send(p, true));
    var s1 := Step(s, Send(p, true));
    SendAndRecordFacts(s1, p, d, n);
    RunsSnoc(s, [] + [Send(p, true)], Record(p));
    run := [] + [Send(p, true)] + [Record(p)];
    assert s1.placers[p := Placer(s1.placers[p].todo[1..], Idle)] == Landed(s, p, d, n).placers;
  }

  // ---- a Stop after its Start ----

  /** Right after a Start, neither a Stop to the same node nor another Start is disciplined. */
  lemma {:induction false} AfterItsStart(h: seq<Entry>, d: DeploymentId, n: NodeId, e: Entry, now: Time)
    requires e.dep == d && ((e.StopTried? && e.node == n) || e.Started?)
    ensures !Disciplined(h + [Started(d, n, now)] + [e])
  {
    PlacedOnSnoc(h, Started(d, n, now));
    Snoc(h + [Started(d, n, now)], e);
  }

  /** What the two commands do to the agent: whatever it was running, the deployment is cancelled. */
  ghost predicate EndsCancelled(h: seq<Entry>, d: DeploymentId, n: NodeId) {
    && Convergence.Commands(h, n) == [Convergence.StartCmd(d)] + [Convergence.StopCmd(d)]
    && forall active: Clients.Active ::
         var after := Convergence.Delivered(Convergence.Delivered(active, Convergence.StartCmd(d)), Convergence.StopCmd(d));
         d in after && after[d]
  }

  lemma StartThenStopCancels(d: DeploymentId, n: NodeId, now: Time)
    ensures EndsCancelled([Started(d, n, now), StopTried(d, n, now, true)], d, n)
  {
    var h := [Started(d, n, now), StopTried(d, n, now, true)];
    assert Init(h) == [h[0]] && Last(h) == h[1] && Init([h[0]]) == [] && Last([h[0]]) == h[0];
    assert Convergence.Commands([h[0]], n) == [Convergence.StartCmd(d)];
  }

  /** Between the send and the record an update of the very replica looks like an orphan's: the
      agent is told to start it and then to stop it, and the table then shows it as placed. */
  lemma {:induction false} EarlyUpdateCancels(s: State, p: PlacerId, d: DeploymentId, n: NodeId, x: ErrandId,
      upd: Deployments.Update)
    returns (run: seq<Event>)
    requires Current(s, p) == Some(d) && s.placers[p].phase == Chosen(n) && x !in s.errands
    requires d in s.table.deploy && NodeOf(s.table.deploy, d).None? && Sendable(s.nodes, n)
    ensures Runs(s, run)
    ensures var s' := After(s, run);
      && s'.table.history == s.table.history + [Started(d, n, s.now)] + [StopTried(d, n, s.now, true)]
      && !Disciplined(s'.table.history)
      && NodeOf(s'.table.deploy, d) == Some(n)
  {
    SendAndRecordFacts(s, p, d, n);
    RunsSnoc(s, [], Send(p, true));
    var s1 := Step(s, Send(p, true));
    var stop := OrphanIsStopped(s1, d, n, x, upd);
    RunsConcat(s, [] + [Send(p, true)], stop);
    run := [] + [Send(p, true)] + stop;
    var s2 := After(s1, stop);
    SendAndRecordFacts(s2, p, d, n);
    RunsSnoc(s, run, Record(p));
    run := run + [Record(p)];
    AfterItsStart(s.table.history, d, n, StopTried(d, n, s.now, true), s.now);
  }

  /** An update about a deployment the table does not show on its node is answered by a Stop. */
  lemma {:induction false} OrphanIsStopped(s: State, d: DeploymentId, n: NodeId, x: ErrandId, upd: Deployments.Update)
    returns (run: seq<Event>)
    requires x !in s.errands && NodeOf(s.table.deploy, d) != Some(n) && Sendable(s.nodes, n)
    ensures Runs(s, run)
    ensures After(s, run) == s.(table := s.table.(history := s.table.history + [StopTried(d, n, s.now, true)]),
                                errands := s.errands[x := Errand(n, [], [])])
  {
    var e := Event.Update(x, n, d, upd);
    RunsSnoc(s, [], e);
    RunsSnoc(s, [] + [e], StopNext(x, true));
    run := [] + [e] + [StopNext(x, true)];
    assert [d][1..] == [];
  }

  /** In a run the coordinator can take, from an empty table and one node. */
  lemma {:induction false} EarlyUpdateIsReachable(upd: Deployments.Update) returns (run: seq<Event>)
    ensures Runs(Start(ONE_NODE, 0), run)
    ensures var s := After(Start(ONE_NODE, 0), run);
      && s.table.history == [Started("a", "n", 0), StopTried("a", "n", 0, true)]
      && !Disciplined(s.table.history) && EndsCancelled(s.table.history, "a", "n")
      && NodeOf(s.table.deploy, "a") == Some("n")
  {
    StartThenStopCancels("a", "n", 0);
    var create := OneCreateIsReachable();
    FreeNodeSuits(ONE_CREATE, "a", "n");
    var choose := ChooseRun(ONE_CREATE, 1, "n");
    RunsConcat(Start(ONE_NODE, 0), create, choose);
    var rest := EarlyUpdateCancels(After(ONE_CREATE, choose), 1, "a", "n", 0, upd);
    RunsConcat(Start(ONE_NODE, 0), create + choose, rest);
    run := create + choose + rest;
  }

  /** A heartbeat that names an unplaced deployment is judged; before its Stop goes out the
      deployment is placed on that very node, sent and recorded; the Stop then hits it. */
  lemma {:induction false} StaleStopHits(s: State, p: PlacerId, d: DeploymentId, n: NodeId, x: ErrandId)
    returns (run: seq<Event>)
    requires s.table.deploy.Keys !! s.dead.Keys && x !in s.errands
    requires Current(s, p) == Some(d) && s.placers[p].phase.Idle? && Suits(s, d, n) && NodeOf(s.table.deploy, d).None?
    requires MissingOn(s.table.deploy, n, [d], s.now) == {}
    ensures Runs(s, run)
    ensures var s' := After(s, run);
      && s'.table.history == s.table.history + [Started(d, n, s.now)] + [StopTried(d, n, s.now, true)]
      && !Disciplined(s'.table.history)
      && NodeOf(s'.table.deploy, d) == Some(n)
  {
    var judged := Judged(s, p, d, n, x);
    var s1 := After(s, judged);
    var choose := ChooseRun(s1, p, n);
    RunsConcat(s, judged, choose);
    var s2 := After(s1, choose);
    var rest := SendRecordStop(s2, p, d, n, x);
    RunsConcat(s, judged + choose, rest);
    AfterItsStart(s.table.history, d, n, StopTried(d, n, s.now, true), s.now);
    run := judged + choose + rest;
  }

  lemma {:induction false} Judged(s: State, p: PlacerId, d: DeploymentId, n: NodeId, x: ErrandId)
    returns (run: seq<Event>)
    requires x !in s.errands && NodeOf(s.table.deploy, d).None? && MissingOn(s.table.deploy, n, [d], s.now) == {}
    ensures Runs(s, run) && After(s, run) == WithErrand(s, x, Errand(n, [d], []))
  {
    var e := Heartbeat(x, n, [d], []);
    var wanted := WantedOn(s.table.deploy, n);
    assert Init([d]) == [] && Last([d]) == d && d !in wanted && Orphans([], wanted) == [];
    assert Orphans([d], wanted) == [d];
    RunsSnoc(s, [], e);
    run := [] + [e];
  }

  lemma {:induction false} SendRecordStop(s: State, p: PlacerId, d: DeploymentId, n: NodeId, x: ErrandId)
    returns (run: seq<Event>)
    requires Current(s, p) == Some(d) && s.placers[p].phase == Chosen(n) && d in s.table.deploy && Sendable(s.nodes, n)
    requires x in s.errands && s.errands[x] == Errand(n, [d], [])
    ensures Runs(s, run)
    ensures var s' := After(s, run);
      && s'.table.history == s.table.history + [Started(d, n, s.now)] + [StopTried(d, n, s.now, true)]
      && NodeOf(s'.table.deploy, d) == Some(n)
  {
    var land := LandRun(s, p, d, n);
    RunsSnoc(s, land, StopNext(x, true));
    run := land + [StopNext(x, true)];
  }

  /** In a run from an empty table and one node, where up to the Stop the history is disciplined. */
  lemma {:induction false} StaleStopIsReachable() returns (run: seq<Event>)
    ensures Runs(Start(ONE_NODE, 0), run)
    ensures var s := After(Start(ONE_NODE, 0), run);
      && s.table.history == [Started("a", "n", 0), StopTried("a", "n", 0, true)]
      && Disciplined([Started("a", "n", 0)]) && !Disciplined(s.table.history)
      && EndsCancelled(s.table.history, "a", "n")
      && NodeOf(s.table.deploy, "a") == Some("n")
  {
    StartThenStopCancels("a", "n", 0);
    OneStartIsDisciplined("a", "n", 0);
    var create := OneCreateIsReachable();
    FreeNodeSuits(ONE_CREATE, "a", "n");
    var rest := StaleStopHits(ONE_CREATE, 1, "a", "n", 0);
    RunsConcat(Start(ONE_NODE, 0), create, rest);
    run := create + rest;
  }

  lemma OneStartIsDisciplined(d: DeploymentId, n: NodeId, now: Time)
    ensures Disciplined([Started(d, n, now)])
  {
    var e := Started(d, n, now);
    assert EntryOk([], e);
    HistoryGrows([], e);
    assert [] + [e] == [e];
  }

  // ---- one deployment started twice ----

  /** Two placers with the same deployment in their hands start it twice; the table only shows the second. */
  lemma {:induction false} SameDeploymentStartsTwice(s: State, p: PlacerId, q: PlacerId, d: DeploymentId, m: NodeId,
      n: NodeId)
    returns (run: seq<Event>)
    requires p != q && d in s.table.deploy
    requires Current(s, p) == Some(d) && s.placers[p].phase == Chosen(m)
    requires Current(s, q) == Some(d) && s.placers[q].phase == Chosen(n)
    ensures Runs(s, run)
    ensures var s' := After(s, run);
      && s'.table.history == s.table.history + [Started(d, m, s.now)] + [Started(d, n, s.now)]
      && !Disciplined(s'.table.history)
      && NodeOf(s'.table.deploy, d) == Some(n)
  {
    SendAndRecordFacts(s, p, d, m);
    RunsSnoc(s, [], Send(p, true));
    var s1 := Step(s, Send(p, true));
    SendAndRecordFacts(s1, q, d, n);
    RunsSnoc(s, [] + [Send(p, true)], Send(q, true));
    var s2 := Step(s1, Send(q, true));
    SendAndRecordFacts(s2, q, d, n);
    RunsSnoc(s, [] + [Send(p, true)] + [Send(q, true)], Record(q));
    AfterItsStart(s.table.history, d, m, Started(d, n, s.now), s.now);
    run := [] + [Send(p, true)] + [Send(q, true)] + [Record(q)];
  }

  /** A create has added its deployment, and before it places it a sweep has listed it too. */
  const LISTED_TWICE := State(0, TWO_NODES, Table(map["a" := FREE], []), map[],
                              map[RECONCILER := Placer(["a"], Idle), 1 := Placer(["a"], Idle)], map[])

  lemma {:induction false} ListedTwiceIsReachable() returns (run: seq<Event>)
    ensures Runs(Start(TWO_NODES, 0), run) && After(Start(TWO_NODES, 0), run) == LISTED_TWICE
  {
    var s0 := Start(TWO_NODES, 0);
    var a, sweep := Enlist(1, "a", SPEC), Sweep(["a"], ["a"]);
    var s1 := LISTED_TWICE.(placers := map[RECONCILER := Placer([], Idle), 1 := Placer(["a"], Idle)]);
    OneMore(s0, [], a, s1);
    var t := Swept(TWO_NODES, s1.table, ["a"], 0);
    assert Init(["a"]) == [] && Last(["a"]) == "a" && t == s1.table;
    assert UnplacedIds(t.deploy) == {"a"} == Elements(["a"]);
    assert Step(s1, sweep).placers == LISTED_TWICE.placers;
    OneMore(s0, [] + [a], sweep, LISTED_TWICE);
    run := [] + [a] + [sweep];
  }

  /** In a run where a sweep falls between a create's two lock holds, one deployment is started
      on two nodes. */
  lemma {:induction false} DoubleStartIsReachable() returns (run: seq<Event>)
    ensures Runs(Start(TWO_NODES, 0), run)
    ensures var s := After(Start(TWO_NODES, 0), run);
      && s.table.history == [Started("a", "m", 0), Started("a", "n", 0)]
      && !Disciplined(s.table.history)
      && NodeOf(s.table.deploy, "a") == Some("n")
  {
    var listed := ListedTwiceIsReachable();
    var rest := BothChooseIt();
    RunsConcat(Start(TWO_NODES, 0), listed, rest);
    run := listed + rest;
  }

  lemma {:induction false} BothChooseIt() returns (run: seq<Event>)
    ensures Runs(LISTED_TWICE, run)
    ensures var s := After(LISTED_TWICE, run);
      && s.table.history == [Started("a", "m", 0), Started("a", "n", 0)]
      && !Disciplined(s.table.history)
      && NodeOf(s.table.deploy, "a") == Some("n")
  {
    var s := LISTED_TWICE;
    FreeNodeSuits(s, "a", "m");
    var first := ChooseRun(s, 1, "m");
    var s1 := After(s, first);
    FreeNodeSuits(s1, "a", "n");
    var second := ChooseRun(s1, RECONCILER, "n");
    RunsConcat(s, first, second);
    var rest := SameDeploymentStartsTwice(After(s1, second), 1, RECONCILER, "a", "m", "n");
    RunsConcat(s, first + second, rest);
    run := first + second + rest;
  }

  // ---- a clearing that finds another replica ----

  const LATER: Time := 61 * SECOND

  function FailedReplica(n: NodeId): Replica {
    Replica(n, StateFailed, 0, 0, "", 0, 0)
  }

  /** A deployment has failed on n, and n's heartbeat, a minute later, no longer names it: it is
      judged lost, and the clearing is pending. */
  const JUDGED_LOST := State(
    LATER, TWO_NODES,
    Table(map["a" := Deployment(SPEC, Some(FailedReplica("n")), map[])], [Started("a", "n", 0)]),
    map[], map[RECONCILER := Placer([], Idle), 1 := Placer([], Idle)], map[0 := Errand("n", [], ["a"])])

  /** Meanwhile the sweep has banned n, cleared the replica itself and put the deployment on its list. */
  const SWEPT := JUDGED_LOST.(
    table := Table(map["a" := Deployment(SPEC, None, map["n" := LATER + AVOID_AFTER_FAILURE])],
                   [Started("a", "n", 0), Banned("a", "n", LATER, LATER + AVOID_AFTER_FAILURE), Unplaced("a", "n", LATER)]),
    placers := map[RECONCILER := Placer(["a"], Idle), 1 := Placer([], Idle)])

  lemma {:induction false} FailedIsReachable() returns (run: seq<Event>)
    ensures Runs(Start(TWO_NODES, 0), run)
    ensures After(Start(TWO_NODES, 0), run) == JUDGED_LOST.(now := 0, errands := map[])
  {
    var s0 := Start(TWO_NODES, 0);
    var s1 := State(0, TWO_NODES, Table(map["a" := FREE], []), map[],
                    map[RECONCILER := Placer([], Idle), 1 := Placer(["a"], Idle)], map[]);
    OneMore(s0, [], Enlist(1, "a", SPEC), s1);
    run := [] + [Enlist(1, "a", SPEC)];
    FreeNodeSuits(s1, "a", "n");
    var choose := ChooseRun(s1, 1, "n");
    RunsConcat(s0, run, choose);
    run := run + choose;
    var fail := PlacedAndFailed(After(s1, choose));
    RunsConcat(s0, run, fail);
    run := run + fail;
  }

  lemma {:induction false} PlacedAndFailed(s: State) returns (run: seq<Event>)
    requires s == State(0, TWO_NODES, Table(map["a" := FREE], []), map[],
                        map[RECONCILER := Placer([], Idle), 1 := Placer(["a"], Chosen("n"))], map[])
    ensures Runs(s, run) && After(s, run) == JUDGED_LOST.(now := 0, errands := map[])
  {
    var land := LandRun(s, 1, "a", "n");
    var s2 := Landed(s, 1, "a", "n");
    assert ["a"][1..] == [];
    assert s2.placers == JUDGED_LOST.placers;
    assert s2.table == Table(map["a" := NewReplica(FREE, "n", 0)], [Started("a", "n", 0)]);
    var e := Event.Update(0, "n", "a", Deployments.Update(StateFailed, 0, "", 0));
    var s3 := Step(s2, e);
    assert NodeOf(s2.table.deploy, "a") == Some("n");
    assert s3.table.deploy == JUDGED_LOST.table.deploy;
    OneMore(s, land, e, s3);
    run := land + [e];
  }

  lemma {:induction false} JudgedLostAndSwept() returns (run: seq<Event>)
    ensures var s := JUDGED_LOST.(now := 0, errands := map[]); Runs(s, run) && After(s, run) == SWEPT
  {
    var s := JUDGED_LOST.(now := 0, errands := map[]);
    OneMore(s, [], Advance(LATER), JUDGED_LOST.(errands := map[]));
    var beat, sweep := Heartbeat(0, "n", [], ["a"]), Sweep(["a"], ["a"]);
    JudgementOfLost();
    OneMore(s, [] + [Advance(LATER)], beat, JUDGED_LOST);
    SweepOfLost();
    OneMore(s, [] + [Advance(LATER)] + [beat], sweep, SWEPT);
    run := [] + [Advance(LATER)] + [beat] + [sweep];
  }

  lemma JudgementOfLost()
    ensures var s := JUDGED_LOST.(errands := map[]);
      Enabled(s, Heartbeat(0, "n", [], ["a"])) && Step(s, Heartbeat(0, "n", [], ["a"])) == JUDGED_LOST
  {
    var s := JUDGED_LOST.(errands := map[]);
    assert NodeOf(s.table.deploy, "a") == Some("n");
    assert MissingOn(s.table.deploy, "n", [], LATER) == {"a"} == Elements(["a"]);
    assert Orphans([], WantedOn(s.table.deploy, "n")) == [];
  }

  lemma SweepOfLost()
    ensures Enabled(JUDGED_LOST, Sweep(["a"], ["a"])) && Step(JUDGED_LOST, Sweep(["a"], ["a"])) == SWEPT
  {
    var t := Swept(TWO_NODES, JUDGED_LOST.table, ["a"], LATER);
    assert Init(["a"]) == [] && Last(["a"]) == "a";
    assert t == SweptOne(TWO_NODES, JUDGED_LOST.table, "a", LATER);
    assert t.deploy == SWEPT.table.deploy && t.history == SWEPT.table.history;
    assert UnplacedIds(t.deploy) == {"a"} == Elements(["a"]);
    assert JUDGED_LOST.placers[RECONCILER := Placer(["a"], Idle)] == SWEPT.placers;
  }

  /** A clearing whose deployment has moved on takes away a replica nobody judged. */
  lemma {:induction false} StaleClearingHits(s: State, x: ErrandId, d: DeploymentId, m: NodeId)
    requires Enabled(s, ClearNext(x)) && s.errands[x].lost[0] == d && s.errands[x].node != m
    requires NodeOf(s.table.deploy, d) == Some(m) && PlacedOn(s.table.history, d) == Some(m)
    ensures var s' := Step(s, ClearNext(x));
      NodeOf(s'.table.deploy, d) == None && !Disciplined(s'.table.history)
  {
    Snoc(s.table.history, Unplaced(d, s.errands[x].node, s.now));
  }

  /** The deployment is placed on m, and the old heartbeat's clearing takes it away from there. */
  lemma {:induction false} PlacedAndCleared() returns (run: seq<Event>)
    ensures Runs(SWEPT, run)
    ensures var s := After(SWEPT, run);
      Started("a", "m", LATER) in s.table.history && NodeOf(s.table.deploy, "a") == None && !Disciplined(s.table.history)
  {
    FreeNodeSuits(SWEPT, "a", "m");
    var choose := ChooseRun(SWEPT, RECONCILER, "m");
    var s := After(SWEPT, choose);
    var land := LandRun(s, RECONCILER, "a", "m");
    RunsConcat(SWEPT, choose, land);
    var s2 := Landed(s, RECONCILER, "a", "m");
    PlacedOnSnoc(SWEPT.table.history, Started("a", "m", LATER));
    assert Last(s2.table.history) == Started("a", "m", LATER);
    StaleClearingHits(s2, 0, "a", "m");
    RunsSnoc(SWEPT, choose + land, ClearNext(0));
    run := choose + land + [ClearNext(0)];
  }

  lemma {:induction false} StaleClearingIsReachable() returns (run: seq<Event>)
    ensures Runs(Start(TWO_NODES, 0), run)
    ensures var s := After(Start(TWO_NODES, 0), run);
      Started("a", "m", LATER) in s.table.history && NodeOf(s.table.deploy, "a") == None && !Disciplined(s.table.history)
  {
    var fail := FailedIsReachable();
    var judge := JudgedLostAndSwept();
    RunsConcat(Start(TWO_NODES, 0), fail, judge);
    var clear := PlacedAndCleared();
    RunsConcat(Start(TWO_NODES, 0), fail + judge, clear);
    run := fail + judge + clear;
  }
}
