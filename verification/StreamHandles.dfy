/** Which stream a node's handle belongs to, over every run of the coordinator. */
module StreamHandles {
  import opened Base
  import opened Registries
  import opened Deployments
  import opened Coordinator

  predicate Registers(e: Event, n: NodeId) {
    e.Receive? && e.msg.RegisterMsg? && ResolvedId(e.msg.claimed, e.minted) == n
  }

  /** The stream that registered n most recently, unless a stream acknowledged as n
      has ended since. Defined on the run, without looking at the registry. */
  ghost function LatestStream(s0: State, run: seq<Event>, n: NodeId): Option<StreamId>
    requires Runs(s0, run)
    decreases |run|
  {
    if run == [] then None
    else
      var pre, e := After(s0, Init(run)), Last(run);
      if Registers(e, n) then Some(e.stream)
      else if e.Disconnect? && pre.streams[e.stream] == n then None
      else LatestStream(s0, Init(run), n)
  }

  /** Every handle points at a stream that is open and was acknowledged as that node. */
  ghost predicate HandlesOpen(s: State) {
    forall n | n in s.nodes && s.nodes[n].send.Some? ::
      s.nodes[n].send.value in s.streams && s.streams[s.nodes[n].send.value] == n
  }

  /** Whenever an open stream registers again it names the id it was acknowledged with. */
  ghost predicate Honest(s0: State, run: seq<Event>)
    requires Runs(s0, run)
    decreases |run|
  {
    run == [] || (Honest(s0, Init(run)) && HonestStep(After(s0, Init(run)), Last(run)))
  }

  predicate HonestStep(s: State, e: Event) {
    e.Receive? && e.msg.RegisterMsg? && e.stream in s.streams ==>
      ResolvedId(e.msg.claimed, e.minted) == s.streams[e.stream]
  }

  /** A re-register on an open stream keeps every handle sound exactly when it names the acknowledged id. */
  lemma ReRegisterKeepsHandlesIff(s: State, e: Event)
    requires Inv(s) && HandlesOpen(s) && Enabled(s, e)
    requires e.Receive? && e.msg.RegisterMsg? && e.stream in s.streams
    ensures HandlesOpen(Step(s, e)) <==> ResolvedId(e.msg.claimed, e.minted) == s.streams[e.stream]
  {
    var id := ResolvedId(e.msg.claimed, e.minted);
    var s' := Step(s, e);
    assert id in s'.nodes && s'.nodes[id].send == Some(e.stream);
    if id == s.streams[e.stream] {
      forall n | n in s'.nodes && s'.nodes[n].send.Some?
        ensures s'.nodes[n].send.value in s'.streams && s'.streams[s'.nodes[n].send.value] == n
      {
      }
    }
  }

  lemma HonestStepKeepsOpen(s: State, e: Event)
    requires Inv(s) && HandlesOpen(s) && Enabled(s, e) && HonestStep(s, e)
    ensures HandlesOpen(Step(s, e))
  {
    StepParts(s, e);
    var nodes, streams := NodesAfter(s, e), StreamsAfter(s, e);
    forall n | n in nodes && nodes[n].send.Some? ensures nodes[n].send.value in streams && streams[nodes[n].send.value] == n {
      HandleComesFrom(s, e, n);
    }
  }

  /** A node with a handle just registered on that stream, or already had the handle and
      no stream of the node ended. */
  lemma HandleComesFrom(s: State, e: Event, n: NodeId)
    requires HandlesOnline(s.nodes)
    requires n in NodesAfter(s, e) && NodesAfter(s, e)[n].send.Some?
    ensures NodesAfter(s, e)[n].status == Online
    ensures if Registers(e, n) then NodesAfter(s, e)[n].send == Some(e.stream)
            else
              && n in s.nodes && s.nodes[n].send == NodesAfter(s, e)[n].send
              && !(e.Disconnect? && e.stream in s.streams && s.streams[e.stream] == n)
  {
  }

  /** In every run a node's handle, when it has one, is the stream that registered it
      last; no stream of that node has ended since; and the node is ONLINE. */
  lemma {:induction false} HandleIsLatestStream(t0: Time, run: seq<Event>, n: NodeId)
    requires Runs(Start(t0), run)
    ensures var s := After(Start(t0), run);
      n in s.nodes && s.nodes[n].send.Some? ==>
        s.nodes[n].send == LatestStream(Start(t0), run, n) && s.nodes[n].status == Online
    decreases |run|
  {
    if run == [] {
    } else {
      HandleIsLatestStream(t0, Init(run), n);
      RunKeeps(t0, Init(run));
      var s := After(Start(t0), Init(run));
      StepParts(s, Last(run));
      if n in NodesAfter(s, Last(run)) && NodesAfter(s, Last(run))[n].send.Some? {
        HandleComesFrom(s, Last(run), n);
      }
    }
  }

  /** In every honest run that stream is moreover still open and acknowledged as this node. */
  lemma {:induction false} HandleIsOpen(t0: Time, run: seq<Event>)
    requires Runs(Start(t0), run) && Honest(Start(t0), run)
    ensures HandlesOpen(After(Start(t0), run))
    decreases |run|
  {
    if run == [] {
    } else {
      HandleIsOpen(t0, Init(run));
      RunKeeps(t0, Init(run));
      HonestStepKeepsOpen(After(Start(t0), Init(run)), Last(run));
    }
  }

  ghost predicate AlwaysOpen(s0: State, run: seq<Event>)
    requires Runs(s0, run)
    decreases |run|
  {
    HandlesOpen(After(s0, run)) && (run == [] || AlwaysOpen(s0, Init(run)))
  }

  /** And honesty is exactly what it takes: handles point at open streams of their node
      throughout a run if and only if every re-register names the acknowledged id. */
  lemma {:induction false} HandlesOpenIff(t0: Time, run: seq<Event>)
    requires Runs(Start(t0), run)
    ensures AlwaysOpen(Start(t0), run) <==> Honest(Start(t0), run)
    decreases |run|
  {
    if run == [] {
    } else {
      var s, e := After(Start(t0), Init(run)), Last(run);
      HandlesOpenIff(t0, Init(run));
      RunKeeps(t0, Init(run));
      if Honest(Start(t0), Init(run)) {
        HandleIsOpen(t0, Init(run));
        if HonestStep(s, e) {
          HonestStepKeepsOpen(s, e);
        } else {
          ReRegisterKeepsHandlesIff(s, e);
        }
      }
    }
  }

  // ---- the converses, and exactly when they hold ----

  /** Every ONLINE node can be reached. */
  ghost predicate OnlineHaveHandles(nodes: Nodes) {
    forall n | n in nodes && nodes[n].status == Online :: nodes[n].send.Some?
  }

  /** A heartbeat on the stream of a node the registry holds to be OFFLINE. */
  predicate Revives(s: State, e: Event) {
    && e.Receive? && e.msg.HeartbeatMsg? && e.stream in s.streams
    && s.streams[e.stream] in s.nodes && s.nodes[s.streams[e.stream]].status == Offline
  }

  lemma StepKeepsReachIff(s: State, e: Event)
    requires Inv(s) && Enabled(s, e) && OnlineHaveHandles(s.nodes)
    ensures OnlineHaveHandles(Step(s, e).nodes) <==> !Revives(s, e)
  {
    StepParts(s, e);
    var nodes := NodesAfter(s, e);
    if Revives(s, e) {
      var n := s.streams[e.stream];
      assert nodes[n].status == Online && nodes[n].send.None?;
    } else {
      forall n | n in nodes && nodes[n].status == Online ensures nodes[n].send.Some? {
        assert n in s.nodes && s.nodes[n].status == Online ==> s.nodes[n].send.Some?;
      }
    }
  }

  ghost predicate AlwaysReachable(s0: State, run: seq<Event>)
    requires Runs(s0, run)
    decreases |run|
  {
    OnlineHaveHandles(After(s0, run).nodes) && (run == [] || AlwaysReachable(s0, Init(run)))
  }

  ghost predicate NeverRevives(s0: State, run: seq<Event>)
    requires Runs(s0, run)
    decreases |run|
  {
    run == [] || (NeverRevives(s0, Init(run)) && !Revives(After(s0, Init(run)), Last(run)))
  }

  /** Throughout a run every ONLINE node has a handle if and only if no heartbeat ever arrives
      from a node that was OFFLINE, that is, reaped or torn down without registering again. */
  lemma {:induction false} OnlineHasHandleIff(t0: Time, run: seq<Event>)
    requires Runs(Start(t0), run)
    ensures AlwaysReachable(Start(t0), run) <==> NeverRevives(Start(t0), run)
    decreases |run|
  {
    if run == [] {
    } else {
      OnlineHasHandleIff(t0, Init(run));
      RunKeeps(t0, Init(run));
      if AlwaysReachable(Start(t0), Init(run)) {
        AlwaysReachableNow(Start(t0), Init(run));
        StepKeepsReachIff(After(Start(t0), Init(run)), Last(run));
      }
    }
  }

  lemma AlwaysReachableNow(s0: State, run: seq<Event>)
    requires Runs(s0, run) && AlwaysReachable(s0, run)
    ensures OnlineHaveHandles(After(s0, run).nodes)
  {
  }

  /** Every open stream belongs to a node that has a handle. */
  ghost predicate StreamsHaveHandles(nodes: Nodes, streams: map<StreamId, NodeId>) {
    forall x | x in streams :: Sendable(nodes, streams[x])
  }

  /** The end of one of two streams of a node, or a reap of a node whose stream is still open. */
  ghost predicate Strands(s: State, e: Event) {
    match e
    case Disconnect(stream) =>
      stream in s.streams && exists x | x in s.streams :: x != stream && s.streams[x] == s.streams[stream]
    case Reap =>
      exists x | x in s.streams :: IsOnline(s.nodes, s.streams[x]) &&
        s.now - s.nodes[s.streams[x]].lastSeen > MISSED_INTERVALS * HEARTBEAT_INTERVAL
    case _ => false
  }

  lemma StepKeepsStreamsIff(s: State, e: Event)
    requires Inv(s) && Enabled(s, e) && StreamsHaveHandles(s.nodes, s.streams)
    ensures StreamsHaveHandles(Step(s, e).nodes, Step(s, e).streams) <==> !Strands(s, e)
  {
    StepParts(s, e);
    var nodes, streams := NodesAfter(s, e), StreamsAfter(s, e);
    if Strands(s, e) {
      StrandedStream(s, e);
    } else {
      forall x | x in streams ensures Sendable(nodes, streams[x]) {
        if x in s.streams {
          assert Sendable(s.nodes, s.streams[x]);
        }
      }
    }
  }

  lemma StrandedStream(s: State, e: Event)
    requires Inv(s) && Strands(s, e)
    ensures exists x | x in StreamsAfter(s, e) :: !Sendable(NodesAfter(s, e), StreamsAfter(s, e)[x])
  {
    match e
    case Disconnect(stream) =>
      var x :| x in s.streams && x != stream && s.streams[x] == s.streams[stream];
      assert x in StreamsAfter(s, e) && !Sendable(NodesAfter(s, e), StreamsAfter(s, e)[x]);
    case Reap =>
      var x :| x in s.streams && IsOnline(s.nodes, s.streams[x]) &&
        s.now - s.nodes[s.streams[x]].lastSeen > MISSED_INTERVALS * HEARTBEAT_INTERVAL;
      assert x in StreamsAfter(s, e) && !Sendable(NodesAfter(s, e), StreamsAfter(s, e)[x]);
  }

  ghost predicate NeverStranded(s0: State, run: seq<Event>)
    requires Runs(s0, run)
    decreases |run|
  {
    && StreamsHaveHandles(After(s0, run).nodes, After(s0, run).streams)
    && (run == [] || NeverStranded(s0, Init(run)))
  }

  ghost predicate NeverStrands(s0: State, run: seq<Event>)
    requires Runs(s0, run)
    decreases |run|
  {
    run == [] || (NeverStrands(s0, Init(run)) && !Strands(After(s0, Init(run)), Last(run)))
  }

  /** Throughout a run every open stream's node has a handle if and only if no stream ends while
      another one of its node is open and no node is reaped while a stream of its is open. */
  lemma {:induction false} OpenStreamHasHandleIff(t0: Time, run: seq<Event>)
    requires Runs(Start(t0), run)
    ensures NeverStranded(Start(t0), run) <==> NeverStrands(Start(t0), run)
    decreases |run|
  {
    if run == [] {
    } else {
      OpenStreamHasHandleIff(t0, Init(run));
      RunKeeps(t0, Init(run));
      if NeverStranded(Start(t0), Init(run)) {
        NeverStrandedNow(Start(t0), Init(run));
        StepKeepsStreamsIff(After(Start(t0), Init(run)), Last(run));
      }
    }
  }

  lemma NeverStrandedNow(s0: State, run: seq<Event>)
    requires Runs(s0, run) && NeverStranded(s0, run)
    ensures StreamsHaveHandles(After(s0, run).nodes, After(s0, run).streams)
  {
  }

  // ---- each condition fails in some run ----

  const INFO := NodeInfo("h", 1, [])

  lemma OneMore(s0: State, run: seq<Event>, e: Event)
    requires Runs(s0, run) && Enabled(After(s0, run), e)
    ensures Runs(s0, run + [e]) && After(s0, run + [e]) == Step(After(s0, run), e)
    ensures After(s0, run + [e]).nodes == NodesAfter(After(s0, run), e)
    ensures After(s0, run + [e]).streams == StreamsAfter(After(s0, run), e)
    ensures Honest(s0, run) && HonestStep(After(s0, run), e) ==> Honest(s0, run + [e])
  {
    RunsSnoc(s0, run, e);
    Snoc(run, e);
    StepParts(After(s0, run), e);
  }

  /** A stream registers as a second node and ends: the second node keeps its handle. */
  lemma StrayRegisterIsReachable()
    ensures exists run ::
      && Runs(Start(0), run)
      && var s := After(Start(0), run);
         IsOnline(s.nodes, "m") && s.nodes["m"].send == Some(0) && s.streams == map[]
  {
    var s0 := Start(0);
    var a, b := Receive(0, RegisterMsg("n", INFO), "x", [], []), Receive(0, RegisterMsg("m", INFO), "x", [], []);
    OneMore(s0, [], a);
    OneMore(s0, [] + [a], b);
    OneMore(s0, [] + [a] + [b], Disconnect(0));
    var s := After(s0, [] + [a] + [b] + [Disconnect(0)]);
    assert s.nodes["m"].send == Some(0);
    assert s.streams == map[];
  }

  /** When an agent reconnects before its old stream is torn down, the old stream's
      teardown takes the new handle with it: an open, registered stream without a handle. */
  lemma LateTeardownDropsNewHandle()
    ensures exists run ::
      && Runs(Start(0), run) && Honest(Start(0), run)
      && var s := After(Start(0), run);
         1 in s.streams && s.streams[1] == "n" && "n" in s.nodes && s.nodes["n"].send.None? && s.nodes["n"].status == Offline
  {
    var s0 := Start(0);
    var a, b := Receive(0, RegisterMsg("n", INFO), "m", [], []), Receive(1, RegisterMsg("n", INFO), "m", [], []);
    OneMore(s0, [], a);
    OneMore(s0, [] + [a], b);
    OneMore(s0, [] + [a] + [b], Disconnect(0));
    var run := [] + [a] + [b] + [Disconnect(0)];
    assert Honest(s0, run);
    var s := After(s0, run);
    assert s.streams[1] == "n" && s.nodes["n"].send.None?;
  }

  /** A node that was reaped and then heartbeats on its old stream is ONLINE with no handle. */
  lemma ReapedNodeReturnsWithoutHandle()
    ensures exists run ::
      && Runs(Start(0), run)
      && var s := After(Start(0), run);
         IsOnline(s.nodes, "n") && s.nodes["n"].send.None? && 0 in s.streams
  {
    var s0 := Start(0);
    var a, b := Receive(0, RegisterMsg("n", INFO), "m", [], []), Advance(31 * SECOND);
    var d := Receive(0, HeartbeatMsg([], [], ""), "m", [], []);
    OneMore(s0, [], a);
    OneMore(s0, [] + [a], b);
    OneMore(s0, [] + [a] + [b], Reap);
    var s := After(s0, [] + [a] + [b] + [Reap]);
    assert s.nodes["n"].send.None? && s.streams[0] == "n";
    assert MissingOn(s.table.deploy, "n", [], s.now) == {};
    OneMore(s0, [] + [a] + [b] + [Reap], d);
    assert Runs(s0, [] + [a] + [b] + [Reap] + [d]);
  }
}
