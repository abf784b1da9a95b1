/** Placements that overlap: any number of placers, each with a list of deployments, taking their
    steps in any order. */
module Overlaps {
  import opened Base
  import opened Registries
  import opened Deployments
  import opened Placement
  import opened Races

  predicate Lists(s: State, p: PlacerId, d: DeploymentId) {
    p in s.placers && d in s.placers[p].todo
  }

  predicate Waiting(s: State, d: DeploymentId) {
    d in s.table.deploy && NodeOf(s.table.deploy, d).None?
  }

  /** The placers are about to set out, each with a list of unplaced deployments of its own. */
  ghost predicate Poised(s: State) {
    && Exclusive(s.table.deploy) && s.table.deploy.Keys !! s.dead.Keys
    && (forall p | p in s.placers :: s.placers[p].phase.Idle?)
    && (forall p, d | Lists(s, p, d) :: Waiting(s, d))
    && (forall p, q, d | Lists(s, p, d) && Lists(s, q, d) :: p == q)
  }

  ghost predicate Suits(s: State, d: DeploymentId, n: NodeId) {
    d in s.table.deploy && Eligible(s.nodes, s.table.deploy, d, n, s.now)
  }

  /** Some node suits deployments of two placers. */
  ghost predicate Contested(s: State) {
    exists p, q, d, e, n | p != q :: Lists(s, p, d) && Lists(s, q, e) && Suits(s, d, n) && Suits(s, e, n)
  }

  predicate IsPlacing(e: Event) {
    e.Survey? || e.Brief? || e.Choose? || e.Send? || e.Record?
  }

  ghost predicate OnlyPlacing(run: seq<Event>) {
    forall i | 0 <= i < |run| :: IsPlacing(run[i])
  }

  // ---- uncontested placements stay apart ----

  /** What no placement changes. */
  ghost predicate SameGround(s0: State, s: State) {
    && s.nodes == s0.nodes && s.now == s0.now && s.dead == s0.dead
    && s.placers.Keys == s0.placers.Keys && s.table.deploy.Keys == s0.table.deploy.Keys
    && (forall d | d in s.table.deploy ::
          s.table.deploy[d].spec == s0.table.deploy[d].spec && s.table.deploy[d].avoid == s0.table.deploy[d].avoid)
    && (forall p, d | Lists(s, p, d) :: Lists(s0, p, d))
  }

  /** Replicas that were there stand, and new ones are where a placer found its deployment suited. */
  ghost predicate Spread(s0: State, s: State) {
    && (forall d | NodeOf(s0.table.deploy, d).Some? :: NodeOf(s.table.deploy, d) == NodeOf(s0.table.deploy, d))
    && (forall d | NodeOf(s0.table.deploy, d).None? && NodeOf(s.table.deploy, d).Some? ::
          PlacedSince(s0, d, NodeOf(s.table.deploy, d).value))
  }

  ghost predicate PlacedSince(s0: State, d: DeploymentId, n: NodeId) {
    Suits(s0, d, n) && exists p :: Lists(s0, p, d)
  }

  /** Deployments placer p cannot miss: those of its own list, and those placed from the start. */
  ghost predicate InSight(s0: State, p: PlacerId, d: DeploymentId) {
    Lists(s0, p, d) || NodeOf(s0.table.deploy, d).Some?
  }

  /** No deployment in p's sight but its current one is on n. */
  ghost predicate FreeFor(s0: State, s: State, p: PlacerId, n: NodeId) {
    forall d | InSight(s0, p, d) && Current(s, p) != Some(d) :: NodeOf(s.table.deploy, d) != Some(n)
  }

  /** What p has seen so far is right about everything in its sight. */
  ghost predicate Aware(s0: State, s: State, p: PlacerId) {
    p in s.placers && Current(s, p).Some? && Current(s, p).value in s.table.deploy ==>
      match s.placers[p].phase
      case Idle => true
      case Surveyed(occupied) => forall n :: n in occupied || FreeFor(s0, s, p, n)
      case Briefed(occupied, avoid) =>
        && (forall n :: n in occupied || FreeFor(s0, s, p, n))
        && avoid == s.table.deploy[Current(s, p).value].avoid
      case Chosen(n) => Suits(s0, Current(s, p).value, n) && FreeFor(s0, s, p, n)
      case Sent(n) => Suits(s0, Current(s, p).value, n) && FreeFor(s0, s, p, n)
  }

  ghost predicate Apart(s0: State, s: State) {
    SameGround(s0, s) && Spread(s0, s) && (forall p :: Aware(s0, s, p)) && Exclusive(s.table.deploy)
  }

  lemma CurrentIsListed(s0: State, s: State, p: PlacerId)
    requires Poised(s0) && SameGround(s0, s) && Current(s, p).Some?
    ensures Lists(s0, p, Current(s, p).value) && Waiting(s0, Current(s, p).value) && Current(s, p).value in s.table.deploy
  {
    assert Lists(s, p, s.placers[p].todo[0]);
  }

  /** Only what p itself has seen changes. */
  lemma OthersStayAware(s0: State, s: State, s': State, p: PlacerId)
    requires Apart(s0, s) && p in s.placers && p in s'.placers
    requires s'.table.deploy == s.table.deploy && s' == s.(table := s'.table, placers := s.placers[p := s'.placers[p]])
    requires s.placers[p].todo != []
    requires s'.placers[p].todo == s.placers[p].todo || s'.placers[p].todo == s.placers[p].todo[1..]
    requires Aware(s0, s', p)
    ensures Apart(s0, s')
  {
    forall q ensures Aware(s0, s', q) {
      if q != p {
        assert Aware(s0, s, q) && Current(s', q) == Current(s, q);
        assert forall n :: FreeFor(s0, s', q, n) <==> FreeFor(s0, s, q, n);
      }
    }
    forall q, d | Lists(s', q, d) ensures Lists(s0, q, d) {
      assert Lists(s, q, d);
    }
  }

  lemma SurveyIsAware(s0: State, s: State, p: PlacerId)
    requires Poised(s0) && Apart(s0, s) && Enabled(s, Survey(p))
    ensures Aware(s0, Step(s, Survey(p)), p)
  {
    var s', d := Step(s, Survey(p)), s.placers[p].todo[0];
    var occupied := HostsOfOthers(s.table.deploy, d);
    forall n ensures n in occupied || FreeFor(s0, s', p, n) {
      if !FreeFor(s0, s', p, n) {
        var other :| InSight(s0, p, other) && Current(s', p) != Some(other) && NodeOf(s'.table.deploy, other) == Some(n);
        assert other != d && s.table.deploy[other].replica.value.node in occupied;
      }
    }
  }

  lemma ChoiceIsAware(s0: State, s: State, p: PlacerId, n: NodeId)
    requires Poised(s0) && Apart(s0, s) && Enabled(s, Choose(p, Some(n)))
    ensures Aware(s0, Step(s, Choose(p, Some(n))), p)
  {
    var s', d := Step(s, Choose(p, Some(n))), s.placers[p].todo[0];
    CurrentIsListed(s0, s, p);
    assert Aware(s0, s, p) && FreeFor(s0, s, p, n) && FreeFor(s0, s', p, n);
    assert Objects(s)[d] == s.table.deploy[d];
    forall other | other in s0.table.deploy && other != d ensures NodeOf(s0.table.deploy, other) != Some(n) {
      assert NodeOf(s0.table.deploy, other).Some? ==>
        InSight(s0, p, other) && NodeOf(s.table.deploy, other) == NodeOf(s0.table.deploy, other);
    }
  }

  lemma SameFreedom(s0: State, s: State, s': State, p: PlacerId)
    requires Current(s', p) == Current(s, p) && s'.table.deploy == s.table.deploy
    ensures forall n :: FreeFor(s0, s', p, n) <==> FreeFor(s0, s, p, n)
  {
  }

  lemma BriefIsAware(s0: State, s: State, p: PlacerId)
    requires Poised(s0) && Apart(s0, s) && Enabled(s, Brief(p))
    ensures Aware(s0, Step(s, Brief(p)), p)
  {
    CurrentIsListed(s0, s, p);
    assert Aware(s0, s, p);
    assert Objects(s)[s.placers[p].todo[0]] == s.table.deploy[s.placers[p].todo[0]];
    SameFreedom(s0, s, Step(s, Brief(p)), p);
  }

  lemma SenderIsAware(s0: State, s: State, p: PlacerId, ok: bool)
    requires Poised(s0) && Apart(s0, s) && Enabled(s, Send(p, ok))
    ensures Aware(s0, Step(s, Send(p, ok)), p)
  {
    CurrentIsListed(s0, s, p);
    assert Aware(s0, s, p);
    if ok {
      SameFreedom(s0, s, Step(s, Send(p, ok)), p);
    }
  }

  lemma LookerIsAware(s0: State, s: State, e: Event)
    requires Poised(s0) && Apart(s0, s) && Enabled(s, e) && IsPlacing(e) && !e.Record?
    ensures Aware(s0, Step(s, e), e.p)
  {
    if e.Survey? {
      SurveyIsAware(s0, s, e.p);
    } else if e.Brief? {
      BriefIsAware(s0, s, e.p);
    } else if e.Send? {
      SenderIsAware(s0, s, e.p, e.ok);
    } else if e.pick.Some? {
      ChoiceIsAware(s0, s, e.p, e.pick.value);
    }
  }

  lemma LookerMoves(s: State, e: Event)
    requires Enabled(s, e) && IsPlacing(e) && !e.Record?
    ensures var s', p := Step(s, e), e.p;
      && p in s.placers && p in s'.placers && s.placers[p].todo != []
      && s'.table.deploy == s.table.deploy && s' == s.(table := s'.table, placers := s.placers[p := s'.placers[p]])
      && (s'.placers[p].todo == s.placers[p].todo || s'.placers[p].todo == s.placers[p].todo[1..])
  {
  }

  lemma LookingStaysApart(s0: State, s: State, e: Event)
    requires Poised(s0) && Apart(s0, s) && Enabled(s, e) && IsPlacing(e) && !e.Record?
    ensures Apart(s0, Step(s, e))
  {
    LookerIsAware(s0, s, e);
    LookerMoves(s, e);
    OthersStayAware(s0, s, Step(s, e), e.p);
  }

  /** A record puts the deployment where nothing else is. */
  lemma RecordIsExclusive(s0: State, s: State, p: PlacerId, d: DeploymentId, n: NodeId)
    requires Poised(s0) && Apart(s0, s) && !Contested(s0)
    requires Current(s, p) == Some(d) && s.placers[p].phase == Sent(n) && Lists(s0, p, d) && d in s.table.deploy
    ensures forall other | other != d :: NodeOf(s.table.deploy, other) != Some(n)
  {
    assert Aware(s0, s, p);
    forall other | other != d ensures NodeOf(s.table.deploy, other) != Some(n) {
      assert InSight(s0, p, other) || NodeOf(s0.table.deploy, other).None?;
    }
  }

  lemma RecordSpreads(s0: State, s: State, s': State, p: PlacerId, d: DeploymentId, n: NodeId)
    requires Poised(s0) && Apart(s0, s) && Lists(s0, p, d) && Suits(s0, d, n)
    requires forall x :: NodeOf(s'.table.deploy, x) == if x == d then Some(n) else NodeOf(s.table.deploy, x)
    ensures Spread(s0, s')
  {
    assert Waiting(s0, d) && PlacedSince(s0, d, n);
  }

  lemma RecordedOthersAware(s0: State, s: State, s': State, p: PlacerId, q: PlacerId, d: DeploymentId, n: NodeId)
    requires Poised(s0) && Apart(s0, s) && p != q && Lists(s0, p, d)
    requires p in s'.placers && s'.placers == s.placers[p := s'.placers[p]]
    requires SameGround(s0, s')
    requires forall x :: NodeOf(s'.table.deploy, x) == if x == d then Some(n) else NodeOf(s.table.deploy, x)
    ensures Aware(s0, s', q)
  {
    assert Aware(s0, s, q) && Current(s', q) == Current(s, q);
    assert Waiting(s0, d) && !InSight(s0, q, d);
    assert forall m :: FreeFor(s0, s', q, m) <==> FreeFor(s0, s, q, m);
  }

  lemma RecordKeepsGround(s0: State, s: State, p: PlacerId)
    requires SameGround(s0, s) && Enabled(s, Record(p))
    ensures SameGround(s0, Step(s, Record(p)))
  {
    var s' := Step(s, Record(p));
    forall q, x | Lists(s', q, x) ensures Lists(s0, q, x) {
      assert Lists(s, q, x);
    }
  }

  lemma RecordFacts(s: State, p: PlacerId, d: DeploymentId, n: NodeId)
    requires Enabled(s, Record(p)) && s.placers[p].todo[0] == d && s.placers[p].phase.node == n && d in s.table.deploy
    ensures var s' := Step(s, Record(p));
      && s'.placers == s.placers[p := Placer(s.placers[p].todo[1..], Idle)] && s'.table.deploy.Keys == s.table.deploy.Keys
      && forall x :: NodeOf(s'.table.deploy, x) == if x == d then Some(n) else NodeOf(s.table.deploy, x)
  {
  }

  lemma RecordingStaysApart(s0: State, s: State, p: PlacerId)
    requires Poised(s0) && Apart(s0, s) && !Contested(s0) && Enabled(s, Record(p))
    ensures Apart(s0, Step(s, Record(p)))
  {
    var s', d, n := Step(s, Record(p)), s.placers[p].todo[0], s.placers[p].phase.node;
    CurrentIsListed(s0, s, p);
    assert Aware(s0, s, p);
    RecordIsExclusive(s0, s, p, d, n);
    RecordFacts(s, p, d, n);
    RecordSpreads(s0, s, s', p, d, n);
    RecordKeepsGround(s0, s, p);
    forall q ensures Aware(s0, s', q) {
      if q != p {
        RecordedOthersAware(s0, s, s', p, q, d, n);
      }
    }
    MovedIsExclusive(s.table.deploy, s'.table.deploy, d, n);
  }

  lemma MovedIsExclusive(deploy: Deploys, deploy': Deploys, d: DeploymentId, n: NodeId)
    requires Exclusive(deploy) && deploy'.Keys == deploy.Keys
    requires forall other | other != d :: NodeOf(deploy, other) != Some(n)
    requires forall x :: NodeOf(deploy', x) == if x == d then Some(n) else NodeOf(deploy, x)
    ensures Exclusive(deploy')
  {
  }

  lemma {:induction false} PlacingStaysApart(s0: State, run: seq<Event>)
    requires Poised(s0) && !Contested(s0) && Runs(s0, run) && OnlyPlacing(run)
    ensures Apart(s0, After(s0, run))
    decreases |run|
  {
    if run == [] {
    } else {
      PlacingStaysApart(s0, Init(run));
      assert IsPlacing(run[|run| - 1]);
      var s, e := After(s0, Init(run)), Last(run);
      if e.Record? {
        RecordingStaysApart(s0, s, e.p);
      } else {
        LookingStaysApart(s0, s, e);
      }
    }
  }

  // ---- a contest can be lost ----

  function WithPlacer(s: State, p: PlacerId, placer: Placer): State {
    s.(placers := s.placers[p := placer])
  }

  /** The three looks of `selectNode`, up to the choice. */
  lemma {:induction false} LookRun(s: State, p: PlacerId) returns (run: seq<Event>, seen: Phase)
    requires Busy(s, p) && s.placers[p].phase.Idle?
    ensures Runs(s, run) && OnlyPlacing(run)
    ensures var d := s.placers[p].todo[0];
      seen == Briefed(HostsOfOthers(s.table.deploy, d), Objects(s)[d].avoid)
    ensures After(s, run) == WithPlacer(s, p, Placer(s.placers[p].todo, seen))
  {
    var d := s.placers[p].todo[0];
    seen := Briefed(HostsOfOthers(s.table.deploy, d), Objects(s)[d].avoid);
    RunsSnoc(s, [], Survey(p));
    var s1 := Step(s, Survey(p));
    assert Objects(s1) == Objects(s) && Busy(s1, p);
    RunsSnoc(s, [] + [Survey(p)], Brief(p));
    run := [] + [Survey(p)] + [Brief(p)];
  }

  /** A deployment that a node suits can be sent there. */
  lemma {:induction false} ChooseRun(s: State, p: PlacerId, n: NodeId) returns (run: seq<Event>)
    requires s.table.deploy.Keys !! s.dead.Keys
    requires Current(s, p).Some? && s.placers[p].phase.Idle? && Suits(s, Current(s, p).value, n)
    ensures Runs(s, run) && OnlyPlacing(run) && After(s, run) == WithPlacer(s, p, Placer(s.placers[p].todo, Chosen(n)))
  {
    var d := s.placers[p].todo[0];
    assert Objects(s)[d] == s.table.deploy[d];
    var look, seen := LookRun(s, p);
    var s1 := After(s, look);
    assert Objects(s1) == Objects(s) && Busy(s1, p);
    assert n !in seen.occupied by {
      forall other | other in s.table.deploy && other != d ensures NodeOf(s.table.deploy, other) != Some(n) {}
    }
    RunsSnoc(s, look, Choose(p, Some(n)));
    run := look + [Choose(p, Some(n))];
  }

  lemma {:induction false} RefusedRun(s: State, p: PlacerId, n: NodeId) returns (run: seq<Event>)
    requires Enabled(s, Choose(p, Some(n)))
    ensures Runs(s, run) && OnlyPlacing(run) && After(s, run) == Next(s, p)
  {
    RunsSnoc(s, [], Choose(p, Some(n)));
    var s1 := Step(s, Choose(p, Some(n)));
    assert Objects(s1) == Objects(s) && Busy(s1, p);
    RunsSnoc(s, [] + [Choose(p, Some(n))], Send(p, false));
    run := [] + [Choose(p, Some(n))] + [Send(p, false)];
    assert Step(s1, Send(p, false)).placers == Next(s, p).placers;
  }

  lemma {:induction false} NoChoiceRun(s: State, p: PlacerId) returns (run: seq<Event>)
    requires Busy(s, p) && s.placers[p].phase.Briefed? && forall n :: !Enabled(s, Choose(p, Some(n)))
    ensures Runs(s, run) && OnlyPlacing(run) && After(s, run) == Next(s, p)
  {
    forall n ensures !Acceptable(s, Objects(s)[s.placers[p].todo[0]].spec, s.placers[p].phase, n) {
      assert !Enabled(s, Choose(p, Some(n)));
    }
    RunsSnoc(s, [], Choose(p, None));
    run := [] + [Choose(p, None)];
  }

  /** A placer can always be rid of the first entry of its list: no node is acceptable, or the
      send is refused. */
  lemma {:induction false} SkipRun(s: State, p: PlacerId) returns (run: seq<Event>)
    requires Busy(s, p) && s.placers[p].phase.Idle?
    ensures Runs(s, run) && OnlyPlacing(run) && After(s, run) == Next(s, p)
  {
    var look, seen := LookRun(s, p);
    var s1 := After(s, look);
    assert Objects(s1) == Objects(s);
    var rest;
    if n :| Enabled(s1, Choose(p, Some(n))) {
      rest := RefusedRun(s1, p, n);
    } else {
      rest := NoChoiceRun(s1, p);
    }
    NextOf(s, s1, p);
    RunsConcat(s, look, rest);
    run := look + rest;
  }

  lemma NextOf(s: State, s1: State, p: PlacerId)
    requires p in s.placers && s.placers[p].todo != [] && p in s1.placers
    requires s1 == WithPlacer(s, p, Placer(s.placers[p].todo, s1.placers[p].phase))
    ensures s1.placers[p].todo == s.placers[p].todo && Next(s1, p) == Next(s, p)
  {
  }

  lemma {:induction false} SkipTo(s: State, p: PlacerId, k: nat) returns (run: seq<Event>)
    requires p in s.placers && s.placers[p].phase.Idle? && k <= |s.placers[p].todo|
    requires forall i | 0 <= i < k :: s.placers[p].todo[i] in Objects(s)
    ensures Runs(s, run) && OnlyPlacing(run) && After(s, run) == WithPlacer(s, p, Placer(s.placers[p].todo[k..], Idle))
    decreases k
  {
    if k == 0 {
      run := [];
      assert s.placers[p].todo[0..] == s.placers[p].todo;
      assert WithPlacer(s, p, Placer(s.placers[p].todo[0..], Idle)) == s;
    } else {
      var before := SkipTo(s, p, k - 1);
      var s1 := After(s, before);
      assert Objects(s1) == Objects(s) && s1.placers[p].todo[0] == s.placers[p].todo[k - 1];
      var skip := SkipRun(s1, p);
      RunsConcat(s, before, skip);
      run := before + skip;
      assert s.placers[p].todo[k - 1..][1..] == s.placers[p].todo[k..];
    }
  }

  /** Sending moves only this placer, and recording writes only its deployment. */
  lemma SendAndRecordFacts(s: State, p: PlacerId, a: DeploymentId, n: NodeId)
    requires Current(s, p) == Some(a) && a in s.table.deploy
    ensures s.placers[p].phase == Chosen(n) ==>
      && Enabled(s, Send(p, true))
      && Step(s, Send(p, true)) == WithPlacer(s, p, Placer(s.placers[p].todo, Sent(n))).(
           table := s.table.(history := s.table.history + [Started(a, n, s.now)]))
    ensures s.placers[p].phase == Sent(n) ==>
      && Enabled(s, Record(p))
      && Step(s, Record(p)) == WithPlacer(s, p, Placer(s.placers[p].todo[1..], Idle)).(
           table := s.table.(deploy := s.table.deploy[a := NewReplica(s.table.deploy[a], n, s.now)]))
  {
  }

  lemma {:induction false} BothSend(s: State, p: PlacerId, q: PlacerId, a: DeploymentId, b: DeploymentId, n: NodeId)
    returns (run: seq<Event>)
    requires p != q && a in s.table.deploy && b in s.table.deploy
    requires Current(s, p) == Some(a) && s.placers[p].phase == Chosen(n)
    requires Current(s, q) == Some(b) && s.placers[q].phase == Chosen(n)
    ensures Runs(s, run) && OnlyPlacing(run)
    ensures var s' := After(s, run);
      && s'.table.deploy == s.table.deploy
      && Current(s', p) == Some(a) && s'.placers[p].phase == Sent(n)
      && Current(s', q) == Some(b) && s'.placers[q].phase == Sent(n)
  {
    SendAndRecordFacts(s, p, a, n);
    RunsSnoc(s, [], Send(p, true));
    SendAndRecordFacts(Step(s, Send(p, true)), q, b, n);
    RunsSnoc(s, [] + [Send(p, true)], Send(q, true));
    run := [] + [Send(p, true)] + [Send(q, true)];
  }

  lemma {:induction false} BothRecord(s: State, p: PlacerId, q: PlacerId, a: DeploymentId, b: DeploymentId, n: NodeId)
    returns (run: seq<Event>)
    requires p != q && a != b && a in s.table.deploy && b in s.table.deploy
    requires Current(s, p) == Some(a) && s.placers[p].phase == Sent(n)
    requires Current(s, q) == Some(b) && s.placers[q].phase == Sent(n)
    ensures Runs(s, run) && OnlyPlacing(run)
    ensures NodeOf(After(s, run).table.deploy, a) == Some(n) && NodeOf(After(s, run).table.deploy, b) == Some(n)
  {
    SendAndRecordFacts(s, p, a, n);
    RunsSnoc(s, [], Record(p));
    SendAndRecordFacts(Step(s, Record(p)), q, b, n);
    RunsSnoc(s, [] + [Record(p)], Record(q));
    run := [] + [Record(p)] + [Record(q)];
  }

  /** Two placers with the contested deployments at the head of their lists both choose the node
      before either records. */
  lemma {:induction false} HeadsCollide(s: State, p: PlacerId, q: PlacerId, n: NodeId) returns (run: seq<Event>)
    requires s.table.deploy.Keys !! s.dead.Keys && p != q
    requires Current(s, p).Some? && s.placers[p].phase.Idle? && Suits(s, Current(s, p).value, n)
    requires Current(s, q).Some? && s.placers[q].phase.Idle? && Suits(s, Current(s, q).value, n)
    requires Current(s, p) != Current(s, q)
    ensures Runs(s, run) && OnlyPlacing(run) && !Exclusive(After(s, run).table.deploy)
  {
    var a, b := s.placers[p].todo[0], s.placers[q].todo[0];
    var first := ChooseRun(s, p, n);
    var s1 := After(s, first);
    var second := ChooseRun(s1, q, n);
    RunsConcat(s, first, second);
    var rest := BothSendAndRecord(After(s1, second), p, q, a, b, n);
    RunsConcat(s, first + second, rest);
    run := first + second + rest;
    TwoOnOne(After(s, run).table.deploy, a, b, n);
  }

  lemma {:induction false} BothSendAndRecord(s: State, p: PlacerId, q: PlacerId, a: DeploymentId, b: DeploymentId,
      n: NodeId)
    returns (run: seq<Event>)
    requires p != q && a != b && a in s.table.deploy && b in s.table.deploy
    requires Current(s, p) == Some(a) && s.placers[p].phase == Chosen(n)
    requires Current(s, q) == Some(b) && s.placers[q].phase == Chosen(n)
    ensures Runs(s, run) && OnlyPlacing(run)
    ensures NodeOf(After(s, run).table.deploy, a) == Some(n) && NodeOf(After(s, run).table.deploy, b) == Some(n)
  {
    var sends := BothSend(s, p, q, a, b, n);
    var records := BothRecord(After(s, sends), p, q, a, b, n);
    RunsConcat(s, sends, records);
    run := sends + records;
  }

  lemma TwoOnOne(deploy: Deploys, a: DeploymentId, b: DeploymentId, n: NodeId)
    requires a != b && NodeOf(deploy, a) == Some(n) && NodeOf(deploy, b) == Some(n)
    ensures !Exclusive(deploy)
  {
  }

  /** A contest can be lost wherever in their lists the two deployments are. */
  lemma {:induction false} ContestIsLost(s: State, p: PlacerId, q: PlacerId, d: DeploymentId, e: DeploymentId,
      n: NodeId)
    returns (run: seq<Event>)
    requires Poised(s) && p != q && Lists(s, p, d) && Lists(s, q, e) && Suits(s, d, n) && Suits(s, e, n)
    ensures Runs(s, run) && OnlyPlacing(run) && !Exclusive(After(s, run).table.deploy)
  {
    var i :| 0 <= i < |s.placers[p].todo| && s.placers[p].todo[i] == d;
    var j :| 0 <= j < |s.placers[q].todo| && s.placers[q].todo[j] == e;
    ListedAreObjects(s, p);
    ListedAreObjects(s, q);
    var skips := SkipBoth(s, p, i, q, j);
    var s2 := After(s, skips);
    assert d != e;
    assert Current(s2, p) == Some(d) && Current(s2, q) == Some(e);
    var rest := HeadsCollide(s2, p, q, n);
    RunsConcat(s, skips, rest);
    run := skips + rest;
  }

  lemma {:induction false} SkipBoth(s: State, p: PlacerId, i: nat, q: PlacerId, j: nat) returns (run: seq<Event>)
    requires p != q && p in s.placers && s.placers[p].phase.Idle? && i <= |s.placers[p].todo|
    requires q in s.placers && s.placers[q].phase.Idle? && j <= |s.placers[q].todo|
    requires forall k | 0 <= k < i :: s.placers[p].todo[k] in Objects(s)
    requires forall k | 0 <= k < j :: s.placers[q].todo[k] in Objects(s)
    ensures Runs(s, run) && OnlyPlacing(run)
    ensures After(s, run) ==
      WithPlacer(WithPlacer(s, p, Placer(s.placers[p].todo[i..], Idle)), q, Placer(s.placers[q].todo[j..], Idle))
  {
    var first := SkipTo(s, p, i);
    var s1 := After(s, first);
    assert Objects(s1) == Objects(s);
    var second := SkipTo(s1, q, j);
    RunsConcat(s, first, second);
    run := first + second;
  }

  lemma ListedAreObjects(s: State, p: PlacerId)
    requires Poised(s) && p in s.placers
    ensures forall i | 0 <= i < |s.placers[p].todo| :: s.placers[p].todo[i] in Objects(s)
  {
    forall i | 0 <= i < |s.placers[p].todo| ensures s.placers[p].todo[i] in Objects(s) {
      assert Lists(s, p, s.placers[p].todo[i]);
    }
  }

  /** However any number of placers with lists of any length interleave, the table stays exclusive
      if and only if no node suits deployments of two of them when they set out. */
  lemma OverlapsAreExclusiveIff(s: State)
    requires Poised(s)
    ensures (forall run | Runs(s, run) && OnlyPlacing(run) :: Exclusive(After(s, run).table.deploy)) <==> !Contested(s)
  {
    if Contested(s) {
      var p, q, d, e, n :| p != q && Lists(s, p, d) && Lists(s, q, e) && Suits(s, d, n) && Suits(s, e, n);
      var run := ContestIsLost(s, p, q, d, e, n);
    } else {
      forall run | Runs(s, run) && OnlyPlacing(run) ensures Exclusive(After(s, run).table.deploy) {
        PlacingStaysApart(s, run);
      }
    }
  }
}
