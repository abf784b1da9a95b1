/** Which steps of the lock-granular coordinator keep its command history disciplined: exactly
    the clean ones, in every run. */
module Discipline {
  import opened Base
  import opened Registries
  import opened Deployments
  import opened Placement
  import opened Races

  // ---- the reconciler's sweep ----

  lemma SweptOneKeepsInv(s: State, id: DeploymentId)
    requires Inv(s)
    ensures Inv(s.(table := SweptOne(s.nodes, s.table, id, s.now)))
  {
    var t := SweptOne(s.nodes, s.table, id, s.now);
    if t == s.table {
      assert s.(table := t) == s;
    } else {
      var n := s.table.deploy[id].replica.value.node;
      assert ClearClean(s, id, n);
      if t == Cleared(s.table, id, s.now) {
        ClearedKeepsInv(s, s.(table := t), id, n);
      } else {
        FailureKeepsInv(s, id, n);
      }
    }
  }

  /** A failed replica is banned and cleared. */
  lemma FailureKeepsInv(s: State, id: DeploymentId, n: NodeId)
    requires Inv(s) && NodeOf(s.table.deploy, id) == Some(n) && ClearClean(s, id, n)
    ensures Inv(s.(table := Cleared(WithBan(s.table, id, s.now), id, s.now)))
  {
    var b := s.(table := WithBan(s.table, id, s.now));
    WithBanKeepsInv(s, id);
    ClearedKeepsInv(b, s.(table := Cleared(b.table, id, s.now)), id, n);
  }

  lemma {:induction false} SweptKeepsInv(s: State, order: seq<DeploymentId>)
    requires Inv(s)
    ensures Inv(s.(table := Swept(s.nodes, s.table, order, s.now)))
    decreases |order|
  {
    if order == [] {
      assert s.(table := s.table) == s;
    } else {
      SweptKeepsInv(s, Init(order));
      SweptOneKeepsInv(s.(table := Swept(s.nodes, s.table, Init(order), s.now)), Last(order));
    }
  }

  lemma SweepKeepsInv(s: State, e: Event)
    requires Inv(s) && Enabled(s, e) && e.Sweep? && RECONCILER in s.placers && s.placers[RECONCILER].phase.Idle?
    ensures Inv(Step(s, e))
  {
    SweptKeepsInv(s, e.order);
    PlacerMoves(s.(table := Swept(s.nodes, s.table, e.order, s.now)), Step(s, e), RECONCILER);
  }

  // ---- messages and deletes: the locked judgement, and the errands it leaves ----

  lemma RefreshKeepsInv(s: State, node: NodeId, id: DeploymentId, upd: Deployments.Update, ok: bool)
    requires Inv(s) && NodeOf(s.table.deploy, id) == Some(node)
    ensures Inv(s.(table := Updated(s.nodes, s.table, node, id, upd, s.now, ok)))
  {
    var s' := s.(table := Updated(s.nodes, s.table, node, id, upd, s.now, ok));
    SamePlaces(s, s');
    StillLogged(s, s');
    SameBans(s, s');
  }

  lemma UpdateKeepsInv(s: State, e: Event)
    requires Inv(s) && Enabled(s, e) && e.Update?
    ensures Inv(Step(s, e))
  {
    if NodeOf(s.table.deploy, e.id) == Some(e.node) {
      RefreshKeepsInv(s, e.node, e.id, e.upd, false);
    } else {
      UntouchedKeepsInv(s, Step(s, e));
    }
  }

  /** The table without a deployment, whose object is now dead. */
  function Without(s: State, id: DeploymentId): State
    requires id in s.table.deploy
  {
    s.(table := Forgotten(s.table, id, s.now), dead := s.dead[id := s.table.deploy[id]])
  }

  lemma DroppingKeepsPlaces(s: State, id: DeploymentId)
    requires Inv(s) && id in s.table.deploy
    ensures OnePlace(Without(s, id)) && Logged(Without(s, id)) && Dates(Without(s, id))
  {
    var s' := Without(s, id);
    PlacedOnSnoc(s.table.history, Dropped(id, s.now));
    forall d ensures NodeOf(s'.table.deploy, d) == if d == id then None else NodeOf(s.table.deploy, d) {}
    forall d, m ensures Unrecorded(s', d, m) <==> d != id && Unrecorded(s, d, m) {
      assert forall p :: InWindow(s', p, d, m) <==> InWindow(s, p, d, m);
    }
    assert forall p, d, m :: InWindow(s', p, d, m) <==> InWindow(s, p, d, m);
    forall d, m ensures PlacedOn(s'.table.history, d) == Some(m) <==> Holds(s', d, m) {
      assert PlacedOn(s.table.history, d) == Some(m) <==> Holds(s, d, m);
    }
  }

  lemma DroppingKeepsBans(s: State, id: DeploymentId)
    requires Bans(s) && id in s.table.deploy
    ensures Bans(Without(s, id))
  {
    var s' := Without(s, id);
    assert s'.table.deploy.Keys + s'.dead.Keys == s.table.deploy.Keys + s.dead.Keys;
    assert s'.table.history == s.table.history + [Dropped(id, s.now)];
  }

  lemma DeleteKeepsInv(s: State, e: Event)
    requires Inv(s) && Enabled(s, e) && e.Delete?
    ensures Inv(Step(s, e))
  {
    if e.id !in s.table.deploy {
      UntouchedKeepsInv(s, Step(s, e));
    } else {
      DroppingKeepsInv(s, e.id);
      DeleteIs(s, e);
      UntouchedKeepsInv(Without(s, e.id), Step(s, e));
    }
  }

  lemma DroppingKeepsInv(s: State, id: DeploymentId)
    requires Inv(s) && id in s.table.deploy
    ensures Inv(Without(s, id))
  {
    assert !IsDropped(s.table.history, id);
    HistoryGrows(s.table.history, Dropped(id, s.now));
    DroppingKeepsPlaces(s, id);
    DroppingKeepsBans(s, id);
  }

  lemma DeleteIs(s: State, e: Event)
    requires Enabled(s, e) && e.Delete? && e.id in s.table.deploy
    ensures Step(s, e) == Without(s, e.id).(errands := Step(s, e).errands)
  {
  }

  lemma StopIff(s: State, e: Event)
    requires Inv(s) && Enabled(s, e) && e.StopNext?
    ensures Clean(s, e) ==> Inv(Step(s, e))
    ensures !Clean(s, e) ==> !Disciplined(Step(s, e).table.history)
  {
    var errand := s.errands[e.x];
    if Clean(s, e) {
      StopKeepsInv(s, Step(s, e), errand.stops[0], errand.node, e.ok);
    } else {
      StopBreaks(s, errand.stops[0], errand.node, e.ok);
    }
  }

  lemma ClearIff(s: State, e: Event)
    requires Inv(s) && Enabled(s, e) && e.ClearNext?
    ensures Clean(s, e) ==> Inv(Step(s, e))
    ensures !Clean(s, e) ==> !Disciplined(Step(s, e).table.history)
  {
    var errand := s.errands[e.x];
    if Clean(s, e) {
      ClearedKeepsInv(s, Step(s, e), errand.lost[0], errand.node);
    } else {
      ClearBreaks(s, errand.lost[0], errand.node);
    }
  }

  // ---- placers ----

  /** The windows after one placer has moved on. */
  lemma WindowsAfter(s: State, s': State, p: PlacerId)
    requires p in s.placers && p in s'.placers
    requires forall q | q != p :: (q in s'.placers <==> q in s.placers) && (q in s.placers ==> s'.placers[q] == s.placers[q])
    ensures forall q, d, n | q != p :: InWindow(s', q, d, n) <==> InWindow(s, q, d, n)
  {
  }

  /** A placer that is not in its window before or after moves nothing. */
  lemma PlacerMoves(s: State, s': State, p: PlacerId)
    requires Inv(s) && p in s.placers && p in s'.placers && s' == s.(placers := s.placers[p := s'.placers[p]])
    requires !s.placers[p].phase.Sent? && !s'.placers[p].phase.Sent?
    ensures Inv(s')
  {
    WindowsAfter(s, s', p);
    assert forall q, d, m :: InWindow(s', q, d, m) <==> InWindow(s, q, d, m);
    forall d, m ensures Unrecorded(s', d, m) <==> Unrecorded(s, d, m) {
      assert forall q :: InWindow(s', q, d, m) <==> InWindow(s, q, d, m);
    }
    forall d, m ensures Holds(s', d, m) <==> Holds(s, d, m) {}
    StillLogged(s, s');
  }

  lemma SendIsLegal(s: State, id: DeploymentId, n: NodeId)
    requires Inv(s) && SendClean(s, id, n)
    ensures EntryOk(s.table.history, Started(id, n, s.now))
  {
    assert PlacedOn(s.table.history, id) == None by {
      forall m ensures PlacedOn(s.table.history, id) != Some(m) {
        assert !Holds(s, id, m);
      }
    }
    forall other: DeploymentId ensures PlacedOn(s.table.history, other) != Some(n) {
      assert !Holds(s, other, n);
    }
  }

  /** Conversely the history shows each of the four reasons not to send. */
  lemma SendIsIllegal(s: State, id: DeploymentId, n: NodeId)
    requires Inv(s) && id in Objects(s) && !SendClean(s, id, n)
    ensures !EntryOk(s.table.history, Started(id, n, s.now))
  {
    if id !in s.table.deploy {
      assert IsDropped(s.table.history, id);
    } else if exists m :: Holds(s, id, m) {
      var m :| Holds(s, id, m);
      assert PlacedOn(s.table.history, id) == Some(m);
    } else if exists other :: Holds(s, other, n) {
      var other :| Holds(s, other, n);
      assert PlacedOn(s.table.history, other) == Some(n);
    } else {
      assert BannedNow(s.table.deploy[id], n, s.now);
      assert BanEntry(id, n, s.table.deploy[id].avoid[n]) in s.table.history;
    }
  }

  /** A window opens for a deployment that was nowhere. */
  lemma WindowOpens(s: State, s': State, p: PlacerId, id: DeploymentId, n: NodeId)
    requires Inv(s) && Current(s, p) == Some(id) && s.placers[p].phase == Chosen(n) && id in s.table.deploy
    requires forall m :: !Holds(s, id, m)
    requires s' == InPhase(s, p, Sent(n)).(table := s.table.(history := s.table.history + [Started(id, n, s.now)]))
    ensures OnePlace(s') && Logged(s') && Dates(s')
  {
    PlacedOnSnoc(s.table.history, Started(id, n, s.now));
    WindowsAfter(s, s', p);
    assert InWindow(s', p, id, n);
    assert NodeOf(s.table.deploy, id).None? by {
      forall m ensures NodeOf(s.table.deploy, id) != Some(m) {
        assert !Holds(s, id, m);
      }
    }
    forall d, m ensures Unrecorded(s', d, m) <==> Unrecorded(s, d, m) || (d == id && m == n) {
      if q :| InWindow(s', q, d, m) {
        assert q == p || InWindow(s, q, d, m);
      }
      if q :| InWindow(s, q, d, m) {
        assert InWindow(s', q, d, m);
      }
    }
    forall q, m ensures !InWindow(s, q, id, m) {
      assert InWindow(s, q, id, m) ==> Holds(s, id, m);
    }
    forall d, m ensures PlacedOn(s'.table.history, d) == Some(m) <==> Holds(s', d, m) {
      assert PlacedOn(s.table.history, d) == Some(m) <==> Holds(s, d, m);
    }
  }

  lemma SendIff(s: State, e: Event)
    requires Inv(s) && Enabled(s, e) && e.Send? && e.ok
    ensures Clean(s, e) ==> Inv(Step(s, e))
    ensures !Clean(s, e) ==> !Disciplined(Step(s, e).table.history)
  {
    var id, n := s.placers[e.p].todo[0], s.placers[e.p].phase.node;
    var s', entry := Step(s, e), Started(id, n, s.now);
    if Clean(s, e) {
      SendIsLegal(s, id, n);
      HistoryGrows(s.table.history, entry);
      WindowOpens(s, s', e.p, id, n);
      SameBans(s, s');
    } else {
      SendIsIllegal(s, id, n);
      Snoc(s.table.history, entry);
    }
  }

  /** Afterwards p has no window, and everybody else's is as it was. */
  lemma WindowsAfterClosing(s: State, s': State, p: PlacerId, id: DeploymentId, n: NodeId)
    requires OnePlace(s) && InWindow(s, p, id, n) && s'.placers == Next(s, p).placers
    ensures id in s.table.deploy ==> forall q, m :: !InWindow(s', q, id, m)
    ensures forall q, d, m | d != id :: InWindow(s', q, d, m) <==> InWindow(s, q, d, m)
    ensures forall q, d, m :: InWindow(s', q, d, m) ==> InWindow(s, q, d, m)
  {
    WindowsAfter(s, s', p);
    forall q, m | id in s.table.deploy ensures !InWindow(s', q, id, m) {
      assert q != p ==> (InWindow(s', q, id, m) <==> InWindow(s, q, id, m));
      assert InWindow(s, q, id, m) ==> q == p;
    }
  }

  lemma WindowIsWhere(s: State, p: PlacerId, id: DeploymentId, n: NodeId, m: NodeId)
    requires OnePlace(s) && id in s.table.deploy && InWindow(s, p, id, n)
    ensures Holds(s, id, m) <==> m == n
  {
    assert Unrecorded(s, id, n);
    if q :| InWindow(s, q, id, m) {
      assert q == p;
    }
  }

  /** A window closes: what was unrecorded now shows, unless the deployment is gone. */
  lemma WindowCloses(s: State, s': State, p: PlacerId, id: DeploymentId, n: NodeId)
    requires Inv(s) && InWindow(s, p, id, n)
    requires s' == Next(s, p).(table := Recorded(s.table, id, n, s.now))
    ensures OnePlace(s') && forall d, m :: Holds(s', d, m) <==> Holds(s, d, m)
  {
    WindowsAfterClosing(s, s', p, id, n);
    forall d ensures NodeOf(s'.table.deploy, d) ==
                     if d == id && id in s.table.deploy then Some(n) else NodeOf(s.table.deploy, d) {}
    forall d, m | d != id ensures Unrecorded(s', d, m) <==> Unrecorded(s, d, m) {
      assert forall q :: InWindow(s', q, d, m) <==> InWindow(s, q, d, m);
    }
    forall m ensures Holds(s', id, m) <==> Holds(s, id, m) {
      if id in s.table.deploy {
        WindowIsWhere(s, p, id, n, m);
        assert forall q :: !InWindow(s', q, id, m);
      }
    }
  }

  lemma RecordKeepsInv(s: State, e: Event)
    requires Inv(s) && Enabled(s, e) && e.Record?
    ensures Inv(Step(s, e))
  {
    var id, n, s' := s.placers[e.p].todo[0], s.placers[e.p].phase.node, Step(s, e);
    assert InWindow(s, e.p, id, n);
    WindowCloses(s, s', e.p, id, n);
    WindowsAfterClosing(s, s', e.p, id, n);
    StillLogged(s, s');
    SameBans(s, s');
  }

  lemma EnlistKeepsBans(s: State, e: Event)
    requires Bans(s) && Enabled(s, e) && e.Enlist?
    ensures Bans(Step(s, e))
  {
    assert Step(s, e).table.deploy == s.table.deploy[e.id := Deployment(e.spec, None, map[])];
  }

  lemma EnlistKeepsInv(s: State, e: Event)
    requires Inv(s) && AllKnown(s) && Enabled(s, e) && e.Enlist?
    ensures Inv(Step(s, e))
  {
    var s' := Step(s, e);
    forall d ensures NodeOf(s'.table.deploy, d) == NodeOf(s.table.deploy, d) {}
    assert forall p, d, m :: InWindow(s', p, d, m) <==> InWindow(s, p, d, m);
    forall d, m ensures Unrecorded(s', d, m) <==> Unrecorded(s, d, m) {
      assert forall p :: InWindow(s', p, d, m) <==> InWindow(s, p, d, m);
      assert forall p :: !InWindow(s, p, e.id, m);
    }
    forall d, m ensures Holds(s', d, m) <==> Holds(s, d, m) {}
    StillLogged(s, s');
    EnlistKeepsBans(s, e);
  }

  // ---- every step ----

  /** Placers only hold deployments that exist or existed. */
  ghost predicate AllKnown(s: State) {
    forall p, i | p in s.placers && 0 <= i < |s.placers[p].todo| :: s.placers[p].todo[i] in Objects(s)
  }

  /** Placers are idle when they have nothing to place. */
  ghost predicate Orderly(s: State) {
    && RECONCILER in s.placers && AllKnown(s)
    && forall p | p in s.placers :: s.placers[p].todo == [] ==> s.placers[p].phase.Idle?
  }

  lemma {:induction false} SweptObjects(nodes: Nodes, t: Table, order: seq<DeploymentId>, now: Time)
    ensures Swept(nodes, t, order, now).deploy.Keys == t.deploy.Keys
    ensures t.history <= Swept(nodes, t, order, now).history
    decreases |order|
  {
    if order == [] {
    } else {
      SweptObjects(nodes, t, Init(order), now);
    }
  }

  lemma SweepStaysOrderly(s: State, e: Event)
    requires Orderly(s) && Enabled(s, e) && e.Sweep?
    ensures Orderly(Step(s, e)) && s.table.history <= Step(s, e).table.history
  {
    SweptObjects(s.nodes, s.table, e.order, s.now);
    forall i | 0 <= i < |e.unplaced| ensures e.unplaced[i] in Objects(Step(s, e)) {
      assert e.unplaced[i] in Elements(e.unplaced);
    }
  }

  lemma StaysOrderly(s: State, e: Event)
    requires Orderly(s) && Enabled(s, e)
    ensures Orderly(Step(s, e)) && s.table.history <= Step(s, e).table.history
  {
    if e.Sweep? {
      SweepStaysOrderly(s, e);
    } else if MovesPlacer(e) {
      PlacingStaysOrderly(s, e);
    } else {
      HandlingStaysOrderly(s, e);
    }
  }

  predicate MovesPlacer(e: Event) {
    e.Enlist? || e.Survey? || e.Brief? || e.Choose? || e.Send? || e.Record?
  }

  lemma PlacingStaysOrderly(s: State, e: Event)
    requires Orderly(s) && Enabled(s, e) && MovesPlacer(e)
    ensures Orderly(Step(s, e)) && s.table.history <= Step(s, e).table.history
  {
    if e.Enlist? {
      EnlistingStaysOrderly(s, e);
    } else {
      var s' := Step(s, e);
      PlacerStep(s, e);
      assert Objects(s').Keys == Objects(s).Keys;
      forall p, i | p in s'.placers && 0 <= i < |s'.placers[p].todo| ensures s'.placers[p].todo[i] in Objects(s') {
        if p == e.p && s'.placers[p].todo != s.placers[p].todo {
          assert s'.placers[p].todo[i] == s.placers[p].todo[i + 1];
        }
      }
    }
  }

  lemma EnlistingStaysOrderly(s: State, e: Event)
    requires Orderly(s) && Enabled(s, e) && e.Enlist?
    ensures Orderly(Step(s, e)) && s.table.history <= Step(s, e).table.history
  {
    assert Objects(Step(s, e)).Keys == Objects(s).Keys + {e.id};
  }

  /** A step of a placer moves it along its list, and nobody else. */
  lemma PlacerStep(s: State, e: Event)
    requires Enabled(s, e) && MovesPlacer(e) && !e.Enlist?
    ensures var s' := Step(s, e);
      && e.p in s.placers && s'.placers == s.placers[e.p := s'.placers[e.p]]
      && s'.dead == s.dead && s'.table.deploy.Keys == s.table.deploy.Keys && s.table.history <= s'.table.history
      && (s'.placers[e.p].todo == s.placers[e.p].todo || s'.placers[e.p] == Placer(s.placers[e.p].todo[1..], Idle))
  {
  }

  lemma HandlingStaysOrderly(s: State, e: Event)
    requires Orderly(s) && Enabled(s, e) && !MovesPlacer(e) && !e.Sweep?
    ensures Orderly(Step(s, e)) && s.table.history <= Step(s, e).table.history
  {
    HandlingLeaves(s, e);
    assert Objects(s).Keys <= Objects(Step(s, e)).Keys;
  }

  /** Messages and deletes move no placer, and take nothing out of sight. */
  lemma HandlingLeaves(s: State, e: Event)
    requires Enabled(s, e) && !MovesPlacer(e) && !e.Sweep?
    ensures Step(s, e).placers == s.placers && s.table.history <= Step(s, e).table.history
    ensures s.table.deploy.Keys + s.dead.Keys <= Step(s, e).table.deploy.Keys + Step(s, e).dead.Keys
    ensures Step(s, e).table.deploy.Keys <= s.table.deploy.Keys
    ensures forall d :: NodeOf(Step(s, e).table.deploy, d) in {None, NodeOf(s.table.deploy, d)}
  {
    if e.Delete? {
      DeletingLeaves(s, e);
    }
  }

  lemma DeletingLeaves(s: State, e: Event)
    requires Enabled(s, e) && e.Delete?
    ensures Step(s, e).placers == s.placers && s.table.history <= Step(s, e).table.history
    ensures s.table.deploy.Keys + s.dead.Keys <= Step(s, e).table.deploy.Keys + Step(s, e).dead.Keys
    ensures Step(s, e).table.deploy.Keys <= s.table.deploy.Keys
    ensures forall d :: NodeOf(Step(s, e).table.deploy, d) in {None, NodeOf(s.table.deploy, d)}
  {
  }

  /** Exactly the clean steps keep a disciplined history disciplined. */
  lemma StepIff(s: State, e: Event)
    requires Inv(s) && Orderly(s) && Enabled(s, e)
    ensures Clean(s, e) ==> Inv(Step(s, e))
    ensures !Clean(s, e) ==> !Disciplined(Step(s, e).table.history)
  {
    if MovesPlacer(e) {
      PlacerStepIff(s, e);
    } else if e.Sweep? {
      SweepKeepsInv(s, e);
    } else if e.StopNext? {
      StopIff(s, e);
    } else if e.ClearNext? {
      ClearIff(s, e);
    } else {
      JudgingKeepsInv(s, e);
    }
  }

  lemma JudgingKeepsInv(s: State, e: Event)
    requires Inv(s) && Enabled(s, e) && !MovesPlacer(e) && !e.Sweep? && !e.StopNext? && !e.ClearNext?
    ensures Inv(Step(s, e))
  {
    if e.Update? {
      UpdateKeepsInv(s, e);
    } else if e.Delete? {
      DeleteKeepsInv(s, e);
    } else {
      UntouchedKeepsInv(s, Step(s, e));
    }
  }

  lemma PlacerStepIff(s: State, e: Event)
    requires Inv(s) && Orderly(s) && Enabled(s, e) && MovesPlacer(e)
    ensures Clean(s, e) ==> Inv(Step(s, e))
    ensures !Clean(s, e) ==> !Disciplined(Step(s, e).table.history)
  {
    match e
    case Enlist(_, _, _) => EnlistKeepsInv(s, e);
    case Survey(p) => PlacerMoves(s, Step(s, e), p);
    case Brief(p) => PlacerMoves(s, Step(s, e), p);
    case Choose(p, _) => PlacerMoves(s, Step(s, e), p);
    case Send(p, ok) =>
      if ok {
        SendIff(s, e);
      } else {
        PlacerMoves(s, Step(s, e), p);
      }
    case Record(_) => RecordKeepsInv(s, e);
  }

  lemma {:induction false} DisciplinedPrefix(h: seq<Entry>, h': seq<Entry>)
    requires h <= h' && Disciplined(h')
    ensures Disciplined(h)
    decreases |h'|
  {
    if h == h' {
    } else {
      DisciplinedPrefix(h, Init(h'));
    }
  }

  lemma StartIsFine(nodes: Nodes, t0: Time)
    ensures Inv(Start(nodes, t0)) && Orderly(Start(nodes, t0))
  {
    var s := Start(nodes, t0);
    forall d, n ensures !Holds(s, d, n) {
      assert forall p :: !InWindow(s, p, d, n);
    }
  }

  /** The exact condition, over every run of lock holds and sends: the history is disciplined
      (Starts only for deployments that exist and are unplaced, to free nodes, after every ban;
      Stops never where the deployment is; clearings of what is there and past its grace) if
      and only if every step was clean. */
  lemma {:induction false} DisciplinedIffClean(nodes: Nodes, t0: Time, run: seq<Event>)
    requires Runs(Start(nodes, t0), run)
    ensures var s := After(Start(nodes, t0), run);
      && Orderly(s)
      && (Disciplined(s.table.history) <==> CleanRun(Start(nodes, t0), run))
      && (CleanRun(Start(nodes, t0), run) ==> Inv(s))
    decreases |run|
  {
    if run == [] {
      StartIsFine(nodes, t0);
    } else {
      DisciplinedIffClean(nodes, t0, Init(run));
      var s, e := After(Start(nodes, t0), Init(run)), Last(run);
      StaysOrderly(s, e);
      if CleanRun(Start(nodes, t0), Init(run)) {
        StepIff(s, e);
      } else if Disciplined(Step(s, e).table.history) {
        DisciplinedPrefix(s.table.history, Step(s, e).table.history);
      }
    }
  }

  // ---- where unclean steps come from ----

  /** The step sends a Start of d that n accepts. */
  predicate Starts(s: State, e: Event, d: DeploymentId, n: NodeId) {
    e.Send? && e.ok && Current(s, e.p) == Some(d) && s.placers[e.p].phase == Chosen(n)
  }

  lemma {:induction false} SweptPlacesNothing(nodes: Nodes, t: Table, order: seq<DeploymentId>, now: Time,
      d: DeploymentId)
    ensures NodeOf(Swept(nodes, t, order, now).deploy, d) in {None, NodeOf(t.deploy, d)}
    decreases |order|
  {
    if order == [] {
    } else {
      SweptPlacesNothing(nodes, t, Init(order), now, d);
    }
  }

  lemma ShownOnlyByRecording(s: State, e: Event, d: DeploymentId, n: NodeId)
    requires Enabled(s, e) && NodeOf(s.table.deploy, d) != Some(n) && NodeOf(Step(s, e).table.deploy, d) == Some(n)
    ensures Unrecorded(s, d, n)
  {
    if e.Sweep? {
      SweptPlacesNothing(s.nodes, s.table, e.order, s.now, d);
    } else if MovesPlacer(e) {
      if e.Record? {
        assert InWindow(s, e.p, s.placers[e.p].todo[0], s.placers[e.p].phase.node);
      }
    } else {
      HandlingLeaves(s, e);
    }
  }

  lemma WindowOnlyBySending(s: State, e: Event, p: PlacerId, d: DeploymentId, n: NodeId)
    requires Enabled(s, e) && !InWindow(s, p, d, n) && InWindow(Step(s, e), p, d, n)
    ensures Starts(s, e, d, n)
  {
    if !MovesPlacer(e) && !e.Sweep? {
      HandlingLeaves(s, e);
    }
  }

  /** A node comes to hold a deployment only by accepting a Start of it. */
  lemma HeldOnlyByStarting(s: State, e: Event, d: DeploymentId, n: NodeId)
    requires Orderly(s) && Enabled(s, e) && !Holds(s, d, n) && Holds(Step(s, e), d, n)
    ensures Starts(s, e, d, n)
  {
    var s' := Step(s, e);
    if NodeOf(s'.table.deploy, d) == Some(n) {
      ShownOnlyByRecording(s, e, d, n);
    }
    var p :| InWindow(s', p, d, n);
    if InWindow(s, p, d, n) {
      assert d in Objects(s) && d !in s.table.deploy;
      StillDead(s, e, d);
    } else {
      WindowOnlyBySending(s, e, p, d, n);
    }
  }

  /** Nothing brings a deleted deployment back. */
  lemma StillDead(s: State, e: Event, d: DeploymentId)
    requires Enabled(s, e) && d in Objects(s) && d !in s.table.deploy
    ensures d !in Step(s, e).table.deploy
  {
    if e.Sweep? {
      SweptObjects(s.nodes, s.table, e.order, s.now);
    } else if !MovesPlacer(e) {
      HandlingLeaves(s, e);
    }
  }

  ghost predicate StartedDuring(s: State, run: seq<Event>, d: DeploymentId, n: NodeId)
    requires Runs(s, run)
    decreases |run|
  {
    run != [] && (StartedDuring(s, Init(run), d, n) || Starts(After(s, Init(run)), Last(run), d, n))
  }

  /** Why a Stop can be stale: when one is pending for a deployment that its node did not hold at
      the time of the judgement, it is unclean only if a Start of it was accepted by that node
      since. Nothing else an interleaving does can spoil it. */
  lemma {:induction false} StaleOnlyByStarting(s: State, run: seq<Event>, d: DeploymentId, n: NodeId)
    requires Orderly(s) && Runs(s, run) && !Holds(s, d, n)
    ensures Orderly(After(s, run)) && (Holds(After(s, run), d, n) ==> StartedDuring(s, run, d, n))
    decreases |run|
  {
    if run == [] {
    } else {
      StaleOnlyByStarting(s, Init(run), d, n);
      StaysOrderly(After(s, Init(run)), Last(run));
      if Holds(After(s, run), d, n) && !Holds(After(s, Init(run)), d, n) {
        HeldOnlyByStarting(After(s, Init(run)), Last(run), d, n);
      }
    }
  }

  // ---- what runs through without interruption is clean ----

  ghost predicate NoWindows(s: State) {
    forall p | p in s.placers :: !s.placers[p].phase.Sent?
  }

  lemma HeldIsShown(s: State)
    requires NoWindows(s)
    ensures forall d, n :: Holds(s, d, n) <==> NodeOf(s.table.deploy, d) == Some(n)
  {
    forall d, n ensures !Unrecorded(s, d, n) {
      assert forall p :: !InWindow(s, p, d, n);
    }
  }

  /** What placer p has seen is still true. */
  ghost predicate UpToDate(s: State, p: PlacerId)
    requires p in s.placers && s.placers[p].todo != [] && s.placers[p].todo[0] in s.table.deploy
  {
    var d := s.placers[p].todo[0];
    match s.placers[p].phase
    case Idle => true
    case Surveyed(occupied) => occupied == HostsOfOthers(s.table.deploy, d)
    case Briefed(occupied, avoid) => occupied == HostsOfOthers(s.table.deploy, d) && avoid == s.table.deploy[d].avoid
    case Chosen(n) => n !in HostsOfOthers(s.table.deploy, d) && !BannedNow(s.table.deploy[d], n, s.now)
    case Sent(_) => false
  }

  /** A placement that nothing interrupts stays up to date from step to step, and its Start is clean. */
  lemma UninterruptedPlacementIsClean(s: State, p: PlacerId, e: Event)
    requires NoWindows(s) && s.table.deploy.Keys !! s.dead.Keys
    requires Busy(s, p) && s.placers[p].todo[0] in s.table.deploy && NodeOf(s.table.deploy, s.placers[p].todo[0]).None?
    requires UpToDate(s, p) && Enabled(s, e)
    requires e == Survey(p) || e == Brief(p) || (e.Choose? && e.p == p && e.pick.Some?) || e == Send(p, true)
    ensures Clean(s, e)
    ensures !e.Send? ==> NoWindows(Step(s, e)) && Step(s, e).placers[p].todo == s.placers[p].todo && UpToDate(Step(s, e), p)
  {
    HeldIsShown(s);
    var d := s.placers[p].todo[0];
    assert Objects(s)[d] == s.table.deploy[d];
    if e.Send? {
      forall other ensures NodeOf(s.table.deploy, other) != Some(s.placers[p].phase.node) {
        assert other != d && NodeOf(s.table.deploy, other).Some? ==>
          s.table.deploy[other].replica.value.node in HostsOfOthers(s.table.deploy, d);
      }
    }
  }

  /** The rest of an errand is what it should be: what it stops its node does not hold, and what
      it clears is there and past its grace. */
  ghost predicate Sound(s: State, errand: Errand) {
    && (forall i | 0 <= i < |errand.stops| :: !Holds(s, errand.stops[i], errand.node))
    && (forall i | 0 <= i < |errand.lost| :: ClearClean(s, errand.lost[i], errand.node))
  }

  lemma {:induction false} OrphansAre(active: seq<DeploymentId>, wanted: set<DeploymentId>)
    ensures forall id :: id in Orphans(active, wanted) <==> id in active && id !in wanted
    decreases |active|
  {
    if active == [] {
    } else {
      OrphansAre(Init(active), wanted);
      InitLast(active);
    }
  }

  /** A judgement passed while no window is open is sound. */
  lemma JudgedIsSound(s: State, e: Event)
    requires Inv(s) && NoWindows(s) && Enabled(s, e) && e.Heartbeat?
    ensures Sound(Step(s, e), Step(s, e).errands[e.x])
  {
    var s', errand := Step(s, e), Step(s, e).errands[e.x];
    HeldIsShown(s');
    OrphansAre(e.active, WantedOn(s.table.deploy, e.node));
    forall i | 0 <= i < |errand.stops| ensures !Holds(s', errand.stops[i], errand.node) {
      assert errand.stops[i] in Orphans(e.active, WantedOn(s.table.deploy, e.node));
    }
    forall i | 0 <= i < |errand.lost| ensures ClearClean(s', errand.lost[i], errand.node) {
      assert errand.lost[i] in Elements(e.lost);
    }
  }

  /** Carried out without interruption it stays sound, and every step of it is clean. */
  lemma UninterruptedErrandIsClean(s: State, e: Event)
    requires NoWindows(s) && Enabled(s, e) && (e.StopNext? || e.ClearNext?) && Sound(s, s.errands[e.x])
    ensures Clean(s, e) && NoWindows(Step(s, e)) && Sound(Step(s, e), Step(s, e).errands[e.x])
  {
    var s', errand, errand' := Step(s, e), s.errands[e.x], Step(s, e).errands[e.x];
    HeldIsShown(s);
    HeldIsShown(s');
    assert e.StopNext? ==> errand'.stops == errand.stops[1..] && errand'.lost == errand.lost;
    assert e.ClearNext? ==> errand'.lost == errand.lost[1..] && errand'.stops == [];
    SameStartTimes(s, e);
    forall i | 0 <= i < |errand'.lost| ensures ClearClean(s', errand'.lost[i], errand'.node) {
      assert errand'.lost[i] == errand.lost[if e.StopNext? then i else i + 1];
      assert ClearClean(s, errand'.lost[i], errand.node);
    }
  }

  lemma SameStartTimes(s: State, e: Event)
    requires Enabled(s, e) && (e.StopNext? || e.ClearNext?)
    ensures forall d :: StartTime(Step(s, e).table.history, d) == StartTime(s.table.history, d)
  {
    var errand := s.errands[e.x];
    if e.StopNext? {
      PlacedOnSnoc(s.table.history, StopTried(errand.stops[0], errand.node, s.now, e.ok));
    } else {
      PlacedOnSnoc(s.table.history, Unplaced(errand.lost[0], errand.node, s.now));
    }
  }

  // ---- one deployment per node ----

  lemma {:induction false} DisciplinedIsExclusive(h: seq<Entry>, a: DeploymentId, b: DeploymentId)
    requires Disciplined(h) && a != b && PlacedOn(h, a).Some?
    ensures PlacedOn(h, a) != PlacedOn(h, b)
    decreases |h|
  {
    if PlacedOn(Init(h), a).Some? {
      DisciplinedIsExclusive(Init(h), a, b);
    }
  }

  /** Clean runs keep one deployment per node, even counting Starts not yet recorded. */
  lemma CleanIsExclusive(nodes: Nodes, t0: Time, run: seq<Event>)
    requires Runs(Start(nodes, t0), run) && CleanRun(Start(nodes, t0), run)
    ensures var s := After(Start(nodes, t0), run);
      forall a, b, n | a != b && Holds(s, a, n) :: !Holds(s, b, n)
    ensures Exclusive(After(Start(nodes, t0), run).table.deploy)
  {
    DisciplinedIffClean(nodes, t0, run);
    var s := After(Start(nodes, t0), run);
    forall a, b, n | a != b && Holds(s, a, n) ensures !Holds(s, b, n) {
      assert PlacedOn(s.table.history, a) == Some(n);
      DisciplinedIsExclusive(s.table.history, a, b);
    }
    ShownIsHeld(s);
  }

  lemma ShownIsHeld(s: State)
    requires forall a, b, n | a != b && Holds(s, a, n) :: !Holds(s, b, n)
    ensures Exclusive(s.table.deploy)
  {
    forall a, b | a in s.table.deploy && b in s.table.deploy && a != b && NodeOf(s.table.deploy, a).Some?
      ensures NodeOf(s.table.deploy, a) != NodeOf(s.table.deploy, b)
    {
      var n := NodeOf(s.table.deploy, a).value;
      assert Holds(s, a, n);
      assert NodeOf(s.table.deploy, b) == Some(n) ==> Holds(s, b, n);
    }
  }
}
