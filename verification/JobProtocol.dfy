/** One agent's jobs against the coordinator's table: a lossy update queue and a stream,
    both FIFO, heartbeats sampled apart from being sent, a verdict per job, and older streams
    that are gone for the agent while the coordinator is still reading them. */
module JobProtocol {
  import opened Base
  import opened Registries
  import opened Schedulers

  /** A heartbeat carries the sampled active set. `gone` is not on the wire: it remembers
      which jobs had already finished and been removed when the sample was taken. */
  datatype Message = JobMsg(id: JobId, upd: JobUpdate) | Beat(active: set<JobId>, gone: set<JobId>)

  /** `down` holds RunJobs on their way to the agent, `up` everything on its way back,
      oldest first, and `past` what is still unread of earlier streams. `verdicts` is the
      terminal update the agent produced for each finished job, and `lost` the jobs of which
      some update was dropped or left on an earlier stream. */
  datatype State = State(
    node: NodeId,
    now: Time,
    jobs: Jobs,
    down: seq<JobId>,
    active: set<JobId>,
    verdicts: map<JobId, JobUpdate>,
    sample: Option<Message>,
    up: seq<Message>,
    past: seq<seq<Message>>,
    lost: set<JobId>,
    lastBeat: Time)

  datatype Event =
    | Tick(to: Time)
    | Dispatch(id: JobId)
    | Begin
    | Refuse(error: string, kept: bool)
    | Progress(id: JobId, upd: JobUpdate, kept: bool)
    | Conclude(id: JobId, upd: JobUpdate, kept: bool)
    | Remove(id: JobId)
    | TakeSample
    | PushSample
    | Process
    | LoseSession(sent: nat)
    | ProcessOld(k: nat)
    | DropOld(k: nat)

  function Start(node: NodeId, now: Time): State {
    State(node, now, map[], [], {}, map[], None, [], [], {}, now)
  }

  /** `Begin` and `Refuse` are what an agent with and without a runtime does with the next
      RunJob; a runner reports progress and then exactly one terminal update. When a session is
      lost, the first `sent` messages are on the wire and may still be read, or not. */
  predicate Enabled(s: State, e: Event) {
    match e
    case Tick(to) => s.now <= to
    case Dispatch(id) => id != "" && id !in s.jobs
    case Begin => s.down != []
    case Refuse(_, _) => s.down != []
    case Progress(id, upd, _) => id in s.active && id !in s.verdicts && !IsTerminal(upd.state)
    case Conclude(id, upd, _) => id in s.active && id !in s.verdicts && IsTerminal(upd.state)
    case Remove(id) => id in s.active && id in s.verdicts
    case TakeSample => s.sample.None?
    case PushSample => s.sample.Some?
    case Process => s.up != []
    case LoseSession(sent) => sent <= |s.up|
    case ProcessOld(k) => k < |s.past| && s.past[k] != []
    case DropOld(k) => k < |s.past|
  }

  /** Best-effort delivery: a full or missing queue drops the update. */
  function Emitted(s: State, id: JobId, upd: JobUpdate, kept: bool): State {
    if kept then s.(up := s.up + [JobMsg(id, upd)]) else s.(lost := s.lost + {id})
  }

  /** The coordinator reads one message. */
  function Heard(s: State, m: Message): State {
    match m
    case JobMsg(id, upd) => s.(jobs := JobUpdated(s.jobs, s.node, id, upd, s.now))
    case Beat(active, _) => s.(jobs := JobsReconciled(s.jobs, s.node, active, s.now), lastBeat := s.now)
  }

  function Updates(up: seq<Message>): set<JobId> {
    set m | m in up && m.JobMsg? :: m.id
  }

  function Step(s: State, e: Event): State
    requires Enabled(s, e)
  {
    match e
    case Tick(to) => s.(now := to)
    case Dispatch(id) => s.(jobs := Dispatched(s.jobs, id, s.node, s.now), down := s.down + [id])
    case Begin => s.(down := s.down[1..], active := s.active + {s.down[0]})
    case Refuse(error, kept) =>
      var upd := JobUpdate(JobFailed, 0, error);
      Emitted(s.(down := s.down[1..], verdicts := s.verdicts[s.down[0] := upd]), s.down[0], upd, kept)
    case Progress(id, upd, kept) => Emitted(s, id, upd, kept)
    case Conclude(id, upd, kept) => Emitted(s.(verdicts := s.verdicts[id := upd]), id, upd, kept)
    case Remove(id) => s.(active := s.active - {id})
    case TakeSample => s.(sample := Some(Beat(s.active, s.verdicts.Keys - s.active)))
    case PushSample => s.(sample := None, up := s.up + [s.sample.value])
    case Process => Heard(s, s.up[0]).(up := s.up[1..])
    case LoseSession(sent) =>
      s.(up := [], down := [], sample := None, past := s.past + [s.up[..sent]], lost := s.lost + Updates(s.up))
    case ProcessOld(k) => Heard(s, s.past[k][0]).(past := s.past[k := s.past[k][1..]])
    case DropOld(k) => s.(past := s.past[k := []])
  }

  ghost predicate Runs(s: State, run: seq<Event>)
    decreases |run|, 0
  {
    run == [] || (Runs(s, Init(run)) && Enabled(After(s, Init(run)), Last(run)))
  }

  ghost function After(s: State, run: seq<Event>): State
    requires Runs(s, run)
    decreases |run|, 1
  {
    if run == [] then s else Step(After(s, Init(run)), Last(run))
  }

  // ---- the invariant ----

  /** The newest update about a job still on its way up. */
  function Newest(up: seq<Message>, id: JobId): Option<JobUpdate>
    decreases |up|
  {
    if up == [] then None
    else if Last(up).JobMsg? && Last(up).id == id then Some(Last(up).upd)
    else Newest(Init(up), id)
  }

  predicate Records(jobs: Jobs, id: JobId, v: JobUpdate) {
    id in jobs && jobs[id].state == v.state && jobs[id].error == v.error && jobs[id].exitCode == v.exitCode
  }

  /** The verdict of a finished job is in the table, or is the newest thing on its way there. */
  ghost predicate Settling(s: State, id: JobId)
    requires id in s.verdicts
  {
    || Newest(s.up, id) == Some(s.verdicts[id])
    || (Newest(s.up, id) == None && Records(s.jobs, id, s.verdicts[id]))
  }

  /** Behind a heartbeat there is never an update about a job that heartbeat knew to be finished. */
  ghost predicate NoOvertaking(up: seq<Message>) {
    forall p, q | 0 <= p < q < |up| && up[p].Beat? && up[q].JobMsg? :: up[q].id !in up[p].gone
  }

  ghost predicate Inv(s: State) {
    && (forall id | id in s.down :: id in s.jobs && id !in s.active && id !in s.verdicts)
    && Distinct(s.down)
    && (forall id | id in s.active || id in s.verdicts :: id in s.jobs)
    && (forall m | m in s.up && m.JobMsg? :: m.id in s.active || m.id in s.verdicts)
    && "" !in s.jobs
    && (forall id | id in s.verdicts :: IsTerminal(s.verdicts[id].state))
    && (forall id | id in s.verdicts && id !in s.lost :: Settling(s, id))
    && (forall m | m in s.up && m.Beat? :: m.gone <= s.verdicts.Keys)
    && (s.sample.Some? ==> s.sample.value.Beat? && s.sample.value.gone <= s.verdicts.Keys)
    && NoOvertaking(s.up)
    && (forall k | 0 <= k < |s.past| :: forall m | m in s.past[k] && m.JobMsg? :: m.id in s.lost && m.id in s.jobs)
    && TableInv(s)
  }

  ghost predicate TableInv(s: State) {
    && s.lastBeat <= s.now
    && (forall id | id in s.jobs :: s.jobs[id].node == s.node && s.jobs[id].lastUpdate <= s.now)
  }

  lemma NewestSnoc(up: seq<Message>, m: Message, id: JobId)
    ensures Newest(up + [m], id) == if m.JobMsg? && m.id == id then Some(m.upd) else Newest(up, id)
  {
    Snoc(up, m);
  }

  /** Taking the oldest message away leaves the newest, unless it was the only one. */
  lemma {:induction false} NewestTail(up: seq<Message>, id: JobId)
    requires up != []
    ensures up[0].JobMsg? && up[0].id == id && Newest(up[1..], id).None? ==> Newest(up, id) == Some(up[0].upd)
    ensures !(up[0].JobMsg? && up[0].id == id) || Newest(up[1..], id).Some? ==> Newest(up, id) == Newest(up[1..], id)
    decreases |up|
  {
    if |up| > 1 {
      assert Init(up)[1..] == Init(up[1..]) && Last(up[1..]) == Last(up) && Init(up)[0] == up[0];
      NewestTail(Init(up), id);
    } else {
      assert Init(up) == [] && up[1..] == [];
    }
  }

  lemma {:induction false} NewestNone(up: seq<Message>, id: JobId)
    ensures Newest(up, id).None? <==> id !in Updates(up)
    decreases |up|
  {
    if up == [] {
    } else {
      InitLast(up);
      NewestNone(Init(up), id);
      forall x ensures x in Updates(up) <==> x in Updates(Init(up)) || (Last(up).JobMsg? && x == Last(up).id) {
        if x in Updates(up) {
          var m :| m in up && m.JobMsg? && m.id == x;
          assert m in Init(up) || m == Last(up);
        }
        if Last(up).JobMsg? && x == Last(up).id {
          assert Last(up) in up;
        }
      }
    }
  }

  lemma AgentReportKeeps(s: State, e: Event)
    requires Inv(s) && Enabled(s, e) && (e.Progress? || e.Conclude?)
    ensures Inv(Step(s, e))
  {
    var s' := Step(s, e);
    UpGrows(s.up, JobMsg(e.id, e.upd));
    forall id | id in s'.verdicts && id !in s'.lost ensures Settling(s', id) {
      NewestSnoc(s.up, JobMsg(e.id, e.upd), id);
    }
  }

  /** A new message at the end keeps the order when no heartbeat before it knew its job to be finished. */
  lemma UpGrows(up: seq<Message>, m: Message)
    requires NoOvertaking(up) && forall b | b in up && b.Beat? && m.JobMsg? :: m.id !in b.gone
    ensures NoOvertaking(up + [m])
    ensures forall x :: x in up + [m] <==> x in up || x == m
  {
  }

  lemma RefuseKeeps(s: State, e: Event)
    requires Inv(s) && Enabled(s, e) && e.Refuse?
    ensures Inv(Step(s, e))
  {
    var s' := Step(s, e);
    assert s.down[0] in s.down;
    forall id | id in s'.verdicts && id !in s'.lost ensures Settling(s', id) {
      NewestSnoc(s.up, JobMsg(s.down[0], JobUpdate(JobFailed, 0, e.error)), id);
    }
    DownTail(s);
  }

  lemma DownTail(s: State)
    requires Inv(s) && s.down != []
    ensures Distinct(s.down[1..]) && s.down[0] !in s.down[1..] && s.down[0] in s.down
    ensures forall id | id in s.down[1..] :: id in s.down
  {
  }

  lemma HeartbeatKeeps(s: State, e: Event)
    requires Inv(s) && Enabled(s, e) && (e.TakeSample? || e.PushSample? || e.Remove? || e.Begin? || e.Tick?)
    ensures Inv(Step(s, e))
  {
    var s' := Step(s, e);
    if e.Begin? {
      DownTail(s);
    }
    forall id | id in s'.verdicts && id !in s'.lost ensures Settling(s', id) {
      if e.PushSample? {
        NewestSnoc(s.up, s.sample.value, id);
      }
    }
  }

  lemma DispatchKeeps(s: State, e: Event)
    requires Inv(s) && Enabled(s, e) && e.Dispatch?
    ensures Inv(Step(s, e))
  {
    var s' := Step(s, e);
    DistinctSnoc(s.down, e.id);
    forall id | id in s'.verdicts && id !in s'.lost ensures Settling(s', id) {
      assert Settling(s, id);
    }
  }

  /** Reading a message about one job, or a heartbeat, touches no other job that is settled. */
  lemma HeardOther(s: State, m: Message, id: JobId)
    requires id in s.jobs && IsTerminal(s.jobs[id].state) && (m.JobMsg? ==> m.id != id)
    ensures id in Heard(s, m).jobs && Heard(s, m).jobs[id] == s.jobs[id]
  {
  }

  lemma HeardKeepsTable(s: State, m: Message)
    requires TableInv(s) && (m.JobMsg? ==> m.id in s.jobs)
    ensures TableInv(Heard(s, m)) && Heard(s, m).jobs.Keys == s.jobs.Keys
  {
  }

  lemma ProcessKeeps(s: State, e: Event)
    requires Inv(s) && Enabled(s, e) && e.Process?
    ensures Inv(Step(s, e))
  {
    var s' := Step(s, e);
    assert s.up[0] in s.up;
    assert forall m | m in s.up[1..] :: m in s.up;
    HeardKeepsTable(s, s.up[0]);
    forall id | id in s'.verdicts && id !in s'.lost ensures Settling(s', id) {
      assert Settling(s, id);
      NewestTail(s.up, id);
    }
  }

  lemma OldTail(s: State, k: nat)
    requires Inv(s) && k < |s.past| && s.past[k] != []
    ensures s.past[k][0].JobMsg? ==> s.past[k][0].id in s.lost && s.past[k][0].id in s.jobs
    ensures forall m | m in s.past[k][1..] && m.JobMsg? :: m.id in s.lost && m.id in s.jobs
  {
    assert s.past[k][0] in s.past[k];
    assert forall m | m in s.past[k][1..] :: m in s.past[k];
  }

  lemma ProcessOldKeeps(s: State, e: Event)
    requires Inv(s) && Enabled(s, e) && (e.ProcessOld? || e.DropOld?)
    ensures Inv(Step(s, e))
  {
    var s' := Step(s, e);
    if e.ProcessOld? {
      OldTail(s, e.k);
      HeardKeepsTable(s, s.past[e.k][0]);
    }
    forall id | id in s'.verdicts && id !in s'.lost ensures Settling(s', id) {
      assert Settling(s, id);
    }
  }

  lemma LoseKeeps(s: State, e: Event)
    requires Inv(s) && Enabled(s, e) && e.LoseSession?
    ensures Inv(Step(s, e))
  {
    var s' := Step(s, e);
    assert forall m | m in s.up[..e.sent] :: m in s.up;
    forall id | id in s'.verdicts && id !in s'.lost ensures Settling(s', id) {
      assert Settling(s, id);
      NewestNone(s.up, id);
    }
    forall k | 0 <= k < |s'.past| ensures forall m | m in s'.past[k] && m.JobMsg? :: m.id in s'.lost && m.id in s'.jobs {
      assert k < |s.past| ==> s'.past[k] == s.past[k];
    }
  }

  lemma StepKeeps(s: State, e: Event)
    requires Inv(s) && Enabled(s, e)
    ensures Inv(Step(s, e))
  {
    match e
    case Progress(_, _, _) => AgentReportKeeps(s, e);
    case Conclude(_, _, _) => AgentReportKeeps(s, e);
    case Refuse(_, _) => RefuseKeeps(s, e);
    case Dispatch(_) => DispatchKeeps(s, e);
    case Process => ProcessKeeps(s, e);
    case LoseSession(_) => LoseKeeps(s, e);
    case ProcessOld(_) => ProcessOldKeeps(s, e);
    case DropOld(_) => ProcessOldKeeps(s, e);
    case _ => HeartbeatKeeps(s, e);
  }

  lemma {:induction false} RunKeeps(s: State, run: seq<Event>)
    requires Inv(s) && Runs(s, run)
    ensures Inv(After(s, run))
    decreases |run|
  {
    if run == [] {
    } else {
      RunKeeps(s, Init(run));
      StepKeeps(After(s, Init(run)), Last(run));
    }
  }

  // ---- theorems ----

  /** Verdict agreement. In every run, once a job has finished at the agent, none of its
      updates was dropped and none is still on its way, the table holds exactly the agent's
      terminal state, error and exit code. */
  lemma VerdictAgrees(node: NodeId, t0: Time, run: seq<Event>, id: JobId)
    requires Runs(Start(node, t0), run)
    requires var s := After(Start(node, t0), run); id in s.verdicts && id !in s.lost && id !in Updates(s.up)
    ensures var s := After(Start(node, t0), run); Records(s.jobs, id, s.verdicts[id]) && IsTerminal(s.jobs[id].state)
  {
    RunKeeps(Start(node, t0), run);
    var s := After(Start(node, t0), run);
    assert Settling(s, id);
    NewestNone(s.up, id);
  }

  /** A settled job: finished, nothing lost, nothing in flight. */
  ghost predicate Settled(s: State, id: JobId) {
    id in s.verdicts && id !in s.lost && Newest(s.up, id).None?
  }

  /** No step of anybody puts a message about a finished job on its way again. */
  lemma NothingNewInFlight(s: State, e: Event, id: JobId)
    requires Inv(s) && Enabled(s, e) && id in s.verdicts && Newest(s.up, id).None?
    ensures Newest(Step(s, e).up, id).None? && id in Step(s, e).verdicts && Step(s, e).verdicts[id] == s.verdicts[id]
  {
    match e
    case Progress(other, upd, _) => NewestSnoc(s.up, JobMsg(other, upd), id);
    case Conclude(other, upd, _) => NewestSnoc(s.up, JobMsg(other, upd), id);
    case Refuse(error, _) =>
      assert s.down[0] in s.down;
      NewestSnoc(s.up, JobMsg(s.down[0], JobUpdate(JobFailed, 0, error)), id);
    case PushSample => NewestSnoc(s.up, s.sample.value, id);
    case Process => NewestTail(s.up, id);
    case _ =>
  }

  /** The message the coordinator reads in a step, if any. */
  function Read(s: State, e: Event): Option<Message>
    requires Enabled(s, e)
  {
    match e
    case Process => Some(s.up[0])
    case ProcessOld(k) => Some(s.past[k][0])
    case _ => None
  }

  /** Only a message about the job changes the entry of a finished job. */
  lemma EntryChangesOnlyByItsUpdates(s: State, e: Event, id: JobId)
    requires Inv(s) && Enabled(s, e) && id in s.jobs && IsTerminal(s.jobs[id].state)
    requires Read(s, e).Some? && Read(s, e).value.JobMsg? ==> Read(s, e).value.id != id
    ensures id in Step(s, e).jobs && Step(s, e).jobs[id] == s.jobs[id]
  {
    match e
    case Process => HeardOther(s, s.up[0], id);
    case ProcessOld(k) => HeardOther(s, s.past[k][0], id);
    case _ =>
  }

  lemma SettledStays(s: State, e: Event, id: JobId)
    requires Inv(s) && Enabled(s, e) && Settled(s, id)
    ensures Settled(Step(s, e), id) && Step(s, e).verdicts[id] == s.verdicts[id]
    ensures id in s.jobs && id in Step(s, e).jobs && Step(s, e).jobs[id] == s.jobs[id]
  {
    assert Settling(s, id);
    NothingNewInFlight(s, e, id);
    NewestNone(s.up, id);
    match e {
      case Process => assert s.up[0] in s.up;
      case ProcessOld(k) => OldTail(s, k);
      case _ =>
    }
    EntryChangesOnlyByItsUpdates(s, e, id);
    StaysKept(s, e, id);
  }

  lemma StaysKept(s: State, e: Event, id: JobId)
    requires Inv(s) && Enabled(s, e) && id in s.verdicts && id !in s.lost && id !in Updates(s.up)
    ensures id !in Step(s, e).lost
  {
    if e.Refuse? {
      assert s.down[0] in s.down;
    }
  }

  /** And it never changes again, whatever happens afterwards: reconnects, later jobs, and
      messages read late from streams that are gone. */
  lemma {:induction false} VerdictIsFinal(s: State, run: seq<Event>, id: JobId)
    requires Inv(s) && Settled(s, id) && Runs(s, run)
    ensures var s' := After(s, run);
      Settled(s', id) && id in s.jobs && id in s'.jobs && s'.jobs[id] == s.jobs[id] && s'.verdicts[id] == s.verdicts[id]
    decreases |run|
  {
    assert Settling(s, id);
    if run == [] {
    } else {
      VerdictIsFinal(s, Init(run), id);
      RunKeeps(s, Init(run));
      SettledStays(After(s, Init(run)), Last(run), id);
    }
  }

  /** Why the order "terminal update, then removal" matters: a heartbeat that omits a job
      because it has finished is processed only after the job's verdict, so it finds the
      verdict in the table and leaves it alone. */
  lemma FinishedJobIsNotFailedByItsAbsence(node: NodeId, t0: Time, run: seq<Event>, id: JobId)
    requires Runs(Start(node, t0), run)
    requires var s := After(Start(node, t0), run); s.up != [] && s.up[0].Beat? && id in s.up[0].gone && id !in s.lost
    ensures var s := After(Start(node, t0), run);
      && id in s.verdicts && Records(s.jobs, id, s.verdicts[id])
      && id in Step(s, Process).jobs && Step(s, Process).jobs[id] == s.jobs[id]
  {
    RunKeeps(Start(node, t0), run);
    var s := After(Start(node, t0), run);
    assert s.up[0] in s.up;
    assert id in s.verdicts && Settling(s, id);
    NewestNone(s.up, id);
    forall m | m in s.up && m.JobMsg? ensures m.id != id {
      var q :| 0 <= q < |s.up| && s.up[q] == m;
      assert 0 < q;
    }
  }

  // ---- why a job is FAILED ----

  /** Reading a heartbeat leaves alone every job it reports and every job heard of less than 30 s ago. */
  lemma HeartbeatSparesTheReported(s: State, e: Event, id: JobId)
    requires Enabled(s, e) && Read(s, e).Some? && Read(s, e).value.Beat? && id in s.jobs
    requires id in Read(s, e).value.active || s.now - s.jobs[id].lastUpdate < 30 * SECOND
    ensures id in Step(s, e).jobs && Step(s, e).jobs[id] == s.jobs[id]
  {
  }

  /** The step reads the agent's own FAILED, or a heartbeat that omits the job, not heard of for 30 s. */
  predicate CausesFailure(s: State, e: Event, id: JobId) {
    && Enabled(s, e) && Read(s, e).Some? && id in s.jobs
    && match Read(s, e).value
       case JobMsg(job, upd) => job == id && upd.state == JobFailed
       case Beat(active, _) => id !in active && s.now - s.jobs[id].lastUpdate >= 30 * SECOND
  }

  lemma FailsOnlyByCause(s: State, e: Event, id: JobId)
    requires Inv(s) && Enabled(s, e)
    requires id in Step(s, e).jobs && Step(s, e).jobs[id].state == JobFailed
    ensures (id in s.jobs && s.jobs[id].state == JobFailed) || CausesFailure(s, e, id)
  {
    match e
    case Process => assert s.up[0] in s.up;
    case ProcessOld(k) => OldTail(s, k);
    case _ =>
  }

  lemma {:induction false} RunsPrefix(s: State, run: seq<Event>, i: nat)
    requires Runs(s, run) && i <= |run|
    ensures Runs(s, run[..i])
    decreases |run|
  {
    if i == |run| {
      assert run[..i] == run;
    } else {
      RunsPrefix(s, Init(run), i);
      assert Init(run)[..i] == run[..i];
    }
  }

  /** The state just before event i of a run. */
  ghost function At(s: State, run: seq<Event>, i: nat): State
    requires Runs(s, run) && i <= |run|
  {
    RunsPrefix(s, run, i);
    After(s, run[..i])
  }

  /** In every run a job in the table is FAILED only because its agent said so, or because a
      heartbeat omitted it when nothing had been heard of it for 30 s. */
  lemma {:induction false} FailureHasACause(node: NodeId, t0: Time, run: seq<Event>, id: JobId)
    requires Runs(Start(node, t0), run)
    requires var jobs := After(Start(node, t0), run).jobs; id in jobs && jobs[id].state == JobFailed
    ensures exists i | 0 <= i < |run| :: CausesFailure(At(Start(node, t0), run, i), run[i], id)
    decreases |run|
  {
    var s0 := Start(node, t0);
    if run == [] {
    } else {
      var pre := After(s0, Init(run));
      RunKeeps(s0, Init(run));
      FailsOnlyByCause(pre, Last(run), id);
      if CausesFailure(pre, Last(run), id) {
        var i := |run| - 1;
        assert run[..i] == Init(run) && At(s0, run, i) == pre;
      } else {
        FailureHasACause(node, t0, Init(run), id);
        var i :| 0 <= i < |Init(run)| && CausesFailure(At(s0, Init(run), i), Init(run)[i], id);
        assert Init(run)[..i] == run[..i];
        assert CausesFailure(At(s0, run, i), run[i], id);
      }
    }
  }
}
