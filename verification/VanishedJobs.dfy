/** Jobs the agent has forgotten, whatever was lost on the way: they become terminal in the table
    within a bounded time. */
module VanishedJobs {
  import opened Base
  import opened Schedulers
  import opened JobProtocol

  /** The agent knows nothing about the job any more. */
  ghost predicate Forgotten(s: State, id: JobId) {
    id in s.jobs && id !in s.active && id !in s.down
  }

  /** No message here speaks of the job. */
  ghost predicate Quiet(ms: seq<Message>, id: JobId) {
    forall m | m in ms :: if m.JobMsg? then m.id != id else id !in m.active
  }

  /** And nothing about it is in flight either. */
  ghost predicate Vanished(s: State, id: JobId) {
    && Forgotten(s, id)
    && Quiet(s.up, id)
    && (s.sample.Some? ==> Quiet([s.sample.value], id))
    && (forall k | 0 <= k < |s.past| :: Quiet(s.past[k], id))
  }

  lemma RemovalForgets(s: State, id: JobId)
    requires Inv(s) && Enabled(s, Remove(id))
    ensures Forgotten(Step(s, Remove(id)), id)
  {
  }

  lemma StaysForgotten(s: State, e: Event, id: JobId)
    requires Enabled(s, e) && Forgotten(s, id)
    ensures Forgotten(Step(s, e), id)
  {
    if s.down != [] {
      assert s.down[0] in s.down;
      assert forall d | d in s.down[1..] :: d in s.down;
    }
  }

  /** How much of what was in flight at some moment still is: that many messages at the head of
      the stream, the pending sample, and that many at the head of each old stream. */
  datatype Backlog = Backlog(up: nat, sample: bool, past: seq<nat>)

  function Less(n: nat): nat {
    if n == 0 then 0 else n - 1
  }

  function InFlight(s: State): Backlog {
    Backlog(|s.up|, s.sample.Some?, seq(|s.past|, k requires 0 <= k < |s.past| => |s.past[k]|))
  }

  function BacklogStep(s: State, b: Backlog, e: Event): Backlog
    requires Enabled(s, e) && |b.past| == |s.past|
  {
    match e
    case Process => b.(up := Less(b.up))
    case PushSample => if b.sample then b.(up := |s.up| + 1, sample := false) else b
    case LoseSession(sent) => Backlog(0, false, b.past + [if b.up < sent then b.up else sent])
    case ProcessOld(k) => b.(past := b.past[k := Less(b.past[k])])
    case DropOld(k) => b.(past := b.past[k := 0])
    case _ => b
  }

  ghost function BacklogAfter(s: State, run: seq<Event>): (b: Backlog)
    requires Runs(s, run)
    ensures |b.past| == |After(s, run).past|
    decreases |run|
  {
    if run == [] then InFlight(s)
    else
      var b := BacklogAfter(s, Init(run));
      BacklogStep(After(s, Init(run)), b, Last(run))
  }

  /** Everything that was in flight has been read or discarded. */
  predicate Drained(b: Backlog) {
    b.up == 0 && !b.sample && forall k | 0 <= k < |b.past| :: b.past[k] == 0
  }

  /** Behind the backlog nothing speaks of the job. */
  ghost predicate QuietBehind(s: State, b: Backlog, id: JobId) {
    && b.up <= |s.up| && Quiet(s.up[b.up..], id)
    && (s.sample.Some? && !b.sample ==> Quiet([s.sample.value], id))
    && (b.sample ==> s.sample.Some?)
    && |b.past| == |s.past|
    && (forall k | 0 <= k < |s.past| :: b.past[k] <= |s.past[k]| && Quiet(s.past[k][b.past[k]..], id))
  }

  lemma QuietDrop(ms: seq<Message>, n: nat, id: JobId)
    requires ms != [] && n <= |ms| && Quiet(ms[n..], id)
    ensures Less(n) <= |ms[1..]| && Quiet(ms[1..][Less(n)..], id)
  {
    if n == 0 {
      assert forall m | m in ms[1..] :: m in ms[0..];
    } else {
      assert ms[1..][n - 1..] == ms[n..];
    }
  }

  lemma QuietTake(ms: seq<Message>, n: nat, sent: nat, id: JobId)
    requires n <= |ms| && sent <= |ms| && Quiet(ms[n..], id)
    ensures Quiet(ms[..sent][if n < sent then n else sent..], id)
  {
    var from := if n < sent then n else sent;
    forall m | m in ms[..sent][from..] ensures m in ms[n..] {
      var i :| 0 <= i < |ms[..sent][from..]| && ms[..sent][from..][i] == m;
      assert m == ms[n..][i];
    }
  }

  lemma QuietSnoc(ms: seq<Message>, n: nat, m: Message, id: JobId)
    requires n <= |ms| && Quiet(ms[n..], id) && Quiet([m], id)
    ensures Quiet((ms + [m])[n..], id)
  {
    assert (ms + [m])[n..] == ms[n..] + [m];
    assert m in [m];
  }

  lemma QuietMessage(m: Message, id: JobId)
    requires if m.JobMsg? then m.id != id else id !in m.active
    ensures Quiet([m], id)
  {
  }

  /** What the agent sends after forgetting the job does not speak of it. */
  lemma AgentStaysQuiet(s: State, b: Backlog, e: Event, id: JobId)
    requires Inv(s) && Enabled(s, e) && Forgotten(s, id) && QuietBehind(s, b, id)
    requires !(e.Process? || e.LoseSession? || e.ProcessOld? || e.DropOld?)
    ensures QuietBehind(Step(s, e), BacklogStep(s, b, e), id)
  {
    match e
    case Progress(other, upd, _) =>
      QuietMessage(JobMsg(other, upd), id);
      QuietSnoc(s.up, b.up, JobMsg(other, upd), id);
    case Conclude(other, upd, _) =>
      QuietMessage(JobMsg(other, upd), id);
      QuietSnoc(s.up, b.up, JobMsg(other, upd), id);
    case Refuse(error, _) =>
      assert s.down[0] in s.down;
      QuietMessage(JobMsg(s.down[0], JobUpdate(JobFailed, 0, error)), id);
      QuietSnoc(s.up, b.up, JobMsg(s.down[0], JobUpdate(JobFailed, 0, error)), id);
    case PushSample =>
      if b.sample {
        assert Step(s, e).up[|s.up| + 1..] == [];
      } else {
        QuietSnoc(s.up, b.up, s.sample.value, id);
      }
    case TakeSample => QuietMessage(Beat(s.active, s.verdicts.Keys - s.active), id);
    case _ =>
  }

  lemma ReadingStaysQuiet(s: State, b: Backlog, e: Event, id: JobId)
    requires Enabled(s, e) && QuietBehind(s, b, id)
    requires e.Process? || e.LoseSession? || e.ProcessOld? || e.DropOld?
    ensures QuietBehind(Step(s, e), BacklogStep(s, b, e), id)
  {
    match e
    case Process => QuietDrop(s.up, b.up, id);
    case LoseSession(sent) => QuietTake(s.up, b.up, sent, id);
    case ProcessOld(k) => QuietDrop(s.past[k], b.past[k], id);
    case DropOld(k) =>
  }

  lemma {:induction false} QuietAfter(s: State, run: seq<Event>, id: JobId)
    requires Inv(s) && Forgotten(s, id) && Runs(s, run)
    ensures Inv(After(s, run)) && Forgotten(After(s, run), id)
    ensures QuietBehind(After(s, run), BacklogAfter(s, run), id)
    decreases |run|
  {
    if run == [] {
    } else {
      QuietAfter(s, Init(run), id);
      var pre, b, e := After(s, Init(run)), BacklogAfter(s, Init(run)), Last(run);
      StepKeeps(pre, e);
      StaysForgotten(pre, e, id);
      if e.Process? || e.LoseSession? || e.ProcessOld? || e.DropOld? {
        ReadingStaysQuiet(pre, b, e, id);
      } else {
        AgentStaysQuiet(pre, b, e, id);
      }
    }
  }

  /** Once everything that was in flight when the agent forgot the job has been dealt with,
      the job has vanished altogether. */
  lemma {:induction false} VanishedOnceDrained(s: State, run: seq<Event>, id: JobId)
    requires Inv(s) && Forgotten(s, id) && Runs(s, run) && Drained(BacklogAfter(s, run))
    ensures Vanished(After(s, run), id)
  {
    QuietAfter(s, run, id);
    var s' := After(s, run);
    assert s'.up[0..] == s'.up;
    forall k | 0 <= k < |s'.past| ensures Quiet(s'.past[k], id) {
      assert s'.past[k][0..] == s'.past[k];
    }
  }

  /** Heartbeats are processed at most `gap` apart. */
  ghost predicate Beating(s: State, run: seq<Event>, gap: Time)
    requires Runs(s, run)
    decreases |run|
  {
    After(s, run).now <= After(s, run).lastBeat + gap && (run == [] || Beating(s, Init(run), gap))
  }

  /** Terminal, or still as it was with no heartbeat processed after `due`. */
  ghost predicate Doomed(s: State, id: JobId, quiet: Time, due: Time) {
    && id in s.jobs && s.jobs[id].node == s.node
    && (IsTerminal(s.jobs[id].state) || (s.jobs[id].lastUpdate == quiet && s.lastBeat <= due))
  }

  lemma HeardDooms(s: State, m: Message, id: JobId, quiet: Time, due: Time)
    requires Doomed(s, id, quiet, due) && quiet + RECONCILE_GRACE <= due && Quiet([m], id)
    ensures Doomed(Heard(s, m), id, quiet, due)
  {
    assert m in [m];
  }

  lemma StepDooms(s: State, e: Event, id: JobId, quiet: Time, due: Time)
    requires Enabled(s, e) && Vanished(s, id) && Doomed(s, id, quiet, due) && quiet + RECONCILE_GRACE <= due
    ensures Doomed(Step(s, e), id, quiet, due)
  {
    match e
    case Process =>
      assert s.up[0] in s.up;
      QuietMessage(s.up[0], id);
      HeardDooms(s, s.up[0], id, quiet, due);
    case ProcessOld(k) =>
      assert Quiet(s.past[k], id) && s.past[k][0] in s.past[k];
      QuietMessage(s.past[k][0], id);
      HeardDooms(s, s.past[k][0], id, quiet, due);
    case _ =>
  }

  /** A job that has vanished stays so: there is no backlog to begin with. */
  lemma StaysVanished(s: State, e: Event, id: JobId)
    requires Inv(s) && Enabled(s, e) && Vanished(s, id)
    ensures Vanished(Step(s, e), id)
  {
    var none := Backlog(0, false, seq(|s.past|, k requires 0 <= k < |s.past| => 0));
    assert s.up[0..] == s.up;
    forall k | 0 <= k < |s.past| ensures Quiet(s.past[k][0..], id) {
      assert s.past[k][0..] == s.past[k];
    }
    StaysForgotten(s, e, id);
    if e.Process? || e.LoseSession? || e.ProcessOld? || e.DropOld? {
      ReadingStaysQuiet(s, none, e, id);
    } else {
      AgentStaysQuiet(s, none, e, id);
    }
    var s' := Step(s, e);
    assert s'.up[0..] == s'.up;
    forall k | 0 <= k < |s'.past| ensures Quiet(s'.past[k], id) {
      assert s'.past[k][0..] == s'.past[k];
    }
  }

  lemma {:induction false} DoomedRun(s: State, run: seq<Event>, id: JobId, quiet: Time, due: Time)
    requires Inv(s) && Vanished(s, id) && Doomed(s, id, quiet, due) && quiet + RECONCILE_GRACE <= due && Runs(s, run)
    ensures Vanished(After(s, run), id) && Doomed(After(s, run), id, quiet, due)
    decreases |run|
  {
    if run == [] {
    } else {
      DoomedRun(s, Init(run), id, quiet, due);
      RunKeeps(s, Init(run));
      StaysVanished(After(s, Init(run)), Last(run), id);
      StepDooms(After(s, Init(run)), Last(run), id, quiet, due);
    }
  }

  /** When the grace of a job is over, at the earliest now. */
  function GraceEnd(s: State, id: JobId): Time
    requires id in s.jobs
  {
    if s.now <= s.jobs[id].lastUpdate + RECONCILE_GRACE then s.jobs[id].lastUpdate + RECONCILE_GRACE else s.now
  }

  /** Even when updates are lost, sessions break and old streams are read late: take any moment
      at which the agent has forgotten a job, and let what was in flight then be read or
      discarded. From there on the job is terminal in the table as soon as more than one
      heartbeat gap has passed since its grace ended, 30 s after its last update. */
  lemma VanishedJobTerminates(s: State, draining: seq<Event>, run: seq<Event>, id: JobId, gap: Time)
    requires Inv(s) && Forgotten(s, id) && Runs(s, draining) && Drained(BacklogAfter(s, draining))
    requires var s1 := After(s, draining); Runs(s1, run) && Beating(s1, run, gap)
    ensures var s1 := After(s, draining);
      var s' := After(s1, run);
      && id in s1.jobs && id in s'.jobs
      && GraceEnd(s1, id) <= s1.now + RECONCILE_GRACE
      && (s'.now > GraceEnd(s1, id) + gap ==> IsTerminal(s'.jobs[id].state))
  {
    var s1 := After(s, draining);
    RunKeeps(s, draining);
    VanishedOnceDrained(s, draining, id);
    BeatingAtStart(s1, run, gap);
    DoomedRun(s1, run, id, s1.jobs[id].lastUpdate, GraceEnd(s1, id));
  }

  lemma {:induction false} BeatingAtStart(s: State, run: seq<Event>, gap: Time)
    requires Runs(s, run) && Beating(s, run, gap)
    ensures s.now <= s.lastBeat + gap
    decreases |run|
  {
    if run == [] {
    } else {
      BeatingAtStart(s, Init(run), gap);
    }
  }
}
