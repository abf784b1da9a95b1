/** The agent's connection across reconnects: one writer per stream, a bounded outbound
    queue that is published only after Register is in it, emitters that may still hold
    the queue of a stream that is gone, and a teardown that waits before it cancels. */
module Sessions {
  import opened Base

  datatype Frame = RegisterFrame | HeartbeatFrame | JobFrame | DeploymentFrame

  const OUTBOUND_BUFFER_SIZE := 32

  /** One stream lifetime: what is queued, and what the writer has put on the wire. The stream is
      `broken` once sends on it fail; the session is `leaving` once it has seen an error and waits
      for its goroutines; `cancelled` says its context is done, `writing` that its writer still
      runs, and `alive` that it has not returned. */
  datatype Session = Session(
    queue: seq<Frame>,
    sent: seq<Frame>,
    enrolled: bool,
    published: bool,
    broken: bool,
    leaving: bool,
    cancelled: bool,
    writing: bool,
    alive: bool)

  /** Cancelling a context ends everything that derives from it; every context derives from the root. */
  datatype Context = RootContext | SessionContext(i: nat)

  /** A goroutine: one job or deployment, or the heartbeat loop of one session. */
  datatype Task = JobTask(id: string) | DeploymentTask(id: string) | HeartbeatTask(i: nat)

  /** `out` is the published queue, `held` the queue each emitter read before offering, and
      `tasks` what runs, each with the context it was given. */
  datatype State = State(
    sessions: seq<Session>,
    out: Option<nat>,
    held: map<nat, nat>,
    tasks: map<Task, Context>,
    stopped: bool)

  datatype Event =
    | Dial
    | Enroll
    | Publish
    | Capture(emitter: nat)
    | Offer(emitter: nat, frame: Frame)
    | PushHeartbeat(i: nat)
    | Write(i: nat)
    | Break(i: nat)
    | Leave(i: nat)
    | WriterLeaves(i: nat)
    | Fall(i: nat)
    | Begin(task: Task)
    | End(task: Task)
    | Expire(task: Task)
    | Shutdown

  function Start(): State {
    State([], None, map[], map[], false)
  }

  predicate IsWork(t: Task) {
    t.JobTask? || t.DeploymentTask?
  }

  predicate IsDone(s: State, c: Context) {
    match c
    case RootContext => s.stopped
    case SessionContext(i) => i < |s.sessions| && s.sessions[i].cancelled
  }

  /** The current session, still running its receive loop. */
  predicate Current(s: State) {
    s.sessions != [] && Last(s.sessions).alive && !Last(s.sessions).leaving
  }

  /** The loop that dials again waits for the session to return, and that waits for its writer and
      its heartbeat loop; only then does it cancel its context. A goroutine whose context is done
      may go on for a step, since a select takes any branch that is ready. */
  predicate Enabled(s: State, e: Event) {
    match e
    case Dial => !s.stopped && (s.sessions == [] || !Last(s.sessions).alive)
    case Enroll => Current(s) && !Last(s.sessions).enrolled
    case Publish => Current(s) && Last(s.sessions).sent != [] && !Last(s.sessions).published
    case Capture(_) => true
    case Offer(k, frame) => k in s.held && s.held[k] < |s.sessions| && (frame == JobFrame || frame == DeploymentFrame)
    case PushHeartbeat(i) =>
      i < |s.sessions| && HeartbeatTask(i) in s.tasks && |s.sessions[i].queue| < OUTBOUND_BUFFER_SIZE
    case Write(i) => i < |s.sessions| && s.sessions[i].writing && s.sessions[i].queue != []
    case Break(i) => i < |s.sessions| && s.sessions[i].alive
    case Leave(i) => i < |s.sessions| && s.sessions[i].alive && !s.sessions[i].leaving
    case WriterLeaves(i) => i < |s.sessions| && s.sessions[i].writing && s.sessions[i].cancelled
    case Fall(i) =>
      && i < |s.sessions| && s.sessions[i].alive && s.sessions[i].leaving
      && !s.sessions[i].writing && HeartbeatTask(i) !in s.tasks
    case Begin(t) => IsWork(t) && Current(s) && Last(s.sessions).published
    case End(t) => IsWork(t)
    case Expire(t) => t in s.tasks && IsDone(s, s.tasks[t])
    case Shutdown => true
  }

  function Pushed(x: Session, f: Frame): Session {
    x.(queue := x.queue + [f])
  }

  /** A send on a broken or cancelled stream fails; the writer then cancels the context and leaves. */
  function Written(x: Session): Session
    requires x.queue != []
  {
    if x.broken || x.cancelled then x.(queue := x.queue[1..], cancelled := true, writing := false)
    else x.(sent := x.sent + [x.queue[0]], queue := x.queue[1..])
  }

  function WithSession(s: State, i: nat, x: Session): State
    requires i < |s.sessions|
  {
    s.(sessions := s.sessions[i := x])
  }

  function Step(s: State, e: Event): State
    requires Enabled(s, e)
  {
    var top := |s.sessions| - 1;
    match e
    case Dial => s.(sessions := s.sessions + [Session([], [], false, false, false, false, false, true, true)])
    case Enroll => WithSession(s, top, Pushed(s.sessions[top], RegisterFrame).(enrolled := true))
    case Publish =>
      WithSession(s, top, s.sessions[top].(published := true)).(
        out := Some(top), tasks := s.tasks[HeartbeatTask(top) := SessionContext(top)])
    case Capture(k) => s.(held := if s.out.Some? then s.held[k := s.out.value] else s.held - {k})
    case Offer(k, frame) =>
      var i := s.held[k];
      if |s.sessions[i].queue| < OUTBOUND_BUFFER_SIZE
      then WithSession(s, i, Pushed(s.sessions[i], frame)).(held := s.held - {k})
      else s.(held := s.held - {k})
    case PushHeartbeat(i) => WithSession(s, i, Pushed(s.sessions[i], HeartbeatFrame))
    case Write(i) => WithSession(s, i, Written(s.sessions[i]))
    case Break(i) => WithSession(s, i, s.sessions[i].(broken := true))
    case Leave(i) =>
      WithSession(s, i, s.sessions[i].(leaving := true)).(out := if s.out == Some(i) then None else s.out)
    case WriterLeaves(i) => WithSession(s, i, s.sessions[i].(writing := false))
    case Fall(i) => WithSession(s, i, s.sessions[i].(alive := false, cancelled := true))
    case Begin(t) => if t in s.tasks then s else s.(tasks := s.tasks[t := RootContext])
    case End(t) => s.(tasks := s.tasks - {t})
    case Expire(t) => s.(tasks := s.tasks - {t})
    case Shutdown =>
      s.(sessions := seq(|s.sessions|, i requires 0 <= i < |s.sessions| => s.sessions[i].(cancelled := true)), stopped := true)
  }

  ghost predicate Runs(s: State, run: seq<Event>)
    decreases |run|, 0
  {
    run == [] || (Runs(s, Init(run)) && Enabled(After(s, Init(run)), Last(run)))
  }

  ghost function After(s: State, run: seq<Event>): State
    requires Runs(s, run)
    decreases |run|, 1
  {
    if run == [] then s else Step(After(s, Init(run)), Last(run))
  }

  // ---- the invariant ----

  /** Register first, and only first. */
  ghost predicate RegisterFirst(frames: seq<Frame>) {
    forall i | 0 <= i < |frames| :: frames[i].RegisterFrame? <==> i == 0
  }

  /** As long as the writer runs, what it has sent and has yet to send begins with the Register. */
  ghost predicate SessionInv(x: Session) {
    && RegisterFirst(x.sent) && |x.queue| <= 32
    && (x.writing ==> RegisterFirst(x.sent + x.queue) && (x.enrolled ==> x.sent + x.queue != []))
    && (!x.enrolled ==> x.sent == [] && x.queue == [] && !x.published)
    && (!x.writing ==> x.cancelled)
    && (!x.alive ==> !x.writing && x.leaving)
  }

  /** Work hangs on the root context, and a heartbeat loop on its own session, which has not returned. */
  ghost predicate TasksInv(s: State) {
    && (forall t | t in s.tasks ::
          if IsWork(t) then s.tasks[t] == RootContext
          else s.tasks[t] == SessionContext(t.i) && t.i < |s.sessions| && s.sessions[t.i].alive && s.sessions[t.i].published)
    && (forall i | 0 <= i < |s.sessions| :: s.sessions[i].published && !s.sessions[i].cancelled ==> HeartbeatTask(i) in s.tasks)
  }

  ghost predicate Inv(s: State) {
    && (forall i | 0 <= i < |s.sessions| :: SessionInv(s.sessions[i]))
    && (forall i | 0 <= i < |s.sessions| - 1 :: !s.sessions[i].alive)
    && (s.out.Some? ==> s.out.value < |s.sessions| && s.sessions[s.out.value].published && !s.sessions[s.out.value].leaving)
    && (forall k | k in s.held :: s.held[k] < |s.sessions| && s.sessions[s.held[k]].published)
    && TasksInv(s)
  }

  lemma PushedKeeps(x: Session, f: Frame)
    requires SessionInv(x) && x.enrolled && !f.RegisterFrame? && |x.queue| < 32
    ensures SessionInv(Pushed(x, f))
  {
    assert x.sent + (x.queue + [f]) == (x.sent + x.queue) + [f];
  }

  lemma WrittenKeeps(x: Session)
    requires SessionInv(x) && x.writing && x.queue != []
    ensures SessionInv(Written(x))
  {
    assert (x.sent + [x.queue[0]]) + x.queue[1..] == x.sent + x.queue;
    forall k | 0 <= k < |x.sent| + 1 ensures (x.sent + [x.queue[0]])[k].RegisterFrame? <==> k == 0 {
      assert (x.sent + [x.queue[0]])[k] == (x.sent + x.queue)[k];
    }
  }

  /** Replacing one session by one that is as good keeps the invariant. */
  lemma SessionChanges(s: State, i: nat, x: Session)
    requires Inv(s) && i < |s.sessions| && SessionInv(x)
    requires s.sessions[i].published == x.published && s.sessions[i].alive == x.alive && s.sessions[i].leaving == x.leaving
    requires s.sessions[i].cancelled ==> x.cancelled
    ensures Inv(WithSession(s, i, x))
  {
  }

  lemma OfferKeeps(s: State, e: Event)
    requires Inv(s) && Enabled(s, e) && e.Offer?
    ensures Inv(Step(s, e))
  {
    var i := s.held[e.emitter];
    if |s.sessions[i].queue| < OUTBOUND_BUFFER_SIZE {
      PushedKeeps(s.sessions[i], e.frame);
      SessionChanges(s, i, Pushed(s.sessions[i], e.frame));
      LettingGoKeeps(WithSession(s, i, Pushed(s.sessions[i], e.frame)), e.emitter);
    } else {
      LettingGoKeeps(s, e.emitter);
    }
  }

  lemma LettingGoKeeps(s: State, k: nat)
    requires Inv(s)
    ensures Inv(s.(held := s.held - {k}))
  {
  }

  lemma QueueKeeps(s: State, e: Event)
    requires Inv(s) && Enabled(s, e) && (e.Offer? || e.PushHeartbeat? || e.Write?)
    ensures Inv(Step(s, e))
  {
    match e
    case Offer(_, _) => OfferKeeps(s, e);
    case PushHeartbeat(i) =>
      assert !IsWork(HeartbeatTask(i));
      PushedKeeps(s.sessions[i], HeartbeatFrame);
      SessionChanges(s, i, Pushed(s.sessions[i], HeartbeatFrame));
    case Write(i) =>
      WrittenKeeps(s.sessions[i]);
      SessionChanges(s, i, Written(s.sessions[i]));
  }

  lemma EnrolledKeeps(x: Session)
    requires SessionInv(x) && !x.enrolled
    ensures SessionInv(Pushed(x, RegisterFrame).(enrolled := true))
  {
  }

  lemma ConnectingKeeps(s: State, e: Event)
    requires Inv(s) && Enabled(s, e) && (e.Dial? || e.Enroll? || e.Capture?)
    ensures Inv(Step(s, e))
  {
    if e.Enroll? {
      EnrolledKeeps(Last(s.sessions));
      SessionChanges(s, |s.sessions| - 1, Pushed(Last(s.sessions), RegisterFrame).(enrolled := true));
    }
  }

  lemma PublishKeeps(s: State)
    requires Inv(s) && Enabled(s, Publish)
    ensures Inv(Step(s, Publish))
  {
  }

  lemma StreamKeeps(s: State, e: Event)
    requires Inv(s) && Enabled(s, e) && (e.Break? || e.WriterLeaves?)
    ensures Inv(Step(s, e))
  {
    SessionChanges(s, e.i, Step(s, e).sessions[e.i]);
  }

  lemma LeaveKeeps(s: State, e: Event)
    requires Inv(s) && Enabled(s, e) && e.Leave?
    ensures Inv(Step(s, e))
  {
    assert SessionInv(Step(s, e).sessions[e.i]);
  }

  lemma FallKeeps(s: State, e: Event)
    requires Inv(s) && Enabled(s, e) && e.Fall?
    ensures Inv(Step(s, e))
  {
    assert SessionInv(Step(s, e).sessions[e.i]);
  }

  lemma TasksKeep(s: State, e: Event)
    requires Inv(s) && Enabled(s, e) && (e.Begin? || e.End? || e.Expire?)
    ensures Inv(Step(s, e))
  {
  }

  lemma ShutdownKeeps(s: State)
    requires Inv(s)
    ensures Inv(Step(s, Shutdown))
  {
    var s' := Step(s, Shutdown);
    forall i | 0 <= i < |s'.sessions| ensures SessionInv(s'.sessions[i]) {
      assert SessionInv(s.sessions[i]);
    }
  }

  lemma StepKeeps(s: State, e: Event)
    requires Inv(s) && Enabled(s, e)
    ensures Inv(Step(s, e))
  {
    if e.Offer? || e.PushHeartbeat? || e.Write? {
      QueueKeeps(s, e);
    } else if e.Break? || e.WriterLeaves? {
      StreamKeeps(s, e);
    } else if e.Leave? {
      LeaveKeeps(s, e);
    } else if e.Fall? {
      FallKeeps(s, e);
    } else if e.Begin? || e.End? || e.Expire? {
      TasksKeep(s, e);
    } else if e.Publish? {
      PublishKeeps(s);
    } else if e.Shutdown? {
      ShutdownKeeps(s);
    } else {
      ConnectingKeeps(s, e);
    }
  }

  lemma {:induction false} RunKeeps(s: State, run: seq<Event>)
    requires Inv(s) && Runs(s, run)
    ensures Inv(After(s, run))
    decreases |run|
  {
    if run == [] {
    } else {
      RunKeeps(s, Init(run));
      StepKeeps(After(s, Init(run)), Last(run));
    }
  }

  // ---- theorems ----

  /** For every interleaving of emitters, teardown and reconnects, what each stream carries
      is nothing yet, or one Register followed by other frames; so the coordinator's check
      of the first message never turns an agent away. */
  lemma EveryStreamBeginsWithRegister(run: seq<Event>, i: nat)
    requires Runs(Start(), run) && i < |After(Start(), run).sessions|
    ensures RegisterFirst(After(Start(), run).sessions[i].sent)
  {
    RunKeeps(Start(), run);
  }

  /** No queue ever holds more than 32 frames. */
  lemma QueueIsBounded(run: seq<Event>, i: nat)
    requires Runs(Start(), run) && i < |After(Start(), run).sessions|
    ensures |After(Start(), run).sessions[i].queue| <= 32
  {
    RunKeeps(Start(), run);
  }

  /** At most one session is there at a time, and nothing goes out on a stream that is broken or
      whose session is cancelled, although a heartbeat may still be queued there. */
  lemma OnlyTheLastSessionWrites(run: seq<Event>, i: nat)
    requires Runs(Start(), run)
    requires var s := After(Start(), run);
      Enabled(s, Write(i)) && Step(s, Write(i)).sessions[i].sent != s.sessions[i].sent
    ensures var s := After(Start(), run);
      i == |s.sessions| - 1 && s.sessions[i].alive && !s.sessions[i].broken && !s.sessions[i].cancelled
  {
    RunKeeps(Start(), run);
  }

  lemma WorkSurvivesStep(s: State, e: Event, t: Task)
    requires Inv(s) && !s.stopped && Enabled(s, e) && IsWork(t) && t in s.tasks && e != End(t) && e != Shutdown
    ensures t in Step(s, e).tasks && !Step(s, e).stopped
  {
    assert s.tasks[t] == RootContext;
  }

  /** Losing a connection cancels its context and never loses work: a job or a deployment goes
      only when its own work ends or the whole agent shuts down. */
  lemma {:induction false} WorkSurvivesReconnects(s: State, run: seq<Event>, t: Task)
    requires Inv(s) && !s.stopped && Runs(s, run) && IsWork(t) && t in s.tasks
    requires End(t) !in run && Shutdown !in run
    ensures Inv(After(s, run)) && !After(s, run).stopped && t in After(s, run).tasks
    decreases |run|
  {
    if run == [] {
    } else {
      InitLast(run);
      WorkSurvivesReconnects(s, Init(run), t);
      StepKeeps(After(s, Init(run)), Last(run));
      WorkSurvivesStep(After(s, Init(run)), Last(run), t);
    }
  }
}
