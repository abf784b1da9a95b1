/** One container job from pull to terminal state, as the sequence of updates it emits. What
    Docker does is a script; what is modelled is which updates leave, in which order. */
module Containers {
  import opened Base
  import opened Schedulers

  datatype RunUpdate = RunUpdate(state: JobState, chunk: string, exitCode: int, error: string)

  /** One decoded message of the pull stream. */
  datatype PullMessage = PullMessage(status: string, error: string)

  /** How the pull went: refused outright, or messages and then a clean or broken end. */
  datatype Pull = PullRefused | PullStream(messages: seq<PullMessage>, clean: bool)

  /** The container's output and the flush timer, in the order they happened. */
  datatype LogEvent = Wrote(bytes: string) | Ticked

  datatype Exit = ContextEnded | WaitFailed | Exited(daemonError: Option<string>, statusCode: int)

  /** The job's context at the moment a failure is reported. */
  datatype Context = ContextAlive | DeadlineExceeded | ContextCancelled

  const ERROR_TEXT := "docker error"

  // ---- terminal updates ----

  function TerminalForContext(ctx: Context, error: string): (u: RunUpdate)
    ensures IsTerminal(u.state)
    ensures u.state == JobCancelled <==> ctx == ContextCancelled
    ensures ctx == DeadlineExceeded ==> u == RunUpdate(JobFailed, "", 0, "job timed out")
  {
    match ctx
    case DeadlineExceeded => RunUpdate(JobFailed, "", 0, "job timed out")
    case ContextCancelled => RunUpdate(JobCancelled, "", 0, "")
    case ContextAlive => RunUpdate(JobFailed, "", 0, error)
  }

  /** Conversion of a 64-bit status code to 32 bits. */
  function ToInt32(x: int): (r: int)
    ensures -0x8000_0000 <= r < 0x8000_0000
    ensures -0x8000_0000 <= x < 0x8000_0000 ==> r == x
    ensures (x - r) % 0x1_0000_0000 == 0
  {
    (x + 0x8000_0000) % 0x1_0000_0000 - 0x8000_0000
  }

  // ---- log coalescing ----

  function Written(events: seq<LogEvent>): string
    decreases |events|
  {
    if events == [] then "" else Written(Init(events)) + (if Last(events).Wrote? then Last(events).bytes else "")
  }

  function Chunks(updates: seq<RunUpdate>): string
    decreases |updates|
  {
    if updates == [] then "" else Chunks(Init(updates)) + Last(updates).chunk
  }

  lemma ChunksSnoc(updates: seq<RunUpdate>, u: RunUpdate)
    ensures Chunks(updates + [u]) == Chunks(updates) + u.chunk
  {
    Snoc(updates, u);
  }

  ghost predicate AllIn(updates: seq<RunUpdate>, state: JobState) {
    forall i | 0 <= i < |updates| :: updates[i].state == state
  }

  /** Buffers writes and hands them on when flushed. */
  class LogCoalescer {
    var buf: string

    constructor ()
      ensures buf == ""
    {
      buf := "";
    }

    method Write(bytes: string)
      modifies this
      ensures buf == old(buf) + bytes
    {
      buf := buf + bytes;
    }

    method Flush(sent: seq<RunUpdate>) returns (all: seq<RunUpdate>)
      requires AllIn(sent, JobRunning)
      modifies this
      ensures buf == ""
      ensures AllIn(all, JobRunning) && sent <= all && |all| <= |sent| + 1
      ensures Chunks(all) == Chunks(sent) + old(buf)
    {
      var s := buf;
      buf := "";
      all := sent;
      if s != "" {
        ChunksSnoc(sent, RunUpdate(JobRunning, s, 0, ""));
        all := sent + [RunUpdate(JobRunning, s, 0, "")];
      }
    }
  }

  /** Runs the log stream to its end, with the final flush: the chunks are the bytes, in order. */
  method StreamLogs(events: seq<LogEvent>) returns (running: seq<RunUpdate>)
    ensures running != [] && AllIn(running, JobRunning) && running[0] == RunUpdate(JobRunning, "", 0, "")
    ensures Chunks(running) == Written(events)
  {
    var hello := RunUpdate(JobRunning, "", 0, "");
    ChunksSnoc([], hello);
    assert [] + [hello] == [hello];
    running := [hello];
    var logs := new LogCoalescer();
    for i := 0 to |events|
      invariant fresh(logs) && running != [] && AllIn(running, JobRunning) && running[0] == hello
      invariant Chunks(running) + logs.buf == Written(events[..i])
    {
      assert Init(events[..i + 1]) == events[..i] && Last(events[..i + 1]) == events[i];
      match events[i]
      case Wrote(bytes) =>
        assert Chunks(running) + (logs.buf + bytes) == (Chunks(running) + logs.buf) + bytes;
        logs.Write(bytes);
      case Ticked => running := logs.Flush(running);
    }
    assert events[..|events|] == events;
    running := logs.Flush(running);
  }

  // ---- pulling ----

  predicate PullOk(pull: Pull) {
    pull.PullStream? && pull.clean && forall i | 0 <= i < |pull.messages| :: pull.messages[i].error == ""
  }

  /** The messages up to the first one that reports an error. */
  function BeforeFailure(messages: seq<PullMessage>): seq<PullMessage> {
    if messages == [] || messages[0].error != "" then [] else [messages[0]] + BeforeFailure(messages[1..])
  }

  /** The nonempty statuses, each one where it first occurs. */
  function Statuses(messages: seq<PullMessage>): seq<string>
    decreases |messages|
  {
    if messages == [] then []
    else
      var before, s := Statuses(Init(messages)), Last(messages).status;
      if s == "" || s in before then before else before + [s]
  }

  function StatusUpdates(statuses: seq<string>): seq<RunUpdate> {
    seq(|statuses|, i requires 0 <= i < |statuses| => RunUpdate(JobPending, statuses[i] + "\n", 0, ""))
  }

  /** What a pull announces, whether or not it succeeds. */
  function Announced(pull: Pull): seq<RunUpdate> {
    if pull.PullRefused? then [] else StatusUpdates(Statuses(BeforeFailure(pull.messages)))
  }

  lemma {:induction false} BeforeFailureIs(messages: seq<PullMessage>, k: nat)
    requires k <= |messages| && (k < |messages| ==> messages[k].error != "")
    requires forall i | 0 <= i < k :: messages[i].error == ""
    ensures BeforeFailure(messages) == messages[..k]
    decreases |messages|
  {
    if k == 0 {
    } else {
      BeforeFailureIs(messages[1..], k - 1);
      assert messages[..k] == [messages[0]] + messages[1..][..k - 1];
    }
  }

  /** Each nonempty status is announced, once, and nothing else is. */
  lemma {:induction false} StatusesOnceEach(messages: seq<PullMessage>)
    ensures Distinct(Statuses(messages))
    ensures forall s :: s in Statuses(messages) <==> s != "" && exists i | 0 <= i < |messages| :: messages[i].status == s
    decreases |messages|
  {
    if messages == [] {
    } else {
      var before, last := Statuses(Init(messages)), Last(messages).status;
      StatusesOnceEach(Init(messages));
      assert messages[|messages| - 1].status == last;
      forall s ensures s in Statuses(messages) <==> s != "" && exists i | 0 <= i < |messages| :: messages[i].status == s {
        if s in before {
          var i :| 0 <= i < |Init(messages)| && Init(messages)[i].status == s;
          assert messages[i].status == s;
        }
        if s != "" && exists i | 0 <= i < |messages| :: messages[i].status == s {
          var i :| 0 <= i < |messages| && messages[i].status == s;
          assert i < |messages| - 1 ==> Init(messages)[i].status == s;
        }
      }
    }
  }

  /** Announcements follow the order of the messages: more messages only add at the end. */
  lemma {:induction false} StatusesInOrder(messages: seq<PullMessage>, k: nat)
    requires k <= |messages|
    ensures Statuses(messages[..k]) <= Statuses(messages)
    decreases |messages|
  {
    if k == |messages| {
      assert messages[..k] == messages;
    } else {
      StatusesInOrder(Init(messages), k);
      assert Init(messages)[..k] == messages[..k];
    }
  }

  /** Forwards each distinct status once, as it comes; stops at the first error. */
  method PullImage(pull: Pull) returns (pending: seq<RunUpdate>, ok: bool)
    ensures pending == Announced(pull)
    ensures ok <==> PullOk(pull)
    ensures pull.PullRefused? ==> pending == []
    ensures pull.PullStream? ==>
      var statuses := Statuses(BeforeFailure(pull.messages));
      |pending| == |statuses| &&
      forall i | 0 <= i < |pending| :: pending[i] == RunUpdate(JobPending, statuses[i] + "\n", 0, "")
  {
    pending := [];
    if pull.PullRefused? {
      return pending, false;
    }
    var messages := pull.messages;
    var seen: set<string> := {};
    var k := 0;
    while k < |messages|
      invariant 0 <= k <= |messages|
      invariant forall i | 0 <= i < k :: messages[i].error == ""
      invariant forall s :: s in seen <==> s in Statuses(messages[..k])
      invariant pending == StatusUpdates(Statuses(messages[..k]))
    {
      var m := messages[k];
      if m.error != "" {
        BeforeFailureIs(messages, k);
        return pending, false;
      }
      assert Init(messages[..k + 1]) == messages[..k] && Last(messages[..k + 1]) == m;
      if m.status != "" && m.status !in seen {
        seen := seen + {m.status};
        pending := pending + [RunUpdate(JobPending, m.status + "\n", 0, "")];
      }
      k := k + 1;
    }
    BeforeFailureIs(messages, k);
    return pending, pull.clean;
  }

  // ---- the whole run ----

  /** What a run does that others can see, in order: updates leave, the container is removed,
      the update channel closes. */
  datatype Action = Emit(update: RunUpdate) | RemoveContainer | CloseChannel

  function Emits(updates: seq<RunUpdate>): seq<Action> {
    seq(|updates|, i requires 0 <= i < |updates| => Emit(updates[i]))
  }

  lemma EmitsConcat(a: seq<RunUpdate>, b: seq<RunUpdate>)
    ensures Emits(a + b) == Emits(a) + Emits(b)
  {
  }

  /** Pending updates, then running ones, then exactly one terminal update, last. */
  ghost predicate Grammar(updates: seq<RunUpdate>, pending: seq<RunUpdate>, running: seq<RunUpdate>) {
    && pending != [] && AllIn(pending, JobPending)
    && AllIn(running, JobRunning)
    && |updates| == |pending| + |running| + 1
    && updates == pending + running + [Last(updates)]
    && IsTerminal(Last(updates).state)
  }

  /** The container is created, so that it must also be removed. */
  predicate Creates(pull: Pull, created: bool) {
    PullOk(pull) && created
  }

  const HELLO := RunUpdate(JobPending, "", 0, "")

  /** Drives one job from pull to terminal state. `updates` is everything sent, `running` the part
      sent while the container ran. After the updates, and before the channel
      closes, a container that was created is removed. */
  method Run(pull: Pull, created: bool, started: bool, logs: seq<LogEvent>, exit: Exit, ctx: Context)
    returns (trace: seq<Action>, updates: seq<RunUpdate>, running: seq<RunUpdate>)
    ensures trace == Emits(updates) + (if Creates(pull, created) then [RemoveContainer] else []) + [CloseChannel]
    ensures Grammar(updates, [HELLO] + Announced(pull), running)
    ensures updates[0] == RunUpdate(JobPending, "", 0, "")
    ensures running != [] <==> Creates(pull, created) && started
    ensures running != [] ==> Chunks(running) == Written(logs)
    ensures Last(updates).state == JobSucceeded <==>
              Creates(pull, created) && started && exit.Exited? && exit.daemonError.None? && exit.statusCode == 0
    ensures Last(updates).state == JobCancelled <==>
              ctx == ContextCancelled && !(Creates(pull, created) && started && exit.Exited?)
    ensures Creates(pull, created) && started && exit.Exited? && exit.daemonError.None? ==>
              Last(updates).exitCode == ToInt32(exit.statusCode)
    ensures Creates(pull, created) && started && exit.Exited? && exit.daemonError.Some? ==>
              Last(updates) == RunUpdate(JobFailed, "", 0, exit.daemonError.value)
    ensures !(Creates(pull, created) && started && exit.Exited?) && ctx == DeadlineExceeded ==>
              Last(updates) == RunUpdate(JobFailed, "", 0, "job timed out")
  {
    trace, running := [Emit(HELLO)], [];
    var progress, pulled := PullImage(pull);
    trace := trace + Emits(progress);
    var pending := [HELLO] + progress;
    assert Emits(pending) == trace;
    var remove := pulled && created;
    var ran := remove && started;
    if ran {
      var r := StreamLogs(logs);
      running := r;
      trace := trace + Emits(r);
    }
    var last := Verdict(ran, exit, ctx);
    updates := pending + running + [last];
    UpdatesInOrder(pending, running, last);
    trace := trace + [Emit(last)];
    if remove {
      trace := trace + [RemoveContainer];
    }
    trace := trace + [CloseChannel];
  }

  lemma UpdatesInOrder(pending: seq<RunUpdate>, running: seq<RunUpdate>, last: RunUpdate)
    requires pending != [] && AllIn(pending, JobPending) && AllIn(running, JobRunning) && IsTerminal(last.state)
    ensures var updates := pending + running + [last];
      && Grammar(updates, pending, running) && Last(updates) == last
      && Emits(updates) == Emits(pending) + Emits(running) + [Emit(last)]
  {
    EmitsConcat(pending, running);
    EmitsConcat(pending + running, [last]);
  }

  /** How a run ends: the container's own exit when it ran and exited, otherwise what the context says. */
  function Verdict(ran: bool, exit: Exit, ctx: Context): (u: RunUpdate)
    ensures IsTerminal(u.state)
    ensures u.state == JobSucceeded <==> ran && exit.Exited? && exit.daemonError.None? && exit.statusCode == 0
    ensures u.state == JobCancelled <==> ctx == ContextCancelled && !(ran && exit.Exited?)
    ensures ran && exit.Exited? && exit.daemonError.None? ==> u.exitCode == ToInt32(exit.statusCode)
    ensures ran && exit.Exited? && exit.daemonError.Some? ==> u == RunUpdate(JobFailed, "", 0, exit.daemonError.value)
    ensures !(ran && exit.Exited?) && ctx == DeadlineExceeded ==> u == RunUpdate(JobFailed, "", 0, "job timed out")
  {
    if !ran || !exit.Exited? then TerminalForContext(ctx, ERROR_TEXT)
    else if exit.daemonError.Some? then RunUpdate(JobFailed, "", 0, exit.daemonError.value)
    else if exit.statusCode == 0 then RunUpdate(JobSucceeded, "", 0, "")
    else RunUpdate(JobFailed, "", ToInt32(exit.statusCode), "container exited with a nonzero code")
  }
}
