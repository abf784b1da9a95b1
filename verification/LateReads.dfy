/** Jobs with updates left on a stream that is gone for the agent while the coordinator is still
    reading it: exactly when their recorded verdict stays. */
module LateReads {
  import opened Base
  import opened Schedulers
  import opened JobProtocol

  /** Reading this update again would leave the verdict as it is. */
  predicate Harmless(upd: JobUpdate, v: JobUpdate) {
    upd.state == JobUnspecified || upd == v
  }

  ghost predicate NoHarm(ms: seq<Message>, id: JobId, v: JobUpdate) {
    forall m | m in ms && m.JobMsg? && m.id == id :: Harmless(m.upd, v)
  }

  /** The table holds the verdict, and nothing newer is on its way. */
  ghost predicate Holds(s: State, id: JobId, v: JobUpdate) {
    id in s.verdicts && s.verdicts[id] == v && Newest(s.up, id).None? && Records(s.jobs, id, v)
  }

  ghost predicate NoHarmAnywhere(s: State, id: JobId, v: JobUpdate) {
    forall k | 0 <= k < |s.past| :: NoHarm(s.past[k], id, v)
  }

  lemma HeardHarmless(s: State, m: Message, id: JobId, v: JobUpdate)
    requires Records(s.jobs, id, v) && IsTerminal(v.state) && id != ""
    ensures Records(Heard(s, m).jobs, id, v) <==> (m.JobMsg? && m.id == id ==> Harmless(m.upd, v))
  {
  }

  lemma NoHarmStays(s: State, e: Event, id: JobId, v: JobUpdate)
    requires Inv(s) && Enabled(s, e) && Holds(s, id, v) && NoHarmAnywhere(s, id, v)
    ensures NoHarmAnywhere(Step(s, e), id, v)
  {
    NewestNone(s.up, id);
    var s' := Step(s, e);
    forall k | 0 <= k < |s'.past| ensures NoHarm(s'.past[k], id, v) {
      if k < |s.past| {
        assert NoHarm(s.past[k], id, v);
        assert forall m | m in s'.past[k] :: m in s.past[k];
      } else {
        assert forall m | m in s'.past[k] :: m in s.up;
      }
    }
  }

  lemma HoldsStays(s: State, e: Event, id: JobId, v: JobUpdate)
    requires Inv(s) && Enabled(s, e) && Holds(s, id, v) && NoHarmAnywhere(s, id, v)
    ensures Holds(Step(s, e), id, v)
  {
    NothingNewInFlight(s, e, id);
    NewestNone(s.up, id);
    match e {
      case Process =>
        assert s.up[0] in s.up;
        HeardHarmless(s, s.up[0], id, v);
      case ProcessOld(k) =>
        assert NoHarm(s.past[k], id, v) && s.past[k][0] in s.past[k];
        HeardHarmless(s, s.past[k][0], id, v);
      case _ => EntryChangesOnlyByItsUpdates(s, e, id);
    }
  }

  lemma {:induction false} HoldsThroughout(s: State, run: seq<Event>, id: JobId, v: JobUpdate)
    requires Inv(s) && Holds(s, id, v) && NoHarmAnywhere(s, id, v) && Runs(s, run)
    ensures Holds(After(s, run), id, v) && NoHarmAnywhere(After(s, run), id, v)
    decreases |run|
  {
    if run == [] {
    } else {
      HoldsThroughout(s, Init(run), id, v);
      RunKeeps(s, Init(run));
      NoHarmStays(After(s, Init(run)), Last(run), id, v);
      HoldsStays(After(s, Init(run)), Last(run), id, v);
    }
  }

  /** A run may begin with one more step. */
  lemma {:induction false} RunsCons(s: State, e: Event, run: seq<Event>)
    requires Enabled(s, e) && Runs(Step(s, e), run)
    ensures Runs(s, [e] + run) && After(s, [e] + run) == After(Step(s, e), run)
    decreases |run|
  {
    if run == [] {
      assert [e] + run == [] + [e];
      Snoc([], e);
    } else {
      RunsCons(s, e, Init(run));
      assert Init([e] + run) == [e] + Init(run) && Last([e] + run) == Last(run);
    }
  }

  /** Reading an old stream up to its first harmful message undoes the verdict. */
  lemma {:induction false} HarmHappens(s: State, k: nat, id: JobId, v: JobUpdate) returns (run: seq<Event>)
    requires Inv(s) && Holds(s, id, v) && k < |s.past| && !NoHarm(s.past[k], id, v)
    ensures Runs(s, run) && !Records(After(s, run).jobs, id, v)
    decreases |s.past[k]|
  {
    var e, m := ProcessOld(k), s.past[k][0];
    var s' := Step(s, e);
    HeardHarmless(s, m, id, v);
    if m.JobMsg? && m.id == id && !Harmless(m.upd, v) {
      run := [];
      assert After(s', []) == s';
    } else {
      assert s.past[k] == [m] + s.past[k][1..];
      NothingNewInFlight(s, e, id);
      StepKeeps(s, e);
      run := HarmHappens(s', k, id, v);
    }
    RunsCons(s, e, run);
    run := [e] + run;
  }

  /** Exactly when a recorded verdict is final although the coordinator may still be reading
      earlier streams: it stays in every continuation if and only if each unread old update about
      the job states no state or is the verdict itself. */
  lemma VerdictStaysIff(s: State, id: JobId, v: JobUpdate)
    requires Inv(s) && Holds(s, id, v)
    ensures (forall run | Runs(s, run) :: Records(After(s, run).jobs, id, v)) <==> NoHarmAnywhere(s, id, v)
  {
    if NoHarmAnywhere(s, id, v) {
      forall run | Runs(s, run) ensures Records(After(s, run).jobs, id, v) {
        HoldsThroughout(s, run, id, v);
      }
    } else {
      var k :| 0 <= k < |s.past| && !NoHarm(s.past[k], id, v);
      var run := HarmHappens(s, k, id, v);
    }
  }

  lemma {:induction false} OneMore(s0: State, run: seq<Event>, e: Event, s': State)
    requires Runs(s0, run) && Enabled(After(s0, run), e) && Step(After(s0, run), e) == s'
    ensures Runs(s0, run + [e]) && After(s0, run + [e]) == s'
  {
    Snoc(run, e);
  }

  const GOING := JobUpdate(JobRunning, 0, "")
  const DONE := JobUpdate(JobSucceeded, 0, "")

  /** A job that finished on a new stream while its RUNNING update is unread on the old one. */
  const HALF_READ := State("n", 0, map["j" := Job("n", JobPending, 0, "", 0)], [], {"j"}, map["j" := DONE], None,
                           [JobMsg("j", DONE)], [[JobMsg("j", GOING)]], {"j"}, 0)

  lemma {:induction false} HalfReadIsReachable() returns (run: seq<Event>)
    ensures Runs(Start("n", 0), run) && After(Start("n", 0), run) == HALF_READ
  {
    var s0, jobs := Start("n", 0), HALF_READ.jobs;
    var s1 := State("n", 0, jobs, ["j"], {}, map[], None, [], [], {}, 0);
    var s2 := State("n", 0, jobs, [], {"j"}, map[], None, [], [], {}, 0);
    var s3 := s2.(up := [JobMsg("j", GOING)]);
    var s4 := State("n", 0, jobs, [], {"j"}, map[], None, [], [[JobMsg("j", GOING)]], {"j"}, 0);
    OneMore(s0, [], Dispatch("j"), s1);
    OneMore(s0, [] + [Dispatch("j")], Begin, s2);
    var p := Progress("j", GOING, true);
    OneMore(s0, [] + [Dispatch("j")] + [Begin], p, s3);
    assert s3.up[..1] == s3.up && s3.up[0] in s3.up && Updates(s3.up) == {"j"};
    OneMore(s0, [] + [Dispatch("j")] + [Begin] + [p], LoseSession(1), s4);
    var c := Conclude("j", DONE, true);
    OneMore(s0, [] + [Dispatch("j")] + [Begin] + [p] + [LoseSession(1)], c, HALF_READ);
    run := [] + [Dispatch("j")] + [Begin] + [p] + [LoseSession(1)] + [c];
  }

  /** The verdict is recorded, and then the old stream's update is read and undoes it. */
  lemma {:induction false} LateReadUndoesVerdict() returns (run: seq<Event>)
    ensures Runs(Start("n", 0), run)
    ensures var s := After(Start("n", 0), run);
      && "j" in s.verdicts && IsTerminal(s.verdicts["j"].state) && s.up == []
      && "j" in s.jobs && s.jobs["j"].state == JobRunning
  {
    run := HalfReadIsReachable();
    var s0 := Start("n", 0);
    var s1 := Step(HALF_READ, Process);
    assert s1.up == [] && s1.past[0] == [JobMsg("j", GOING)] && s1.jobs["j"].state == JobSucceeded;
    OneMore(s0, run, Process, s1);
    var s2 := Step(s1, ProcessOld(0));
    OneMore(s0, run + [Process], ProcessOld(0), s2);
    run := run + [Process] + [ProcessOld(0)];
  }
}
