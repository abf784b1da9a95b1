/** Whether an agent whose session has met an error ever dials again. The teardown waits for the
    writer before it cancels the session's context, and the writer only leaves when a send fails
    or that context is done; so somebody has to give it something to send. */
module Redials {
  import opened Base
  import opened Sessions

  /** The last session has met an error and waits for its goroutines. */
  ghost predicate Leaving(s: State) {
    s.sessions != [] && Last(s.sessions).alive && Last(s.sessions).leaving
  }

  /** Its context is done already, or there is something for its writer to send, or it got as far
      as publishing its queue, so that its heartbeat loop will give the writer something. */
  predicate Wakes(s: State)
    requires s.sessions != []
  {
    Last(s.sessions).cancelled || Last(s.sessions).queue != [] || Last(s.sessions).published
  }

  /** Without a shutdown, some continuation dials again. */
  ghost predicate CanRedial(s: State) {
    exists run :: Runs(s, run) && Shutdown !in run && Enabled(After(s, run), Dial)
  }

  // ---- a session that nothing wakes ----

  lemma StuckStays(s: State, e: Event)
    requires Inv(s) && Leaving(s) && !Wakes(s) && Enabled(s, e) && e != Shutdown
    ensures Leaving(Step(s, e)) && !Wakes(Step(s, e))
  {
    var s', top := Step(s, e), |s.sessions| - 1;
    assert SessionInv(s.sessions[top]);
    assert HeartbeatTask(top) !in s.tasks by {
      assert !IsWork(HeartbeatTask(top));
    }
    assert s'.sessions[top] == s.sessions[top] || s'.sessions[top] == s.sessions[top].(broken := true);
  }

  lemma {:induction false} HangsForGood(s: State, run: seq<Event>)
    requires Inv(s) && Leaving(s) && !Wakes(s) && Runs(s, run) && Shutdown !in run
    ensures Leaving(After(s, run)) && !Wakes(After(s, run))
    decreases |run|
  {
    if run == [] {
    } else {
      InitLast(run);
      HangsForGood(s, Init(run));
      RunKeeps(s, Init(run));
      StuckStays(After(s, Init(run)), Last(run));
    }
  }

  // ---- a session that something wakes ----

  lemma {:induction false} OneMore(s: State, run: seq<Event>, e: Event)
    requires Runs(s, run) && Enabled(After(s, run), e) && e != Shutdown && Shutdown !in run
    ensures Runs(s, run + [e]) && After(s, run + [e]) == Step(After(s, run), e) && Shutdown !in run + [e]
  {
    Snoc(run, e);
  }

  lemma {:induction false} Continue(s: State, run: seq<Event>, more: seq<Event>)
    requires Runs(s, run) && Runs(After(s, run), more) && Shutdown !in run && Shutdown !in more
    ensures Runs(s, run + more) && After(s, run + more) == After(After(s, run), more) && Shutdown !in run + more
    decreases |more|
  {
    if more == [] {
      assert run + more == run;
    } else {
      InitLast(more);
      Continue(s, run, Init(more));
      assert Init(run + more) == run + Init(more) && Last(run + more) == Last(more);
    }
  }

  /** Once the context is done everybody leaves, and the session returns. */
  lemma {:induction false} CancelledReturns(s: State) returns (run: seq<Event>)
    requires Inv(s) && !s.stopped && Leaving(s) && Last(s.sessions).cancelled
    ensures Runs(s, run) && Shutdown !in run && Enabled(After(s, run), Dial)
  {
    var top := |s.sessions| - 1;
    run := [];
    if s.sessions[top].writing {
      OneMore(s, run, WriterLeaves(top));
      run := run + [WriterLeaves(top)];
    }
    var s1 := After(s, run);
    if HeartbeatTask(top) in s1.tasks {
      assert !IsWork(HeartbeatTask(top));
      OneMore(s, run, Expire(HeartbeatTask(top)));
      run := run + [Expire(HeartbeatTask(top))];
    }
    OneMore(s, run, Fall(top));
    run := run + [Fall(top)];
  }

  /** A writer with something to send finds the stream broken and cancels. */
  lemma {:induction false} WriterNotices(s: State) returns (run: seq<Event>)
    requires Inv(s) && !s.stopped && Leaving(s) && Last(s.sessions).queue != [] && Last(s.sessions).writing
    ensures Runs(s, run) && Shutdown !in run
    ensures var s' := After(s, run); !s'.stopped && Leaving(s') && Last(s'.sessions).cancelled
  {
    var top := |s.sessions| - 1;
    var s1 := WithSession(s, top, s.sessions[top].(broken := true));
    OneMore(s, [], Break(top));
    assert After(s, [] + [Break(top)]) == s1;
    BrokenWrite(s1, top);
    OneMore(s, [] + [Break(top)], Write(top));
    run := [] + [Break(top)] + [Write(top)];
  }

  lemma BrokenWrite(s: State, i: nat)
    requires i < |s.sessions| && s.sessions[i].writing && s.sessions[i].queue != [] && s.sessions[i].broken
    ensures Enabled(s, Write(i))
    ensures var x := s.sessions[i];
      Step(s, Write(i)) == WithSession(s, i, x.(queue := x.queue[1..], cancelled := true, writing := false))
  {
  }

  /** The heartbeat loop of a published session gives the writer something. */
  lemma {:induction false} SomebodyFeedsIt(s: State) returns (run: seq<Event>)
    requires Inv(s) && !s.stopped && Leaving(s) && Wakes(s) && !Last(s.sessions).cancelled
    ensures Runs(s, run) && Shutdown !in run
    ensures var s' := After(s, run); !s'.stopped && Leaving(s') && Last(s'.sessions).queue != [] && Last(s'.sessions).writing
  {
    var top := |s.sessions| - 1;
    assert SessionInv(s.sessions[top]);
    run := [];
    if s.sessions[top].queue == [] {
      OneMore(s, run, PushHeartbeat(top));
      run := run + [PushHeartbeat(top)];
    }
  }

  lemma {:induction false} WakesAndRedials(s: State) returns (run: seq<Event>)
    requires Inv(s) && !s.stopped && Leaving(s) && Wakes(s)
    ensures Runs(s, run) && Shutdown !in run && Enabled(After(s, run), Dial)
  {
    run := [];
    if !Last(s.sessions).cancelled {
      var fed := SomebodyFeedsIt(s);
      RunKeeps(s, fed);
      var noticed := WriterNotices(After(s, fed));
      Continue(s, fed, noticed);
      run := fed + noticed;
    }
    RunKeeps(s, run);
    var rest := CancelledReturns(After(s, run));
    Continue(s, run, rest);
    run := run + rest;
  }

  /** A session that has met an error can be followed by another, short of a shutdown, if and only
      if its context is done already, or its writer has something to send, or it got as far as
      publishing its queue. */
  lemma RedialIff(s: State)
    requires Inv(s) && !s.stopped && Leaving(s)
    ensures CanRedial(s) <==> Wakes(s)
  {
    if Wakes(s) {
      var run := WakesAndRedials(s);
    } else if CanRedial(s) {
      var run :| Runs(s, run) && Shutdown !in run && Enabled(After(s, run), Dial);
      HangsForGood(s, run);
    }
  }

  /** One that was never acknowledged, and whose Register has gone out, cannot: a run in which the
      agent hangs for good. */
  lemma {:induction false} AgentHangs() returns (run: seq<Event>)
    ensures Runs(Start(), run) && Shutdown !in run
    ensures var s := After(Start(), run); Inv(s) && !s.stopped && Leaving(s) && !CanRedial(s)
  {
    run := UnacknowledgedRun();
    RunKeeps(Start(), run);
    RedialIff(After(Start(), run));
  }

  const FRESH := Session([], [], false, false, false, false, false, true, true)

  function Only(x: Session): State {
    Start().(sessions := [x])
  }

  lemma {:induction false} UnacknowledgedRun() returns (run: seq<Event>)
    ensures Runs(Start(), run) && Shutdown !in run
    ensures After(Start(), run) == Only(FRESH.(sent := [RegisterFrame], enrolled := true, broken := true, leaving := true))
  {
    run := RegisterSentRun();
    var x := FRESH.(sent := [RegisterFrame], enrolled := true);
    assert Step(Only(x), Break(0)).sessions == [x.(broken := true)];
    OneMore(Start(), run, Break(0));
    run := run + [Break(0)];
    assert Step(Only(x.(broken := true)), Leave(0)).sessions == [x.(broken := true, leaving := true)];
    OneMore(Start(), run, Leave(0));
    run := run + [Leave(0)];
  }

  lemma {:induction false} RegisterSentRun() returns (run: seq<Event>)
    ensures Runs(Start(), run) && Shutdown !in run
    ensures After(Start(), run) == Only(FRESH.(sent := [RegisterFrame], enrolled := true))
  {
    OneMore(Start(), [], Dial);
    assert Step(Start(), Dial) == Only(FRESH);
    var x := FRESH.(queue := [RegisterFrame], enrolled := true);
    assert Pushed(FRESH, RegisterFrame).(enrolled := true) == x by {
      assert [] + [RegisterFrame] == [RegisterFrame];
    }
    assert Step(Only(FRESH), Enroll).sessions == [x];
    OneMore(Start(), [] + [Dial], Enroll);
    assert Written(x) == FRESH.(sent := [RegisterFrame], enrolled := true);
    assert Step(Only(x), Write(0)).sessions == [Written(x)];
    OneMore(Start(), [] + [Dial] + [Enroll], Write(0));
    run := [] + [Dial] + [Enroll] + [Write(0)];
  }
}
