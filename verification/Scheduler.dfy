/** The coordinator's job table. */
module Schedulers {
  import opened Base
  import opened Registries

  type JobId = string

  datatype JobState = JobUnspecified | JobPending | JobRunning | JobSucceeded | JobFailed | JobCancelled

  datatype JobUpdate = JobUpdate(state: JobState, exitCode: int, error: string)

  datatype Job = Job(node: NodeId, state: JobState, lastUpdate: Time, error: string, exitCode: int)

  type Jobs = map<JobId, Job>

  const RECONCILE_GRACE: Time := 30 * SECOND

  predicate IsTerminal(s: JobState) {
    s == JobSucceeded || s == JobFailed || s == JobCancelled
  }

  function Dispatched(jobs: Jobs, id: JobId, node: NodeId, now: Time): Jobs {
    jobs[id := Job(node, JobPending, now, "", 0)]
  }

  /** An unknown job is adopted; a terminal update also records its error and exit code. */
  function JobUpdated(jobs: Jobs, node: NodeId, id: JobId, upd: JobUpdate, now: Time): Jobs {
    if id == "" then jobs
    else
      var j := if id in jobs then jobs[id] else Job(node, JobUnspecified, now, "", 0);
      var j' := if upd.state != JobUnspecified then j.(state := upd.state) else j;
      var j'' := if IsTerminal(upd.state) then j'.(error := upd.error, exitCode := upd.exitCode) else j';
      jobs[id := j''.(lastUpdate := now)]
  }

  /** A live job of this node that the heartbeat omits and that has been quiet for the grace period fails. */
  function JobReconciled(j: Job, id: JobId, node: NodeId, active: set<JobId>, now: Time): Job {
    if j.node != node || IsTerminal(j.state) || id in active || j.lastUpdate > now - RECONCILE_GRACE then j
    else j.(state := JobFailed, error := "agent no longer reports this job", lastUpdate := now)
  }

  function JobsReconciled(jobs: Jobs, node: NodeId, active: set<JobId>, now: Time): Jobs {
    map id | id in jobs :: JobReconciled(jobs[id], id, node, active, now)
  }

  // ---- what the two operations mean for single jobs ----

  const FINAL_STATES: set<JobState> := {JobSucceeded, JobFailed, JobCancelled}

  /** Each job apart from the one named stays as it was; that one takes over a stated state, takes
      over error and exit code with a final state, and belongs to whom it did, or else to the sender. */
  ghost predicate UpdateMeans(jobs: Jobs, jobs': Jobs, node: NodeId, id: JobId, upd: JobUpdate, now: Time) {
    && (forall other | other in jobs && other != id :: other in jobs' && jobs'[other] == jobs[other])
    && (forall other | other in jobs' && other != id :: other in jobs)
    && (id == "" ==> jobs' == jobs)
    && (id != "" ==>
          && id in jobs' && jobs'[id].lastUpdate == now
          && jobs'[id].node == (if id in jobs then jobs[id].node else node)
          && (upd.state != JobUnspecified ==> jobs'[id].state == upd.state)
          && (upd.state == JobUnspecified && id in jobs ==> jobs'[id].state == jobs[id].state)
          && (upd.state in FINAL_STATES ==> jobs'[id].error == upd.error && jobs'[id].exitCode == upd.exitCode)
          && (upd.state !in FINAL_STATES && id in jobs ==>
                jobs'[id].error == jobs[id].error && jobs'[id].exitCode == jobs[id].exitCode))
  }

  /** The heartbeat fails a job exactly when it is the node's, is not in a final state, is not
      named, and was last heard of 30 s ago or longer; every other job stays as it was. */
  ghost predicate HeartbeatMeans(jobs: Jobs, jobs': Jobs, node: NodeId, active: set<JobId>, now: Time) {
    && jobs'.Keys == jobs.Keys
    && forall id | id in jobs ::
         if jobs[id].node == node && jobs[id].state !in FINAL_STATES && id !in active && now - jobs[id].lastUpdate >= 30 * SECOND
         then jobs'[id].state == JobFailed && jobs'[id].error != "" && jobs'[id].lastUpdate == now
              && jobs'[id].node == jobs[id].node && jobs'[id].exitCode == jobs[id].exitCode
         else jobs'[id] == jobs[id]
  }

  lemma JobUpdatedMeans(jobs: Jobs, node: NodeId, id: JobId, upd: JobUpdate, now: Time)
    ensures UpdateMeans(jobs, JobUpdated(jobs, node, id, upd, now), node, id, upd, now)
  {
  }

  lemma JobsReconciledMeans(jobs: Jobs, node: NodeId, active: set<JobId>, now: Time)
    ensures HeartbeatMeans(jobs, JobsReconciled(jobs, node, active, now), node, active, now)
  {
  }

  datatype RunError = UnknownNode | NodeOffline | SendError

  class Scheduler {
    const reg: Registry
    var jobs: Jobs

    constructor (reg: Registry)
      ensures this.reg == reg && jobs == map[]
    {
      this.reg := reg;
      jobs := map[];
    }

    method Transmit() returns (accepted: bool) {
      accepted := *;
    }

    /** Recorded before it is sent, and forgotten again when the send fails. */
    method RunJob(node: NodeId, minted: JobId, now: Time) returns (error: Option<RunError>)
      requires minted !in jobs
      modifies this
      ensures node !in reg.nodes <==> error == Some(UnknownNode)
      ensures node in reg.nodes && !(IsOnline(reg.nodes, node) && Sendable(reg.nodes, node)) <==> error == Some(NodeOffline)
      ensures error.Some? ==> jobs == old(jobs)
      ensures error.None? ==> jobs == Dispatched(old(jobs), minted, node, now)
      ensures error.None? ==> jobs == old(jobs)[minted := Job(node, JobPending, now, "", 0)]
    {
      var n := reg.Get(node);
      if n.None? {
        return Some(UnknownNode);
      }
      if n.value.status != Online || n.value.send.None? {
        return Some(NodeOffline);
      }
      jobs := jobs[minted := Job(node, JobPending, now, "", 0)];
      var accepted := Transmit();
      if !accepted {
        jobs := jobs - {minted};
        assert jobs == old(jobs);
        return Some(SendError);
      }
      return None;
    }

    method OnJobUpdate(node: NodeId, id: JobId, upd: JobUpdate, now: Time)
      modifies this
      ensures jobs == JobUpdated(old(jobs), node, id, upd, now)
      ensures UpdateMeans(old(jobs), jobs, node, id, upd, now)
    {
      if id == "" {
        return;
      }
      var j;
      if id in jobs {
        j := jobs[id];
      } else {
        j := Job(node, JobUnspecified, now, "", 0);
      }
      if upd.state != JobUnspecified {
        j := j.(state := upd.state);
      }
      if IsTerminal(upd.state) {
        j := j.(error := upd.error, exitCode := upd.exitCode);
      }
      jobs := jobs[id := j.(lastUpdate := now)];
    }

    method Reconcile(node: NodeId, activeIds: seq<JobId>, now: Time)
      modifies this
      ensures jobs == JobsReconciled(old(jobs), node, (set id | id in activeIds), now)
      ensures HeartbeatMeans(old(jobs), jobs, node, (set id | id in activeIds), now)
    {
      var active := set id | id in activeIds;
      var cutoff := now - RECONCILE_GRACE;
      var todo := jobs.Keys;
      while todo != {}
        invariant todo <= jobs.Keys == old(jobs).Keys
        invariant forall id | id in todo :: jobs[id] == old(jobs)[id]
        invariant forall id | id in jobs && id !in todo :: jobs[id] == JobReconciled(old(jobs)[id], id, node, active, now)
        decreases |todo|
      {
        var id :| id in todo;
        todo := todo - {id};
        var j := jobs[id];
        if j.node != node || IsTerminal(j.state) || id in active {
          continue;
        }
        if j.lastUpdate > cutoff {
          continue;
        }
        jobs := jobs[id := j.(state := JobFailed, error := "agent no longer reports this job", lastUpdate := now)];
      }
    }
  }
}
