/** The agent's own records: which jobs and deployments it is running. They belong to
    the agent, not to a connection, so only the end of the work removes an entry. */
module Clients {
  import opened Base
  import S = Schedulers
  import D = Deployments

  /** Running work, with whether its context has been cancelled. */
  type Active = map<string, bool>

  function Begun(active: Active, id: string): Active {
    if id in active then active else active[id := false]
  }

  function Cancelled(active: Active, id: string): Active {
    if id in active then active[id := true] else active
  }

  function Finished(active: Active, id: string): Active {
    active - {id}
  }

  // ---- what each of them means for single entries ----

  ghost predicate OtherEntriesStay(active: Active, active': Active, id: string) {
    forall x | x != id :: (x in active' <==> x in active) && (x in active ==> active'[x] == active[x])
  }

  /** A new entry is running; one that is there already stays as it is, cancelled or not. */
  ghost predicate BeginMeans(active: Active, active': Active, id: string) {
    OtherEntriesStay(active, active', id) && id in active' && active'[id] == (id in active && active[id])
  }

  /** A cancelled entry stays until its work has ended; an unknown id is ignored. */
  ghost predicate CancelMeans(active: Active, active': Active, id: string) {
    OtherEntriesStay(active, active', id) && (id in active' <==> id in active) && (id in active' ==> active'[id])
  }

  ghost predicate EndMeans(active: Active, active': Active, id: string) {
    OtherEntriesStay(active, active', id) && id !in active'
  }

  lemma EntriesMean(active: Active, id: string)
    ensures BeginMeans(active, Begun(active, id), id)
    ensures CancelMeans(active, Cancelled(active, id), id)
    ensures EndMeans(active, Finished(active, id), id)
  {
  }

  class Client {
    var jobs: Active
    var deployments: Active
    const hasRunner: bool
    const hasEngine: bool

    constructor (hasRunner: bool, hasEngine: bool)
      ensures jobs == map[] && deployments == map[]
      ensures this.hasRunner == hasRunner && this.hasEngine == hasEngine
    {
      this.hasRunner, this.hasEngine := hasRunner, hasEngine;
      jobs, deployments := map[], map[];
    }

    /** A duplicate is ignored. An agent without a runtime enters nothing and reports the job FAILED. */
    method StartJob(id: string) returns (emitted: Option<S.JobUpdate>)
      modifies this`jobs
      ensures emitted.Some? <==> !hasRunner
      ensures emitted.Some? ==> emitted.value.state == S.JobFailed && emitted.value.error != ""
      ensures jobs == if hasRunner then Begun(old(jobs), id) else old(jobs)
      ensures hasRunner ==> BeginMeans(old(jobs), jobs, id)
    {
      if !hasRunner {
        return Some(S.JobUpdate(S.JobFailed, 0, "node has no container runtime"));
      }
      if id in jobs {
        return None;
      }
      jobs := jobs[id := false];
      return None;
    }

    method CancelJob(id: string)
      modifies this`jobs
      ensures jobs == Cancelled(old(jobs), id)
      ensures CancelMeans(old(jobs), jobs, id)
    {
      if id in jobs {
        jobs := jobs[id := true];
      }
    }

    method RemoveJob(id: string)
      modifies this`jobs
      ensures jobs == Finished(old(jobs), id)
      ensures EndMeans(old(jobs), jobs, id)
    {
      jobs := jobs - {id};
    }

    method StartDeployment(id: string) returns (emitted: Option<D.Update>)
      modifies this`deployments
      ensures emitted.Some? <==> !hasEngine
      ensures emitted.Some? ==> emitted.value.state == D.StateFailed && emitted.value.error != ""
      ensures deployments == if hasEngine then Begun(old(deployments), id) else old(deployments)
      ensures hasEngine ==> BeginMeans(old(deployments), deployments, id)
    {
      if !hasEngine {
        return Some(D.Update(D.StateFailed, 0, "node has no deployment engine", 0));
      }
      if id in deployments {
        return None;
      }
      deployments := deployments[id := false];
      return None;
    }

    /** Stopping only cancels; the entry stays until the engine has gone. */
    method StopDeployment(id: string)
      modifies this`deployments
      ensures deployments == Cancelled(old(deployments), id)
      ensures CancelMeans(old(deployments), deployments, id)
    {
      if id in deployments {
        deployments := deployments[id := true];
      }
    }

    method RemoveDeployment(id: string)
      modifies this`deployments
      ensures deployments == Finished(old(deployments), id)
      ensures EndMeans(old(deployments), deployments, id)
    {
      deployments := deployments - {id};
    }

    method ActiveDeploymentIds() returns (ids: seq<string>)
      ensures Distinct(ids) && Elements(ids) == deployments.Keys
    {
      ids := Listed(deployments.Keys);
    }

    method ActiveJobIds() returns (ids: seq<string>)
      ensures Distinct(ids) && Elements(ids) == jobs.Keys
    {
      ids := Listed(jobs.Keys);
    }
  }

  /** A set written out in an arbitrary order. */
  method Listed(keys: set<string>) returns (ids: seq<string>)
    ensures Distinct(ids) && Elements(ids) == keys
  {
    ids := [];
    var todo := keys;
    while todo != {}
      invariant todo <= keys
      invariant Distinct(ids) && Elements(ids) == keys - todo
      decreases |todo|
    {
      var id :| id in todo;
      assert id !in Elements(ids);
      DistinctSnoc(ids, id);
      todo := todo - {id};
      ids := ids + [id];
    }
  }
}
