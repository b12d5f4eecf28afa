/**
  A worker's HTTP handlers for cancel, terminate and claim.  Each holds `jobsMutex` throughout, so it
  is one step of `BuildFarm`; `farm` is the state of the whole system.
*/
module HttpServer {
  import opened Prelude
  import opened BuildFarm

  /** A worker's map, contexts and view of the job table are its part of the farm's. */
  ghost predicate Mirrors(host: nat, jobs: map<nat, nat>, errs: map<nat, ContextError>, rows: map<nat, JobRow>,
      farm: State)
  {
    && rows == farm.jobs
    && (forall j: nat :: j in jobs <==> (host, j) in farm.live)
    && (forall j: nat | j in jobs :: jobs[j] == farm.live[(host, j)] && jobs[j] in errs)
    && (forall r: nat :: r in errs <==> r in farm.runs)
    && (forall r: nat | r in errs :: errs[r] == farm.runs[r].err)
  }

  lemma MirrorsCancelled(host: nat, jobs: map<nat, nat>, errs: map<nat, ContextError>, rows: map<nat, JobRow>,
      farm: State, j: nat)
    requires Mirrors(host, jobs, errs, rows, farm) && j in jobs
    ensures var errs' := errs[jobs[j] := Interrupt(errs[jobs[j]], Canceled)];
      && Mirrors(host, jobs, errs', rows, DoTerminate(farm, host, j))
      && Mirrors(host, jobs, errs', SetStatus(rows, j, Cancelled), DoCancel(farm, host, j))
  {
  }

  lemma NoEntryNoStep(host: nat, farm: State, j: nat)
    requires (host, j) !in farm.live
    ensures DoTerminate(farm, host, j) == farm && DoCancel(farm, host, j) == farm
  {
  }

  class Worker {
    const host: nat
    var jobs: map<nat, nat>          // jobs[job_id]: the run in progress
    var errs: map<nat, ContextError> // what has become of the runs' contexts
    var claimed: set<nat>            // the runs that have been claimed
    var rows: map<nat, JobRow>       // the job table
    ghost var farm: State

    ghost predicate Valid()
      reads this
    {
      Mirrors(host, jobs, errs, rows, farm)
    }

    /** job.Cancel(): a context that is already done stays as it is. */
    method CancelContext(r: nat)
      requires r in errs
      modifies this`errs
      ensures errs.Keys == old(errs).Keys && forall q | q in errs && q != r :: errs[q] == old(errs)[q]
      ensures !errs[r].Alive? && (!old(errs)[r].Alive? ==> errs[r] == old(errs)[r])
      ensures errs == old(errs)[r := BuildFarm.Interrupt(old(errs)[r], Canceled)]
    {
      if errs[r].Alive? {
        errs := errs[r := Canceled];
      }
    }

    /** Ends the run's context and, for a cancellation, writes the row; the farm follows. */
    method Interrupt(cancel: bool, j: nat)
      requires Valid() && j in jobs
      modifies this`errs, this`rows, this`farm
      ensures Valid()
      ensures farm == if cancel then DoCancel(old(farm), host, j) else DoTerminate(old(farm), host, j)
    {
      MirrorsCancelled(host, jobs, errs, rows, farm, j);
      CancelContext(jobs[j]);
      if cancel {
        rows := SetStatus(rows, j, Cancelled);
      }
      farm := if cancel then DoCancel(farm, host, j) else DoTerminate(farm, host, j);
    }

    /**
      POST to /job/<id>/cancel or /job/<id>/terminate: the farm's step of the same name, answered with
      200 exactly when this worker's map has the job.
    */
    method Stop(cancel: bool, j: nat) returns (code: nat)
      requires Valid()
      modifies this`errs, this`rows, this`farm
      ensures Valid()
      ensures code == if (host, j) in old(farm).live then 200 else 404
      ensures cancel ==> farm == Apply(old(farm), HandleCancel(host, j))
      ensures !cancel ==> farm == Apply(old(farm), HandleTerminate(host, j))
    {
      if j !in jobs {
        NoEntryNoStep(host, farm, j);
        return 404;
      }
      Interrupt(cancel, j);
      return 200;
    }

    /** POST to /job/<id>/claim: marks the run in progress, which lengthens its standby, and nothing else. */
    method Claim(j: nat) returns (code: nat)
      requires Valid()
      modifies this`claimed
      ensures Valid()
      ensures code == if (host, j) in farm.live then 200 else 404
      ensures claimed == old(claimed) + if (host, j) in farm.live then {farm.live[(host, j)]} else {}
    {
      if j !in jobs {
        return 404;
      }
      claimed := claimed + {jobs[j]};
      return 200;
    }
  }
}
