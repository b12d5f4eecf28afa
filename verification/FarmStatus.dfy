/**
  The status of a job that was issued for building at most once: how it follows the one run
  the job can have, and why a finished status stays finished and a success stays a success.
*/
module FarmStatus {
  import opened Prelude
  import opened BuildFarm
  import opened FarmInvariants

  // ---------------------------------------------------------------------------
  // What one step does to a status
  // ---------------------------------------------------------------------------

  /** A handler or a deadline: run `r` was interrupted, and its job may have been marked cancelled. */
  ghost predicate Stopped(s: State, s': State, r: nat, cancel: bool)
    requires r in s.runs
  {
    && s'.jobs.Keys == s.jobs.Keys && s'.groups == s.groups
    && s'.outbox == s.outbox && s'.queue == s.queue && s'.book == s.book
    && (forall j | j in s.jobs ::
          && s'.jobs[j].group == s.jobs[j].group
          && s'.jobs[j].status == if cancel && j == s.runs[r].job then Cancelled else s.jobs[j].status)
    && s'.runs.Keys == s.runs.Keys
    && (forall q | q in s.runs :: s'.runs[q].job == s.runs[q].job && s'.runs[q].group == s.runs[q].group
          && s'.runs[q].control == s.runs[q].control)
  }

  lemma InterruptStops(s: State, r: nat, why: ContextError)
    requires r in s.runs
    ensures Stopped(s, Interrupted(s, r, why), r, false)
  {
  }

  lemma CancelStops(s: State, host: nat, j: nat)
    requires LiveOk(s) && (host, j) in s.live
    ensures Stopped(s, DoCancel(s, host, j), s.live[(host, j)], true)
  {
  }

  // ---------------------------------------------------------------------------
  // The status of a job issued once
  // ---------------------------------------------------------------------------

  predicate Waiting(st: Status) { st.Pending? || st.Queued? }

  /** The status is the one that the control state `c` of the job's only run allows. */
  predicate StatusFits(st: Status, c: Control) {
    && (!c.marked ==> Waiting(st))
    && (c.marked && !c.wrote ==> st.Running? || st.Cancelled?)
    && (c.wrote ==> st.Terminal())
    && (st.Success? ==> c.left && !c.late)
    && (c.wrote && !c.late ==> st.Success?)
  }

  ghost predicate OnceOk(s: State) {
    && (forall j | j in s.jobs && Issued(s, j) <= 1 && s.book.taken[j] == 0 :: Waiting(s.jobs[j].status))
    && (forall r | r in s.runs && s.runs[r].job in s.jobs && Issued(s, s.runs[r].job) <= 1 ::
          StatusFits(s.jobs[s.runs[r].job].status, s.runs[r].control))
  }

  lemma NextKeepsFit(st: Status, c: Control, e: Event)
    requires ControlOk(c) && Next(c, e).Some? && StatusFits(st, c)
    ensures StatusFits(StatusAfter(st, c, e), Next(c, e).value)
    ensures st.Terminal() ==> StatusAfter(st, c, e).Terminal()
    ensures st.Success? ==> (StatusAfter(st, c, e).Success? <==> !e.WriteFailure?)
  {
  }

  /** The only run of a job that was issued once. */
  lemma OnlyRun(s: State, r: nat, q: nat)
    requires LedgerOk(s) && UniqueOk(s) && r in s.runs && q in s.runs && s.runs[r].job == s.runs[q].job
    requires Issued(s, s.runs[r].job) <= 1
    ensures r == q
  {
  }

  lemma MovedKeepsOnce(s: State, s': State, r: nat, e: Event)
    requires LedgerOk(s) && RunsOk(s) && UniqueOk(s) && OnceOk(s)
    requires r in s.runs && Next(s.runs[r].control, e).Some? && Moved(s, s', r, e)
    ensures OnceOk(s')
  {
    assert forall j: nat :: Issued(s', j) == Issued(s, j);
    var j0 := s.runs[r].job;
    assert s.book.taken[j0] >= 1;
    forall q | q in s'.runs && s'.runs[q].job in s'.jobs && Issued(s', s'.runs[q].job) <= 1
      ensures StatusFits(s'.jobs[s'.runs[q].job].status, s'.runs[q].control)
    {
      if s.runs[q].job == j0 {
        OnlyRun(s, q, r);
        NextKeepsFit(s.jobs[j0].status, s.runs[r].control, e);
      }
    }
  }

  lemma StoppedKeepsOnce(s: State, s': State, r: nat, cancel: bool)
    requires LedgerOk(s) && RunsOk(s) && UniqueOk(s) && OnceOk(s)
    requires r in s.runs && Stopped(s, s', r, cancel)
    requires cancel ==> s.runs[r].control.marked && !s.runs[r].control.left
    ensures OnceOk(s')
  {
    assert forall j: nat :: Issued(s', j) == Issued(s, j);
    assert s.book.taken[s.runs[r].job] >= 1;
    forall q | q in s'.runs && s'.runs[q].job in s'.jobs && Issued(s', s'.runs[q].job) <= 1
      ensures StatusFits(s'.jobs[s'.runs[q].job].status, s'.runs[q].control)
    {
      if s.runs[q].job == s.runs[r].job {
        OnlyRun(s, q, r);
      }
    }
  }

  /** A request changes a status only by issuing the job once more. */
  ghost predicate Reissues(s: State, s': State) {
    forall j | j in s'.jobs ::
      if j in s.jobs
      then s'.jobs[j].status == s.jobs[j].status || (s'.jobs[j].status.Queued? && Issued(s', j) > Issued(s, j))
      else s'.jobs[j].status.Pending?
  }

  lemma RequestKeepsOnce(s: State, s': State)
    requires Wf(s) && OnceOk(s) && RequestMove(s, s') && Reissues(s, s')
    ensures OnceOk(s')
  {
  }

  lemma RequestsReissue(s: State, a: Action)
    requires Enabled(s, a) && IdsOk(s)
    requires a.Submit? || a.Start? || a.StartGroup? || a.DeleteUser? || a.SendMessage? || a.SendFails?
    ensures Reissues(s, Apply(s, a))
  {
  }

  lemma CreateGroupReissues(s: State, user: nat, ids: seq<nat>, triggers: nat, execute: bool)
    ensures Reissues(s, DoCreateGroup(s, user, ids, triggers, execute))
  {
  }

  lemma TakeKeepsOnce(s: State, j: nat, host: nat)
    requires Wf(s) && OnceOk(s) && s.queue[j] > 0
    ensures OnceOk(DoTake(s, j, host))
  {
    var s' := DoTake(s, j, host);
    assert s.book.sent[j] == s.queue[j] + s.book.taken[j];
    assert forall k: nat :: Issued(s', k) == Issued(s, k);
    forall r | r in s'.runs && s'.runs[r].job in s'.jobs && Issued(s', s'.runs[r].job) <= 1
      ensures StatusFits(s'.jobs[s'.runs[r].job].status, s'.runs[r].control)
    {
      assert r in s.runs || (r == s.nextRun && s'.runs[r] == Run(j, host, s.jobs[j].group, Fresh, Alive));
    }
  }

  // ---------------------------------------------------------------------------
  // Finished stays finished
  // ---------------------------------------------------------------------------

  /** A job issued once that is finished in `s` is finished in `s'`, if its row is still there. */
  ghost predicate FinishedKept(s: State, s': State) {
    forall j | j in s.jobs && j in s'.jobs && s.jobs[j].status.Terminal() && Issued(s', j) <= 1 ::
      s'.jobs[j].status.Terminal()
  }

  lemma MovedKeepsFinished(s: State, s': State, r: nat, e: Event)
    requires ControlsOk(s) && OnceOk(s) && r in s.runs && Next(s.runs[r].control, e).Some? && Moved(s, s', r, e)
    ensures FinishedKept(s, s')
  {
  }

}
