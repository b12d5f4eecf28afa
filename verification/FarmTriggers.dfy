/**
  Group triggers: they never fire before the members are done, and a group whose members
  have all been built does fire.
*/
module FarmTriggers {
  import opened Prelude
  import opened BuildFarm
  import opened FarmInvariants
  import opened FarmStatus

  // ---------------------------------------------------------------------------
  // Safety: a run about to fire has seen every member done
  // ---------------------------------------------------------------------------

  predicate AboutToFire(c: Control) {
    c.pc.Triggering? && c.pc.stage.Fire?
  }

  ghost predicate FireOk(s: State) {
    forall r, j | r in s.runs && AboutToFire(s.runs[r].control) && s.runs[r].group.Some?
                  && j in s.jobs && s.jobs[j].group == s.runs[r].group && Issued(s, j) <= 1 ::
      s.jobs[j].status.Terminal()
  }

  lemma OnlyReadingLeadsToFire(c: Control, e: Event)
    requires Next(c, e).Some? && AboutToFire(Next(c, e).value)
    ensures e == Trigger(ReadJobs(true))
  {
  }

  /** Rows keep their groups, finished jobs stay finished, and only `r` may newly be about to fire. */
  lemma FireCarriesOver(s: State, s': State, r: nat)
    requires FireOk(s) && FinishedKept(s, s')
    requires s'.jobs.Keys == s.jobs.Keys && (forall j | j in s.jobs :: s'.jobs[j].group == s.jobs[j].group)
    requires forall j: nat :: Issued(s', j) == Issued(s, j)
    requires s'.runs.Keys == s.runs.Keys && (forall q | q in s.runs :: s'.runs[q].group == s.runs[q].group)
    requires forall q | q in s.runs && q != r :: AboutToFire(s'.runs[q].control) ==> AboutToFire(s.runs[q].control)
    requires r in s.runs && AboutToFire(s'.runs[r].control) && s.runs[r].group.Some? ==>
      AllTerminal(s, s.runs[r].group.value)
    ensures FireOk(s')
  {
  }

  lemma MovedKeepsFire(s: State, s': State, r: nat, e: Event)
    requires ControlsOk(s) && OnceOk(s) && FireOk(s)
    requires r in s.runs && Next(s.runs[r].control, e).Some? && Observes(s, s.runs[r], e) && Moved(s, s', r, e)
    ensures FireOk(s')
  {
    MovedKeepsFinished(s, s', r, e);
    if AboutToFire(s'.runs[r].control) {
      OnlyReadingLeadsToFire(s.runs[r].control, e);
    }
    FireCarriesOver(s, s', r);
  }

  lemma StoppedKeepsFire(s: State, s': State, r: nat, cancel: bool)
    requires FireOk(s) && r in s.runs && Stopped(s, s', r, cancel)
    ensures FireOk(s')
  {
  }

  lemma RequestKeepsFire(s: State, s': State)
    requires IdsOk(s) && LedgerOk(s) && OnceOk(s) && FireOk(s) && RequestMove(s, s') && Reissues(s, s')
    ensures FireOk(s')
  {
  }

  lemma TakeKeepsFire(s: State, j: nat, host: nat)
    requires FireOk(s) && s.queue[j] > 0 && IdsOk(s)
    ensures FireOk(DoTake(s, j, host))
  {
  }

  // ---------------------------------------------------------------------------
  // Liveness: while something is unfinished, something is owed
  // ---------------------------------------------------------------------------

  /** The run has a terminal status still to write, or will never write one. */
  predicate StatusToCome(c: Control) {
    !c.pc.Triggering? && !c.pc.Closing? && !c.pc.Finished?
  }

  /** A queued or running job has a message not yet taken, or a run with its status to come. */
  ghost predicate Awaited(s: State, j: nat) {
    || Issued(s, j) > s.book.taken[j]
    || exists r :: r in s.runs && s.runs[r].job == j && StatusToCome(s.runs[r].control)
  }

  ghost predicate AwaitedOk(s: State) {
    forall j | j in s.jobs && (s.jobs[j].status.Queued? || s.jobs[j].status.Running?) :: Awaited(s, j)
  }

  /** The run has not yet been through the group queries of `g`, or never will. */
  predicate Owes(run: Run, g: nat) {
    || run.group != Some(g) || run.control.readError || run.control.pc.Crashed?
    || StatusToCome(run.control)
    || (run.control.pc.Triggering? && !run.control.pc.stage.Own? && !run.control.pc.stage.Tail?)
  }

  predicate InGroup(s: State, j: nat, g: nat) {
    j in s.jobs && s.jobs[j].group == Some(g)
  }

  ghost predicate OwingRun(s: State, r: nat, g: nat) {
    r in s.runs && InGroup(s, s.runs[r].job, g) && Owes(s.runs[r], g)
  }

  ghost predicate Debt(s: State, g: nat) {
    || (exists j :: InGroup(s, j, g) && Issued(s, j) > s.book.taken[j])
    || (exists r :: OwingRun(s, r, g))
  }

  ghost predicate DebtOk(s: State) {
    forall g | g in s.groups && s.groups[g].triggers > 0 && (exists j :: InGroup(s, j, g))
               && AllTerminal(s, g) && s.book.fired[g] == 0 :: Debt(s, g)
  }

  lemma OnlyWritingEndsTheWait(c: Control, e: Event)
    requires ControlOk(c) && Next(c, e).Some? && StatusToCome(c) && !StatusToCome(Next(c, e).value)
    ensures Next(c, e).value.pc.Triggering? && Next(c, e).value.pc.stage.AskGroup?
    ensures forall st :: StatusAfter(st, c, e).Terminal()
  {
  }

  lemma NoNewWait(c: Control, e: Event, st: Status)
    requires ControlOk(c) && Next(c, e).Some? && !e.MarkRunning?
    ensures StatusAfter(st, c, e).Queued? ==> st.Queued?
    ensures StatusAfter(st, c, e).Running? ==> st.Running?
  {
  }

  lemma WaitCarriesOver(s: State, s': State, r: nat, e: Event, j: nat)
    requires ControlsOk(s) && Awaited(s, j)
    requires r in s.runs && Next(s.runs[r].control, e).Some? && Moved(s, s', r, e)
    requires j in s.jobs && !s'.jobs[j].status.Terminal()
    ensures Awaited(s', j)
  {
    assert Issued(s', j) == Issued(s, j);
    if Issued(s, j) <= s.book.taken[j] {
      var q :| q in s.runs && s.runs[q].job == j && StatusToCome(s.runs[q].control);
      assert ControlOk(s.runs[r].control);
      if q == r && !StatusToCome(s'.runs[r].control) {
        OnlyWritingEndsTheWait(s.runs[r].control, e);
      }
      assert q in s'.runs && s'.runs[q].job == j && StatusToCome(s'.runs[q].control);
    }
  }

  lemma MovedKeepsAwaited(s: State, s': State, r: nat, e: Event)
    requires ControlsOk(s) && AwaitedOk(s)
    requires r in s.runs && Next(s.runs[r].control, e).Some? && Moved(s, s', r, e)
    ensures AwaitedOk(s')
  {
    forall j | j in s'.jobs && (s'.jobs[j].status.Queued? || s'.jobs[j].status.Running?)
      ensures Awaited(s', j)
    {
      if e.MarkRunning? && j == s.runs[r].job {
        assert r in s'.runs && StatusToCome(s'.runs[r].control);
      } else {
        assert ControlOk(s.runs[r].control);
        if j == s.runs[r].job {
          NoNewWait(s.runs[r].control, e, s.jobs[j].status);
        }
        WaitCarriesOver(s, s', r, e, j);
      }
    }
  }

  lemma StoppedKeepsAwaited(s: State, s': State, r: nat, cancel: bool)
    requires AwaitedOk(s) && r in s.runs && Stopped(s, s', r, cancel)
    ensures AwaitedOk(s')
  {
  }

  lemma RequestKeepsAwaited(s: State, s': State)
    requires LedgerOk(s) && AwaitedOk(s) && RequestMove(s, s') && Reissues(s, s')
    ensures AwaitedOk(s')
  {
  }

  lemma TakeKeepsAwaited(s: State, k: nat, host: nat)
    requires IdsOk(s) && AwaitedOk(s)
    requires s.queue[k] > 0
    ensures AwaitedOk(DoTake(s, k, host))
  {
    var s' := DoTake(s, k, host);
    forall j | j in s'.jobs && (s'.jobs[j].status.Queued? || s'.jobs[j].status.Running?)
      ensures Awaited(s', j)
    {
      assert Awaited(s, j) && Issued(s', j) == Issued(s, j);
      if j == k {
        assert s.nextRun in s'.runs && s'.runs[s.nextRun].job == j && StatusToCome(s'.runs[s.nextRun].control);
      } else if Issued(s, j) <= s.book.taken[j] {
        var q :| q in s.runs && s.runs[q].job == j && StatusToCome(s.runs[q].control);
        assert q in s'.runs && s'.runs[q].job == j && StatusToCome(s'.runs[q].control);
      }
    }
  }

  // ---------------------------------------------------------------------------

  /** An event that takes run `r` past the group queries of `g` without firing saw a member unfinished. */
  lemma SettlingADebt(s: State, r: nat, e: Event, g: nat)
    requires r in s.runs && ControlOk(s.runs[r].control)
    requires Next(s.runs[r].control, e).Some? && Observes(s, s.runs[r], e)
    requires g in s.groups && s.groups[g].triggers > 0 && AllTerminal(s, g)
    requires Owes(s.runs[r], g)
    requires !Owes(s.runs[r].(control := Next(s.runs[r].control, e).value), g)
    ensures e == Trigger(FireGroup) && s.runs[r].group == Some(g)
  {
  }

  lemma DebtCarriesOver(s: State, s': State, r: nat, e: Event, g: nat)
    requires ControlsOk(s) && Debt(s, g)
    requires r in s.runs && Next(s.runs[r].control, e).Some? && Observes(s, s.runs[r], e) && Moved(s, s', r, e)
    requires g in s.groups && s.groups[g].triggers > 0 && AllTerminal(s, g) && s'.book.fired[g] == 0
    ensures Debt(s', g)
  {
    if j :| InGroup(s, j, g) && Issued(s, j) > s.book.taken[j] {
      assert InGroup(s', j, g) && Issued(s', j) > s'.book.taken[j];
    } else {
      var q :| OwingRun(s, q, g);
      if q == r && !Owes(s'.runs[r], g) {
        assert ControlOk(s.runs[r].control);
        SettlingADebt(s, r, e, g);
      }
      assert OwingRun(s', q, g);
    }
  }

  lemma LastFinisherOwes(s: State, s': State, r: nat, e: Event, g: nat)
    requires r in s.runs && Next(s.runs[r].control, e).Some? && Moved(s, s', r, e)
    requires !AllTerminal(s, g) && AllTerminal(s', g)
    ensures OwingRun(s', r, g)
  {
  }

  lemma MovedKeepsDebt(s: State, s': State, r: nat, e: Event)
    requires ControlsOk(s) && DebtOk(s)
    requires r in s.runs && Next(s.runs[r].control, e).Some? && Observes(s, s.runs[r], e) && Moved(s, s', r, e)
    ensures DebtOk(s')
  {
    forall g | g in s'.groups && s'.groups[g].triggers > 0 && (exists j :: InGroup(s', j, g))
               && AllTerminal(s', g) && s'.book.fired[g] == 0
      ensures Debt(s', g)
    {
      var member :| InGroup(s', member, g);
      assert InGroup(s, member, g);
      if AllTerminal(s, g) {
        DebtCarriesOver(s, s', r, e, g);
      } else {
        LastFinisherOwes(s, s', r, e, g);
      }
    }
  }

  lemma StoppedKeepsDebt(s: State, s': State, r: nat, cancel: bool)
    requires RunsOk(s) && AwaitedOk(s) && DebtOk(s) && r in s.runs && Stopped(s, s', r, cancel)
    requires cancel ==> s.runs[r].control.marked
    ensures DebtOk(s')
  {
    forall g | g in s'.groups && s'.groups[g].triggers > 0 && (exists j :: InGroup(s', j, g))
               && AllTerminal(s', g) && s'.book.fired[g] == 0
      ensures Debt(s', g)
    {
      var member :| InGroup(s', member, g);
      assert InGroup(s, member, g);
      if AllTerminal(s, g) {
        assert Debt(s, g);
        if j :| InGroup(s, j, g) && Issued(s, j) > s.book.taken[j] {
          assert InGroup(s', j, g) && Issued(s', j) > s'.book.taken[j];
        } else {
          var q :| OwingRun(s, q, g);
          assert OwingRun(s', q, g);
        }
      } else {
        var j :| j in s.jobs && s.jobs[j].group == Some(g) && !s.jobs[j].status.Terminal();
        assert s'.jobs[j].status.Terminal();
        assert j == s.runs[r].job && Awaited(s, j);
        assert InGroup(s', j, g) && Issued(s', j) == Issued(s, j);
        if Issued(s, j) <= s.book.taken[j] {
          var q :| q in s.runs && s.runs[q].job == j && StatusToCome(s.runs[q].control);
          assert OwingRun(s', q, g);
        }
      }
    }
  }

  /** What requests do to groups: one may appear, some may go together with their members. */
  ghost predicate GroupsMove(s: State, s': State) {
    && (forall j | j in s.jobs && j !in s'.jobs && s.jobs[j].group.Some? :: s.jobs[j].group.value !in s'.groups)
    && (forall g | g in s'.groups && g in s.groups :: s'.groups[g] == s.groups[g])
    && (forall g | g in s'.groups && g !in s.groups :: g == s.nextGroup)
  }

  /** A finished group was finished before the request: requests finish nothing. */
  lemma RequestFinishesNoGroup(s: State, s': State, g: nat)
    requires IdsOk(s) && RequestMove(s, s') && Reissues(s, s') && GroupsMove(s, s')
    requires g in s'.groups && (exists j :: InGroup(s', j, g)) && AllTerminal(s', g)
    ensures AllTerminal(s, g) && (exists j :: InGroup(s, j, g))
    ensures forall j | InGroup(s, j, g) :: InGroup(s', j, g)
  {
    var member :| InGroup(s', member, g);
    assert s'.jobs[member].status.Terminal() && s.jobs[member].status.Terminal();
    assert InGroup(s, member, g);
    forall j | InGroup(s, j, g) ensures InGroup(s', j, g) && s.jobs[j].status.Terminal() {
      assert s'.jobs[j].status.Terminal();
    }
  }

  lemma RequestKeepsDebt(s: State, s': State)
    requires IdsOk(s) && OwnersOk(s) && DebtOk(s)
    requires RequestMove(s, s') && Reissues(s, s') && GroupsMove(s, s')
    ensures DebtOk(s')
  {
    forall g | g in s'.groups && s'.groups[g].triggers > 0 && (exists j :: InGroup(s', j, g))
               && AllTerminal(s', g) && s'.book.fired[g] == 0
      ensures Debt(s', g)
    {
      RequestFinishesNoGroup(s, s', g);
      var member :| InGroup(s, member, g);
      assert g in s.groups && Debt(s, g);
      if j :| InGroup(s, j, g) && Issued(s, j) > s.book.taken[j] {
        assert InGroup(s', j, g) && Issued(s, j) <= Issued(s', j);
      } else {
        var q :| OwingRun(s, q, g);
        assert InGroup(s', s.runs[q].job, g);
        assert OwingRun(s', q, g);
      }
    }
  }

  lemma TakeKeepsDebt(s: State, k: nat, host: nat)
    requires IdsOk(s) && DebtOk(s) && s.queue[k] > 0
    ensures DebtOk(DoTake(s, k, host))
  {
    var s' := DoTake(s, k, host);
    forall g | g in s'.groups && s'.groups[g].triggers > 0 && (exists j :: InGroup(s', j, g))
               && AllTerminal(s', g) && s'.book.fired[g] == 0
      ensures Debt(s', g)
    {
      var member :| InGroup(s', member, g);
      assert InGroup(s, member, g) && AllTerminal(s, g);
      assert Debt(s, g);
      if j :| InGroup(s, j, g) && Issued(s, j) > s.book.taken[j] {
        assert InGroup(s', j, g) && Issued(s', j) == Issued(s, j);
        if j == k {
          assert OwingRun(s', s.nextRun, g);
        }
      } else {
        var q :| OwingRun(s, q, g);
        assert OwingRun(s', q, g);
      }
    }
  }
}
