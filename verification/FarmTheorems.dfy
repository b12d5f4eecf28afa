/**
  The results about the build lifecycle.  All of them speak of whole behaviours: any number of
  resolvers, workers and handlers, interleaved in any way, from the empty database on.
*/
module FarmTheorems {
  import opened Prelude
  import opened BuildFarm
  import opened FarmInvariants
  import opened FarmStatus
  import opened FarmTriggers
  import opened FarmSteps

  // ---------------------------------------------------------------------------
  // Groups: acceptance, membership, ownership
  // ---------------------------------------------------------------------------

  function Elements(ids: seq<nat>): set<nat> {
    set x | x in ids
  }

  lemma {:induction false} ElementsCount(ids: seq<nat>)
    ensures |Elements(ids)| <= |ids|
    ensures |Elements(ids)| == |ids| <==> Distinct(ids)
  {
    if ids != [] {
      var last := ids[|ids| - 1];
      var rest := ids[..|ids| - 1];
      ElementsCount(rest);
      assert ids == rest + [last];
      if last in rest {
        assert Elements(ids) == Elements(rest);
        var i :| 0 <= i < |rest| && rest[i] == last;
        assert ids[i] == ids[|ids| - 1];
      } else {
        assert Elements(ids) == Elements(rest) + {last};
        if Distinct(rest) {
          assert Distinct(ids);
        } else {
          var i, k :| 0 <= i < k < |rest| && rest[i] == rest[k];
          assert ids[i] == ids[k];
        }
      }
    }
  }

  lemma SubsetOfSameSize(a: set<nat>, b: set<nat>)
    requires a <= b && |a| == |b|
    ensures a == b
  {
    assert b == a + (b - a);
    assert |b| == |a| + |b - a|;
  }

  lemma SubsetIsSmaller(a: set<nat>, b: set<nat>)
    requires a <= b
    ensures |a| <= |b|
  {
    assert b == a + (b - a);
  }

  /**
    CreateGroup compares the number of updated rows with the number of listed ids.  That
    comparison accepts exactly the lists without repetition whose jobs are all the caller's,
    pending and in no group.
  */
  lemma GroupAcceptance(s: State, user: nat, ids: seq<nat>)
    ensures Accepts(s, user, ids) <==> Distinct(ids) && forall id | id in ids :: Joinable(s, user, id)
  {
    var rows := Matched(s, user, ids);
    assert rows <= Elements(ids);
    ElementsCount(ids);
    SubsetIsSmaller(rows, Elements(ids));
    if Accepts(s, user, ids) {
      SubsetOfSameSize(rows, Elements(ids));
      forall id | id in ids ensures Joinable(s, user, id) {
        assert id in Elements(ids);
      }
    } else if forall id | id in ids :: Joinable(s, user, id) {
      assert rows == Elements(ids);
    }
  }

  /** There is one new group of exactly these jobs, queued and issued once more with `execute`. */
  ghost predicate Grown(s: State, s': State, user: nat, ids: seq<nat>, triggers: nat, execute: bool) {
    && s'.groups == s.groups[s.nextGroup := GroupRow(user, triggers)] && s.nextGroup !in s.groups
    && Members(s', s.nextGroup) == Elements(ids)
    && s'.jobs.Keys == s.jobs.Keys
    && (forall j | j in s.jobs && j !in ids :: s'.jobs[j] == s.jobs[j])
    && (forall id | id in ids ::
          && id in s'.jobs && s'.jobs[id] == JobRow(user, Some(s.nextGroup), if execute then Queued else Pending)
          && s'.outbox[id] == s.outbox[id] + Flag(execute))
  }

  lemma GroupGrows(s: State, user: nat, ids: seq<nat>, triggers: nat, execute: bool)
    requires IdsOk(s) && OwnersOk(s) && Accepts(s, user, ids) && forall id | id in ids :: Joinable(s, user, id)
    ensures Grown(s, DoCreateGroup(s, user, ids, triggers, execute), user, ids, triggers, execute)
  {
    NewGroupIsEmpty(s);
    JoinMakesGroup(s, user, ids, triggers);
    if execute {
      StartMakesQueued(JoinGroup(s, user, ids, triggers), user, ids, s.nextGroup);
    }
  }

  /** An accepted list becomes one new group of exactly these jobs; a rejected one changes nothing. */
  lemma CreateGroupAllOrNothing(s: State, user: nat, ids: seq<nat>, triggers: nat, execute: bool)
    requires Inv(s)
    ensures var s' := DoCreateGroup(s, user, ids, triggers, execute);
      if Distinct(ids) && (forall id | id in ids :: Joinable(s, user, id))
      then Grown(s, s', user, ids, triggers, execute)
      else s' == s
  {
    GroupAcceptance(s, user, ids);
    if Accepts(s, user, ids) {
      GroupGrows(s, user, ids, triggers, execute);
    }
  }

  lemma NewGroupIsEmpty(s: State)
    requires IdsOk(s) && OwnersOk(s)
    ensures s.nextGroup !in s.groups && forall j | j in s.jobs :: s.jobs[j].group != Some(s.nextGroup)
  {
  }

  /** The rows of the listed jobs, and of those only, are the group's. */
  ghost predicate ExactlyThese(s: State, user: nat, ids: seq<nat>, g: nat, st: Status) {
    && (forall id | id in ids :: id in s.jobs && s.jobs[id] == JobRow(user, Some(g), st))
    && forall j | j in s.jobs && j !in ids :: s.jobs[j].group != Some(g)
  }

  lemma TheseAreMembers(s: State, user: nat, ids: seq<nat>, g: nat, st: Status)
    requires ExactlyThese(s, user, ids, g, st)
    ensures Members(s, g) == Elements(ids) == Startable(s, user, g)
  {
  }

  lemma JoinMakesGroup(s: State, user: nat, ids: seq<nat>, triggers: nat)
    requires forall j | j in s.jobs :: s.jobs[j].group != Some(s.nextGroup)
    requires forall id | id in ids :: Joinable(s, user, id)
    ensures var s1 := JoinGroup(s, user, ids, triggers);
      && ExactlyThese(s1, user, ids, s.nextGroup, Pending) && Members(s1, s.nextGroup) == Elements(ids)
      && s1.jobs.Keys == s.jobs.Keys && (forall j | j in s.jobs && j !in ids :: s1.jobs[j] == s.jobs[j])
  {
    TheseAreMembers(JoinGroup(s, user, ids, triggers), user, ids, s.nextGroup, Pending);
  }

  lemma StartMakesQueued(s: State, user: nat, ids: seq<nat>, g: nat)
    requires ExactlyThese(s, user, ids, g, Pending)
    ensures var s' := StartMembers(s, user, g);
      && ExactlyThese(s', user, ids, g, Queued) && Members(s', g) == Elements(ids)
      && s'.jobs.Keys == s.jobs.Keys && (forall j | j in s.jobs && j !in ids :: s'.jobs[j] == s.jobs[j])
      && forall id | id in ids :: s'.outbox[id] == s.outbox[id] + 1
  {
    TheseAreMembers(s, user, ids, g, Pending);
    TheseAreMembers(StartMembers(s, user, g), user, ids, g, Queued);
  }

  // ---------------------------------------------------------------------------
  // What a step keeps of a row
  // ---------------------------------------------------------------------------

  /** Owner and group membership are for good, and "pending" is only ever written by the insertion. */
  ghost predicate RowKept(s: State, s': State, j: nat) {
    j in s.jobs && j in s'.jobs ==>
      && s'.jobs[j].owner == s.jobs[j].owner
      && (s.jobs[j].group.Some? ==> s'.jobs[j].group == s.jobs[j].group)
      && (s'.jobs[j].status.Pending? ==> s.jobs[j].status.Pending?)
  }

  /** Serial ids are used once, and a request to build is never taken back. */
  ghost predicate Onward(s: State, s': State) {
    && s.nextJob <= s'.nextJob
    && (forall j | j in s'.jobs :: j in s.jobs || j >= s.nextJob)
    && (forall j :: RowKept(s, s', j))
    && (forall j: nat :: Issued(s, j) <= Issued(s', j))
  }

  lemma RequestIsOnward(s: State, s': State)
    requires RequestMove(s, s')
    ensures Onward(s, s')
  {
  }

  lemma EveryRequestMoves(s: State, a: Action)
    requires IdsOk(s) && OwnersOk(s) && Enabled(s, a) && IsRequest(a)
    ensures RequestMove(s, Apply(s, a))
  {
    if a.CreateGroup? {
      CreateGroupMoves(s, a.user, a.ids, a.triggers, a.execute);
    } else {
      SimpleRequestMovesRows(s, a);
    }
  }

  lemma ApplyIsOnward(s: State, a: Action)
    requires Inv(s) && Enabled(s, a)
    ensures Onward(s, Apply(s, a))
  {
    if IsRequest(a) {
      EveryRequestMoves(s, a);
      RequestIsOnward(s, Apply(s, a));
    } else {
      match a
      case Take(j, host) => TakeIsOnward(s, j, host);
      case Step(r, e) => StepIsOnward(s, r, e);
      case _ => HandlerIsOnward(s, a);
    }
  }

  lemma TakeIsOnward(s: State, j: nat, host: nat)
    ensures Onward(s, DoTake(s, j, host))
  {
  }

  lemma StepIsOnward(s: State, r: nat, e: Event)
    requires ControlsOk(s) && r in s.runs && Next(s.runs[r].control, e).Some?
    ensures Onward(s, DoStep(s, r, e))
  {
  }

  lemma HandlerIsOnward(s: State, a: Action)
    requires ControlsOk(s) && Enabled(s, a) && (a.Deadline? || a.HandleCancel? || a.HandleTerminate?)
    ensures Onward(s, Apply(s, a))
  {
  }

  /** A status of a job issued once: finished stays finished, and success is lost only to the run's own recovery. */
  ghost predicate OutcomeKept(s: State, s': State, j: nat, recovers: bool) {
    j in s.jobs && j in s'.jobs && Issued(s', j) <= 1 ==>
      && (s.jobs[j].status.Terminal() ==> s'.jobs[j].status.Terminal())
      && (s.jobs[j].status.Success? ==> (s'.jobs[j].status.Success? <==> !recovers))
  }

  /** The step is the status write of the recovery handler of a run of `j`. */
  predicate Recovers(s: State, a: Action, j: nat) {
    a.Step? && a.event.WriteFailure? && a.run in s.runs && s.runs[a.run].job == j
  }

  lemma StepKeepsOutcome(s: State, r: nat, e: Event, j: nat)
    requires ControlsOk(s) && OnceOk(s) && r in s.runs && Next(s.runs[r].control, e).Some?
    ensures OutcomeKept(s, DoStep(s, r, e), j, Recovers(s, Step(r, e), j))
  {
    StepMoves(s, r, e);
    if j == s.runs[r].job && j in s.jobs && Issued(s, j) <= 1 {
      NextKeepsFit(s.jobs[j].status, s.runs[r].control, e);
    }
  }

  lemma CancelKeepsOutcome(s: State, host: nat, k: nat, j: nat)
    requires LiveOk(s) && OnceOk(s)
    ensures OutcomeKept(s, DoCancel(s, host, k), j, false)
  {
  }

  lemma RequestKeepsOutcome(s: State, s': State, j: nat)
    requires LedgerOk(s) && OnceOk(s) && RequestMove(s, s') && Reissues(s, s')
    ensures OutcomeKept(s, s', j, false)
  {
  }

  lemma EveryRequestKeepsOutcome(s: State, a: Action, j: nat)
    requires Inv(s) && Enabled(s, a) && IsRequest(a)
    ensures OutcomeKept(s, Apply(s, a), j, false)
  {
    if a.CreateGroup? {
      CreateGroupMoves(s, a.user, a.ids, a.triggers, a.execute);
      CreateGroupReissues(s, a.user, a.ids, a.triggers, a.execute);
    } else {
      SimpleRequestMoves(s, a);
    }
    RequestKeepsOutcome(s, Apply(s, a), j);
  }

  lemma ApplyKeepsOutcome(s: State, a: Action, j: nat)
    requires Inv(s) && Enabled(s, a)
    ensures OutcomeKept(s, Apply(s, a), j, Recovers(s, a, j))
  {
    if IsRequest(a) {
      EveryRequestKeepsOutcome(s, a, j);
    } else if a.Step? {
      StepKeepsOutcome(s, a.run, a.event, j);
    } else if a.HandleCancel? {
      CancelKeepsOutcome(s, a.host, a.job, j);
    }
  }

  // ---------------------------------------------------------------------------
  // Over whole behaviours
  // ---------------------------------------------------------------------------

  lemma RowIdsAreOld(states: seq<State>, acts: seq<Action>, i: nat)
    requires Behaviour(states, acts) && i < |states|
    ensures forall j | j in states[i].jobs :: j < states[i].nextJob
  {
    InvAlong(states, acts, i);
  }

  lemma OnwardStep(states: seq<State>, acts: seq<Action>, k: nat)
    requires Behaviour(states, acts) && k < |acts|
    ensures Onward(states[k], states[k + 1])
  {
    InvAlong(states, acts, k);
    ApplyIsOnward(states[k], acts[k]);
  }

  lemma {:induction false} OnwardAlong(states: seq<State>, acts: seq<Action>, i: nat, k: nat)
    requires Behaviour(states, acts) && i <= k < |states|
    ensures states[i].nextJob <= states[k].nextJob
    ensures forall j | j in states[k].jobs :: j in states[i].jobs || j >= states[i].nextJob
    ensures forall j :: RowKept(states[i], states[k], j)
    ensures forall j: nat :: Issued(states[i], j) <= Issued(states[k], j)
    decreases k
  {
    if i < k {
      OnwardAlong(states, acts, i, k - 1);
      OnwardStep(states, acts, k - 1);
      RowIdsAreOld(states, acts, i);
      forall j ensures RowKept(states[i], states[k], j) {
        assert RowKept(states[i], states[k - 1], j) && RowKept(states[k - 1], states[k], j);
      }
      forall j: nat ensures Issued(states[i], j) <= Issued(states[k], j) {
        assert Issued(states[i], j) <= Issued(states[k - 1], j);
      }
    }
  }

  /** No step after the insertion writes "pending", so at most one Start of a job ever succeeds. */
  lemma StartSucceedsOnce(states: seq<State>, acts: seq<Action>, i: nat, k: nat, j: nat)
    requires Behaviour(states, acts) && i < k < |acts|
    requires acts[i].Start? && acts[i].job == j && acts[k].Start? && acts[k].job == j
    requires states[i + 1] != states[i]
    ensures states[k + 1] == states[k]
  {
    InvAlong(states, acts, i);
    OnwardAlong(states, acts, i + 1, k);
    assert j in states[i + 1].jobs && states[i + 1].jobs[j].status.Queued? && j < states[i + 1].nextJob;
    assert RowKept(states[i + 1], states[k], j);
  }

  /**
    Every message about a job, sent, lost or still to be sent, answers one of three requests: its
    submission with execute, the one Start that can succeed, or a start of its group.
  */
  lemma EveryMessageWasAskedFor(states: seq<State>, acts: seq<Action>, i: nat, j: nat)
    requires Behaviour(states, acts) && i < |states| && j in states[i].jobs
    ensures var s := states[i];
      && s.queue[j] + s.book.taken[j] + s.book.lost[j] + s.outbox[j]
         == Flag(j in s.book.executed) + s.book.starts[j] + GroupStartsOf(s, j)
      && s.book.starts[j] <= 1
      && (s.jobs[j].status.Pending? ==> s.book.starts[j] == 0 && GroupStartsOf(s, j) == 0)
  {
    InvAlong(states, acts, i);
    assert states[i].book.sent[j] == states[i].queue[j] + states[i].book.taken[j];
  }

  /** A job never changes owner or group, and its group always exists and has the job's owner. */
  lemma GroupIsForLife(states: seq<State>, acts: seq<Action>, i: nat, k: nat, j: nat)
    requires Behaviour(states, acts) && i <= k < |states|
    requires j in states[i].jobs && j in states[k].jobs && states[i].jobs[j].group.Some?
    ensures states[k].jobs[j].group == states[i].jobs[j].group
    ensures states[k].jobs[j].owner == states[i].jobs[j].owner
    ensures states[i].jobs[j].group.value in states[k].groups
    ensures states[k].groups[states[i].jobs[j].group.value].owner == states[i].jobs[j].owner
  {
    OnwardAlong(states, acts, i, k);
    InvAlong(states, acts, k);
    assert RowKept(states[i], states[k], j);
  }

  /** The cascade of an account's deletion removes that account's rows and touches no other row. */
  lemma DeletionIsLocal(states: seq<State>, acts: seq<Action>, i: nat, user: nat)
    requires Behaviour(states, acts) && i < |states|
    ensures var s, s' := states[i], WithoutUser(states[i], user);
      && (forall j :: j in s'.jobs <==> j in s.jobs && s.jobs[j].owner != user)
      && (forall g :: g in s'.groups <==> g in s.groups && s.groups[g].owner != user)
      && (forall j | j in s'.jobs :: s'.jobs[j] == s.jobs[j])
      && (forall g | g in s'.groups :: s'.groups[g] == s.groups[g])
  {
    InvAlong(states, acts, i);
  }

  /** A job issued once is finished for good from the first terminal write of its run on. */
  lemma FirstVerdictIsFinal(states: seq<State>, acts: seq<Action>, i: nat, k: nat, r: nat)
    requires Behaviour(states, acts) && i <= k < |states|
    requires r in states[i].runs && states[i].runs[r].control.wrote
    requires states[i].runs[r].job in states[i].jobs && states[i].runs[r].job in states[k].jobs
    requires Issued(states[k], states[i].runs[r].job) <= 1
    ensures states[k].jobs[states[i].runs[r].job].status.Terminal()
  {
    InvAlong(states, acts, i);
    OnwardAlong(states, acts, i, k);
    FinishedAlong(states, acts, i, k, states[i].runs[r].job);
  }

  lemma OutcomeStep(states: seq<State>, acts: seq<Action>, k: nat, j: nat)
    requires Behaviour(states, acts) && k < |acts|
    ensures OutcomeKept(states[k], states[k + 1], j, Recovers(states[k], acts[k], j))
  {
    InvAlong(states, acts, k);
    ApplyKeepsOutcome(states[k], acts[k], j);
  }

  lemma IdIsUsed(states: seq<State>, acts: seq<Action>, i: nat, k: nat, j: nat)
    requires Behaviour(states, acts) && i <= k < |states| && j in states[i].jobs
    ensures j < states[k].nextJob
  {
    RowIdsAreOld(states, acts, i);
    OnwardAlong(states, acts, i, k);
  }

  /** A row present early and late is present in between, and was issued no more often then. */
  lemma RowInBetween(states: seq<State>, acts: seq<Action>, i: nat, k: nat, j: nat)
    requires Behaviour(states, acts) && i < k < |states|
    requires j in states[i].jobs && j in states[k].jobs
    ensures j in states[k - 1].jobs && Issued(states[k - 1], j) <= Issued(states[k], j)
  {
    IdIsUsed(states, acts, i, k - 1, j);
    OnwardStep(states, acts, k - 1);
  }

  lemma {:induction false} FinishedAlong(states: seq<State>, acts: seq<Action>, i: nat, k: nat, j: nat)
    requires Behaviour(states, acts) && i <= k < |states|
    requires j in states[i].jobs && j in states[k].jobs && Issued(states[k], j) <= 1
    requires states[i].jobs[j].status.Terminal()
    ensures states[k].jobs[j].status.Terminal()
    decreases k
  {
    if i < k {
      RowInBetween(states, acts, i, k, j);
      FinishedAlong(states, acts, i, k - 1, j);
      OutcomeStep(states, acts, k - 1, j);
    }
  }

  ghost predicate RecoveredBetween(states: seq<State>, acts: seq<Action>, i: nat, k: nat, j: nat)
    requires k <= |acts| <= |states|
  {
    exists m {:trigger acts[m]} :: i <= m < k && Recovers(states[m], acts[m], j)
  }

  lemma RecoveredBetweenStep(states: seq<State>, acts: seq<Action>, i: nat, k: nat, j: nat)
    requires i <= k < |acts| <= |states|
    ensures RecoveredBetween(states, acts, i, k + 1, j) <==>
            RecoveredBetween(states, acts, i, k, j) || Recovers(states[k], acts[k], j)
  {
  }

  /**
    For a job issued once, "success" is lost exactly when the run's own recovery handler writes a
    status after it.  No cancel or terminate request, no deadline and no resolver can undo it.
  */
  lemma {:induction false} SuccessIsLostOnlyToRecovery(states: seq<State>, acts: seq<Action>, i: nat, k: nat, j: nat)
    requires Behaviour(states, acts) && i <= k < |states|
    requires j in states[i].jobs && j in states[k].jobs && Issued(states[k], j) <= 1
    requires states[i].jobs[j].status.Success?
    ensures states[k].jobs[j].status.Success? <==> !RecoveredBetween(states, acts, i, k, j)
    decreases k
  {
    if i < k {
      RowInBetween(states, acts, i, k, j);
      SuccessIsLostOnlyToRecovery(states, acts, i, k - 1, j);
      SuccessStep(states, acts, i, k, j);
    }
  }

  lemma SuccessStep(states: seq<State>, acts: seq<Action>, i: nat, k: nat, j: nat)
    requires Behaviour(states, acts) && i < k < |states|
    requires j in states[k - 1].jobs && j in states[k].jobs && Issued(states[k], j) <= 1
    requires states[k - 1].jobs[j].status.Success? <==> !RecoveredBetween(states, acts, i, k - 1, j)
    ensures states[k].jobs[j].status.Success? <==> !RecoveredBetween(states, acts, i, k, j)
  {
    RecoveredBetweenStep(states, acts, i, k - 1, j);
    if RecoveredBetween(states, acts, i, k - 1, j) {
      NoSuccessOnceRecovered(states, acts, i, k, j);
    } else {
      OutcomeStep(states, acts, k - 1, j);
    }
  }

  lemma NoSuccessOnceRecovered(states: seq<State>, acts: seq<Action>, i: nat, k: nat, j: nat)
    requires Behaviour(states, acts) && i < k < |states|
    requires j in states[k].jobs && Issued(states[k], j) <= 1
    requires RecoveredBetween(states, acts, i, k - 1, j)
    ensures !states[k].jobs[j].status.Success?
  {
    var m :| i <= m < k - 1 && Recovers(states[m], acts[m], j);
    NoSuccessAfterRecovery(states, acts, m, k, j);
  }

  /** Once the recovery handler has written a status, the job issued once is never a success again. */
  lemma NoSuccessAfterRecovery(states: seq<State>, acts: seq<Action>, m: nat, k: nat, j: nat)
    requires Behaviour(states, acts) && m < k < |states|
    requires j in states[k].jobs && Issued(states[k], j) <= 1 && Recovers(states[m], acts[m], j)
    ensures !states[k].jobs[j].status.Success?
  {
    var r := acts[m].run;
    InvAlong(states, acts, m);
    StepMoves(states[m], r, acts[m].event);
    LateAlong(states, acts, m + 1, k, r);
    InvAlong(states, acts, k);
    assert StatusFits(states[k].jobs[j].status, states[k].runs[r].control);
  }

  lemma {:induction false} LateAlong(states: seq<State>, acts: seq<Action>, i: nat, k: nat, r: nat)
    requires Behaviour(states, acts) && i <= k < |states|
    requires r in states[i].runs && states[i].runs[r].control.late
    ensures r in states[k].runs && states[k].runs[r].control.late
    ensures states[k].runs[r].job == states[i].runs[r].job
    decreases k
  {
    if i < k {
      LateAlong(states, acts, i, k - 1, r);
      InvAlong(states, acts, k - 1);
      LateStays(states[k - 1], acts[k - 1], r);
    }
  }

  lemma CreateGroupKeepsWorkers(s: State, user: nat, ids: seq<nat>, triggers: nat, execute: bool)
    ensures var s' := DoCreateGroup(s, user, ids, triggers, execute); s'.runs == s.runs && s'.live == s.live
  {
  }

  lemma StartGroupKeepsWorkers(s: State, user: nat, g: nat)
    ensures DoStartGroup(s, user, g).runs == s.runs && DoStartGroup(s, user, g).live == s.live
  {
  }

  lemma SimpleRequestKeepsWorkers(s: State, a: Action)
    requires Enabled(s, a) && IsRequest(a) && !a.CreateGroup? && !a.StartGroup?
    ensures Apply(s, a).runs == s.runs && Apply(s, a).live == s.live
  {
  }

  lemma RequestKeepsWorkers(s: State, a: Action)
    requires Enabled(s, a) && IsRequest(a)
    ensures Apply(s, a).runs == s.runs && Apply(s, a).live == s.live
  {
    if a.CreateGroup? {
      CreateGroupKeepsWorkers(s, a.user, a.ids, a.triggers, a.execute);
    } else if a.StartGroup? {
      StartGroupKeepsWorkers(s, a.user, a.group);
    } else {
      SimpleRequestKeepsWorkers(s, a);
    }
  }

  /** Only a step of the run itself moves it. */
  lemma OthersLeaveRun(s: State, a: Action, r: nat)
    requires IdsOk(s) && Enabled(s, a) && r in s.runs && !(a.Step? && a.run == r)
    ensures r in Apply(s, a).runs && Apply(s, a).runs[r].control == s.runs[r].control
    ensures Apply(s, a).runs[r].job == s.runs[r].job && Apply(s, a).runs[r].group == s.runs[r].group
  {
    if IsRequest(a) {
      RequestKeepsWorkers(s, a);
    }
  }

  lemma LateStays(s: State, a: Action, r: nat)
    requires IdsOk(s) && ControlsOk(s) && Enabled(s, a) && r in s.runs && s.runs[r].control.late
    ensures r in Apply(s, a).runs && Apply(s, a).runs[r].control.late && Apply(s, a).runs[r].job == s.runs[r].job
  {
    if a.Step? && a.run == r {
      StepMoves(s, r, a.event);
      assert ControlOk(s.runs[r].control);
      NextKeepsControlOk(s.runs[r].control, a.event);
    } else {
      OthersLeaveRun(s, a, r);
    }
  }

  // ---------------------------------------------------------------------------
  // Group triggers
  // ---------------------------------------------------------------------------

  /** When a group's triggers fire, every member that was issued only once has finished. */
  lemma NoEarlyFiring(states: seq<State>, acts: seq<Action>, i: nat, j: nat)
    requires Behaviour(states, acts) && i < |acts|
    requires acts[i].Step? && acts[i].event == Trigger(FireGroup)
    requires j in states[i].jobs && states[i].jobs[j].group == states[i].runs[acts[i].run].group
    requires Issued(states[i], j) <= 1
    ensures states[i].jobs[j].status.Terminal()
    ensures states[i + 1].book.fired == Add(states[i].book.fired, states[i].runs[acts[i].run].group.value)
  {
    InvAlong(states, acts, i);
  }

  /** Every message about a member was taken, and every run of a member returned without a query error. */
  ghost predicate Settled(s: State, g: nat) {
    forall j | InGroup(s, j, g) ::
      && Issued(s, j) == s.book.taken[j]
      && (exists r :: r in s.runs && s.runs[r].job == j)
      && (forall r | r in s.runs && s.runs[r].job == j ::
            s.runs[r].control.pc.Finished? && !s.runs[r].control.readError)
  }

  /** Every run of a member fetched its job when that was already in the group. */
  ghost predicate MembersKnow(s: State, g: nat) {
    forall r | r in s.runs && InGroup(s, s.runs[r].job, g) :: s.runs[r].group == Some(g)
  }

  /** Jobs that were not submitted with execute are built only after they joined. */
  lemma StartedMembersKnow(s: State, g: nat)
    requires RunsOk(s) && forall j | InGroup(s, j, g) :: j !in s.book.executed
    ensures MembersKnow(s, g)
  {
  }

  lemma SettledMemberIsTerminal(s: State, g: nat, j: nat)
    requires RunsOk(s) && AwaitedOk(s) && Settled(s, g) && InGroup(s, j, g)
    ensures s.jobs[j].status.Terminal()
  {
  }

  /** Some run fetched its job as a member of `g`. */
  ghost predicate Known(s: State, g: nat) {
    exists r :: r in s.runs && s.runs[r].group == Some(g)
  }

  lemma RunStays(s: State, a: Action, r: nat)
    requires IdsOk(s) && Enabled(s, a) && r in s.runs
    ensures r in Apply(s, a).runs
    ensures Apply(s, a).runs[r].job == s.runs[r].job && Apply(s, a).runs[r].group == s.runs[r].group
  {
    if a.Step? {
      StepMoves(s, a.run, a.event);
    } else if IsRequest(a) {
      RequestKeepsWorkers(s, a);
    }
  }

  lemma KnownStays(s: State, a: Action, g: nat)
    requires IdsOk(s) && Enabled(s, a) && Known(s, g)
    ensures Known(Apply(s, a), g)
  {
    var r :| r in s.runs && s.runs[r].group == Some(g);
    RunStays(s, a, r);
  }

  lemma OnlyKnownGroupsFire(s: State, a: Action, g: nat)
    requires Enabled(s, a) && Apply(s, a).book.fired[g] != s.book.fired[g]
    ensures Known(s, g)
  {
  }

  /** A group that no run knows of has never fired, whatever its members' runs have come to. */
  lemma {:induction false} UnknownGroupNeverFires(states: seq<State>, acts: seq<Action>, i: nat, g: nat)
    requires Behaviour(states, acts) && i < |states|
    ensures states[i].book.fired[g] > 0 ==> Known(states[i], g)
    decreases i
  {
    if i > 0 {
      UnknownGroupNeverFires(states, acts, i - 1, g);
      InvAlong(states, acts, i - 1);
      if Known(states[i - 1], g) {
        KnownStays(states[i - 1], acts[i - 1], g);
      } else if states[i].book.fired[g] != states[i - 1].book.fired[g] {
        OnlyKnownGroupsFire(states[i - 1], acts[i - 1], g);
      }
    }
  }

  // ---------------------------------------------------------------------------
  // How a finished job becomes unfinished
  // ---------------------------------------------------------------------------

  /** The two steps that take a finished job back: a start of its group, and another run of it. */
  ghost predicate TakesBack(s: State, a: Action, j: nat)
    requires j in s.jobs
  {
    || (a.StartGroup? && s.jobs[j].group == Some(a.group) && a.user == s.jobs[j].owner)
    || (a.Step? && a.event.MarkRunning? && a.run in s.runs && s.runs[a.run].job == j)
  }

  /** The row is there before and after, finished before, and unfinished after exactly if `back`. */
  ghost predicate TakenBack(s: State, s': State, j: nat, back: bool) {
    j in s.jobs && s.jobs[j].status.Terminal() && j in s'.jobs ==> (!s'.jobs[j].status.Terminal() <==> back)
  }

  lemma StepTakesBack(s: State, r: nat, e: Event, j: nat)
    requires ControlsOk(s) && r in s.runs && Next(s.runs[r].control, e).Some? && j in s.jobs
    ensures TakenBack(s, DoStep(s, r, e), j, TakesBack(s, Step(r, e), j))
  {
    StepMoves(s, r, e);
    assert ControlOk(s.runs[r].control);
  }

  lemma StartGroupTakesBack(s: State, user: nat, g: nat, j: nat)
    requires OwnersOk(s) && j in s.jobs
    ensures TakenBack(s, DoStartGroup(s, user, g), j, TakesBack(s, StartGroup(user, g), j))
  {
  }

  lemma CreateGroupTakesNoneBack(s: State, user: nat, ids: seq<nat>, triggers: nat, execute: bool, j: nat)
    requires IdsOk(s) && OwnersOk(s) && j in s.jobs
    ensures TakenBack(s, DoCreateGroup(s, user, ids, triggers, execute), j, false)
  {
    assert s.jobs[j].group != Some(s.nextGroup);
  }

  lemma OthersTakeNoneBack(s: State, a: Action, j: nat)
    requires IdsOk(s) && Enabled(s, a) && j in s.jobs && !a.Step? && !a.StartGroup? && !a.CreateGroup?
    ensures TakenBack(s, Apply(s, a), j, false)
  {
  }

  /** Nothing else reopens a finished job, and each of the two always does. */
  lemma FinishedIsTakenBackExactlyBy(s: State, a: Action, j: nat)
    requires Inv(s) && Enabled(s, a)
    requires j in s.jobs && s.jobs[j].status.Terminal() && j in Apply(s, a).jobs
    ensures !Apply(s, a).jobs[j].status.Terminal() <==> TakesBack(s, a, j)
  {
    if a.Step? {
      StepTakesBack(s, a.run, a.event, j);
    } else if a.StartGroup? {
      StartGroupTakesBack(s, a.user, a.group, j);
    } else if a.CreateGroup? {
      CreateGroupTakesNoneBack(s, a.user, a.ids, a.triggers, a.execute, j);
    } else {
      OthersTakeNoneBack(s, a, j);
    }
  }
}
