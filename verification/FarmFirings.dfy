/**
  Exactly when the triggers of a group run once its jobs are finished, and that the group of jobs which
  were built as its members always has them run.
*/
module FarmFirings {
  import opened Prelude
  import opened BuildFarm
  import opened FarmInvariants
  import opened FarmStatus
  import opened FarmTriggers
  import opened FarmSteps
  import opened FarmTheorems
  import opened FarmRefire

  /** The group is finished in every state from the d-th to the k-th. */
  ghost predicate StaysDone(states: seq<State>, g: nat, d: nat, k: nat) {
    d <= k < |states| && forall t | d <= t <= k :: Done(states[t], g)
  }

  // ---------------------------------------------------------------------------
  // What stays
  // ---------------------------------------------------------------------------

  /** A run stays the run that it is; a crash and a query error are for good. */
  ghost predicate RunGoesOn(s: State, s': State, r: nat) {
    r in s.runs ==>
      && r in s'.runs && s'.runs[r].job == s.runs[r].job && s'.runs[r].group == s.runs[r].group
      && (s.runs[r].control.pc.Crashed? ==> s'.runs[r].control.pc.Crashed?)
      && (s.runs[r].control.readError ==> s'.runs[r].control.readError)
  }

  lemma RunGoesOnOnce(s: State, a: Action, r: nat)
    requires IdsOk(s) && Enabled(s, a)
    ensures RunGoesOn(s, Apply(s, a), r)
  {
    if r in s.runs {
      RunStays(s, a, r);
      if !(a.Step? && a.run == r) {
        OthersLeaveRun(s, a, r);
      }
    }
  }

  lemma {:induction false} RunGoesOnAlong(states: seq<State>, acts: seq<Action>, d: nat, k: nat, r: nat)
    requires Behaviour(states, acts) && d <= k < |states|
    ensures RunGoesOn(states[d], states[k], r)
    decreases k
  {
    if d < k {
      RunGoesOnAlong(states, acts, d, k - 1, r);
      InvAlong(states, acts, k - 1);
      RunGoesOnOnce(states[k - 1], acts[k - 1], r);
    }
  }

  lemma RequestMovesGroups(s: State, a: Action)
    requires IdsOk(s) && OwnersOk(s) && Enabled(s, a) && IsRequest(a)
    ensures GroupsMove(s, Apply(s, a))
  {
    if a.CreateGroup? {
      CreateGroupAddsOneGroup(s, a.user, a.ids, a.triggers, a.execute);
    } else {
      RequestsMoveGroups(s, a);
    }
  }

  /** As long as the group is there, so are its members. */
  lemma MemberStays(s: State, a: Action, g: nat, j: nat)
    requires Inv(s) && Enabled(s, a) && InGroup(s, j, g) && g in Apply(s, a).groups
    ensures InGroup(Apply(s, a), j, g)
  {
    ApplyIsOnward(s, a);
    assert RowKept(s, Apply(s, a), j);
    if IsRequest(a) {
      RequestMovesGroups(s, a);
    } else {
      WorkersKeepRows(s, a);
    }
  }

  lemma WorkersKeepRows(s: State, a: Action)
    requires Enabled(s, a) && !IsRequest(a)
    ensures Apply(s, a).jobs.Keys == s.jobs.Keys && Apply(s, a).groups == s.groups
  {
  }

  lemma {:induction false} MemberStaysAlong(states: seq<State>, acts: seq<Action>, d: nat, k: nat, g: nat, j: nat)
    requires Behaviour(states, acts) && StaysDone(states, g, d, k) && InGroup(states[d], j, g)
    ensures InGroup(states[k], j, g)
    decreases k
  {
    if d < k {
      MemberStaysAlong(states, acts, d, k - 1, g, j);
      assert Done(states[k], g);
      MemberStep(states, acts, k - 1, g, j);
    }
  }

  lemma MemberStep(states: seq<State>, acts: seq<Action>, k: nat, g: nat, j: nat)
    requires Behaviour(states, acts) && k < |acts| && InGroup(states[k], j, g) && g in states[k + 1].groups
    ensures InGroup(states[k + 1], j, g)
  {
    InvAlong(states, acts, k);
    MemberStays(states[k], acts[k], g, j);
  }

  // ---------------------------------------------------------------------------
  // A run that has still to ask fires
  // ---------------------------------------------------------------------------

  lemma FiredNeverFalls(s: State, a: Action, g: nat)
    requires Enabled(s, a)
    ensures s.book.fired[g] <= Apply(s, a).book.fired[g]
  {
  }

  lemma {:induction false} FiredNeverFallsAlong(states: seq<State>, acts: seq<Action>, d: nat, k: nat, g: nat)
    requires Behaviour(states, acts) && d <= k < |states|
    ensures states[d].book.fired[g] <= states[k].book.fired[g]
    decreases k
  {
    if d < k {
      FiredNeverFallsAlong(states, acts, d, k - 1, g);
      FiredNeverFalls(states[k - 1], acts[k - 1], g);
    }
  }

  /** The run's own step leaves it to ask, or fires, unless the run crashes or its query fails. */
  lemma OwnStepOfAsker(s: State, r: nat, e: Event, g: nat)
    requires ControlsOk(s) && Enabled(s, Step(r, e)) && Done(s, g) && r in ToAsk(s, g)
    requires var c := Next(s.runs[r].control, e).value; !c.pc.Crashed? && !c.readError
    ensures var s' := DoStep(s, r, e);
      r in ToAsk(s', g) || s'.book.fired[g] > s.book.fired[g]
  {
    var s' := DoStep(s, r, e);
    StepMoves(s, r, e);
    if !Owes(s.runs[r].(control := Next(s.runs[r].control, e).value), g) {
      SettlingADebt(s, r, e, g);
    }
  }

  lemma AskerAsksOrFires(s: State, a: Action, g: nat, r: nat)
    requires Inv(s) && Enabled(s, a) && Done(s, g) && r in ToAsk(s, g)
    requires r in Apply(s, a).runs ==>
      !Apply(s, a).runs[r].control.pc.Crashed? && !Apply(s, a).runs[r].control.readError
    ensures r in ToAsk(Apply(s, a), g) || Apply(s, a).book.fired[g] > s.book.fired[g]
  {
    if a.Step? && a.run == r {
      StepMoves(s, r, a.event);
      OwnStepOfAsker(s, r, a.event, g);
    } else {
      OthersLeaveRun(s, a, r);
    }
  }

  /** The run has still to ask, or the group has fired since `s0`. */
  ghost predicate AskedOrFired(s0: State, s: State, g: nat, r: nat) {
    r in ToAsk(s, g) || s.book.fired[g] > s0.book.fired[g]
  }

  ghost predicate Unharmed(s: State, r: nat) {
    r in s.runs ==> !s.runs[r].control.pc.Crashed? && !s.runs[r].control.readError
  }

  lemma StaysAskedOrFired(s0: State, s: State, a: Action, g: nat, r: nat)
    requires Inv(s) && Enabled(s, a) && Done(s, g) && Unharmed(Apply(s, a), r)
    requires AskedOrFired(s0, s, g, r) && s0.book.fired[g] <= s.book.fired[g]
    ensures AskedOrFired(s0, Apply(s, a), g, r)
  {
    FiredNeverFalls(s, a, g);
    if r in ToAsk(s, g) {
      AskerAsksOrFires(s, a, g, r);
    }
  }

  lemma UnharmedBefore(s: State, a: Action, r: nat)
    requires IdsOk(s) && Enabled(s, a) && Unharmed(Apply(s, a), r)
    ensures Unharmed(s, r)
  {
    RunGoesOnOnce(s, a, r);
  }

  lemma UnharmedStep(states: seq<State>, acts: seq<Action>, k: nat, r: nat)
    requires Behaviour(states, acts) && k < |acts| && Unharmed(states[k + 1], r)
    ensures Unharmed(states[k], r)
  {
    InvAlong(states, acts, k);
    UnharmedBefore(states[k], acts[k], r);
  }

  lemma AskedOrFiredStep(states: seq<State>, acts: seq<Action>, d: nat, k: nat, g: nat, r: nat)
    requires Behaviour(states, acts) && d <= k < |acts| && Done(states[k], g) && Unharmed(states[k + 1], r)
    requires AskedOrFired(states[d], states[k], g, r)
    ensures AskedOrFired(states[d], states[k + 1], g, r)
  {
    InvAlong(states, acts, k);
    FiredNeverFallsAlong(states, acts, d, k, g);
    StaysAskedOrFired(states[d], states[k], acts[k], g, r);
  }

  lemma DoneAt(states: seq<State>, g: nat, d: nat, k: nat, t: nat)
    requires StaysDone(states, g, d, k) && d <= t <= k
    ensures Done(states[t], g) && StaysDone(states, g, d, t) && StaysDone(states, g, t, k)
  {
  }

  /**
    A run that has still to ask about a finished group, and that returns without a query error while the
    group stays finished, has fired by then; panics inside ProcessTriggers do not change that.
  */
  lemma {:induction false} AskerHasFired(states: seq<State>, acts: seq<Action>, d: nat, k: nat, g: nat, r: nat)
    requires Behaviour(states, acts) && StaysDone(states, g, d, k) && r in ToAsk(states[d], g)
    requires Unharmed(states[k], r)
    ensures AskedOrFired(states[d], states[k], g, r)
    decreases k
  {
    if d < k {
      DoneAt(states, g, d, k, k - 1);
      UnharmedStep(states, acts, k - 1, r);
      AskerHasFired(states, acts, d, k - 1, g, r);
      AskedOrFiredStep(states, acts, d, k - 1, g, r);
    }
  }

  // ---------------------------------------------------------------------------
  // Nobody else does
  // ---------------------------------------------------------------------------

  predicate TriggerPanic(s: State, a: Action) {
    a.Step? && a.event.Panic? && a.run in s.runs && s.runs[a.run].control.pc.Triggering?
  }

  ghost predicate NoTriggerPanics(states: seq<State>, acts: seq<Action>, d: nat, k: nat)
    requires k <= |acts| <= |states|
  {
    forall t {:trigger acts[t]} | d <= t < k :: !TriggerPanic(states[t], acts[t])
  }

  lemma ToAskHasFiringLeft(s: State, g: nat, r: nat)
    ensures r in ToAsk(s, g) <==> LeftFor(s, r, g, false) > 0
  {
  }

  lemma WasToAskBefore(s: State, a: Action, g: nat, r: nat)
    requires IdsOk(s) && Enabled(s, a) && !TriggerPanic(s, a) && r in s.runs && r in ToAsk(Apply(s, a), g)
    ensures r in ToAsk(s, g)
  {
    if a.Step? && a.run == r {
      StepMoves(s, r, a.event);
      LeftGoesDown(s.runs[r].control, a.event, false);
      ToAskHasFiringLeft(s, g, r);
      ToAskHasFiringLeft(Apply(s, a), g, r);
    } else {
      OthersLeaveRun(s, a, r);
    }
  }

  lemma RunIsThere(states: seq<State>, acts: seq<Action>, d: nat, k: nat, r: nat)
    requires Behaviour(states, acts) && d <= k < |states| && r in states[d].runs
    ensures r in states[k].runs
  {
    RunGoesOnAlong(states, acts, d, k, r);
  }

  lemma WasToAskStep(states: seq<State>, acts: seq<Action>, k: nat, g: nat, r: nat)
    requires Behaviour(states, acts) && k < |acts| && !TriggerPanic(states[k], acts[k])
    requires r in states[k].runs && r in ToAsk(states[k + 1], g)
    ensures r in ToAsk(states[k], g)
  {
    InvAlong(states, acts, k);
    WasToAskBefore(states[k], acts[k], g, r);
  }

  lemma {:induction false} WasToAskAlong(states: seq<State>, acts: seq<Action>, d: nat, k: nat, g: nat, r: nat)
    requires Behaviour(states, acts) && d <= k < |states| && NoTriggerPanics(states, acts, d, k)
    requires r in states[d].runs && r in ToAsk(states[k], g)
    ensures r in ToAsk(states[d], g)
    decreases k
  {
    if d < k {
      RunIsThere(states, acts, d, k - 1, r);
      var a := acts[k - 1];
      WasToAskStep(states, acts, k - 1, g, r);
      WasToAskAlong(states, acts, d, k - 1, g, r);
    }
  }

  lemma FiringIsAnAskers(s: State, a: Action, g: nat)
    requires Enabled(s, a) && Apply(s, a).book.fired[g] != s.book.fired[g]
    ensures a.Step? && a.run in ToAsk(s, g)
  {
  }

  /** The first firing in between, if there is one. */
  lemma {:induction false} FiringInBetween(states: seq<State>, acts: seq<Action>, d: nat, k: nat, g: nat)
      returns (t: nat)
    requires Behaviour(states, acts) && d <= k < |states|
    requires states[k].book.fired[g] != states[d].book.fired[g]
    ensures d <= t < k && states[t + 1].book.fired[g] != states[t].book.fired[g]
    decreases k
  {
    if states[k].book.fired[g] != states[k - 1].book.fired[g] {
      t := k - 1;
    } else {
      t := FiringInBetween(states, acts, d, k - 1, g);
    }
  }

  // ---------------------------------------------------------------------------
  // A finished group gets no new run that returns
  // ---------------------------------------------------------------------------

  /** A run of the group that came after the d-th state has not marked its job as running. */
  ghost predicate Unmarked(s: State, g: nat, q: nat) {
    q in s.runs && InGroup(s, s.runs[q].job, g) && !s.runs[q].control.marked
  }

  lemma NewRunIsUnmarked(s: State, a: Action, g: nat, q: nat)
    requires Enabled(s, a) && q !in s.runs && q in Apply(s, a).runs && Apply(s, a).runs[q].group == Some(g)
    ensures Unmarked(Apply(s, a), g, q)
  {
    if IsRequest(a) {
      RequestKeepsWorkers(s, a);
    }
  }

  lemma UnmarkedStays(s: State, a: Action, g: nat, q: nat)
    requires Inv(s) && Enabled(s, a) && Unmarked(s, g, q) && Done(Apply(s, a), g)
    ensures Unmarked(Apply(s, a), g, q)
  {
    MemberStays(s, a, g, s.runs[q].job);
    if a.Step? && a.run == q {
      StepMoves(s, q, a.event);
      NextKeepsControlOk(s.runs[q].control, a.event);
    } else {
      OthersLeaveRun(s, a, q);
    }
  }

  lemma {:induction false} NewRunStaysUnmarked(states: seq<State>, acts: seq<Action>, d: nat, k: nat, g: nat, q: nat)
    requires Behaviour(states, acts) && StaysDone(states, g, d, k)
    requires q !in states[d].runs && q in states[k].runs && states[k].runs[q].group == Some(g)
    ensures Unmarked(states[k], g, q)
    decreases k
  {
    DoneAt(states, g, d, k, k);
    DoneAt(states, g, d, k, k - 1);
    if q in states[k - 1].runs {
      RunGoesOnAlong(states, acts, k - 1, k, q);
      NewRunStaysUnmarked(states, acts, d, k - 1, g, q);
      UnmarkedStep(states, acts, k - 1, g, q);
    } else {
      NewRunStep(states, acts, k - 1, g, q);
    }
  }

  lemma UnmarkedStep(states: seq<State>, acts: seq<Action>, k: nat, g: nat, q: nat)
    requires Behaviour(states, acts) && k < |acts| && Unmarked(states[k], g, q) && Done(states[k + 1], g)
    ensures Unmarked(states[k + 1], g, q)
  {
    InvAlong(states, acts, k);
    UnmarkedStays(states[k], acts[k], g, q);
  }

  lemma NewRunStep(states: seq<State>, acts: seq<Action>, k: nat, g: nat, q: nat)
    requires Behaviour(states, acts) && k < |acts| && q !in states[k].runs
    requires q in states[k + 1].runs && states[k + 1].runs[q].group == Some(g)
    ensures Unmarked(states[k + 1], g, q)
  {
    InvAlong(states, acts, k);
    NewRunIsUnmarked(states[k], acts[k], g, q);
  }

  /** A run that has returned was there when the group became finished: its first write would have reopened it. */
  lemma ReturnedRunIsOld(states: seq<State>, acts: seq<Action>, d: nat, k: nat, g: nat, q: nat)
    requires Behaviour(states, acts) && StaysDone(states, g, d, k)
    requires q in states[k].runs && states[k].runs[q].group == Some(g) && states[k].runs[q].control.pc.Finished?
    ensures q in states[d].runs
  {
    InvAlong(states, acts, k);
    assert ControlOk(states[k].runs[q].control);
    if q !in states[d].runs {
      NewRunStaysUnmarked(states, acts, d, k, g, q);
    }
  }

  /** Every run that knows of the group has returned, and none of its queries failed. */
  ghost predicate AllReturned(s: State, g: nat) {
    forall r | r in s.runs && s.runs[r].group == Some(g) ::
      s.runs[r].control.pc.Finished? && !s.runs[r].control.readError
  }

  /**
    While a group stays finished, from some state on until all runs that know of it have returned, and no
    run panics inside ProcessTriggers, its triggers run exactly when some run that knows of it had still to
    write its status or to ask.
  */
  lemma FinishedGroupFiresExactlyForAskers(states: seq<State>, acts: seq<Action>, d: nat, k: nat, g: nat)
    requires Behaviour(states, acts) && StaysDone(states, g, d, k) && NoTriggerPanics(states, acts, d, k)
    requires AllReturned(states[k], g)
    ensures states[k].book.fired[g] > states[d].book.fired[g] <==> ToAsk(states[d], g) != {}
  {
    FiredNeverFallsAlong(states, acts, d, k, g);
    if states[k].book.fired[g] != states[d].book.fired[g] {
      var t := FiringInBetween(states, acts, d, k, g);
      FiringIsAnAskers(states[t], acts[t], g);
      var q := acts[t].run;
      RunGoesOnAlong(states, acts, t, k, q);
      ReturnedRunIsOld(states, acts, d, k, g, q);
      WasToAskAlong(states, acts, d, t, g, q);
    } else if r :| r in ToAsk(states[d], g) {
      RunGoesOnAlong(states, acts, d, k, r);
      AskerHasFired(states, acts, d, k, g, r);
    }
  }

  // ---------------------------------------------------------------------------
  // The group of jobs that were built as its members
  // ---------------------------------------------------------------------------

  lemma StepFinisherOwes(s: State, r: nat, e: Event, g: nat)
    requires Enabled(s, Step(r, e)) && !Done(s, g) && Done(DoStep(s, r, e), g)
    ensures Debt(DoStep(s, r, e), g)
  {
    StepMoves(s, r, e);
    SameMembers(s, DoStep(s, r, e), g);
    LastFinisherOwes(s, DoStep(s, r, e), r, e, g);
    assert OwingRun(DoStep(s, r, e), r, g);
  }

  lemma CancelFinisherOwes(s: State, host: nat, j: nat, g: nat)
    requires AwaitedOk(s) && RunsOk(s) && LiveOk(s) && (host, j) in s.live
    requires !Done(s, g) && Done(DoCancel(s, host, j), g)
    ensures Debt(DoCancel(s, host, j), g)
  {
    CancelStops(s, host, j);
    SameMembers(s, DoCancel(s, host, j), g);
    CancellerOwes(s, DoCancel(s, host, j), s.live[(host, j)], g);
  }

  /** A step that finishes a group leaves somebody who owes it the question. */
  lemma FinisherOwes(s: State, a: Action, g: nat)
    requires Inv(s) && Enabled(s, a) && !Done(s, g) && Done(Apply(s, a), g)
    ensures Debt(Apply(s, a), g)
  {
    if IsRequest(a) {
      RequestFinishes(s, a, g);
    } else if a.Step? {
      StepFinisherOwes(s, a.run, a.event, g);
    } else if a.HandleCancel? && (a.host, a.job) in s.live {
      CancelFinisherOwes(s, a.host, a.job, g);
    } else {
      NothingFinishes(s, a, g);
    }
  }

  lemma SameMembers(s: State, s': State, g: nat)
    requires s'.jobs.Keys == s.jobs.Keys && s'.groups == s.groups
    requires forall j | j in s.jobs :: s'.jobs[j].group == s.jobs[j].group
    requires !Done(s, g) && Done(s', g)
    ensures !AllTerminal(s, g)
  {
    var j :| InGroup(s', j, g);
    assert InGroup(s, j, g);
  }

  lemma RequestFinishes(s: State, a: Action, g: nat)
    requires Inv(s) && Enabled(s, a) && IsRequest(a) && Done(Apply(s, a), g)
    ensures Done(s, g)
  {
    var s' := Apply(s, a);
    RequestMovesGroups(s, a);
    if a.CreateGroup? {
      CreateGroupMoves(s, a.user, a.ids, a.triggers, a.execute);
      CreateGroupReissues(s, a.user, a.ids, a.triggers, a.execute);
    } else {
      SimpleRequestMoves(s, a);
    }
    RequestFinishesNoGroup(s, s', g);
    var j :| InGroup(s, j, g);
    assert g < s.nextGroup;
  }

  lemma CancellerOwes(s: State, s': State, r: nat, g: nat)
    requires AwaitedOk(s) && RunsOk(s) && r in s.runs && s.runs[r].control.marked && Stopped(s, s', r, true)
    requires !AllTerminal(s, g) && AllTerminal(s', g)
    ensures Debt(s', g)
  {
    var j :| j in s.jobs && s.jobs[j].group == Some(g) && !s.jobs[j].status.Terminal();
    assert s'.jobs[j].status.Terminal();
    assert j == s.runs[r].job && Awaited(s, j);
    assert InGroup(s', j, g) && Issued(s', j) == Issued(s, j);
    if Issued(s, j) <= s.book.taken[j] {
      var q :| q in s.runs && s.runs[q].job == j && StatusToCome(s.runs[q].control);
      assert OwingRun(s', q, g);
    }
  }

  lemma NothingFinishes(s: State, a: Action, g: nat)
    requires Enabled(s, a) && !IsRequest(a) && !a.Step? && Done(Apply(s, a), g)
    requires a.HandleCancel? ==> (a.host, a.job) !in s.live
    ensures Done(s, g)
  {
    var j :| InGroup(Apply(s, a), j, g);
    assert InGroup(s, j, g);
  }

  /** When the group became finished for the time that it still is. */
  lemma {:induction false} BecameDone(states: seq<State>, acts: seq<Action>, i: nat, g: nat) returns (d: nat)
    requires Behaviour(states, acts) && i < |states| && Done(states[i], g)
    ensures 0 < d <= i && StaysDone(states, g, d, i) && !Done(states[d - 1], g)
    decreases i
  {
    if Done(states[i - 1], g) {
      d := BecameDone(states, acts, i - 1, g);
    } else {
      d := i;
    }
  }

  lemma TakenOnlyByTake(s: State, a: Action, j: nat)
    requires Enabled(s, a) && Apply(s, a).book.taken[j] != s.book.taken[j]
    ensures a.Take? && a.job == j
  {
  }

  lemma {:induction false} TakenInBetween(states: seq<State>, acts: seq<Action>, d: nat, k: nat, j: nat)
      returns (t: nat)
    requires Behaviour(states, acts) && d <= k < |states| && states[k].book.taken[j] != states[d].book.taken[j]
    ensures d <= t < k && acts[t].Take? && acts[t].job == j
    decreases k
  {
    if states[k].book.taken[j] != states[k - 1].book.taken[j] {
      TakenOnlyByTake(states[k - 1], acts[k - 1], j);
      t := k - 1;
    } else {
      t := TakenInBetween(states, acts, d, k - 1, j);
    }
  }

  lemma TakeMakesRun(s: State, j: nat, host: nat, g: nat)
    requires IdsOk(s) && InGroup(s, j, g)
    ensures var s' := DoTake(s, j, host);
      && s.nextRun !in s.runs && s.nextRun in s'.runs
      && s'.runs[s.nextRun].group == Some(g) && s'.runs[s.nextRun].job == j
  {
  }

  /** No message about a member is taken while the group stays finished, if the runs return by the end. */
  lemma NoneTaken(states: seq<State>, acts: seq<Action>, d: nat, k: nat, g: nat, j: nat)
    requires Behaviour(states, acts) && StaysDone(states, g, d, k) && InGroup(states[d], j, g)
    requires forall r | r in states[k].runs && states[k].runs[r].job == j :: states[k].runs[r].control.pc.Finished?
    ensures states[k].book.taken[j] == states[d].book.taken[j]
  {
    if states[k].book.taken[j] != states[d].book.taken[j] {
      var t := TakenInBetween(states, acts, d, k, j);
      var q := states[t].nextRun;
      MemberStaysAlong(states, acts, d, t, g, j);
      InvAlong(states, acts, t);
      TakeMakesRun(states[t], j, acts[t].host, g);
      RunGoesOnAlong(states, acts, t + 1, k, q);
      ReturnedRunIsOld(states, acts, t, k, g, q);
    }
  }

  /** Whoever owed the question when the group became finished had it still to ask. */
  lemma OwingRunIsToAsk(states: seq<State>, acts: seq<Action>, d: nat, i: nat, g: nat, r: nat)
    requires Behaviour(states, acts) && StaysDone(states, g, d, i)
    requires Settled(states[i], g) && MembersKnow(states[i], g) && OwingRun(states[d], r, g)
    ensures r in ToAsk(states[d], g)
    ensures r in states[i].runs && states[i].runs[r].control.pc.Finished? && !states[i].runs[r].control.readError
  {
    RunGoesOnAlong(states, acts, d, i, r);
    MemberStaysAlong(states, acts, d, i, g, states[d].runs[r].job);
  }

  lemma SettledMemberWasIssued(states: seq<State>, acts: seq<Action>, d: nat, i: nat, g: nat, j: nat)
    requires Behaviour(states, acts) && StaysDone(states, g, d, i) && Settled(states[i], g) && InGroup(states[d], j, g)
    ensures Issued(states[d], j) <= states[d].book.taken[j]
  {
    MemberStaysAlong(states, acts, d, i, g, j);
    OnwardAlong(states, acts, d, i);
    NoneTaken(states, acts, d, i, g, j);
  }

  /** The group is finished, with a trigger to run. */
  lemma SettledGroupIsDone(states: seq<State>, acts: seq<Action>, i: nat, g: nat)
    requires Behaviour(states, acts) && i < |states| && Settled(states[i], g)
    requires g in states[i].groups && states[i].groups[g].triggers > 0
    requires exists j :: InGroup(states[i], j, g)
    ensures Done(states[i], g)
  {
    InvAlong(states, acts, i);
    forall j | InGroup(states[i], j, g) ensures states[i].jobs[j].status.Terminal() {
      SettledMemberIsTerminal(states[i], g, j);
    }
  }

  lemma BecameDoneOwing(states: seq<State>, acts: seq<Action>, d: nat, g: nat)
    requires Behaviour(states, acts) && 0 < d < |states| && !Done(states[d - 1], g) && Done(states[d], g)
    ensures Debt(states[d], g)
  {
    InvAlong(states, acts, d - 1);
    FinisherOwes(states[d - 1], acts[d - 1], g);
  }

  lemma OwingRunHasFired(states: seq<State>, acts: seq<Action>, d: nat, i: nat, g: nat, r: nat)
    requires Behaviour(states, acts) && StaysDone(states, g, d, i)
    requires Settled(states[i], g) && MembersKnow(states[i], g) && OwingRun(states[d], r, g)
    ensures states[i].book.fired[g] > 0
  {
    OwingRunIsToAsk(states, acts, d, i, g, r);
    AskerHasFired(states, acts, d, i, g, r);
  }

  /**
    A group with a trigger and at least one member, all of whose members' runs knew of the group, has
    fired by the time these runs have returned: whoever finished the group asked afterwards.
  */
  lemma SettledGroupHasFired(states: seq<State>, acts: seq<Action>, i: nat, g: nat)
    requires Behaviour(states, acts) && i < |states|
    requires g in states[i].groups && states[i].groups[g].triggers > 0
    requires exists j :: InGroup(states[i], j, g)
    requires Settled(states[i], g) && MembersKnow(states[i], g)
    ensures AllTerminal(states[i], g)
    ensures states[i].book.fired[g] > 0
  {
    SettledGroupIsDone(states, acts, i, g);
    var d := BecameDone(states, acts, i, g);
    BecameDoneOwing(states, acts, d, g);
    if j :| InGroup(states[d], j, g) && Issued(states[d], j) > states[d].book.taken[j] {
      SettledMemberWasIssued(states, acts, d, i, g, j);
    } else {
      var r :| OwingRun(states[d], r, g);
      OwingRunHasFired(states, acts, d, i, g, r);
    }
  }
}
