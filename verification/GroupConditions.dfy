/**
  Which of a group's triggers run.  The statuses are those of the rows that GetJobs read, the finishing
  job's own status is the one that its run keeps in memory, and others go on while the run is between the
  two: exactly when the triggers fit what was read, and what the rows say when the loop is entered.
*/
module GroupConditions {
  import opened Prelude
  import opened BuildFarm
  import opened FarmInvariants
  import opened FarmStatus
  import opened FarmTriggers
  import opened FarmSteps
  import opened FarmTheorems
  import opened FarmRuns
  import opened FarmFirings
  import opened FarmGaps
  import opened GroupReport

  // ---------------------------------------------------------------------------
  // The status that the run has in memory
  // ---------------------------------------------------------------------------

  /** GetJob fills in the row's status; the run's own writes and the cancel handler set it as well. */
  function OwnAfter(s: State, a: Action, r: nat, st: Status): Status {
    match a
    case Take(j, _) => if r == s.nextRun && j in s.jobs then s.jobs[j].status else st
    case Step(q, e) => if q == r && r in s.runs then StatusAfter(st, s.runs[r].control, e) else st
    case HandleCancel(host, j) => if (host, j) in s.live && s.live[(host, j)] == r then Cancelled else st
    case _ => st
  }

  /** The status in the memory of run `r` in the i-th state. */
  function OwnStatus(states: seq<State>, acts: seq<Action>, r: nat, i: nat): Status
    requires i <= |acts| <= |states|
  {
    if i == 0 then Pending else OwnAfter(states[i - 1], acts[i - 1], r, OwnStatus(states, acts, r, i - 1))
  }

  /** Once the run has written "running", its status is "success" exactly when that was its last verdict. */
  ghost predicate OwnFits(s: State, r: nat, st: Status) {
    r in s.runs && s.runs[r].control.marked ==>
      (st.Success? <==> s.runs[r].control.wrote && !s.runs[r].control.late)
  }

  lemma NextKeepsOwn(c: Control, e: Event, st: Status)
    requires ControlOk(c) && Next(c, e).Some?
    requires c.marked ==> (st.Success? <==> c.wrote && !c.late)
    ensures var c' := Next(c, e).value;
      c'.marked ==> (StatusAfter(st, c, e).Success? <==> c'.wrote && !c'.late)
  {
  }

  lemma ApplyKeepsOwn(s: State, a: Action, r: nat, st: Status)
    requires IdsOk(s) && ControlsOk(s) && LiveOk(s) && Enabled(s, a) && OwnFits(s, r, st)
    ensures OwnFits(Apply(s, a), r, OwnAfter(s, a, r, st))
  {
    if a.Step? && a.run == r {
      StepMoves(s, r, a.event);
      NextKeepsOwn(s.runs[r].control, a.event, st);
    } else if r in s.runs {
      OthersLeaveRun(s, a, r);
      assert ControlOk(s.runs[r].control);
    } else if r in Apply(s, a).runs {
      NewRunIsFresh(s, a, r);
    }
  }

  lemma {:induction false} OwnAlong(states: seq<State>, acts: seq<Action>, r: nat, i: nat)
    requires Behaviour(states, acts) && i < |states|
    ensures OwnFits(states[i], r, OwnStatus(states, acts, r, i))
    decreases i
  {
    if i > 0 {
      OwnAlong(states, acts, r, i - 1);
      OwnStep(states, acts, r, i - 1);
    }
  }

  lemma OwnStep(states: seq<State>, acts: seq<Action>, r: nat, k: nat)
    requires Behaviour(states, acts) && k < |acts| && OwnFits(states[k], r, OwnStatus(states, acts, r, k))
    ensures OwnFits(states[k + 1], r, OwnStatus(states, acts, r, k + 1))
  {
    InvAlong(states, acts, k);
    ApplyKeepsOwn(states[k], acts[k], r, OwnStatus(states, acts, r, k));
  }

  // ---------------------------------------------------------------------------
  // The read that a firing rests on
  // ---------------------------------------------------------------------------

  /** Run `r` reads the group's jobs at `m`, finds them all done, and enters the trigger loop next, at `i`. */
  ghost predicate ReadThenFire(states: seq<State>, acts: seq<Action>, r: nat, m: nat, i: nat) {
    && m < i < |acts| < |states|
    && r in states[m].runs && r in states[i].runs
    && IsStep(acts[m], r, Trigger(ReadJobs(true))) && IsStep(acts[i], r, Trigger(FireGroup))
    && NoStepOf(acts, r, m, i)
  }

  /** Every entry into the trigger loop rests on one such read. */
  lemma ReadBeforeFire(states: seq<State>, acts: seq<Action>, r: nat, i: nat) returns (m: nat)
    requires Behaviour(states, acts) && i < |acts| && acts[i] == Step(r, Trigger(FireGroup))
    ensures ReadThenFire(states, acts, r, m, i)
  {
    m := LastOwnStep(states, acts, r, i);
    OnlyReadingLeadsToFire(states[m].runs[r].control, acts[m].event);
  }

  /** `statuses` are those of the group's jobs, in the order in which GetJobs happens to read them. */
  ghost predicate Reads(s: State, g: nat, order: seq<nat>, statuses: seq<Status>) {
    && |order| == |statuses|
    && (forall i | 0 <= i < |order| :: InGroup(s, order[i], g) && statuses[i] == s.jobs[order[i]].status)
    && forall j | InGroup(s, j, g) :: j in order
  }

  ghost predicate SomeDidNotSucceed(s: State, g: nat) {
    exists j :: InGroup(s, j, g) && !s.jobs[j].status.Success?
  }

  lemma ReadsAllSuccess(s: State, g: nat, order: seq<nat>, statuses: seq<Status>)
    requires Reads(s, g, order, statuses)
    ensures AllSuccess(statuses) <==> !SomeDidNotSucceed(s, g)
    ensures AllTerminal(s, g) ==> AllDone(statuses)
  {
    if AllSuccess(statuses) {
      forall j | InGroup(s, j, g) ensures s.jobs[j].status.Success? {
        var i :| 0 <= i < |order| && order[i] == j;
        assert statuses[i].Success?;
      }
    } else {
      var i :| 0 <= i < |statuses| && !statuses[i].Success?;
      assert InGroup(s, order[i], g) && !s.jobs[order[i]].status.Success?;
    }
  }

  lemma ReadFoundAllDone(states: seq<State>, acts: seq<Action>, r: nat, m: nat, i: nat)
    requires Behaviour(states, acts) && ReadThenFire(states, acts, r, m, i)
    ensures states[m].runs[r].group.Some? && AllTerminal(states[m], states[m].runs[r].group.value)
    ensures states[i].runs[r].group == states[m].runs[r].group
  {
    RunGoesOnAlong(states, acts, m, i, r);
  }

  lemma OwnAtFire(states: seq<State>, acts: seq<Action>, r: nat, m: nat, i: nat)
    requires Behaviour(states, acts) && ReadThenFire(states, acts, r, m, i)
    ensures OwnStatus(states, acts, r, i).Success? <==> !states[i].runs[r].control.late
  {
    InvAlong(states, acts, i);
    OwnAlong(states, acts, r, i);
    assert ControlOk(states[i].runs[r].control);
  }

  /**
    When run `r` enters the trigger loop of its group, the failure triggers run exactly when some row that
    it read was no success, the success triggers exactly when its own last verdict was one, and the others
    always.
  */
  lemma GroupTriggersRunRightly(states: seq<State>, acts: seq<Action>, r: nat, m: nat, i: nat,
      order: seq<nat>, statuses: seq<Status>, group: Status, email: bool)
    requires Behaviour(states, acts) && ReadThenFire(states, acts, r, m, i)
    requires var run := states[m].runs[r]; run.group.Some? && Reads(states[m], run.group.value, order, statuses)
    requires (group.Success? <==> AllSuccess(statuses)) && (!group.Success? ==> LastTrouble(statuses, group))
    ensures var g, own := states[m].runs[r].group.value, OwnStatus(states, acts, r, i);
      && (Met(GroupTrigger(WhenFailure, email), group, own) <==> SomeDidNotSucceed(states[m], g))
      && (Met(GroupTrigger(WhenSuccess, email), group, own) <==> !states[i].runs[r].control.late)
      && Met(GroupTrigger(WhenAlways, email), group, own)
  {
    ReadFoundAllDone(states, acts, r, m, i);
    ReadsAllSuccess(states[m], states[m].runs[r].group.value, order, statuses);
    FailureConditionIsRight(statuses, group, OwnStatus(states, acts, r, i), email);
    OwnAtFire(states, acts, r, m, i);
  }

  lemma VerdictAtRead(states: seq<State>, acts: seq<Action>, r: nat, m: nat, i: nat)
    requires Behaviour(states, acts) && ReadThenFire(states, acts, r, m, i)
    ensures states[m].runs[r].control.wrote && states[m].runs[r].control.late == states[i].runs[r].control.late
  {
    InvAlong(states, acts, m);
    StepMoves(states[m], r, Trigger(ReadJobs(true)));
    ControlMeanwhile(states, acts, r, m, i);
    assert ControlOk(states[m].runs[r].control);
  }

  /** The finishing job's row, if it was issued once, says what its run's verdict was. */
  lemma FinishingRow(s: State, r: nat)
    requires RunsOk(s) && OnceOk(s) && r in s.runs && s.runs[r].job in s.jobs && Issued(s, s.runs[r].job) <= 1
    requires s.runs[r].control.wrote && s.runs[r].group.Some?
    ensures InGroup(s, s.runs[r].job, s.runs[r].group.value)
    ensures s.jobs[s.runs[r].job].status.Success? <==> !s.runs[r].control.late
  {
    assert StatusFits(s.jobs[s.runs[r].job].status, s.runs[r].control);
  }

  /**
    So for the run of a job issued once the success triggers are right about the rows that it read, except
    exactly when its own verdict was a success while some member's was not; then they run all the same.
  */
  lemma SuccessTriggersFitReading(states: seq<State>, acts: seq<Action>, r: nat, m: nat, i: nat,
      group: Status, email: bool)
    requires Behaviour(states, acts) && ReadThenFire(states, acts, r, m, i) && states[m].runs[r].group.Some?
    requires states[m].runs[r].job in states[m].jobs && Issued(states[m], states[m].runs[r].job) <= 1
    ensures var own, some := OwnStatus(states, acts, r, i), SomeDidNotSucceed(states[m], states[m].runs[r].group.value);
      Met(GroupTrigger(WhenSuccess, email), group, own) == !some <==> !(some && !states[i].runs[r].control.late)
  {
    OwnAtFire(states, acts, r, m, i);
    VerdictAtRead(states, acts, r, m, i);
    InvAlong(states, acts, m);
    FinishingRow(states[m], r);
  }

  // ---------------------------------------------------------------------------
  // What may change between the read and the loop
  // ---------------------------------------------------------------------------

  lemma NobodyJoins(s: State, a: Action, g: nat, j: nat)
    requires Inv(s) && Enabled(s, a) && g < s.nextGroup
    ensures InGroup(Apply(s, a), j, g) ==> InGroup(s, j, g)
    ensures g < Apply(s, a).nextGroup
  {
    if IsRequest(a) {
      EveryRequestMoves(s, a);
    } else {
      WorkersAddNoGroup(s, a);
    }
  }

  lemma WorkersAddNoGroup(s: State, a: Action)
    requires Enabled(s, a) && !IsRequest(a)
    ensures Apply(s, a).nextGroup == s.nextGroup
    ensures forall j | j in Apply(s, a).jobs :: j in s.jobs && Apply(s, a).jobs[j].group == s.jobs[j].group
  {
  }

  lemma NobodyJoinsStep(states: seq<State>, acts: seq<Action>, k: nat, g: nat, j: nat)
    requires Behaviour(states, acts) && k < |acts| && g < states[k].nextGroup
    ensures InGroup(states[k + 1], j, g) ==> InGroup(states[k], j, g)
    ensures g < states[k + 1].nextGroup
  {
    InvAlong(states, acts, k);
    NobodyJoins(states[k], acts[k], g, j);
  }

  /** A group that exists gets no new member. */
  lemma {:induction false} NobodyJoinsLater(states: seq<State>, acts: seq<Action>, m: nat, i: nat, g: nat, j: nat)
    requires Behaviour(states, acts) && m <= i < |states| && g < states[m].nextGroup
    ensures InGroup(states[i], j, g) ==> InGroup(states[m], j, g)
    ensures g < states[i].nextGroup
    decreases i
  {
    if m < i {
      NobodyJoinsLater(states, acts, m, i - 1, g, j);
      NobodyJoinsStep(states, acts, i - 1, g, j);
    }
  }

  /** A run of the job writes "success". */
  predicate WritesSuccess(s: State, a: Action, j: nat) {
    a.Step? && a.event.WriteSuccess? && a.run in s.runs && s.runs[a.run].job == j
  }

  ghost predicate SucceededBetween(states: seq<State>, acts: seq<Action>, m: nat, k: nat, j: nat)
    requires k <= |acts| <= |states|
  {
    exists t {:trigger acts[t]} :: m <= t < k && WritesSuccess(states[t], acts[t], j)
  }

  lemma SucceededBetweenStep(states: seq<State>, acts: seq<Action>, m: nat, k: nat, j: nat)
    requires m <= k < |acts| <= |states|
    ensures SucceededBetween(states, acts, m, k + 1, j) <==>
            SucceededBetween(states, acts, m, k, j) || WritesSuccess(states[k], acts[k], j)
  {
  }

  /** A row turns into a success by a run's write of "success" and in no other way. */
  ghost predicate SuccessMoves(s: State, s': State, j: nat, writes: bool) {
    j in s.jobs && j in s'.jobs ==>
      && (writes ==> s'.jobs[j].status.Success?)
      && (!s.jobs[j].status.Success? && !writes ==> !s'.jobs[j].status.Success?)
  }

  lemma RequestMovesSuccess(s: State, a: Action, j: nat)
    requires IdsOk(s) && Enabled(s, a) && IsRequest(a)
    ensures SuccessMoves(s, Apply(s, a), j, false)
  {
    if a.CreateGroup? {
      CreateGroupReissues(s, a.user, a.ids, a.triggers, a.execute);
    } else {
      RequestsReissue(s, a);
    }
  }

  lemma WorkersMoveSuccess(s: State, a: Action, j: nat)
    requires Enabled(s, a) && !IsRequest(a) && ControlsOk(s)
    ensures SuccessMoves(s, Apply(s, a), j, WritesSuccess(s, a, j))
  {
    if a.Step? {
      assert ControlOk(s.runs[a.run].control);
    }
  }

  lemma ApplyMovesSuccess(states: seq<State>, acts: seq<Action>, k: nat, j: nat)
    requires Behaviour(states, acts) && k < |acts|
    ensures SuccessMoves(states[k], states[k + 1], j, WritesSuccess(states[k], acts[k], j))
  {
    InvAlong(states, acts, k);
    if IsRequest(acts[k]) {
      RequestMovesSuccess(states[k], acts[k], j);
    } else {
      WorkersMoveSuccess(states[k], acts[k], j);
    }
  }

  /** The row became a success, and the recovery handler has not taken that back. */
  ghost predicate IsOrBecomes(states: seq<State>, acts: seq<Action>, m: nat, i: nat, j: nat)
    requires m <= i <= |acts| <= |states| && m < |states|
  {
    || (j in states[m].jobs && states[m].jobs[j].status.Success?)
    || SucceededBetween(states, acts, m, i, j)
  }

  lemma SuccessOneStep(states: seq<State>, acts: seq<Action>, k: nat, j: nat)
    requires Behaviour(states, acts) && k < |acts|
    requires j in states[k].jobs && j in states[k + 1].jobs && Issued(states[k + 1], j) <= 1
    ensures states[k + 1].jobs[j].status.Success? <==>
      (states[k].jobs[j].status.Success? || WritesSuccess(states[k], acts[k], j)) && !Recovers(states[k], acts[k], j)
  {
    ApplyMovesSuccess(states, acts, k, j);
    OutcomeStep(states, acts, k, j);
  }

  lemma NoSuccessIfRecovered(states: seq<State>, acts: seq<Action>, m: nat, k: nat, j: nat)
    requires Behaviour(states, acts) && m <= k < |states|
    requires j in states[k].jobs && Issued(states[k], j) <= 1 && RecoveredBetween(states, acts, m, k, j)
    ensures !states[k].jobs[j].status.Success?
  {
    var t :| m <= t < k && Recovers(states[t], acts[t], j);
    NoSuccessAfterRecovery(states, acts, t, k, j);
  }

  lemma BetweenOneStepOn(states: seq<State>, acts: seq<Action>, m: nat, k: nat, j: nat)
    requires m <= k < |acts| && |acts| < |states|
    ensures IsOrBecomes(states, acts, m, k + 1, j) <==>
      IsOrBecomes(states, acts, m, k, j) || WritesSuccess(states[k], acts[k], j)
    ensures RecoveredBetween(states, acts, m, k + 1, j) <==>
      RecoveredBetween(states, acts, m, k, j) || Recovers(states[k], acts[k], j)
  {
    SucceededBetweenStep(states, acts, m, k, j);
    RecoveredBetweenStep(states, acts, m, k, j);
  }

  lemma SuccessOneStepOn(states: seq<State>, acts: seq<Action>, m: nat, k: nat, j: nat)
    requires Behaviour(states, acts) && m <= k < |acts|
    requires j in states[k].jobs && j in states[k + 1].jobs && Issued(states[k + 1], j) <= 1
    requires states[k].jobs[j].status.Success? <==>
      IsOrBecomes(states, acts, m, k, j) && !RecoveredBetween(states, acts, m, k, j)
    ensures states[k + 1].jobs[j].status.Success? <==>
      IsOrBecomes(states, acts, m, k + 1, j) && !RecoveredBetween(states, acts, m, k + 1, j)
  {
    BetweenOneStepOn(states, acts, m, k, j);
    SuccessOneStep(states, acts, k, j);
    if RecoveredBetween(states, acts, m, k + 1, j) {
      NoSuccessIfRecovered(states, acts, m, k + 1, j);
    }
  }

  /**
    The row of a job issued once is a success later on exactly when it was one or a run of the job wrote
    "success" in between, and no recovery handler did in between.
  */
  lemma {:induction false} SuccessBetween(states: seq<State>, acts: seq<Action>, m: nat, i: nat, j: nat)
    requires Behaviour(states, acts) && m <= i < |states|
    requires j in states[m].jobs && j in states[i].jobs && Issued(states[i], j) <= 1
    ensures states[i].jobs[j].status.Success? <==>
      IsOrBecomes(states, acts, m, i, j) && !RecoveredBetween(states, acts, m, i, j)
    decreases i
  {
    if m < i {
      RowInBetween(states, acts, m, i, j);
      SuccessBetween(states, acts, m, i - 1, j);
      SuccessOneStepOn(states, acts, m, i - 1, j);
    }
  }

  /** A member that the run read is still there when the loop is entered, and is no success then. */
  ghost predicate EndsUnsuccessful(states: seq<State>, acts: seq<Action>, m: nat, i: nat, j: nat)
    requires m <= i <= |acts| <= |states| && i < |states|
  {
    j in states[i].jobs && (RecoveredBetween(states, acts, m, i, j) || !IsOrBecomes(states, acts, m, i, j))
  }

  lemma MembersAtFire(states: seq<State>, acts: seq<Action>, m: nat, i: nat, g: nat, j: nat)
    requires Behaviour(states, acts) && m <= i < |states| && g < states[m].nextGroup
    ensures InGroup(states[i], j, g) <==> InGroup(states[m], j, g) && j in states[i].jobs
  {
    NobodyJoinsLater(states, acts, m, i, g, j);
    if InGroup(states[m], j, g) && j in states[i].jobs {
      GroupIsForLife(states, acts, m, i, j);
    }
  }

  lemma SomeEndsUnsuccessful(states: seq<State>, acts: seq<Action>, m: nat, i: nat, g: nat)
    requires Behaviour(states, acts) && m <= i < |states| && g < states[m].nextGroup
    requires forall j | InGroup(states[i], j, g) :: Issued(states[i], j) <= 1
    ensures SomeDidNotSucceed(states[i], g) <==>
      exists j :: InGroup(states[m], j, g) && EndsUnsuccessful(states, acts, m, i, j)
  {
    if SomeDidNotSucceed(states[i], g) {
      var j :| InGroup(states[i], j, g) && !states[i].jobs[j].status.Success?;
      MembersAtFire(states, acts, m, i, g, j);
      SuccessBetween(states, acts, m, i, j);
      assert InGroup(states[m], j, g) && EndsUnsuccessful(states, acts, m, i, j);
    }
    if j :| InGroup(states[m], j, g) && EndsUnsuccessful(states, acts, m, i, j) {
      MembersAtFire(states, acts, m, i, g, j);
      SuccessBetween(states, acts, m, i, j);
      assert InGroup(states[i], j, g) && !states[i].jobs[j].status.Success?;
    }
  }

  lemma GroupOfReader(states: seq<State>, acts: seq<Action>, r: nat, m: nat, i: nat)
    requires Behaviour(states, acts) && ReadThenFire(states, acts, r, m, i)
    ensures states[m].runs[r].group.Some? && states[m].runs[r].group.value < states[m].nextGroup
  {
    ReadFoundAllDone(states, acts, r, m, i);
    InvAlong(states, acts, m);
  }

  /**
    The failure triggers, decided by the rows that were read, fit the rows at the entry into the loop
    exactly when: if some row read was no success, some member ends unsuccessful, that is, its row is still
    there and no run of it has written "success" since, or its recovery handler has; and if all rows read
    were successes, no recovery handler of a member that is still there has written since.
  */
  lemma FailureTriggersFitEntry(states: seq<State>, acts: seq<Action>, r: nat, m: nat, i: nat,
      order: seq<nat>, statuses: seq<Status>, group: Status, email: bool)
    requires Behaviour(states, acts) && ReadThenFire(states, acts, r, m, i)
    requires var run := states[m].runs[r]; run.group.Some? && Reads(states[m], run.group.value, order, statuses)
    requires (group.Success? <==> AllSuccess(statuses)) && (!group.Success? ==> LastTrouble(statuses, group))
    requires forall j | InGroup(states[i], j, states[m].runs[r].group.value) :: Issued(states[i], j) <= 1
    ensures var g, own := states[m].runs[r].group.value, OwnStatus(states, acts, r, i);
      Met(GroupTrigger(WhenFailure, email), group, own) == SomeDidNotSucceed(states[i], g) <==>
      if AllSuccess(statuses)
      then forall j | InGroup(states[m], j, g) && j in states[i].jobs :: !RecoveredBetween(states, acts, m, i, j)
      else exists j :: InGroup(states[m], j, g) && EndsUnsuccessful(states, acts, m, i, j)
  {
    var g := states[m].runs[r].group.value;
    GroupTriggersRunRightly(states, acts, r, m, i, order, statuses, group, email);
    GroupOfReader(states, acts, r, m, i);
    SomeEndsUnsuccessful(states, acts, m, i, g);
    ReadsAllSuccess(states[m], g, order, statuses);
    if AllSuccess(statuses) {
      forall j | InGroup(states[m], j, g)
        ensures EndsUnsuccessful(states, acts, m, i, j) <==>
                j in states[i].jobs && RecoveredBetween(states, acts, m, i, j)
      {
        assert states[m].jobs[j].status.Success?;
      }
    }
  }
}
