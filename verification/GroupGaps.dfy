/**
  Where a group's triggers miss the state of the group, each shown by a behaviour from the empty database:
  run 0 reads the group's jobs, run 1 goes on, and run 0 enters the trigger loop.
*/
module GroupGaps {
  import opened Prelude
  import opened BuildFarm
  import opened FarmInvariants
  import opened FarmStatus
  import opened FarmTriggers
  import opened FarmSteps
  import opened FarmRuns
  import opened FarmGaps
  import opened GroupReport
  import opened GroupConditions

  // ---------------------------------------------------------------------------
  // The behaviour of a schedule
  // ---------------------------------------------------------------------------

  /** The states that a schedule passes through. */
  function Trace(s: State, acts: seq<Action>): (states: seq<State>)
    requires Exec(s, acts).Some?
    ensures |states| == |acts| + 1 && states[0] == s
    decreases |acts|
  {
    if acts == [] then [s] else [s] + Trace(Apply(s, acts[0]), acts[1..])
  }

  lemma {:induction false} TraceSteps(s: State, acts: seq<Action>, k: nat)
    requires Exec(s, acts).Some? && k < |acts|
    ensures Enabled(Trace(s, acts)[k], acts[k]) && Trace(s, acts)[k + 1] == Apply(Trace(s, acts)[k], acts[k])
    decreases k
  {
    if k > 0 {
      TraceSteps(Apply(s, acts[0]), acts[1..], k - 1);
      assert acts[1..][k - 1] == acts[k];
    }
  }

  /** Every schedule that can be carried out is a behaviour. */
  lemma ScheduleIsBehaviour(acts: seq<Action>) returns (states: seq<State>)
    requires Exec(Empty, acts).Some?
    ensures Behaviour(states, acts)
  {
    states := Trace(Empty, acts);
    forall k | 0 <= k < |acts| ensures Enabled(states[k], acts[k]) && states[k + 1] == Apply(states[k], acts[k]) {
      TraceSteps(Empty, acts, k);
    }
  }

  /** Its states are those that the schedule's first steps lead to. */
  lemma {:induction false} StateOfBehaviour(states: seq<State>, acts: seq<Action>, k: nat)
    requires Behaviour(states, acts) && k <= |acts|
    ensures Exec(Empty, acts[..k]) == Some(states[k])
    decreases k
  {
    if k > 0 {
      StateOfBehaviour(states, acts, k - 1);
      LastStep(acts[..k - 1], acts[k - 1], states[k - 1]);
      assert acts[..k] == acts[..k - 1] + [acts[k - 1]];
    }
  }

  lemma LastStep(acts: seq<Action>, a: Action, s: State)
    requires Exec(Empty, acts) == Some(s) && Enabled(s, a)
    ensures Exec(Empty, acts + [a]) == Some(Apply(s, a))
  {
    Then(acts, a);
  }

  lemma {:induction false} ActionsAppend(first: seq<Move>, second: seq<Move>)
    ensures Actions(first + second) == Actions(first) + Actions(second)
    decreases |first|
  {
    if first == [] {
      assert first + second == second;
    } else {
      assert (first + second)[0] == first[0] && (first + second)[1..] == first[1..] + second;
      ActionsAppend(first[1..], second);
    }
  }

  lemma {:induction false} ActionAt(moves: seq<Move>, k: nat)
    requires k < |moves|
    ensures |Actions(moves)| == |moves| && Actions(moves)[k] == ActionOf(moves[k])
    decreases k
  {
    ActionsCount(moves);
    if k > 0 {
      ActionAt(moves[1..], k - 1);
    }
  }

  lemma {:induction false} ActionsCount(moves: seq<Move>)
    ensures |Actions(moves)| == |moves|
  {
    if moves != [] {
      ActionsCount(moves[1..]);
    }
  }

  // ---------------------------------------------------------------------------
  // Run 0 reads and enters the loop, run 1 goes on in between
  // ---------------------------------------------------------------------------

  const Reading := Does(0, Trigger(ReadJobs(true)))
  const Entering := Does(0, Trigger(FireGroup))

  /** The two jobs of group 0 have been picked up, each having been issued once. */
  ghost predicate BothPicked(s: State) {
    Shows(s, [Picked, Picked], Some(0)) && Issued(s, 0) == 1 && Issued(s, 1) == 1
  }

  ghost predicate Starts(start: seq<Action>) {
    Exec(Empty, start).Some? && BothPicked(Exec(Empty, start).value)
  }

  function Schedule(start: seq<Action>, moves: seq<Move>): seq<Action> {
    start + Actions(moves)
  }

  /** The members of the group are jobs 0 and 1, each issued once, with these statuses. */
  ghost predicate HasStatuses(s: State, first: Status, second: Status) {
    && InGroup(s, 0, 0) && InGroup(s, 1, 0) && (forall j | InGroup(s, j, 0) :: j <= 1)
    && s.jobs[0].status == first && s.jobs[1].status == second
    && Issued(s, 0) == 1 && Issued(s, 1) == 1
  }

  ghost predicate At(s: State, lanes: seq<Lane>) {
    |lanes| == 2 && Shows(s, lanes, Some(0)) && HasStatuses(s, lanes[0].status, lanes[1].status)
  }

  lemma ShownStatuses(s: State, s': State, lanes: seq<Lane>)
    requires |lanes| == 2 && Shows(s', lanes, Some(0)) && TablesKept(s, s')
    requires Issued(s, 0) == 1 && Issued(s, 1) == 1
    ensures At(s', lanes)
  {
    assert 0 in s'.jobs && 1 in s'.jobs;
  }

  lemma MovesEnd(s: State, moves: seq<Move>, lanes: seq<Lane>)
    requires BothPicked(s)
    requires |lanes| == 2 && Moves([Picked, Picked], true, moves) == Some(lanes)
    ensures Exec(s, Actions(moves)).Some? && At(Exec(s, Actions(moves)).value, lanes)
  {
    MovesAreSteps(s, [Picked, Picked], Some(0), moves);
    MovesKeepTables(s, [Picked, Picked], Some(0), moves);
    ShownStatuses(s, Exec(s, Actions(moves)).value, lanes);
  }

  lemma ScheduleEnds(start: seq<Action>, moves: seq<Move>, lanes: seq<Lane>)
    requires Starts(start) && |lanes| == 2 && Moves([Picked, Picked], true, moves) == Some(lanes)
    ensures Exec(Empty, Schedule(start, moves)).Some? && At(Exec(Empty, Schedule(start, moves)).value, lanes)
  {
    ExecAppend(Empty, start, Actions(moves));
    MovesEnd(Exec(Empty, start).value, moves, lanes);
  }

  lemma ScheduleAppend(start: seq<Action>, first: seq<Move>, second: seq<Move>)
    ensures Schedule(start, first + second) == Schedule(start, first) + Actions(second)
  {
    ActionsAppend(first, second);
  }

  lemma StateShows(states: seq<State>, acts: seq<Action>, start: seq<Action>, first: seq<Move>, lanes: seq<Lane>)
    requires Behaviour(states, acts) && Schedule(start, first) <= acts
    requires Starts(start) && |lanes| == 2 && Moves([Picked, Picked], true, first) == Some(lanes)
    ensures At(states[|Schedule(start, first)|], lanes)
  {
    ScheduleEnds(start, first, lanes);
    StateOfBehaviour(states, acts, |Schedule(start, first)|);
    assert acts[..|Schedule(start, first)|] == Schedule(start, first);
  }

  lemma ActionOfSchedule(start: seq<Action>, first: seq<Move>, m: Move, second: seq<Move>)
    ensures |Schedule(start, first)| < |Schedule(start, first + ([m] + second))|
    ensures Schedule(start, first + ([m] + second))[|Schedule(start, first)|] == ActionOf(m)
  {
    ScheduleAppend(start, first, [m] + second);
    assert ([m] + second)[0] == m;
  }

  function Story(before: seq<Move>, between: seq<Move>): seq<Move> {
    before + ([Reading] + (between + [Entering]))
  }

  /** The stretches of a story fit together. */
  ghost predicate Fits(before: seq<Move>, between: seq<Move>, other: Lane, later: Lane) {
    && Moves([Picked, Picked], true, before) == Some([Asked, other]) && other.status.Terminal()
    && Moves([Ready, other], true, between) == Some([Ready, later])
    && forall k | 0 <= k < |between| :: between[k].lane == 1
  }

  lemma StoryReads(before: seq<Move>, between: seq<Move>, other: Lane, later: Lane)
    requires Fits(before, between, other, later)
    ensures Moves([Picked, Picked], true, before + [Reading]) == Some([Ready, other])
  {
    assert AllLanesDone([Asked, other]);
    RunReads([Asked, other], 0);
    assert [Asked, other][0 := Ready] == [Ready, other];
    MovesAppend([Picked, Picked], true, before, [Reading]);
  }

  lemma StoryGoesOn(before: seq<Move>, between: seq<Move>, other: Lane, later: Lane)
    requires Fits(before, between, other, later)
    ensures Moves([Picked, Picked], true, before + [Reading] + between) == Some([Ready, later])
    ensures Moves([Picked, Picked], true, before + [Reading] + between + [Entering]) == Some([HasFired, later])
  {
    StoryReads(before, between, other, later);
    MovesAppend([Picked, Picked], true, before + [Reading], between);
    OneMove([Ready, later], true, Entering);
    assert [Ready, later][0 := HasFired] == [HasFired, later];
    MovesAppend([Picked, Picked], true, before + [Reading] + between, [Entering]);
  }

  lemma {:induction false} NoStepIfOthers(acts: seq<Action>, r: nat, m: nat, i: nat)
    requires i <= |acts| && forall k | m < k < i :: !OfRun(acts[k], r)
    ensures NoStepOf(acts, r, m, i)
    decreases i
  {
    if m + 1 < i {
      NoStepIfOthers(acts, r, m, i - 1);
    }
  }

  lemma OthersBetween(start: seq<Action>, before: seq<Move>, between: seq<Move>)
    requires forall k | 0 <= k < |between| :: between[k].lane == 1
    ensures var acts, m := Schedule(start, Story(before, between)), |Schedule(start, before)|;
      m + 1 + |between| < |acts| && NoStepOf(acts, 0, m, m + 1 + |between|)
  {
    var acts, m := Schedule(start, Story(before, between)), |Schedule(start, before)|;
    var rest := [Reading] + (between + [Entering]);
    ScheduleAppend(start, before, rest);
    ActionsCount(rest);
    forall k | m < k < m + 1 + |between| ensures !OfRun(acts[k], 0) {
      ActionAt(rest, k - m);
      assert rest[k - m] == between[k - m - 1];
    }
    NoStepIfOthers(acts, 0, m, m + 1 + |between|);
  }

  lemma ScheduleLength(start: seq<Action>, before: seq<Move>, between: seq<Move>)
    ensures |Schedule(start, before)| == |start| + |before|
    ensures |Schedule(start, before + [Reading] + between)| == |start| + |before| + 1 + |between|
  {
    ActionsCount(before + [Reading] + between);
    ActionsCount(before);
  }

  /** `acts` are the steps of a story whose read is the m-th step and whose entry is the i-th. */
  ghost predicate Tells(acts: seq<Action>, start: seq<Action>, before: seq<Move>, between: seq<Move>, m: nat, i: nat) {
    acts == Schedule(start, Story(before, between)) && m == |start| + |before| && i == m + 1 + |between|
  }

  lemma StorySteps(acts: seq<Action>, start: seq<Action>, before: seq<Move>, between: seq<Move>, m: nat, i: nat)
    requires Tells(acts, start, before, between, m, i)
    requires forall k | 0 <= k < |between| :: between[k].lane == 1
    ensures i < |acts| && NoStepOf(acts, 0, m, i)
    ensures IsStep(acts[m], 0, Trigger(ReadJobs(true))) && IsStep(acts[i], 0, Trigger(FireGroup))
  {
    ScheduleLength(start, before, between);
    OthersBetween(start, before, between);
    ActionOfSchedule(start, before, Reading, between + [Entering]);
    var first := before + [Reading] + between;
    assert Story(before, between) == first + ([Entering] + []);
    ActionOfSchedule(start, first, Entering, []);
  }

  lemma StoryPrefixes(acts: seq<Action>, start: seq<Action>, before: seq<Move>, between: seq<Move>, m: nat, i: nat)
    requires Tells(acts, start, before, between, m, i)
    ensures Schedule(start, before) <= acts && |Schedule(start, before)| == m
    ensures Schedule(start, before + [Reading] + between) <= acts
    ensures |Schedule(start, before + [Reading] + between)| == i
  {
    ScheduleLength(start, before, between);
    ScheduleAppend(start, before, [Reading] + (between + [Entering]));
    var first := before + [Reading] + between;
    assert Story(before, between) == first + [Entering];
    ScheduleAppend(start, first, [Entering]);
  }

  lemma StoryIs(before: seq<Move>, between: seq<Move>)
    ensures Story(before, between) == before + [Reading] + between + [Entering]
  {
  }

  lemma StoryRuns(start: seq<Action>, before: seq<Move>, between: seq<Move>, other: Lane, later: Lane)
    requires Starts(start) && Fits(before, between, other, later)
    ensures Exec(Empty, Schedule(start, Story(before, between))).Some?
  {
    StoryGoesOn(before, between, other, later);
    StoryIs(before, between);
    ScheduleEnds(start, Story(before, between), [HasFired, later]);
  }

  ghost predicate RunIs(s: State, c: Control) {
    0 in s.runs && s.runs[0].control == c
  }

  lemma StoryAtRead(states: seq<State>, acts: seq<Action>, start: seq<Action>, before: seq<Move>, between: seq<Move>,
      other: Lane, later: Lane, m: nat, i: nat)
    requires Behaviour(states, acts) && Tells(acts, start, before, between, m, i)
    requires Starts(start) && Fits(before, between, other, later)
    ensures m < |states| && HasStatuses(states[m], Success, other.status) && RunIs(states[m], Asked.control)
  {
    StoryPrefixes(acts, start, before, between, m, i);
    StateShows(states, acts, start, before, [Asked, other]);
  }

  lemma StoryAtEntry(states: seq<State>, acts: seq<Action>, start: seq<Action>, before: seq<Move>, between: seq<Move>,
      other: Lane, later: Lane, m: nat, i: nat)
    requires Behaviour(states, acts) && Tells(acts, start, before, between, m, i)
    requires Starts(start) && Fits(before, between, other, later)
    ensures i < |states| && HasStatuses(states[i], Success, later.status) && RunIs(states[i], Ready.control)
  {
    StoryGoesOn(before, between, other, later);
    StoryPrefixes(acts, start, before, between, m, i);
    StateShows(states, acts, start, before + [Reading] + between, [Ready, later]);
  }

  /** A story is a behaviour, with these statuses at the read and at the entry into the loop. */
  lemma StoryHappens(start: seq<Action>, before: seq<Move>, between: seq<Move>, other: Lane, later: Lane)
      returns (states: seq<State>, acts: seq<Action>, m: nat, i: nat)
    requires Starts(start) && Fits(before, between, other, later)
    ensures Behaviour(states, acts) && ReadThenFire(states, acts, 0, m, i)
    ensures HasStatuses(states[m], Success, other.status) && HasStatuses(states[i], Success, later.status)
    ensures !states[i].runs[0].control.late
  {
    acts, m, i := Schedule(start, Story(before, between)), |start| + |before|, |start| + |before| + 1 + |between|;
    StoryRuns(start, before, between, other, later);
    states := ScheduleIsBehaviour(acts);
    StorySteps(acts, start, before, between, m, i);
    StoryAtRead(states, acts, start, before, between, other, later, m, i);
    StoryAtEntry(states, acts, start, before, between, other, later, m, i);
  }

  // ---------------------------------------------------------------------------
  // The stories
  // ---------------------------------------------------------------------------

  lemma StoryOfTwo(user: nat, before: seq<Move>, between: seq<Move>, other: Lane, later: Lane)
      returns (states: seq<State>, acts: seq<Action>, m: nat, i: nat)
    requires Fits(before, between, other, later)
    ensures Behaviour(states, acts) && ReadThenFire(states, acts, 0, m, i)
    ensures HasStatuses(states[m], Success, other.status) && HasStatuses(states[i], Success, later.status)
    ensures !states[i].runs[0].control.late
  {
    TwoJobsRun(user);
    states, acts, m, i := StoryHappens(TwoJobs(user), before, between, other, later);
  }

  /** Both runs begin, `rest` happens, and run 0, which has written "success", asks. */
  function Before(rest: seq<Move>): seq<Move> {
    Begins(0) + Begins(1) + rest + Asks(0)
  }

  lemma FirstAsks(rest: seq<Move>, other: Lane)
    requires Moves([Started, Started], true, rest) == Some([Succeeded, other]) && other.status.Terminal()
    ensures Moves([Picked, Picked], true, Before(rest)) == Some([Asked, other])
  {
    BothBegin();
    MovesAppend([Picked, Picked], true, Begins(0) + Begins(1), rest);
    assert AllLanesPastQueue([Succeeded, other]);
    RunAsks([Succeeded, other], 0);
    assert [Succeeded, other][0 := Asked] == [Asked, other];
    MovesAppend([Picked, Picked], true, Begins(0) + Begins(1) + rest, Asks(0));
  }

  lemma FirstSucceeds(other: Lane)
    ensures Moves([Started, other], true, Succeeds(0)) == Some([Succeeded, other])
  {
    RunSucceeds([Started, other], true, 0);
    assert [Started, other][0 := Succeeded] == [Succeeded, other];
  }

  lemma SecondSucceeds(first: Lane, other: Lane)
    requires other.control == InPipeline && other.live && !other.err.DeadlineExceeded?
    ensures Moves([first, other], true, Succeeds(1)) == Some([first, Succeeded])
  {
    RunSucceeds([first, other], true, 1);
    assert [first, other][1 := Succeeded] == [first, Succeeded];
  }

  lemma SecondRecovers(first: Lane, other: Lane, verdict: Status)
    requires Next(other.control, Panic).Some?
    requires verdict == Verdict(other.err)
    ensures Moves([first, other], true, Panics(1, verdict)) == Some([first, Recovered(other, verdict)])
  {
    RunRecovers([first, other], true, 1, verdict);
    assert [first, other][1 := Recovered(other, verdict)] == [first, Recovered(other, verdict)];
  }

  const Stopping := Lane(Cancelled, InPipeline, Canceled, true)

  lemma SecondIsCancelled()
    ensures Moves([Succeeded, Started], true, [Cancels(1)]) == Some([Succeeded, Stopping])
  {
    OneMove([Succeeded, Started], true, Cancels(1));
    assert AfterMove([Succeeded, Started], true, Cancels(1)) == [Succeeded, Stopping];
  }

  /** What GetJobs reads of two such rows, in the order of their ids. */
  lemma ReadsBoth(s: State, first: Status, second: Status)
    requires HasStatuses(s, first, second)
    ensures Reads(s, 0, [0, 1], [first, second])
  {
    assert 0 in [0, 1] && 1 in [0, 1];
  }

  lemma SecondDecides(s: State, second: Status)
    requires HasStatuses(s, Success, second)
    ensures SomeDidNotSucceed(s, 0) <==> !second.Success?
  {
    assert InGroup(s, 1, 0);
  }

  lemma TroubleIsLast(trouble: Status)
    requires !trouble.Success?
    ensures LastTrouble([Success, trouble], trouble)
  {
    assert [Success, trouble][1] == trouble && AllSuccess([Success, trouble][2..]);
  }

  lemma OnlySecond(verdict: Status)
    ensures forall k | 0 <= k < |Succeeds(1)| :: Succeeds(1)[k].lane == 1
    ensures forall k | 0 <= k < |Panics(1, verdict)| :: Panics(1, verdict)[k].lane == 1
  {
  }

  lemma AskedAfter(first: seq<Move>, second: seq<Move>, mid: seq<Lane>, other: Lane)
    requires Moves([Started, Started], true, first) == Some(mid)
    requires Moves(mid, true, second) == Some([Succeeded, other]) && other.status.Terminal()
    ensures Moves([Picked, Picked], true, Before(first + second)) == Some([Asked, other])
  {
    MovesAppend([Started, Started], true, first, second);
    FirstAsks(first + second, other);
  }

  lemma StoryFits(before: seq<Move>, between: seq<Move>, other: Lane, later: Lane)
    requires Moves([Picked, Picked], true, before) == Some([Asked, other]) && other.status.Terminal()
    requires Moves([Ready, other], true, between) == Some([Ready, later])
    requires forall k | 0 <= k < |between| :: between[k].lane == 1
    ensures Fits(before, between, other, later)
  {
  }

  lemma CancelledThenSuccess() returns (before: seq<Move>, between: seq<Move>)
    ensures Fits(before, between, Stopping, Succeeded)
  {
    before, between := Before(Succeeds(0) + [Cancels(1)]), Succeeds(1);
    FirstSucceeds(Started);
    SecondIsCancelled();
    AskedAfter(Succeeds(0), [Cancels(1)], [Succeeded, Started], Stopping);
    SecondSucceeds(Ready, Stopping);
    OnlySecond(Cancelled);
    StoryFits(before, between, Stopping, Succeeded);
  }

  /**
    A cancel request turns the second row into "cancelled" while its run goes on.  The first run reads that;
    then the second writes "success".  The failure triggers run although at that time every job of the
    group is a success for good.
  */
  lemma FailureTriggersOfSuccessfulGroup(user: nat)
      returns (states: seq<State>, acts: seq<Action>, m: nat, i: nat)
    ensures Behaviour(states, acts) && ReadThenFire(states, acts, 0, m, i)
    ensures Reads(states[m], 0, [0, 1], [Success, Cancelled]) && LastTrouble([Success, Cancelled], Cancelled)
    ensures Met(GroupTrigger(WhenFailure, true), Cancelled, OwnStatus(states, acts, 0, i))
    ensures HasStatuses(states[i], Success, Success) && !SomeDidNotSucceed(states[i], 0)
  {
    var before, between := CancelledThenSuccess();
    states, acts, m, i := StoryOfTwo(user, before, between, Stopping, Succeeded);
    ReadsBoth(states[m], Success, Cancelled);
    TroubleIsLast(Cancelled);
    SecondDecides(states[i], Success);
  }

  lemma SuccessThenCancelled() returns (before: seq<Move>, between: seq<Move>)
    ensures Fits(before, between, Succeeded, Recovered(Succeeded, Cancelled))
  {
    before, between := Before(Succeeds(0) + Succeeds(1)), Panics(1, Cancelled);
    FirstSucceeds(Started);
    SecondSucceeds(Succeeded, Started);
    AskedAfter(Succeeds(0), Succeeds(1), [Succeeded, Started], Succeeded);
    SecondRecovers(Ready, Succeeded, Cancelled);
    OnlySecond(Cancelled);
    StoryFits(before, between, Succeeded, Recovered(Succeeded, Cancelled));
  }

  /**
    The other way round: the first run reads two successes, then a trigger of the second panics and its
    recovery handler writes "cancelled".  The failure triggers do not run although a job is cancelled.
  */
  lemma NoFailureTriggersOfCancelledGroup(user: nat)
      returns (states: seq<State>, acts: seq<Action>, m: nat, i: nat)
    ensures Behaviour(states, acts) && ReadThenFire(states, acts, 0, m, i)
    ensures Reads(states[m], 0, [0, 1], [Success, Success])
    ensures !Met(GroupTrigger(WhenFailure, true), Success, OwnStatus(states, acts, 0, i))
    ensures HasStatuses(states[i], Success, Cancelled) && SomeDidNotSucceed(states[i], 0)
  {
    var before, between := SuccessThenCancelled();
    states, acts, m, i := StoryOfTwo(user, before, between, Succeeded, Recovered(Succeeded, Cancelled));
    ReadsBoth(states[m], Success, Success);
    SecondDecides(states[i], Cancelled);
  }

  lemma FailedBeforeSuccess() returns (before: seq<Move>)
    ensures Fits(before, [], Recovered(Started, Failed), Recovered(Started, Failed))
  {
    before := Before(Panics(1, Failed) + Succeeds(0));
    SecondRecovers(Started, Started, Failed);
    FirstSucceeds(Recovered(Started, Failed));
    AskedAfter(Panics(1, Failed), Succeeds(0), [Started, Recovered(Started, Failed)], Recovered(Started, Failed));
  }

  /** The second job fails, the first finishes later and succeeds: success and failure triggers both run. */
  lemma SuccessTriggersOfFailedGroup(user: nat)
      returns (states: seq<State>, acts: seq<Action>, m: nat, i: nat)
    ensures Behaviour(states, acts) && ReadThenFire(states, acts, 0, m, i)
    ensures Reads(states[m], 0, [0, 1], [Success, Failed]) && LastTrouble([Success, Failed], Failed)
    ensures Met(GroupTrigger(WhenSuccess, true), Failed, OwnStatus(states, acts, 0, i))
    ensures Met(GroupTrigger(WhenFailure, true), Failed, OwnStatus(states, acts, 0, i))
    ensures HasStatuses(states[i], Success, Failed)
  {
    var before := FailedBeforeSuccess();
    states, acts, m, i := StoryOfTwo(user, before, [], Recovered(Started, Failed), Recovered(Started, Failed));
    ReadsBoth(states[m], Success, Failed);
    TroubleIsLast(Failed);
    OwnAtFire(states, acts, 0, m, i);
  }
}
