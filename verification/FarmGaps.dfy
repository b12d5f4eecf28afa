/**
  Where the build lifecycle falls short of what one might expect of it, each shown by a schedule
  from the empty database.  `FarmTheorems` has what does hold.
*/
module FarmGaps {
  import opened Prelude
  import opened BuildFarm
  import opened FarmInvariants
  import opened FarmStatus
  import opened FarmSteps
  import opened FarmTheorems
  import opened FarmTriggers

  // ---------------------------------------------------------------------------
  // Jobs 0, 1, ... with one run each, on one host, in one group or in none
  // ---------------------------------------------------------------------------

  /** A job's status with the state of its run. */
  datatype Lane = Lane(status: Status, control: Control, err: ContextError, live: bool)

  const Picked := Lane(Queued, Fresh, Alive, false)

  /** `s` has exactly these jobs, and job i is built by run i. */
  ghost predicate Shows(s: State, lanes: seq<Lane>, group: Option<nat>) {
    && (forall j: nat :: j in s.jobs <==> j < |lanes|)
    && (forall r: nat :: r in s.runs <==> r < |lanes|)
    && (forall i | 0 <= i < |lanes| ::
          && s.jobs[i].status == lanes[i].status && (group.Some? ==> s.jobs[i].group == group)
          && s.runs[i] == Run(i, 0, group, lanes[i].control, lanes[i].err))
    && (forall i: nat :: (0, i) in s.live <==> i < |lanes| && lanes[i].live)
    && (forall i | 0 <= i < |lanes| && lanes[i].live :: s.live[(0, i)] == i)
    && (group.Some? ==> group.value in s.groups && s.groups[group.value].triggers > 0)
  }

  datatype Move = Does(lane: nat, event: Event) | Cancels(lane: nat) | Expires(lane: nat)

  predicate AllLanesDone(lanes: seq<Lane>) {
    forall i | 0 <= i < |lanes| :: lanes[i].status.Terminal()
  }

  predicate AllLanesPastQueue(lanes: seq<Lane>) {
    forall i | 0 <= i < |lanes| :: !lanes[i].status.Pending? && !lanes[i].status.Queued?
  }

  predicate LaneAnswers(lanes: seq<Lane>, grouped: bool, what: TriggerEvent) {
    match what
    case SkipGroup => !grouped
    case ReadGroup(complete) => grouped && complete == AllLanesPastQueue(lanes)
    case ReadTriggers(any) => grouped && any
    case ReadJobs(done) => grouped && done == AllLanesDone(lanes)
    case ReadFails => grouped
    case FireGroup => grouped
    case RunOwn | SkipOwn => true
  }

  predicate LaneObserves(lanes: seq<Lane>, grouped: bool, lane: Lane, e: Event) {
    match e
    case PickStatus(pick) =>
      pick == Verdict(lane.err)
    case Trigger(what) => LaneAnswers(lanes, grouped, what)
    case _ => true
  }

  predicate CanMove(lanes: seq<Lane>, grouped: bool, m: Move) {
    m.lane < |lanes| &&
    match m
    case Does(i, e) => Next(lanes[i].control, e).Some? && LaneObserves(lanes, grouped, lanes[i], e)
    case Cancels(i) => lanes[i].live
    case Expires(i) => true
  }

  function LaneAfter(lane: Lane, e: Event): Lane
    requires Next(lane.control, e).Some?
  {
    Lane(StatusAfter(lane.status, lane.control, e), Next(lane.control, e).value, ErrAfter(lane.err, e),
         e.Register? || (lane.live && !e.Unregister?))
  }

  function AfterMove(lanes: seq<Lane>, grouped: bool, m: Move): seq<Lane>
    requires CanMove(lanes, grouped, m)
  {
    match m
    case Does(i, e) => lanes[i := LaneAfter(lanes[i], e)]
    case Cancels(i) => lanes[i := lanes[i].(status := Cancelled, err := Interrupt(lanes[i].err, Canceled))]
    case Expires(i) => lanes[i := lanes[i].(err := Interrupt(lanes[i].err, DeadlineExceeded))]
  }

  function Moves(lanes: seq<Lane>, grouped: bool, moves: seq<Move>): Option<seq<Lane>>
    decreases |moves|
  {
    if moves == [] then Some(lanes)
    else if CanMove(lanes, grouped, moves[0]) then Moves(AfterMove(lanes, grouped, moves[0]), grouped, moves[1..])
    else None
  }

  function ActionOf(m: Move): Action {
    match m
    case Does(i, e) => Step(i, e)
    case Cancels(i) => HandleCancel(0, i)
    case Expires(i) => Deadline(i)
  }

  function Actions(moves: seq<Move>): seq<Action> {
    if moves == [] then [] else [ActionOf(moves[0])] + Actions(moves[1..])
  }

  /** How often the moves enter the group trigger loop. */
  function Firings(moves: seq<Move>): nat {
    if moves == [] then 0
    else (if moves[0].Does? && moves[0].event == Trigger(FireGroup) then 1 else 0) + Firings(moves[1..])
  }

  lemma AnswersFit(s: State, lanes: seq<Lane>, group: Option<nat>, what: TriggerEvent)
    requires Shows(s, lanes, group) && lanes != [] && LaneAnswers(lanes, group.Some?, what)
    ensures Answers(s, group, what)
  {
    assert 0 in s.jobs;
    if group.Some? {
      assert s.jobs[0].group == group;
      assert AllPastQueue(s, group.value) <==> AllLanesPastQueue(lanes);
      assert AllTerminal(s, group.value) <==> AllLanesDone(lanes);
    }
  }

  lemma StepIsEnabled(s: State, lanes: seq<Lane>, group: Option<nat>, i: nat, e: Event)
    requires Shows(s, lanes, group) && CanMove(lanes, group.Some?, Does(i, e))
    ensures Enabled(s, Step(i, e))
  {
    if e.Trigger? {
      AnswersFit(s, lanes, group, e.what);
    }
  }

  lemma StepFits(s: State, lanes: seq<Lane>, group: Option<nat>, i: nat, e: Event)
    requires Shows(s, lanes, group) && CanMove(lanes, group.Some?, Does(i, e))
    ensures Shows(DoStep(s, i, e), AfterMove(lanes, group.Some?, Does(i, e)), group)
    ensures DoStep(s, i, e).book == s.book.(fired := FiredAfter(s.book.fired, group, e))
  {
  }

  lemma CancelFits(s: State, lanes: seq<Lane>, group: Option<nat>, i: nat)
    requires Shows(s, lanes, group) && CanMove(lanes, group.Some?, Cancels(i))
    ensures Shows(DoCancel(s, 0, i), AfterMove(lanes, group.Some?, Cancels(i)), group)
    ensures DoCancel(s, 0, i).book == s.book
  {
  }

  lemma DeadlineFits(s: State, lanes: seq<Lane>, group: Option<nat>, i: nat)
    requires Shows(s, lanes, group) && i < |lanes|
    ensures Shows(Interrupted(s, i, DeadlineExceeded), AfterMove(lanes, group.Some?, Expires(i)), group)
    ensures Interrupted(s, i, DeadlineExceeded).book == s.book
  {
  }

  lemma MoveFits(s: State, lanes: seq<Lane>, group: Option<nat>, m: Move)
    requires Shows(s, lanes, group) && CanMove(lanes, group.Some?, m)
    ensures Enabled(s, ActionOf(m))
    ensures Shows(Apply(s, ActionOf(m)), AfterMove(lanes, group.Some?, m), group)
    ensures group.Some? ==> Apply(s, ActionOf(m)).book.fired[group.value] == s.book.fired[group.value] + Firings([m])
  {
    assert [m][1..] == [];
    match m
    case Does(i, e) =>
      StepIsEnabled(s, lanes, group, i, e);
      StepFits(s, lanes, group, i, e);
    case Cancels(i) => CancelFits(s, lanes, group, i);
    case Expires(i) => DeadlineFits(s, lanes, group, i);
  }

  lemma ExecMoves(s: State, moves: seq<Move>)
    requires moves != [] && Enabled(s, ActionOf(moves[0]))
    ensures Exec(s, Actions(moves)) == Exec(Apply(s, ActionOf(moves[0])), Actions(moves[1..]))
    ensures Firings(moves) == Firings([moves[0]]) + Firings(moves[1..])
  {
    assert Actions(moves)[0] == ActionOf(moves[0]) && Actions(moves)[1..] == Actions(moves[1..]);
    assert [moves[0]][1..] == [];
  }

  /** A schedule of moves is a schedule of the whole system. */
  lemma {:induction false} MovesAreSteps(s: State, lanes: seq<Lane>, group: Option<nat>, moves: seq<Move>)
    requires Shows(s, lanes, group) && Moves(lanes, group.Some?, moves).Some?
    ensures Exec(s, Actions(moves)).Some?
    ensures Shows(Exec(s, Actions(moves)).value, Moves(lanes, group.Some?, moves).value, group)
    ensures group.Some? ==>
      Exec(s, Actions(moves)).value.book.fired[group.value] == s.book.fired[group.value] + Firings(moves)
    decreases |moves|
  {
    if moves != [] {
      MoveFits(s, lanes, group, moves[0]);
      ExecMoves(s, moves);
      MovesAreSteps(Apply(s, ActionOf(moves[0])), AfterMove(lanes, group.Some?, moves[0]), group, moves[1..]);
    }
  }

  lemma {:induction false} MovesAppend(lanes: seq<Lane>, grouped: bool, first: seq<Move>, second: seq<Move>)
    requires Moves(lanes, grouped, first).Some?
    ensures Moves(lanes, grouped, first + second) == Moves(Moves(lanes, grouped, first).value, grouped, second)
    decreases |first|
  {
    if first == [] {
      assert first + second == second;
    } else {
      assert (first + second)[0] == first[0] && (first + second)[1..] == first[1..] + second;
      MovesAppend(AfterMove(lanes, grouped, first[0]), grouped, first[1..], second);
    }
  }

  lemma {:induction false} FiringsAppend(first: seq<Move>, second: seq<Move>)
    ensures Firings(first + second) == Firings(first) + Firings(second)
    decreases |first|
  {
    if first == [] {
      assert first + second == second;
    } else {
      assert (first + second)[0] == first[0] && (first + second)[1..] == first[1..] + second;
      FiringsAppend(first[1..], second);
    }
  }

  lemma OneMove(lanes: seq<Lane>, grouped: bool, a: Move)
    requires CanMove(lanes, grouped, a)
    ensures Moves(lanes, grouped, [a]) == Some(AfterMove(lanes, grouped, a))
    ensures Firings([a]) == if a.Does? && a.event == Trigger(FireGroup) then 1 else 0
  {
  }

  lemma TwoMoves(lanes: seq<Lane>, grouped: bool, a: Move, b: Move)
    requires CanMove(lanes, grouped, a) && CanMove(AfterMove(lanes, grouped, a), grouped, b)
    ensures Moves(lanes, grouped, [a, b]) == Some(AfterMove(AfterMove(lanes, grouped, a), grouped, b))
    ensures Firings([a, b]) == Firings([a]) + Firings([b])
  {
    OneMove(lanes, grouped, a);
    OneMove(AfterMove(lanes, grouped, a), grouped, b);
    MovesAppend(lanes, grouped, [a], [b]);
    FiringsAppend([a], [b]);
    assert [a, b] == [a] + [b];
  }

  // ---------------------------------------------------------------------------
  // Stretches of a run
  // ---------------------------------------------------------------------------

  const InPipeline := Control(Working, true, false, false, false, false)
  const Written := Control(Triggering(AskGroup), true, true, true, false, false)

  /** From the pick-up to the pipeline. */
  function Begins(i: nat): seq<Move> {
    [Does(i, MarkRunning), Does(i, Register)]
  }

  const Started := Lane(Running, InPipeline, Alive, true)

  lemma RunBegins(lanes: seq<Lane>, grouped: bool, i: nat)
    requires i < |lanes| && lanes[i].control == Fresh
    ensures Moves(lanes, grouped, Begins(i)) == Some(lanes[i := Lane(Running, InPipeline, lanes[i].err, true)])
    ensures Firings(Begins(i)) == 0
  {
    TwoMoves(lanes, grouped, Does(i, MarkRunning), Does(i, Register));
    OneMove(lanes, grouped, Does(i, MarkRunning));
    assert AfterMove(AfterMove(lanes, grouped, Does(i, MarkRunning)), grouped, Does(i, Register))
        == lanes[i := Lane(Running, InPipeline, lanes[i].err, true)];
  }

  /** From the pipeline's end to the write of "success". */
  function Succeeds(i: nat): seq<Move> {
    [Does(i, Unregister), Does(i, CancelContext)] + [Does(i, WriteSuccess)]
  }

  const Succeeded := Lane(Success, Written, Canceled, false)

  lemma RunSucceeds(lanes: seq<Lane>, grouped: bool, i: nat)
    requires i < |lanes| && lanes[i].control == InPipeline && lanes[i].live && !lanes[i].err.DeadlineExceeded?
    ensures Moves(lanes, grouped, Succeeds(i)) == Some(lanes[i := Succeeded])
    ensures Firings(Succeeds(i)) == 0
  {
    var a, b, c := Does(i, Unregister), Does(i, CancelContext), Does(i, WriteSuccess);
    TwoMoves(lanes, grouped, a, b);
    OneMove(lanes, grouped, a);
    var l2 := AfterMove(AfterMove(lanes, grouped, a), grouped, b);
    OneMove(l2, grouped, c);
    assert AfterMove(l2, grouped, c) == lanes[i := Succeeded];
    MovesAppend(lanes, grouped, [a, b], [c]);
    FiringsAppend([a, b], [c]);
  }

  /** A panic, and the recovery handler's verdict. */
  function Panics(i: nat, verdict: Status): seq<Move> {
    [Does(i, Panic), Does(i, PickStatus(verdict))] + [Does(i, WriteFailure)]
  }

  function Recovered(lane: Lane, verdict: Status): Lane {
    Lane(verdict, lane.control.(pc := Triggering(AskGroup), wrote := true, late := true), lane.err, lane.live)
  }

  lemma RunRecovers(lanes: seq<Lane>, grouped: bool, i: nat, verdict: Status)
    requires i < |lanes| && Next(lanes[i].control, Panic).Some?
    requires verdict == Verdict(lanes[i].err)
    ensures Moves(lanes, grouped, Panics(i, verdict)) == Some(lanes[i := Recovered(lanes[i], verdict)])
    ensures Firings(Panics(i, verdict)) == 0
  {
    var a, b, c := Does(i, Panic), Does(i, PickStatus(verdict)), Does(i, WriteFailure);
    TwoMoves(lanes, grouped, a, b);
    OneMove(lanes, grouped, a);
    var l2 := AfterMove(AfterMove(lanes, grouped, a), grouped, b);
    OneMove(l2, grouped, c);
    assert AfterMove(l2, grouped, c) == lanes[i := Recovered(lanes[i], verdict)];
    MovesAppend(lanes, grouped, [a, b], [c]);
    FiringsAppend([a, b], [c]);
  }

  /** The first two group queries. */
  function Asks(i: nat): seq<Move> {
    [Does(i, Trigger(ReadGroup(true))), Does(i, Trigger(ReadTriggers(true)))]
  }

  const Asked := Lane(Success, Written.(pc := Triggering(AskJobs)), Canceled, false)

  lemma RunAsks(lanes: seq<Lane>, i: nat)
    requires i < |lanes| && lanes[i] == Succeeded && AllLanesPastQueue(lanes)
    ensures Moves(lanes, true, Asks(i)) == Some(lanes[i := Asked])
    ensures Firings(Asks(i)) == 0
  {
    var a, b := Does(i, Trigger(ReadGroup(true))), Does(i, Trigger(ReadTriggers(true)));
    TwoMoves(lanes, true, a, b);
    OneMove(lanes, true, a);
    assert AfterMove(AfterMove(lanes, true, a), true, b) == lanes[i := Asked];
  }

  const Ready := Lane(Success, Written.(pc := Triggering(Fire)), Canceled, false)

  lemma RunReads(lanes: seq<Lane>, i: nat)
    requires i < |lanes| && lanes[i] == Asked && AllLanesDone(lanes)
    ensures var c := Does(i, Trigger(ReadJobs(true)));
      CanMove(lanes, true, c) && Moves(lanes, true, [c]) == Some(lanes[i := Ready]) && Firings([c]) == 0
  {
    OneMove(lanes, true, Does(i, Trigger(ReadJobs(true))));
  }

  /** The group queries and the entry into the group trigger loop. */
  function Fires(i: nat): seq<Move> {
    Asks(i) + [Does(i, Trigger(ReadJobs(true))), Does(i, Trigger(FireGroup))]
  }

  const HasFired := Lane(Success, Written.(pc := Triggering(Own)), Canceled, false)

  lemma RunFires(lanes: seq<Lane>, i: nat)
    requires i < |lanes| && lanes[i] == Succeeded && AllLanesDone(lanes)
    ensures Moves(lanes, true, Fires(i)) == Some(lanes[i := HasFired])
    ensures Firings(Fires(i)) == 1
  {
    var c, d := Does(i, Trigger(ReadJobs(true))), Does(i, Trigger(FireGroup));
    RunAsks(lanes, i);
    FiresAfterAsking(lanes[i := Asked], i);
    assert lanes[i := Asked][i := HasFired] == lanes[i := HasFired];
    MovesAppend(lanes, true, Asks(i), [c, d]);
    FiringsAppend(Asks(i), [c, d]);
  }

  lemma FiresAfterAsking(asked: seq<Lane>, i: nat)
    requires i < |asked| && asked[i] == Asked && AllLanesDone(asked)
    ensures var c, d := Does(i, Trigger(ReadJobs(true))), Does(i, Trigger(FireGroup));
      Moves(asked, true, [c, d]) == Some(asked[i := HasFired]) && Firings([c, d]) == 1
  {
    var c, d := Does(i, Trigger(ReadJobs(true))), Does(i, Trigger(FireGroup));
    TwoMoves(asked, true, c, d);
    OneMove(asked, true, c);
    OneMove(AfterMove(asked, true, c), true, d);
    assert AfterMove(AfterMove(asked, true, c), true, d) == asked[i := HasFired];
  }

  // ---------------------------------------------------------------------------
  // From the empty database to the runs
  // ---------------------------------------------------------------------------

  lemma Then(acts: seq<Action>, a: Action)
    requires Exec(Empty, acts).Some? && Enabled(Exec(Empty, acts).value, a)
    ensures Exec(Empty, acts + [a]) == Some(Apply(Exec(Empty, acts).value, a))
  {
    ExecAppend(Empty, acts, [a]);
    assert [a][1..] == [];
  }

  /** One job, submitted with execute and picked up. */
  function OneJob(user: nat): seq<Action> {
    [] + [Submit(user, true)] + [SendMessage(0)] + [Take(0, 0)]
  }

  lemma OneJobRuns(user: nat)
    ensures Exec(Empty, OneJob(user)).Some?
    ensures Shows(Exec(Empty, OneJob(user)).value, [Lane(Pending, Fresh, Alive, false)], None)
  {
    Then([], Submit(user, true));
    Then([] + [Submit(user, true)], SendMessage(0));
    Then([] + [Submit(user, true)] + [SendMessage(0)], Take(0, 0));
  }

  /** Two jobs, grouped with a trigger, started with the group and picked up. */
  function TwoJobs(user: nat): seq<Action> {
    [] + [Submit(user, false)] + [Submit(user, false)] + [CreateGroup(user, [0, 1], 1, true)]
    + [SendMessage(0)] + [SendMessage(1)] + [Take(0, 0)] + [Take(1, 0)]
  }

  /** The two jobs are in group 0 and were each issued once. */
  ghost predicate Grouped(s: State) {
    && (forall j: nat :: j in s.jobs <==> j < 2)
    && (forall j: nat | j < 2 :: s.jobs[j].status.Queued? && s.jobs[j].group == Some(0))
    && 0 in s.groups && s.groups[0].triggers == 1
    && s.live == map[] && s.book.fired == multiset{}
    && Issued(s, 0) == 1 && Issued(s, 1) == 1
  }

  function TwoPending(user: nat): State {
    Empty.(jobs := map[0 := JobRow(user, None, Pending), 1 := JobRow(user, None, Pending)], nextJob := 2)
  }

  lemma TwoSubmitted(user: nat)
    ensures Exec(Empty, [] + [Submit(user, false)] + [Submit(user, false)]) == Some(TwoPending(user))
  {
    Then([], Submit(user, false));
    Then([] + [Submit(user, false)], Submit(user, false));
  }

  lemma TwoJoin(user: nat)
    ensures var s := TwoPending(user);
      && Accepts(s, user, [0, 1]) && var s1 := JoinGroup(s, user, [0, 1], 1);
      && s1.jobs == map[0 := JobRow(user, Some(0), Pending), 1 := JobRow(user, Some(0), Pending)]
      && s1.groups == map[0 := GroupRow(user, 1)]
  {
    assert Matched(TwoPending(user), user, [0, 1]) == {0, 1};
  }

  lemma GroupTwo(user: nat)
    ensures var s := DoCreateGroup(TwoPending(user), user, [0, 1], 1, true);
      Grouped(s) && s.runs == map[] && s.nextRun == 0 && s.outbox == multiset{0, 1} && s.queue == multiset{}
  {
    TwoJoin(user);
    assert Startable(JoinGroup(TwoPending(user), user, [0, 1], 1), user, 0) == {0, 1};
  }

  lemma TwoJobsGrouped(user: nat)
    ensures var acts := [] + [Submit(user, false)] + [Submit(user, false)] + [CreateGroup(user, [0, 1], 1, true)];
      && Exec(Empty, acts).Some? && var s := Exec(Empty, acts).value;
      && Grouped(s) && s.runs == map[] && s.nextRun == 0 && s.outbox == multiset{0, 1} && s.queue == multiset{}
  {
    TwoSubmitted(user);
    GroupTwo(user);
    Then([] + [Submit(user, false)] + [Submit(user, false)], CreateGroup(user, [0, 1], 1, true));
  }

  lemma SendTwo(s: State)
    requires s.outbox == multiset{0, 1} && s.queue == multiset{}
    ensures Enabled(s, SendMessage(0)) && var s1 := Apply(s, SendMessage(0));
      && Enabled(s1, SendMessage(1)) && var s2 := Apply(s1, SendMessage(1));
      && s2.queue == multiset{0, 1} && s2.jobs == s.jobs && s2.groups == s.groups && s2.live == s.live
      && s2.runs == s.runs && s2.nextRun == s.nextRun && s2.book.fired == s.book.fired
      && forall j: nat :: Issued(s2, j) == Issued(s, j)
  {
  }

  lemma TakeTwo(s: State)
    requires Grouped(s) && s.queue == multiset{0, 1} && s.runs == map[] && s.nextRun == 0
    ensures Enabled(s, Take(0, 0)) && var s1 := Apply(s, Take(0, 0));
      && Enabled(s1, Take(1, 0)) && var s2 := Apply(s1, Take(1, 0));
      && Shows(s2, [Picked, Picked], Some(0)) && s2.book.fired == multiset{}
      && Issued(s2, 0) == 1 && Issued(s2, 1) == 1
  {
    var s2 := Apply(Apply(s, Take(0, 0)), Take(1, 0));
    assert s2.runs == map[0 := Run(0, 0, Some(0), Fresh, Alive), 1 := Run(1, 0, Some(0), Fresh, Alive)];
  }

  lemma ThenTwo(acts: seq<Action>, a: Action, b: Action)
    requires Exec(Empty, acts).Some? && Enabled(Exec(Empty, acts).value, a)
    requires Enabled(Apply(Exec(Empty, acts).value, a), b)
    ensures Exec(Empty, acts + [a] + [b]) == Some(Apply(Apply(Exec(Empty, acts).value, a), b))
  {
    Then(acts, a);
    Then(acts + [a], b);
  }

  lemma TwoJobsRun(user: nat)
    ensures Exec(Empty, TwoJobs(user)).Some? && var s := Exec(Empty, TwoJobs(user)).value;
      Shows(s, [Picked, Picked], Some(0)) && s.book.fired[0] == 0 && Issued(s, 0) == 1 && Issued(s, 1) == 1
  {
    TwoJobsGrouped(user);
    var a3 := [] + [Submit(user, false)] + [Submit(user, false)] + [CreateGroup(user, [0, 1], 1, true)];
    SendTwo(Exec(Empty, a3).value);
    ThenTwo(a3, SendMessage(0), SendMessage(1));
    var a5 := a3 + [SendMessage(0)] + [SendMessage(1)];
    TakeTwo(Exec(Empty, a5).value);
    ThenTwo(a5, Take(0, 0), Take(1, 0));
  }

  // ---------------------------------------------------------------------------
  // The gaps
  // ---------------------------------------------------------------------------

  /** Both runs to the write of "success", then both through the group triggers. */
  function BothFinish(): seq<Move> {
    Begins(0) + Begins(1) + Succeeds(0) + Succeeds(1) + Fires(0) + Fires(1)
  }

  lemma BothBegin()
    ensures Moves([Picked, Picked], true, Begins(0) + Begins(1)) == Some([Started, Started])
    ensures Firings(Begins(0) + Begins(1)) == 0
  {
    RunBegins([Picked, Picked], true, 0);
    assert [Picked, Picked][0 := Started] == [Started, Picked];
    RunBegins([Started, Picked], true, 1);
    assert [Started, Picked][1 := Started] == [Started, Started];
    Sequence([Picked, Picked], Begins(0), Begins(1));
  }

  lemma BothSucceed()
    ensures var moves := Begins(0) + Begins(1) + Succeeds(0) + Succeeds(1);
      Moves([Picked, Picked], true, moves) == Some([Succeeded, Succeeded]) && Firings(moves) == 0
  {
    BothBegin();
    RunSucceeds([Started, Started], true, 0);
    assert [Started, Started][0 := Succeeded] == [Succeeded, Started];
    RunSucceeds([Succeeded, Started], true, 1);
    assert [Succeeded, Started][1 := Succeeded] == [Succeeded, Succeeded];
    Sequence([Picked, Picked], Begins(0) + Begins(1), Succeeds(0));
    Sequence([Picked, Picked], Begins(0) + Begins(1) + Succeeds(0), Succeeds(1));
  }

  lemma Sequence(lanes: seq<Lane>, first: seq<Move>, second: seq<Move>)
    requires Moves(lanes, true, first).Some?
    ensures Moves(lanes, true, first + second) == Moves(Moves(lanes, true, first).value, true, second)
    ensures Firings(first + second) == Firings(first) + Firings(second)
  {
    MovesAppend(lanes, true, first, second);
    FiringsAppend(first, second);
  }

  lemma BothFire()
    ensures Moves([Picked, Picked], true, BothFinish()) == Some([HasFired, HasFired]) && Firings(BothFinish()) == 2
  {
    var done := Begins(0) + Begins(1) + Succeeds(0) + Succeeds(1);
    BothSucceed();
    RunFires([Succeeded, Succeeded], 0);
    assert [Succeeded, Succeeded][0 := HasFired] == [HasFired, Succeeded];
    assert [HasFired, Succeeded][1 := HasFired] == [HasFired, HasFired];
    RunFires([HasFired, Succeeded], 1);
    Sequence([Picked, Picked], done, Fires(0));
    Sequence([Picked, Picked], done + Fires(0), Fires(1));
  }

  /**
    A group's triggers can run twice although each of its jobs is built once and nothing fails: two
    runs that have both written their status before either asks both see a finished group.
  */
  lemma GroupCanFireTwice(user: nat)
    ensures var acts := TwoJobs(user) + Actions(BothFinish());
      Exec(Empty, acts).Some? && Exec(Empty, acts).value.book.fired[0] == 2
  {
    TwoJobsRun(user);
    BothFire();
    MovesAreSteps(Exec(Empty, TwoJobs(user)).value, [Picked, Picked], Some(0), BothFinish());
    ExecAppend(Empty, TwoJobs(user), Actions(BothFinish()));
  }

  /** A job's row, in the state after a schedule for one job. */
  ghost predicate OneJobEnds(user: nat, moves: seq<Move>, status: Status) {
    var acts := OneJob(user) + Actions(moves);
    Exec(Empty, acts).Some? && 0 in Exec(Empty, acts).value.jobs && Exec(Empty, acts).value.jobs[0].status == status
  }

  lemma OneJobEndsAs(user: nat, moves: seq<Move>, lane: Lane)
    requires Moves([Lane(Pending, Fresh, Alive, false)], false, moves) == Some([lane])
    ensures OneJobEnds(user, moves, lane.status)
  {
    OneJobRuns(user);
    MovesAreSteps(Exec(Empty, OneJob(user)).value, [Lane(Pending, Fresh, Alive, false)], None, moves);
    ExecAppend(Empty, OneJob(user), Actions(moves));
  }

  lemma OneBegins()
    ensures Moves([Lane(Pending, Fresh, Alive, false)], false, Begins(0)) == Some([Started])
  {
    RunBegins([Lane(Pending, Fresh, Alive, false)], false, 0);
    assert [Lane(Pending, Fresh, Alive, false)][0 := Started] == [Started];
  }

  lemma OneSucceeds()
    ensures Moves([Lane(Pending, Fresh, Alive, false)], false, Begins(0) + Succeeds(0)) == Some([Succeeded])
  {
    OneBegins();
    RunSucceeds([Started], false, 0);
    assert [Started][0 := Succeeded] == [Succeeded];
    MovesAppend([Lane(Pending, Fresh, Alive, false)], false, Begins(0), Succeeds(0));
  }

  lemma OneRecovers(lane: Lane, verdict: Status)
    requires Next(lane.control, Panic).Some? && verdict == Verdict(lane.err)
    ensures Moves([lane], false, Panics(0, verdict)) == Some([Recovered(lane, verdict)])
  {
    RunRecovers([lane], false, 0, verdict);
    assert [lane][0 := Recovered(lane, verdict)] == [Recovered(lane, verdict)];
  }

  /** The failure path leaves the run in the jobs map, so a later cancel request overwrites "failed". */
  lemma CancelOverwritesFailure(user: nat)
    ensures OneJobEnds(user, Begins(0) + Panics(0, Failed), Failed)
    ensures OneJobEnds(user, Begins(0) + Panics(0, Failed) + [Cancels(0)], Cancelled)
  {
    var picked, failed := Lane(Pending, Fresh, Alive, false), Recovered(Started, Failed);
    OneBegins();
    OneRecovers(Started, Failed);
    MovesAppend([picked], false, Begins(0), Panics(0, Failed));
    OneJobEndsAs(user, Begins(0) + Panics(0, Failed), failed);
    OneMove([failed], false, Cancels(0));
    var cancelled := failed.(status := Cancelled, err := Canceled);
    assert AfterMove([failed], false, Cancels(0)) == [cancelled];
    MovesAppend([picked], false, Begins(0) + Panics(0, Failed), [Cancels(0)]);
    OneJobEndsAs(user, Begins(0) + Panics(0, Failed) + [Cancels(0)], cancelled);
  }

  const Expired := Started.(err := DeadlineExceeded)

  lemma OneExpires()
    ensures Moves([Lane(Pending, Fresh, Alive, false)], false, Begins(0) + [Expires(0)]) == Some([Expired])
  {
    OneBegins();
    OneMove([Started], false, Expires(0));
    assert AfterMove([Started], false, Expires(0)) == [Expired];
    MovesAppend([Lane(Pending, Fresh, Alive, false)], false, Begins(0), [Expires(0)]);
  }

  /** A build whose pipeline gives up after its deadline is stored as timed out. */
  lemma ExpiredBuildTimesOut(user: nat)
    ensures OneJobEnds(user, Begins(0) + [Expires(0)] + Panics(0, Timeout), Timeout)
  {
    OneExpires();
    OneRecovers(Expired, Timeout);
    MovesAppend([Lane(Pending, Fresh, Alive, false)], false, Begins(0) + [Expires(0)], Panics(0, Timeout));
    OneJobEndsAs(user, Begins(0) + [Expires(0)] + Panics(0, Timeout), Recovered(Expired, Timeout));
  }

  lemma OneSucceedsAndPanics()
    ensures Moves([Lane(Pending, Fresh, Alive, false)], false, Begins(0) + Succeeds(0) + Panics(0, Cancelled))
         == Some([Recovered(Succeeded, Cancelled)])
  {
    OneSucceeds();
    OneRecovers(Succeeded, Cancelled);
    MovesAppend([Lane(Pending, Fresh, Alive, false)], false, Begins(0) + Succeeds(0), Panics(0, Cancelled));
  }

  /**
    A trigger that panics after "success" was written sends the run through the recovery handler, and
    because the run's own context has been cancelled by then, the job ends as "cancelled".
  */
  lemma TriggerPanicCancelsSuccess(user: nat)
    ensures OneJobEnds(user, Begins(0) + Succeeds(0), Success)
    ensures OneJobEnds(user, Begins(0) + Succeeds(0) + Panics(0, Cancelled), Cancelled)
  {
    OneSucceeds();
    OneJobEndsAs(user, Begins(0) + Succeeds(0), Succeeded);
    OneSucceedsAndPanics();
    OneJobEndsAs(user, Begins(0) + Succeeds(0) + Panics(0, Cancelled), Recovered(Succeeded, Cancelled));
  }

  /** Nothing but the statuses, the runs and the firings changed. */
  ghost predicate TablesKept(s: State, s': State) {
    && s'.groups == s.groups && s'.outbox == s.outbox && s'.book == s.book.(fired := s'.book.fired)
    && s'.jobs.Keys == s.jobs.Keys && forall j | j in s.jobs :: s'.jobs[j].group == s.jobs[j].group
  }

  lemma StepKeepsTables(s: State, r: nat, e: Event)
    requires r in s.runs && Next(s.runs[r].control, e).Some?
    ensures TablesKept(s, DoStep(s, r, e))
    ensures s.runs[r].group.None? ==> DoStep(s, r, e).book.fired == s.book.fired
  {
  }

  lemma MoveKeepsTables(s: State, lanes: seq<Lane>, group: Option<nat>, m: Move)
    requires Shows(s, lanes, group) && CanMove(lanes, group.Some?, m) && Enabled(s, ActionOf(m))
    ensures TablesKept(s, Apply(s, ActionOf(m)))
    ensures group.None? ==> Apply(s, ActionOf(m)).book.fired == s.book.fired
  {
    if m.Does? {
      StepKeepsTables(s, m.lane, m.event);
    }
  }

  lemma TablesKeptOn(s: State, s1: State, s2: State)
    requires TablesKept(s, s1) && TablesKept(s1, s2)
    ensures TablesKept(s, s2)
  {
  }

  lemma {:induction false} MovesKeepTables(s: State, lanes: seq<Lane>, group: Option<nat>, moves: seq<Move>)
    requires Shows(s, lanes, group) && Moves(lanes, group.Some?, moves).Some? && Exec(s, Actions(moves)).Some?
    ensures TablesKept(s, Exec(s, Actions(moves)).value)
    ensures group.None? ==> Exec(s, Actions(moves)).value.book.fired == s.book.fired
    decreases |moves|
  {
    if moves != [] {
      MoveFits(s, lanes, group, moves[0]);
      MoveKeepsTables(s, lanes, group, moves[0]);
      ExecMoves(s, moves);
      var s1 := Apply(s, ActionOf(moves[0]));
      MovesKeepTables(s1, AfterMove(lanes, group.Some?, moves[0]), group, moves[1..]);
      TablesKeptOn(s, s1, Exec(s, Actions(moves)).value);
    }
  }

  /** Job 0 is in group 0, which has a trigger, but run 0 knows of no group. */
  ghost predicate JoinedUnnoticed(s: State) {
    && Shows(s, [Lane(Pending, Fresh, Alive, false)], None)
    && s.jobs[0].group == Some(0) && 0 in s.groups && s.groups[0].triggers == 1
    && s.outbox == multiset{} && s.book.sent == s.book.taken == multiset{0} && s.book.lost == multiset{}
    && s.book.fired == multiset{}
  }

  lemma OneJobIs(user: nat)
    ensures Exec(Empty, OneJob(user)).Some? && var s := Exec(Empty, OneJob(user)).value;
      && s.nextGroup == 0 && s.groups == map[] && s.jobs == map[0 := JobRow(user, None, Pending)]
      && s.outbox == multiset{} && s.book.sent == s.book.taken == multiset{0} && s.book.lost == multiset{}
      && s.book.fired == multiset{}
  {
    Then([], Submit(user, true));
    Then([] + [Submit(user, true)], SendMessage(0));
    Then([] + [Submit(user, true)] + [SendMessage(0)], Take(0, 0));
  }

  lemma OneJobJoins(user: nat)
    ensures Exec(Empty, OneJob(user) + [CreateGroup(user, [0], 1, false)]).Some?
    ensures JoinedUnnoticed(Exec(Empty, OneJob(user) + [CreateGroup(user, [0], 1, false)]).value)
  {
    OneJobRuns(user);
    OneJobIs(user);
    var s := Exec(Empty, OneJob(user)).value;
    assert Matched(s, user, [0]) == {0};
    Then(OneJob(user), CreateGroup(user, [0], 1, false));
  }

  /** The rest of a run that wrote "success" and knows of no group. */
  function Ends(i: nat): seq<Move> {
    [Does(i, Trigger(SkipGroup)), Does(i, Trigger(SkipOwn))] + [Does(i, LeaveTriggers), Does(i, Return)]
  }

  const Returned := Lane(Success, Written.(pc := Pc.Finished), Canceled, false)

  const Skipped := Lane(Success, Written.(pc := Triggering(Tail)), Canceled, false)

  lemma RunSkips()
    ensures Moves([Succeeded], false, [Does(0, Trigger(SkipGroup)), Does(0, Trigger(SkipOwn))]) == Some([Skipped])
  {
    var a, b := Does(0, Trigger(SkipGroup)), Does(0, Trigger(SkipOwn));
    TwoMoves([Succeeded], false, a, b);
    assert AfterMove(AfterMove([Succeeded], false, a), false, b) == [Skipped];
  }

  lemma RunReturns()
    ensures Moves([Skipped], false, [Does(0, LeaveTriggers), Does(0, Return)]) == Some([Returned])
  {
    var c, d := Does(0, LeaveTriggers), Does(0, Return);
    TwoMoves([Skipped], false, c, d);
    assert AfterMove(AfterMove([Skipped], false, c), false, d) == [Returned];
  }

  lemma RunEnds()
    ensures Moves([Succeeded], false, Ends(0)) == Some([Returned])
  {
    RunSkips();
    RunReturns();
    MovesAppend([Succeeded], false, [Does(0, Trigger(SkipGroup)), Does(0, Trigger(SkipOwn))],
                [Does(0, LeaveTriggers), Does(0, Return)]);
  }

  function WholeRun(): seq<Move> {
    Begins(0) + Succeeds(0) + Ends(0)
  }

  lemma RunsToTheEnd()
    ensures Moves([Lane(Pending, Fresh, Alive, false)], false, WholeRun()) == Some([Returned])
  {
    OneSucceeds();
    RunEnds();
    MovesAppend([Lane(Pending, Fresh, Alive, false)], false, Begins(0) + Succeeds(0), Ends(0));
  }

  lemma ReturnedUnnoticed(s: State, s': State)
    requires JoinedUnnoticed(s) && TablesKept(s, s') && s'.book.fired == s.book.fired
    requires Shows(s', [Returned], None)
    ensures InGroup(s', 0, 0) && 0 in s'.groups && s'.groups[0].triggers == 1
    ensures Settled(s', 0) && AllTerminal(s', 0) && s'.book.fired[0] == 0
  {
  }

  /**
    A job submitted with execute keeps its "pending" row, so it can still join a group after its run
    fetched it.  That run never asks about the group: the group ends settled, all its jobs a success,
    and its trigger has not run.
  */
  lemma ExecutedJobsGroupNeverFires(user: nat)
    ensures var acts := OneJob(user) + [CreateGroup(user, [0], 1, false)] + Actions(WholeRun());
      Exec(Empty, acts).Some? && var s := Exec(Empty, acts).value;
      && InGroup(s, 0, 0) && 0 in s.groups && s.groups[0].triggers == 1
      && Settled(s, 0) && AllTerminal(s, 0) && s.book.fired[0] == 0
  {
    OneJobJoins(user);
    RunsToTheEnd();
    var joined := OneJob(user) + [CreateGroup(user, [0], 1, false)];
    var s := Exec(Empty, joined).value;
    var picked := [Lane(Pending, Fresh, Alive, false)];
    MovesAreSteps(s, picked, None, WholeRun());
    MovesKeepTables(s, picked, None, WholeRun());
    ReturnedUnnoticed(s, Exec(s, Actions(WholeRun())).value);
    ExecAppend(Empty, joined, Actions(WholeRun()));
  }

  // ---------------------------------------------------------------------------
  // Exactly when a cancel request overwrites a verdict
  // ---------------------------------------------------------------------------

  /** The run has put itself into its worker's jobs map. */
  predicate Registered(c: Control) {
    !c.pc.Fetched? && !c.pc.Marked? && !c.pc.Crashed?
  }

  ghost predicate HasEntry(s: State, r: nat)
    requires r in s.runs
  {
    var key := (s.runs[r].host, s.runs[r].job);
    key in s.live && s.live[key] == r
  }

  lemma StepKeepsEntry(s: State, q: nat, e: Event, r: nat)
    requires UniqueOk(s) && LedgerOk(s) && q in s.runs && Next(s.runs[q].control, e).Some? && r in s.runs
    requires Issued(s, s.runs[r].job) <= 1
    requires Registered(s.runs[r].control) && !s.runs[r].control.left ==> HasEntry(s, r)
    ensures var s' := DoStep(s, q, e);
      Registered(s'.runs[r].control) && !s'.runs[r].control.left ==> HasEntry(s', r)
  {
    if q != r && s.runs[q].job == s.runs[r].job {
      OnlyRun(s, r, q);
    }
  }

  lemma OtherKeepsEntry(s: State, a: Action, r: nat)
    requires Enabled(s, a) && !a.Step? && r in Apply(s, a).runs && Registered(Apply(s, a).runs[r].control)
    ensures r in s.runs && Apply(s, a).live == s.live
    ensures s.runs[r].(err := Apply(s, a).runs[r].err) == Apply(s, a).runs[r]
  {
    if IsRequest(a) {
      RequestKeepsWorkers(s, a);
    }
  }

  lemma EntryStep(s: State, a: Action, r: nat)
    requires UniqueOk(s) && LedgerOk(s) && Enabled(s, a)
    requires r in Apply(s, a).runs && Registered(Apply(s, a).runs[r].control) && !Apply(s, a).runs[r].control.left
    requires r in s.runs ==> Issued(s, s.runs[r].job) <= 1
    requires r in s.runs && Registered(s.runs[r].control) && !s.runs[r].control.left ==> HasEntry(s, r)
    ensures HasEntry(Apply(s, a), r)
  {
    if a.Step? {
      StepKeepsEntry(s, a.run, a.event, r);
    } else {
      OtherKeepsEntry(s, a, r);
    }
  }

  /** What the entry's history needs of one state: registered and not left, the run has its entry. */
  ghost predicate EntryKept(s: State, r: nat) {
    r in s.runs && Issued(s, s.runs[r].job) <= 1 && Registered(s.runs[r].control) && !s.runs[r].control.left ==>
      HasEntry(s, r)
  }

  lemma ApplyKeepsEntry(s: State, a: Action, r: nat)
    requires Inv(s) && Enabled(s, a) && EntryKept(s, r)
    ensures EntryKept(Apply(s, a), r)
  {
    ApplyIsOnward(s, a);
    if r in s.runs {
      RunStays(s, a, r);
      assert Issued(s, s.runs[r].job) <= Issued(Apply(s, a), s.runs[r].job);
    }
    if r in Apply(s, a).runs && Issued(Apply(s, a), Apply(s, a).runs[r].job) <= 1
       && Registered(Apply(s, a).runs[r].control) && !Apply(s, a).runs[r].control.left {
      EntryStep(s, a, r);
    }
  }

  lemma {:induction false} EntryAlong(states: seq<State>, acts: seq<Action>, k: nat, r: nat)
    requires Behaviour(states, acts) && k < |states|
    ensures EntryKept(states[k], r)
    decreases k
  {
    if k > 0 {
      EntryAlong(states, acts, k - 1, r);
      InvAlong(states, acts, k - 1);
      ApplyKeepsEntry(states[k - 1], acts[k - 1], r);
    }
  }

  /**
    After a run of a job issued once has written its verdict, a cancel request to its worker turns the
    row into "cancelled" exactly when the run came to its verdict through a failure of the pipeline: only
    the successful path takes the run out of the jobs map.
  */
  lemma CancelOverwritesExactlyFailures(states: seq<State>, acts: seq<Action>, k: nat, r: nat)
    requires Behaviour(states, acts) && k < |states| && r in states[k].runs
    requires states[k].runs[r].control.wrote && !states[k].runs[r].control.pc.Crashed?
    requires Issued(states[k], states[k].runs[r].job) <= 1 && states[k].runs[r].job in states[k].jobs
    ensures var s, run := states[k], states[k].runs[r];
      var s' := Apply(s, HandleCancel(run.host, run.job));
      if run.control.left then s' == s else s'.jobs == s.jobs[run.job := s.jobs[run.job].(status := Cancelled)]
  {
    InvAlong(states, acts, k);
    var s, run := states[k], states[k].runs[r];
    assert ControlOk(run.control);
    if run.control.left {
      if (run.host, run.job) in s.live {
        OnlyRun(s, r, s.live[(run.host, run.job)]);
      }
    } else {
      EntryAlong(states, acts, k, r);
    }
  }
}
