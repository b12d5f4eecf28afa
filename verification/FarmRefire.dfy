/**
  How often the triggers of a finished group can still run.  From there on any worker may take any
  step, messages may be sent, lost and taken, and handlers and deadlines may come in; only the
  resolvers keep still.
*/
module FarmRefire {
  import opened Prelude
  import opened BuildFarm
  import opened FarmInvariants
  import opened FarmStatus
  import opened FarmTriggers
  import opened FarmSteps

  // ---------------------------------------------------------------------------
  // Firings left
  // ---------------------------------------------------------------------------

  /** The stages at which a run has still to enter the group trigger loop, if it does. */
  predicate Asking(stage: Stage) {
    stage.AskGroup? || stage.AskTriggers? || stage.AskJobs? || stage.Fire?
  }

  /**
    How often a run may still enter its group's trigger loop.  A panic inside ProcessTriggers sends a
    run through it once more, unless the recovery handler has already had its turn.
  */
  function Left(c: Control, panics: bool): nat {
    match c.pc
    case Fetched | Marked | Working | Leaving | Released => if panics then 2 else 1
    case Recovering | Deciding(_) => 1
    case Triggering(stage) => (if Asking(stage) then 1 else 0) + (if panics && !c.late then 1 else 0)
    case Closing | Finished | Crashed => 0
  }

  function LeftFor(s: State, r: nat, g: nat, panics: bool): nat {
    if r in s.runs && s.runs[r].group == Some(g) then Left(s.runs[r].control, panics) else 0
  }

  /** Over the runs with ids below `n`. */
  function LeftBelow(s: State, g: nat, panics: bool, n: nat): nat {
    if n == 0 then 0 else LeftBelow(s, g, panics, n - 1) + LeftFor(s, n - 1, g, panics)
  }

  function Capacity(s: State, g: nat, panics: bool): nat {
    LeftBelow(s, g, panics, s.nextRun)
  }

  lemma {:induction false} OneRunChanges(s: State, s': State, g: nat, panics: bool, r: nat, n: nat)
    requires forall q | q != r :: LeftFor(s', q, g, panics) == LeftFor(s, q, g, panics)
    ensures LeftBelow(s', g, panics, n) + (if r < n then LeftFor(s, r, g, panics) else 0)
         == LeftBelow(s, g, panics, n) + (if r < n then LeftFor(s', r, g, panics) else 0)
  {
    if n > 0 {
      OneRunChanges(s, s', g, panics, r, n - 1);
    }
  }

  lemma {:induction false} SomeRunLeft(s: State, g: nat, panics: bool, n: nat) returns (r: nat)
    requires LeftBelow(s, g, panics, n) > 0
    ensures r < n && LeftFor(s, r, g, panics) > 0
  {
    if LeftFor(s, n - 1, g, panics) > 0 {
      r := n - 1;
    } else {
      r := SomeRunLeft(s, g, panics, n - 1);
    }
  }

  // ---------------------------------------------------------------------------
  // Schedules without the resolvers
  // ---------------------------------------------------------------------------

  predicate OfWorkers(a: Action) {
    a.SendMessage? || a.SendFails? || a.Take? || a.Step? || a.Deadline? || a.HandleCancel? || a.HandleTerminate?
  }

  /** With `panics` a run may also panic inside ProcessTriggers. */
  predicate Permitted(s: State, a: Action, panics: bool) {
    && OfWorkers(a) && Enabled(s, a)
    && (a.Step? && a.event.Panic? && s.runs[a.run].control.pc.Triggering? ==> panics)
  }

  function Go(s: State, acts: seq<Action>, panics: bool): Option<State>
    decreases |acts|
  {
    if acts == [] then Some(s)
    else if Permitted(s, acts[0], panics) then Go(Apply(s, acts[0]), acts[1..], panics)
    else None
  }

  lemma {:induction false} GoAppend(s: State, first: seq<Action>, second: seq<Action>, panics: bool)
    requires Go(s, first, panics).Some?
    ensures Go(s, first + second, panics) == Go(Go(s, first, panics).value, second, panics)
    decreases |first|
  {
    if first == [] {
      assert first + second == second;
    } else {
      assert (first + second)[0] == first[0] && (first + second)[1..] == first[1..] + second;
      GoAppend(Apply(s, first[0]), first[1..], second, panics);
    }
  }

  /** Some such schedule enters the trigger loop of `g` at least `n` more times. */
  ghost predicate CanFire(s: State, g: nat, panics: bool, n: nat) {
    exists acts :: Go(s, acts, panics).Some? && Go(s, acts, panics).value.book.fired[g] >= s.book.fired[g] + n
  }

  // ---------------------------------------------------------------------------
  // No more than that
  // ---------------------------------------------------------------------------

  /** No message about a member is on its way. */
  ghost predicate Served(s: State, g: nat) {
    forall j | InGroup(s, j, g) :: s.queue[j] == 0 && s.outbox[j] == 0
  }

  ghost predicate RunIdsOk(s: State) {
    forall r | r in s.runs :: r < s.nextRun
  }

  function Entered(e: Event): nat {
    if e == Trigger(FireGroup) then 1 else 0
  }

  lemma LeftGoesDown(c: Control, e: Event, panics: bool)
    requires Next(c, e).Some? && (e.Panic? && c.pc.Triggering? ==> panics)
    ensures Entered(e) + Left(Next(c, e).value, panics) <= Left(c, panics)
  {
  }

  /** What the step leaves of firings done and firings left. */
  ghost predicate GoesDown(s: State, s': State, g: nat, panics: bool) {
    && s'.book.fired[g] + Capacity(s', g, panics) <= s.book.fired[g] + Capacity(s, g, panics)
    && Served(s', g) && RunIdsOk(s')
  }

  lemma StepGoesDown(s: State, r: nat, e: Event, g: nat, panics: bool)
    requires Served(s, g) && RunIdsOk(s) && Permitted(s, Step(r, e), panics)
    ensures GoesDown(s, DoStep(s, r, e), g, panics)
  {
    var s' := DoStep(s, r, e);
    StepMoves(s, r, e);
    LeftGoesDown(s.runs[r].control, e, panics);
    OneRunChanges(s, s', g, panics, r, s.nextRun);
  }

  lemma TakeGoesDown(s: State, j: nat, host: nat, g: nat, panics: bool)
    requires Served(s, g) && RunIdsOk(s) && s.queue[j] > 0
    ensures GoesDown(s, DoTake(s, j, host), g, panics)
  {
    var s' := DoTake(s, j, host);
    assert !InGroup(s, j, g);
    OneRunChanges(s, s', g, panics, s.nextRun, s.nextRun);
  }

  /** A message, a handler or a deadline does not move any run. */
  ghost predicate NoRunMoves(s: State, s': State, g: nat) {
    && s'.nextRun == s.nextRun && s'.runs.Keys == s.runs.Keys && s'.book.fired == s.book.fired
    && (forall r | r in s.runs :: s'.runs[r].group == s.runs[r].group && s'.runs[r].control == s.runs[r].control)
    && (forall j :: InGroup(s', j, g) <==> InGroup(s, j, g))
    && (forall j | InGroup(s, j, g) :: s'.queue[j] == s.queue[j] && s'.outbox[j] == s.outbox[j])
  }

  lemma OthersMoveNoRun(s: State, a: Action, g: nat)
    requires Served(s, g) && OfWorkers(a) && Enabled(s, a) && !a.Step? && !a.Take?
    ensures NoRunMoves(s, Apply(s, a), g)
  {
  }

  lemma NoRunMovesGoesDown(s: State, s': State, g: nat, panics: bool)
    requires Served(s, g) && RunIdsOk(s) && NoRunMoves(s, s', g)
    ensures GoesDown(s, s', g, panics)
  {
    OneRunChanges(s, s', g, panics, s.nextRun, s.nextRun);
  }

  lemma ApplyGoesDown(s: State, a: Action, g: nat, panics: bool)
    requires Served(s, g) && RunIdsOk(s) && Permitted(s, a, panics)
    ensures GoesDown(s, Apply(s, a), g, panics)
  {
    if a.Step? {
      StepGoesDown(s, a.run, a.event, g, panics);
    } else if a.Take? {
      TakeGoesDown(s, a.job, a.host, g, panics);
    } else {
      OthersMoveNoRun(s, a, g);
      NoRunMovesGoesDown(s, Apply(s, a), g, panics);
    }
  }

  lemma {:induction false} GoGoesDown(s: State, acts: seq<Action>, g: nat, panics: bool)
    requires Served(s, g) && RunIdsOk(s) && Go(s, acts, panics).Some?
    ensures Go(s, acts, panics).value.book.fired[g] <= s.book.fired[g] + Capacity(s, g, panics)
    decreases |acts|
  {
    if acts != [] {
      ApplyGoesDown(s, acts[0], g, panics);
      GoGoesDown(Apply(s, acts[0]), acts[1..], g, panics);
    }
  }

  // ---------------------------------------------------------------------------
  // As many as that
  // ---------------------------------------------------------------------------

  /** A group with a trigger to run, all of whose jobs are finished. */
  ghost predicate Done(s: State, g: nat) {
    && g in s.groups && s.groups[g].triggers > 0 && AllTerminal(s, g)
    && exists j :: InGroup(s, j, g)
  }

  /** The same, but for the job of run `r` as long as the run has its status still to write. */
  ghost predicate DoneBut(s: State, g: nat, r: nat) {
    && g in s.groups && s.groups[g].triggers > 0
    && (exists j :: InGroup(s, j, g))
    && r in s.runs && s.runs[r].group == Some(g) && ControlOk(s.runs[r].control)
    && forall j | InGroup(s, j, g) ::
         s.jobs[j].status.Terminal() || (j == s.runs[r].job && StatusToCome(s.runs[r].control))
  }

  /** What a run does next on its shortest way into the trigger loop. */
  function Onwards(run: Run): Event {
    match run.control.pc
    case Fetched => MarkRunning
    case Marked => Register
    case Working => Unregister
    case Leaving => CancelContext
    case Released => WriteSuccess
    case Recovering => PickStatus(Verdict(run.err))
    case Deciding(_) => WriteFailure
    case Triggering(AskGroup) => Trigger(ReadGroup(true))
    case Triggering(AskTriggers) => Trigger(ReadTriggers(true))
    case Triggering(AskJobs) => Trigger(ReadJobs(true))
    case Triggering(Fire) => Trigger(FireGroup)
    case _ => Panic
  }

  function Distance(pc: Pc): nat {
    match pc
    case Fetched => 12
    case Marked => 11
    case Working => 10
    case Leaving => 9
    case Released => 8
    case Recovering => 6
    case Deciding(_) => 5
    case Triggering(AskGroup) => 4
    case Triggering(AskTriggers) => 3
    case Triggering(AskJobs) => 2
    case Triggering(Fire) => 1
    case _ => 7
  }

  lemma OnwardsIsNext(run: Run, panics: bool)
    requires ControlOk(run.control) && Left(run.control, panics) > 0
    ensures Next(run.control, Onwards(run)).Some?
    ensures var c := Next(run.control, Onwards(run)).value;
      && Entered(Onwards(run)) + Left(c, panics) == Left(run.control, panics)
      && (Entered(Onwards(run)) == 0 ==> Distance(c.pc) < Distance(run.control.pc) && Left(c, panics) > 0)
      && (StatusToCome(run.control) && !StatusToCome(c) ==>
            forall st :: StatusAfter(st, run.control, Onwards(run)).Terminal())
    ensures Onwards(run).Panic? && run.control.pc.Triggering? ==> panics
  {
  }

  lemma OnwardsIsEnabled(s: State, g: nat, r: nat, panics: bool)
    requires DoneBut(s, g, r) && Left(s.runs[r].control, panics) > 0
    ensures Permitted(s, Step(r, Onwards(s.runs[r])), panics)
  {
    OnwardsIsNext(s.runs[r], panics);
  }

  lemma OnwardsKeepsDoneBut(s: State, g: nat, r: nat, panics: bool)
    requires DoneBut(s, g, r) && Left(s.runs[r].control, panics) > 0
    requires Next(s.runs[r].control, Onwards(s.runs[r])).Some?
    ensures DoneBut(DoStep(s, r, Onwards(s.runs[r])), g, r)
  {
    var e := Onwards(s.runs[r]);
    OnwardsIsNext(s.runs[r], panics);
    NextKeepsControlOk(s.runs[r].control, e);
    StepMoves(s, r, e);
    var j :| InGroup(s, j, g);
    assert InGroup(DoStep(s, r, e), j, g);
  }

  /** Nothing but run `r` and the rows changed. */
  ghost predicate OnlyRunMoved(s: State, s': State, r: nat) {
    && s'.groups == s.groups && s'.nextRun == s.nextRun && s'.runs.Keys == s.runs.Keys
    && forall q | q in s.runs && q != r :: s'.runs[q] == s.runs[q]
  }

  /** A run with a firing left can be brought to fire once, and is left with one less. */
  lemma {:induction false} FireOnce(s: State, g: nat, r: nat, panics: bool) returns (acts: seq<Action>)
    requires DoneBut(s, g, r) && Left(s.runs[r].control, panics) > 0
    ensures Go(s, acts, panics).Some?
    ensures var s' := Go(s, acts, panics).value;
      && OnlyRunMoved(s, s', r) && DoneBut(s', g, r) && Done(s', g)
      && s'.book.fired[g] == s.book.fired[g] + 1
      && Left(s'.runs[r].control, panics) == Left(s.runs[r].control, panics) - 1
    decreases Distance(s.runs[r].control.pc)
  {
    var e := Onwards(s.runs[r]);
    OnwardsIsEnabled(s, g, r, panics);
    OnwardsIsNext(s.runs[r], panics);
    OnwardsKeepsDoneBut(s, g, r, panics);
    var s1 := DoStep(s, r, e);
    var rest := [];
    if Entered(e) == 0 {
      rest := FireOnce(s1, g, r, panics);
    }
    acts := [Step(r, e)] + rest;
    assert acts[1..] == rest;
  }

  lemma {:induction false} CanFireUpToCapacity(s: State, g: nat, panics: bool, n: nat)
    requires Done(s, g) && RunIdsOk(s) && ControlsOk(s) && n <= Capacity(s, g, panics)
    ensures CanFire(s, g, panics, n)
    decreases n
  {
    if n == 0 {
      assert Go(s, [], panics) == Some(s);
    } else {
      var r := SomeRunLeft(s, g, panics, s.nextRun);
      var first := FireOnce(s, g, r, panics);
      var s1 := Go(s, first, panics).value;
      OneRunChanges(s, s1, g, panics, r, s.nextRun);
      CanFireUpToCapacity(s1, g, panics, n - 1);
      var second :| Go(s1, second, panics).Some?
        && Go(s1, second, panics).value.book.fired[g] >= s1.book.fired[g] + (n - 1);
      GoAppend(s, first, second, panics);
    }
  }

  // ---------------------------------------------------------------------------
  // The results
  // ---------------------------------------------------------------------------

  /** A finished job that was issued once has had its message taken. */
  lemma DoneIsServed(s: State, g: nat)
    requires LedgerOk(s) && OnceOk(s) && Done(s, g)
    requires forall j | InGroup(s, j, g) :: Issued(s, j) <= 1
    ensures Served(s, g)
  {
    forall j | InGroup(s, j, g) ensures s.queue[j] == 0 && s.outbox[j] == 0 {
      assert s.book.sent[j] == s.queue[j] + s.book.taken[j];
    }
  }

  /**
    Once every member of a group is finished, each having been issued once, its triggers can run exactly
    as often as its runs have firings left: once per run that has its status still to write or has not
    been through the group's queries, and, if triggers may panic, once more per run whose recovery
    handler has not run.
  */
  lemma FurtherFirings(states: seq<State>, acts: seq<Action>, i: nat, g: nat, panics: bool, n: nat)
    requires Behaviour(states, acts) && i < |states| && Done(states[i], g)
    requires forall j | InGroup(states[i], j, g) :: Issued(states[i], j) <= 1
    ensures CanFire(states[i], g, panics, n) <==> n <= Capacity(states[i], g, panics)
  {
    var s := states[i];
    InvAlong(states, acts, i);
    DoneIsServed(s, g);
    if n <= Capacity(s, g, panics) {
      CanFireUpToCapacity(s, g, panics, n);
    } else {
      forall more | Go(s, more, panics).Some?
        ensures Go(s, more, panics).value.book.fired[g] < s.book.fired[g] + n
      {
        GoGoesDown(s, more, g, panics);
      }
    }
  }

  /** The uncrashed runs of the group that have their status still to write or the group still to ask about. */
  function ToAsk(s: State, g: nat): set<nat> {
    set r | r in s.runs && s.runs[r].group == Some(g) && !s.runs[r].control.pc.Crashed?
      && (StatusToCome(s.runs[r].control) || (s.runs[r].control.pc.Triggering? && Asking(s.runs[r].control.pc.stage)))
  }

  function ToAskBelow(s: State, g: nat, n: nat): set<nat> {
    set r | r in ToAsk(s, g) && r < n
  }

  lemma {:induction false} ToAskIsCounted(s: State, g: nat, n: nat)
    ensures LeftBelow(s, g, false, n) == |ToAskBelow(s, g, n)|
    decreases n
  {
    if n == 0 {
      assert ToAskBelow(s, g, 0) == {};
    } else {
      ToAskIsCounted(s, g, n - 1);
      ToAskOneMore(s, g, n - 1);
    }
  }

  lemma OneMoreToAsk(s: State, g: nat, r: nat)
    ensures r in ToAsk(s, g) ==> ToAskBelow(s, g, r + 1) == ToAskBelow(s, g, r) + {r}
    ensures r !in ToAsk(s, g) ==> ToAskBelow(s, g, r + 1) == ToAskBelow(s, g, r)
    ensures r !in ToAskBelow(s, g, r)
  {
  }

  lemma ToAskHasOneLeft(s: State, g: nat, r: nat)
    ensures LeftFor(s, r, g, false) == if r in ToAsk(s, g) then 1 else 0
  {
  }

  lemma ToAskOneMore(s: State, g: nat, r: nat)
    ensures |ToAskBelow(s, g, r + 1)| == |ToAskBelow(s, g, r)| + LeftFor(s, r, g, false)
  {
    OneMoreToAsk(s, g, r);
    ToAskHasOneLeft(s, g, r);
  }

  /** Without panics inside ProcessTriggers the triggers can run twice exactly when two runs are still to ask. */
  lemma FiresTwiceExactlyWhenTwoAreToAsk(states: seq<State>, acts: seq<Action>, i: nat, g: nat)
    requires Behaviour(states, acts) && i < |states| && Done(states[i], g)
    requires forall j | InGroup(states[i], j, g) :: Issued(states[i], j) <= 1
    ensures CanFire(states[i], g, false, 2) <==> |ToAsk(states[i], g)| >= 2
  {
    var s := states[i];
    InvAlong(states, acts, i);
    FurtherFirings(states, acts, i, g, false, 2);
    ToAskIsCounted(s, g, s.nextRun);
    assert ToAskBelow(s, g, s.nextRun) == ToAsk(s, g);
  }
}
