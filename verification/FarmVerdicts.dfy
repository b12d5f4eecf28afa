/**
  What the recovery handler writes: "timeout" when the run's context ended at its deadline, "cancelled" when
  it ended otherwise, and "failed" when it was still good.
*/
module FarmVerdicts {
  import opened Prelude
  import opened BuildFarm
  import opened FarmInvariants
  import opened FarmSteps
  import opened FarmTheorems
  import opened FarmRuns

  // ---------------------------------------------------------------------------
  // What ends a run's context
  // ---------------------------------------------------------------------------

  predicate TimesOut(a: Action, r: nat) {
    a == Deadline(r)
  }

  /** A cancel or terminate request that finds the run in the jobs map, or the run's own cancel(). */
  predicate Cancels(s: State, a: Action, r: nat) {
    match a
    case HandleCancel(host, j) => (host, j) in s.live && s.live[(host, j)] == r
    case HandleTerminate(host, j) => (host, j) in s.live && s.live[(host, j)] == r
    case Step(q, e) => q == r && e.CancelContext?
    case _ => false
  }

  /** Nothing has ended the context of `r` before the i-th state. */
  predicate NeverEnded(states: seq<State>, acts: seq<Action>, r: nat, i: nat)
    requires i <= |acts| <= |states|
    decreases i
  {
    || i == 0
    || (NeverEnded(states, acts, r, i - 1)
        && !TimesOut(acts[i - 1], r) && !Cancels(states[i - 1], acts[i - 1], r))
  }

  /** The first thing that ended it was its deadline. */
  ghost predicate TimedOutFirst(states: seq<State>, acts: seq<Action>, r: nat, i: nat)
    requires i <= |acts| <= |states|
  {
    exists t :: 0 <= t < i && TimesOut(acts[t], r) && NeverEnded(states, acts, r, t)
  }

  /** The first thing that ended it was a request or the run itself. */
  ghost predicate CancelledFirst(states: seq<State>, acts: seq<Action>, r: nat, i: nat)
    requires i <= |acts| <= |states|
  {
    exists t :: 0 <= t < i && Cancels(states[t], acts[t], r) && NeverEnded(states, acts, r, t)
  }

  lemma FirstOneStepOn(states: seq<State>, acts: seq<Action>, r: nat, k: nat)
    requires k < |acts| <= |states|
    ensures TimedOutFirst(states, acts, r, k + 1) <==>
            TimedOutFirst(states, acts, r, k) || (TimesOut(acts[k], r) && NeverEnded(states, acts, r, k))
    ensures CancelledFirst(states, acts, r, k + 1) <==>
            CancelledFirst(states, acts, r, k) || (Cancels(states[k], acts[k], r) && NeverEnded(states, acts, r, k))
  {
  }

  /** The context's error says what ended it first; a run that is not there has no context to end. */
  ghost predicate ErrorFits(states: seq<State>, acts: seq<Action>, r: nat, i: nat)
    requires i <= |acts| < |states|
  {
    if r in states[i].runs then
      && (states[i].runs[r].err.Alive? <==> NeverEnded(states, acts, r, i))
      && (states[i].runs[r].err.DeadlineExceeded? <==> TimedOutFirst(states, acts, r, i))
      && (states[i].runs[r].err.Canceled? <==> CancelledFirst(states, acts, r, i))
    else
      NeverEnded(states, acts, r, i) && !TimedOutFirst(states, acts, r, i) && !CancelledFirst(states, acts, r, i)
  }

  /** Only these end a context, and only one that is alive. */
  ghost predicate ErrorMoves(s: State, s': State, r: nat, timesOut: bool, cancels: bool) {
    && !(timesOut && cancels)
    && (r in s.runs ==>
          && r in s'.runs
          && (!s.runs[r].err.Alive? ==> s'.runs[r].err == s.runs[r].err)
          && (s.runs[r].err.Alive? ==>
                s'.runs[r].err == if timesOut then DeadlineExceeded else if cancels then Canceled else Alive))
    && (r !in s.runs ==> !timesOut && !cancels && (r in s'.runs ==> s'.runs[r].err.Alive?))
  }

  lemma StepMovesError(s: State, q: nat, e: Event, r: nat)
    requires Enabled(s, Step(q, e))
    ensures ErrorMoves(s, DoStep(s, q, e), r, false, Cancels(s, Step(q, e), r))
  {
  }

  lemma RequestMovesError(s: State, a: Action, r: nat)
    requires Enabled(s, a) && IsRequest(a)
    ensures ErrorMoves(s, Apply(s, a), r, false, false)
  {
    RequestKeepsWorkers(s, a);
  }

  lemma HandlerMovesError(s: State, a: Action, r: nat)
    requires IdsOk(s) && LiveOk(s) && Enabled(s, a) && !IsRequest(a) && !a.Step?
    ensures ErrorMoves(s, Apply(s, a), r, TimesOut(a, r), Cancels(s, a, r))
  {
  }

  lemma ErrorStep(states: seq<State>, acts: seq<Action>, r: nat, k: nat)
    requires Behaviour(states, acts) && k < |acts|
    ensures ErrorMoves(states[k], states[k + 1], r, TimesOut(acts[k], r), Cancels(states[k], acts[k], r))
  {
    InvAlong(states, acts, k);
    if IsRequest(acts[k]) {
      RequestMovesError(states[k], acts[k], r);
    } else if acts[k].Step? {
      StepMovesError(states[k], acts[k].run, acts[k].event, r);
    } else {
      HandlerMovesError(states[k], acts[k], r);
    }
  }

  /** In every behaviour the error of a run's context names what ended it first. */
  lemma {:induction false} ErrorAlong(states: seq<State>, acts: seq<Action>, r: nat, i: nat)
    requires Behaviour(states, acts) && i < |states|
    ensures ErrorFits(states, acts, r, i)
    decreases i
  {
    if i > 0 {
      ErrorAlong(states, acts, r, i - 1);
      ErrorStep(states, acts, r, i - 1);
      FirstOneStepOn(states, acts, r, i - 1);
    }
  }

  // ---------------------------------------------------------------------------
  // What the handler writes
  // ---------------------------------------------------------------------------

  /** Run `r` looks at its context at `p` and writes its verdict next, at `k`. */
  ghost predicate PickThenWrite(states: seq<State>, acts: seq<Action>, r: nat, p: nat, k: nat) {
    && p < k < |acts| < |states|
    && r in states[p].runs && r in states[k].runs
    && OfRun(acts[p], r) && acts[p].event.PickStatus? && IsStep(acts[k], r, WriteFailure)
    && NoStepOf(acts, r, p, k)
  }

  /** Every verdict was picked before by one such look. */
  lemma PickBeforeWrite(states: seq<State>, acts: seq<Action>, r: nat, k: nat) returns (p: nat)
    requires Behaviour(states, acts) && k < |acts| && acts[k] == Step(r, WriteFailure)
    ensures PickThenWrite(states, acts, r, p, k)
  {
    p := LastOwnStep(states, acts, r, k);
    OnlyPickingDecides(states[p].runs[r].control, acts[p].event);
  }

  lemma OnlyPickingDecides(c: Control, e: Event)
    requires Next(c, e).Some? && Next(c, e).value.pc.Deciding?
    ensures e.PickStatus?
  {
  }

  lemma WritesWhatWasPicked(states: seq<State>, acts: seq<Action>, r: nat, p: nat, k: nat)
    requires Behaviour(states, acts) && PickThenWrite(states, acts, r, p, k)
    requires states[k].runs[r].job in states[k].jobs
    ensures states[k].runs[r].job in states[k + 1].jobs
    ensures states[k + 1].jobs[states[k].runs[r].job].status == acts[p].event.pick
  {
    StepMoves(states[p], r, acts[p].event);
    ControlMeanwhile(states, acts, r, p, k);
    StepMoves(states[k], r, WriteFailure);
  }

  /** The pick is the one for the context's error. */
  lemma PickFitsError(states: seq<State>, acts: seq<Action>, r: nat, p: nat)
    requires Behaviour(states, acts) && p < |acts| && OfRun(acts[p], r) && acts[p].event.PickStatus?
    ensures r in states[p].runs
    ensures acts[p].event.pick.Timeout? <==> states[p].runs[r].err.DeadlineExceeded?
    ensures acts[p].event.pick.Cancelled? <==> states[p].runs[r].err.Canceled?
    ensures acts[p].event.pick.Failed? <==> states[p].runs[r].err.Alive?
  {
  }

  /**
    The status that the recovery handler of `r` writes is "timeout" exactly when the first thing that ended
    the run's context, up to the handler's look at it, was its deadline; "cancelled" exactly when it was a
    cancel or terminate request or the run's own cancel(); and "failed" exactly when nothing had ended it.
  */
  lemma VerdictIsRight(states: seq<State>, acts: seq<Action>, r: nat, p: nat, k: nat)
    requires Behaviour(states, acts) && PickThenWrite(states, acts, r, p, k)
    requires states[k].runs[r].job in states[k].jobs
    ensures states[k].runs[r].job in states[k + 1].jobs
    ensures var status := states[k + 1].jobs[states[k].runs[r].job].status;
      && (status.Timeout? <==> TimedOutFirst(states, acts, r, p))
      && (status.Cancelled? <==> CancelledFirst(states, acts, r, p))
      && (status.Failed? <==> NeverEnded(states, acts, r, p))
  {
    WritesWhatWasPicked(states, acts, r, p, k);
    PickFitsError(states, acts, r, p);
    ErrorAlong(states, acts, r, p);
  }
}
