/**
  What one run does between two of its own steps: nothing.
*/
module FarmRuns {
  import opened Prelude
  import opened BuildFarm
  import opened FarmInvariants
  import opened FarmSteps
  import opened FarmTheorems

  predicate IsStep(a: Action, r: nat, e: Event) {
    a == Step(r, e)
  }

  predicate OfRun(a: Action, r: nat) {
    a.Step? && a.run == r
  }

  /** Run `r` takes no step after the m-th and before the i-th. */
  predicate NoStepOf(acts: seq<Action>, r: nat, m: nat, i: nat)
    requires i <= |acts|
    decreases i
  {
    i <= m + 1 || (!OfRun(acts[i - 1], r) && NoStepOf(acts, r, m, i - 1))
  }

  ghost predicate SameControl(s: State, s': State, r: nat) {
    r in s.runs ==> r in s'.runs && s'.runs[r].control == s.runs[r].control
  }

  lemma {:induction false} NoStepAt(acts: seq<Action>, r: nat, m: nat, i: nat, k: nat)
    requires i <= |acts| && NoStepOf(acts, r, m, i) && m < k < i
    ensures !OfRun(acts[k], r)
    decreases i
  {
    if k < i - 1 {
      NoStepAt(acts, r, m, i - 1, k);
    }
  }

  lemma {:induction false} SameControlAlong(states: seq<State>, r: nat, m: nat, i: nat)
    requires m < i < |states| && forall k | m < k < i :: SameControl(states[k], states[k + 1], r)
    ensures SameControl(states[m + 1], states[i], r)
    decreases i
  {
    if m + 1 < i {
      SameControlAlong(states, r, m, i - 1);
      assert SameControl(states[i - 1], states[i - 1 + 1], r);
    }
  }

  lemma ControlStep(states: seq<State>, acts: seq<Action>, r: nat, k: nat)
    requires Behaviour(states, acts) && k < |acts| && !OfRun(acts[k], r)
    ensures SameControl(states[k], states[k + 1], r)
  {
    InvAlong(states, acts, k);
    if r in states[k].runs {
      OthersLeaveRun(states[k], acts[k], r);
    }
  }

  lemma ControlMeanwhile(states: seq<State>, acts: seq<Action>, r: nat, m: nat, i: nat)
    requires Behaviour(states, acts) && m < i <= |acts| && NoStepOf(acts, r, m, i)
    ensures SameControl(states[m + 1], states[i], r)
  {
    forall k | m < k < i ensures SameControl(states[k], states[k + 1], r) {
      NoStepAt(acts, r, m, i, k);
      ControlStep(states, acts, r, k);
    }
    SameControlAlong(states, r, m, i);
  }

  lemma NewRunIsFresh(s: State, a: Action, r: nat)
    requires Enabled(s, a) && r !in s.runs && r in Apply(s, a).runs
    ensures Apply(s, a).runs[r].control == Fresh && Apply(s, a).runs[r].err.Alive?
  {
    if IsRequest(a) {
      RequestKeepsWorkers(s, a);
    }
  }

  /** The control state of `r` after the step is what its own event made of it, or what it was before. */
  lemma LastStepOrEarlier(states: seq<State>, acts: seq<Action>, r: nat, k: nat)
    requires Behaviour(states, acts) && k < |acts|
    requires r in states[k + 1].runs && states[k + 1].runs[r].control != Fresh
    ensures r in states[k].runs
    ensures OfRun(acts[k], r) ==> Next(states[k].runs[r].control, acts[k].event) == Some(states[k + 1].runs[r].control)
    ensures !OfRun(acts[k], r) ==> states[k].runs[r].control == states[k + 1].runs[r].control
  {
    InvAlong(states, acts, k);
    if r !in states[k].runs {
      NewRunIsFresh(states[k], acts[k], r);
    } else if OfRun(acts[k], r) {
      StepMoves(states[k], r, acts[k].event);
    } else {
      OthersLeaveRun(states[k], acts[k], r);
    }
  }

  /** A run that has done anything was brought to where it is by its last own step. */
  lemma {:induction false} LastOwnStep(states: seq<State>, acts: seq<Action>, r: nat, i: nat) returns (m: nat)
    requires Behaviour(states, acts) && i < |states|
    requires r in states[i].runs && states[i].runs[r].control != Fresh
    ensures m < i && r in states[m].runs && OfRun(acts[m], r) && NoStepOf(acts, r, m, i)
    ensures Next(states[m].runs[r].control, acts[m].event) == Some(states[i].runs[r].control)
    decreases i
  {
    LastStepOrEarlier(states, acts, r, i - 1);
    if OfRun(acts[i - 1], r) {
      m := i - 1;
    } else {
      m := LastOwnStep(states, acts, r, i - 1);
    }
  }
}
