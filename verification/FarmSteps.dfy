/**
  Every step of every actor keeps one invariant, so every state of every run of the system has it.
*/
module FarmSteps {
  import opened Prelude
  import opened BuildFarm
  import opened FarmInvariants
  import opened FarmStatus
  import opened FarmTriggers

  ghost predicate Inv(s: State) {
    Wf(s) && OnceOk(s) && FireOk(s) && AwaitedOk(s) && DebtOk(s)
  }

  predicate IsRequest(a: Action) {
    a.Submit? || a.Start? || a.CreateGroup? || a.StartGroup? || a.DeleteUser? || a.SendMessage? || a.SendFails?
  }

  lemma InitialIsInv(s: State)
    requires Initial(s)
    ensures Inv(s)
  {
  }

  // ---------------------------------------------------------------------------
  // Each kind of step keeps the invariant
  // ---------------------------------------------------------------------------

  lemma SimpleRequestMoves(s: State, a: Action)
    requires Wf(s) && Enabled(s, a) && IsRequest(a) && !a.CreateGroup?
    ensures RequestMove(s, Apply(s, a)) && Reissues(s, Apply(s, a)) && GroupsMove(s, Apply(s, a))
  {
    RequestsReissue(s, a);
    RequestsMoveGroups(s, a);
    SimpleRequestMovesRows(s, a);
  }

  lemma RequestsMoveGroups(s: State, a: Action)
    requires OwnersOk(s) && Enabled(s, a) && IsRequest(a) && !a.CreateGroup?
    ensures GroupsMove(s, Apply(s, a))
  {
  }

  lemma SimpleRequestMovesRows(s: State, a: Action)
    requires IdsOk(s) && OwnersOk(s) && Enabled(s, a) && IsRequest(a) && !a.CreateGroup?
    ensures RequestMove(s, Apply(s, a))
  {
    match a
    case Submit(user, execute) => SubmitIsRequest(s, user, execute);
    case Start(user, j) => StartIsRequest(s, user, j);
    case StartGroup(user, g) =>
      if g in s.groups && s.groups[g].owner == user {
        StartMembersIsRequest(s, g);
      }
    case DeleteUser(user) => WithoutUserIsRequest(s, user);
    case SendMessage(j) => SendIsRequest(s, j);
    case SendFails(j) => LoseIsRequest(s, j);
    case _ =>
  }

  /** Joining a group and then starting it is, as a whole, still one request's doing. */
  lemma JoinThenStart(s: State, s1: State, s2: State)
    requires IdsOk(s) && RequestMove(s, s1) && RequestMove(s1, s2) && s1.jobs.Keys == s.jobs.Keys == s2.jobs.Keys
    requires forall j | j in s1.jobs :: s2.jobs[j].group == s1.jobs[j].group
    requires s.nextJob == s1.nextJob
    ensures RequestMove(s, s2)
  {
  }

  lemma JoinAndStartMoves(s: State, user: nat, ids: seq<nat>, triggers: nat)
    requires IdsOk(s) && OwnersOk(s)
    ensures RequestMove(s, StartMembers(JoinGroup(s, user, ids, triggers), user, s.nextGroup))
  {
    var s1 := JoinGroup(s, user, ids, triggers);
    JoinIsRequest(s, user, ids, triggers);
    JoinKeepsRows(s, user, ids, triggers);
    StartMembersIsRequest(s1, s.nextGroup);
    JoinThenStart(s, s1, StartMembers(s1, user, s.nextGroup));
  }

  lemma NothingMoves(s: State)
    ensures RequestMove(s, s)
  {
  }

  lemma CreateGroupMoves(s: State, user: nat, ids: seq<nat>, triggers: nat, execute: bool)
    requires IdsOk(s) && OwnersOk(s)
    ensures RequestMove(s, DoCreateGroup(s, user, ids, triggers, execute))
  {
    if !Accepts(s, user, ids) {
      NothingMoves(s);
    } else if execute {
      JoinAndStartMoves(s, user, ids, triggers);
    } else {
      JoinIsRequest(s, user, ids, triggers);
    }
  }

  lemma CreateGroupAddsOneGroup(s: State, user: nat, ids: seq<nat>, triggers: nat, execute: bool)
    requires IdsOk(s)
    ensures GroupsMove(s, DoCreateGroup(s, user, ids, triggers, execute))
  {
  }

  lemma RequestKeepsInv(s: State, a: Action)
    requires Inv(s) && Enabled(s, a) && IsRequest(a)
    ensures Inv(Apply(s, a))
  {
    var s' := Apply(s, a);
    ApplyKeepsWf(s, a);
    if a.CreateGroup? {
      CreateGroupMoves(s, a.user, a.ids, a.triggers, a.execute);
      CreateGroupReissues(s, a.user, a.ids, a.triggers, a.execute);
      CreateGroupAddsOneGroup(s, a.user, a.ids, a.triggers, a.execute);
    } else {
      SimpleRequestMoves(s, a);
    }
    RequestKeepsOnce(s, s');
    RequestKeepsFire(s, s');
    RequestKeepsAwaited(s, s');
    RequestKeepsDebt(s, s');
  }

  lemma TakeKeepsInv(s: State, j: nat, host: nat)
    requires Inv(s) && s.queue[j] > 0
    ensures Inv(DoTake(s, j, host))
  {
    TakeKeepsWf(s, j, host);
    TakeKeepsOnce(s, j, host);
    TakeKeepsFire(s, j, host);
    TakeKeepsAwaited(s, j, host);
    TakeKeepsDebt(s, j, host);
  }

  lemma StepKeepsInv(s: State, r: nat, e: Event)
    requires Inv(s) && Enabled(s, Step(r, e))
    ensures Inv(DoStep(s, r, e))
  {
    var s' := DoStep(s, r, e);
    StepKeepsWf(s, r, e);
    StepMoves(s, r, e);
    MovedKeepsOnce(s, s', r, e);
    MovedKeepsFire(s, s', r, e);
    MovedKeepsAwaited(s, s', r, e);
    MovedKeepsDebt(s, s', r, e);
  }

  lemma StoppedKeepsInv(s: State, s': State, r: nat, cancel: bool)
    requires Inv(s) && Wf(s') && r in s.runs && Stopped(s, s', r, cancel)
    requires cancel ==> s.runs[r].control.marked && !s.runs[r].control.left
    ensures Inv(s')
  {
    StoppedKeepsOnce(s, s', r, cancel);
    StoppedKeepsFire(s, s', r, cancel);
    StoppedKeepsAwaited(s, s', r, cancel);
    StoppedKeepsDebt(s, s', r, cancel);
  }

  lemma HandlerKeepsInv(s: State, a: Action)
    requires Inv(s) && Enabled(s, a) && (a.Deadline? || a.HandleCancel? || a.HandleTerminate?)
    ensures Inv(Apply(s, a))
  {
    var s' := Apply(s, a);
    ApplyKeepsWf(s, a);
    match a
    case Deadline(r) =>
      InterruptStops(s, r, DeadlineExceeded);
      StoppedKeepsInv(s, s', r, false);
    case HandleCancel(host, j) =>
      if (host, j) in s.live {
        CancelStops(s, host, j);
        StoppedKeepsInv(s, s', s.live[(host, j)], true);
      }
    case HandleTerminate(host, j) =>
      if (host, j) in s.live {
        InterruptStops(s, s.live[(host, j)], Canceled);
        StoppedKeepsInv(s, s', s.live[(host, j)], false);
      }
    case _ =>
  }

  lemma ApplyKeepsInv(s: State, a: Action)
    requires Inv(s) && Enabled(s, a)
    ensures Inv(Apply(s, a))
  {
    if IsRequest(a) {
      RequestKeepsInv(s, a);
    } else {
      match a
      case Take(j, host) => TakeKeepsInv(s, j, host);
      case Step(r, e) => StepKeepsInv(s, r, e);
      case _ => HandlerKeepsInv(s, a);
    }
  }

  // ---------------------------------------------------------------------------
  // Whole runs of the system
  // ---------------------------------------------------------------------------

  predicate Initial(s: State) {
    s == Empty
  }

  /** `acts[i]` is the step that some actor takes from `states[i]` to `states[i + 1]`. */
  ghost predicate Behaviour(states: seq<State>, acts: seq<Action>) {
    && |states| == |acts| + 1
    && Initial(states[0])
    && forall i {:trigger acts[i]} | 0 <= i < |acts| ::
         Enabled(states[i], acts[i]) && states[i + 1] == Apply(states[i], acts[i])
  }

  lemma {:induction false} InvAlong(states: seq<State>, acts: seq<Action>, i: nat)
    requires Behaviour(states, acts) && i < |states|
    ensures Inv(states[i])
  {
    if i == 0 {
      InitialIsInv(states[0]);
    } else {
      InvAlong(states, acts, i - 1);
      ApplyKeepsInv(states[i - 1], acts[i - 1]);
    }
  }
}
