/**
  Invariants of the step system in `BuildFarm`, each kept by every step of every actor.
*/
module FarmInvariants {
  import opened Prelude
  import opened BuildFarm

  // ---------------------------------------------------------------------------
  // What the control state of a run says about its past
  // ---------------------------------------------------------------------------

  ghost predicate ControlOk(c: Control) {
    && (c.pc.Fetched? ==> !c.marked)
    && (c.marked || c.pc.Fetched? || c.pc.Crashed?)
    && ((c.left || c.wrote) ==> c.marked)
    && (c.late ==> c.wrote)
    && (c.pc.Fetched? || c.pc.Marked? || c.pc.Working? ==> !c.left && !c.wrote)
    && (c.pc.Leaving? || c.pc.Released? ==> c.left && !c.wrote)
    && (c.pc.Triggering? || c.pc.Closing? || c.pc.Finished? ==> c.wrote)
    && (c.wrote && !c.late ==> c.left)
    && (c.pc.Recovering? || c.pc.Deciding? ==> !c.late)
    && (c.pc.Deciding? ==> c.pc.pick.Failed? || c.pc.pick.Timeout? || c.pc.pick.Cancelled?)
  }

  lemma NextKeepsControlOk(c: Control, e: Event)
    requires ControlOk(c) && Next(c, e).Some?
    ensures ControlOk(Next(c, e).value)
    ensures c.marked ==> Next(c, e).value.marked
    ensures c.left ==> Next(c, e).value.left
    ensures c.wrote ==> Next(c, e).value.wrote
    ensures c.late ==> Next(c, e).value.late
    ensures c.readError ==> Next(c, e).value.readError
    ensures Next(c, e).value.marked && !c.marked ==> e.MarkRunning?
  {
  }

  // ---------------------------------------------------------------------------
  // Rows and groups
  // ---------------------------------------------------------------------------

  /** Serial ids are not reused: nothing mentions an id that was never handed out. */
  ghost predicate IdsOk(s: State) {
    && (forall j | j in s.jobs :: j < s.nextJob)
    && (forall g | g in s.groups :: g < s.nextGroup)
    && (forall r | r in s.runs :: r < s.nextRun && s.runs[r].job < s.nextJob)
    && (forall r | r in s.runs && s.runs[r].group.Some? :: s.runs[r].group.value < s.nextGroup)
    && (forall j: nat | j >= s.nextJob ::
          && s.book.sent[j] == 0 && s.book.lost[j] == 0 && s.outbox[j] == 0 && s.queue[j] == 0
          && s.book.taken[j] == 0 && s.book.starts[j] == 0 && j !in s.book.executed)
    && (forall g: nat | g >= s.nextGroup :: s.book.groupStarts[g] == 0 && s.book.fired[g] == 0)
  }

  /** A grouped job's group exists and belongs to the job's owner. */
  ghost predicate OwnersOk(s: State) {
    forall j | j in s.jobs && s.jobs[j].group.Some? ::
      s.jobs[j].group.value in s.groups && s.groups[s.jobs[j].group.value].owner == s.jobs[j].owner
  }

  function Flag(b: bool): nat { if b then 1 else 0 }

  function GroupStartsOf(s: State, j: nat): nat
    requires j in s.jobs
  {
    if s.jobs[j].group.Some? then s.book.groupStarts[s.jobs[j].group.value] else 0
  }

  /** Every request to build a job is one of three kinds, and a pending row has had no start. */
  ghost predicate LedgerOk(s: State) {
    && (forall j | j in s.jobs ::
          Issued(s, j) == Flag(j in s.book.executed) + s.book.starts[j] + GroupStartsOf(s, j))
    && (forall j | j in s.jobs :: s.book.starts[j] <= 1)
    && (forall j | j in s.jobs && s.jobs[j].status.Pending? :: s.book.starts[j] == 0 && GroupStartsOf(s, j) == 0)
    && (forall j: nat :: s.book.sent[j] == s.queue[j] + s.book.taken[j])
  }

  ghost predicate ControlsOk(s: State) {
    forall r | r in s.runs :: ControlOk(s.runs[r].control)
  }

  /** The runs, the messages they consumed and the rows they fetched agree. */
  ghost predicate RunsOk(s: State) {
    && ControlsOk(s)
    && (forall r | r in s.runs :: s.book.taken[s.runs[r].job] >= 1)
    && (forall r | r in s.runs && s.runs[r].control.marked && s.runs[r].job in s.jobs ::
          !s.jobs[s.runs[r].job].status.Pending?)
    && (forall r | r in s.runs && s.runs[r].job in s.jobs
                   && (s.runs[r].job !in s.book.executed || s.runs[r].group.Some?) ::
          s.runs[r].group == s.jobs[s.runs[r].job].group)
  }

  /** Two runs of a job took two messages. */
  ghost predicate UniqueOk(s: State) {
    forall r, q | r in s.runs && q in s.runs && s.runs[r].job == s.runs[q].job ::
      r == q || s.book.taken[s.runs[r].job] >= 2
  }

  /** An entry of a worker's jobs map is a run of that job on that host that has not left. */
  ghost predicate LiveOk(s: State) {
    forall k | k in s.live ::
      && s.live[k] in s.runs
      && s.runs[s.live[k]].host == k.0 && s.runs[s.live[k]].job == k.1
      && s.runs[s.live[k]].control.marked && !s.runs[s.live[k]].control.left
  }

  ghost predicate Wf(s: State) {
    IdsOk(s) && OwnersOk(s) && LedgerOk(s) && RunsOk(s) && UniqueOk(s) && LiveOk(s)
  }

  // ---------------------------------------------------------------------------
  // The workers' side: runs, handlers and deadlines
  // ---------------------------------------------------------------------------

  /** All that any event, handler or deadline can do, as far as the rows are concerned. */
  ghost predicate WorkerMove(s: State, s': State) {
    && s'.jobs.Keys == s.jobs.Keys && s'.groups == s.groups
    && s'.nextJob == s.nextJob && s'.nextGroup == s.nextGroup && s'.nextRun == s.nextRun
    && s'.outbox == s.outbox && s'.queue == s.queue
    && s'.book == s.book.(fired := s'.book.fired)
    && (forall j | j in s.jobs ::
          && s'.jobs[j].owner == s.jobs[j].owner && s'.jobs[j].group == s.jobs[j].group
          && (s'.jobs[j].status.Pending? ==> s.jobs[j].status.Pending?))
    && s'.runs.Keys == s.runs.Keys
    && (forall q | q in s.runs ::
          && s'.runs[q].job == s.runs[q].job && s'.runs[q].host == s.runs[q].host
          && s'.runs[q].group == s.runs[q].group
          && ControlOk(s'.runs[q].control)
          && (s.runs[q].control.marked ==> s'.runs[q].control.marked)
          && (s'.runs[q].control.marked && !s.runs[q].control.marked && s.runs[q].job in s.jobs ==>
                s'.jobs[s.runs[q].job].status.Running?))
  }

  lemma WorkerMoveKeepsRows(s: State, s': State)
    requires IdsOk(s) && OwnersOk(s) && WorkerMove(s, s')
    requires forall g | g >= s.nextGroup :: s'.book.fired[g] == 0
    ensures IdsOk(s') && OwnersOk(s')
  {
  }

  lemma WorkerMoveKeepsLedger(s: State, s': State)
    requires LedgerOk(s) && WorkerMove(s, s')
    ensures LedgerOk(s')
  {
  }

  lemma WorkerMoveKeepsRuns(s: State, s': State)
    requires RunsOk(s) && WorkerMove(s, s')
    ensures RunsOk(s')
  {
  }

  lemma WorkerMoveKeepsUnique(s: State, s': State)
    requires UniqueOk(s) && WorkerMove(s, s')
    ensures UniqueOk(s')
  {
  }

  /** Run `r` performed `e`: its job's status and its own control state moved, and no other. */
  ghost predicate Moved(s: State, s': State, r: nat, e: Event)
    requires r in s.runs && Next(s.runs[r].control, e).Some?
  {
    && s'.jobs.Keys == s.jobs.Keys && s'.groups == s.groups
    && s'.nextJob == s.nextJob && s'.nextGroup == s.nextGroup && s'.nextRun == s.nextRun
    && s'.outbox == s.outbox && s'.queue == s.queue
    && s'.book == s.book.(fired := FiredAfter(s.book.fired, s.runs[r].group, e))
    && (forall j | j in s.jobs ::
          s'.jobs[j] == if j == s.runs[r].job
                        then s.jobs[j].(status := StatusAfter(s.jobs[j].status, s.runs[r].control, e))
                        else s.jobs[j])
    && s'.runs.Keys == s.runs.Keys
    && (forall q | q in s.runs :: s'.runs[q].job == s.runs[q].job && s'.runs[q].host == s.runs[q].host
          && s'.runs[q].group == s.runs[q].group
          && s'.runs[q].control == if q == r then Next(s.runs[r].control, e).value else s.runs[q].control)
  }

  lemma StepMoves(s: State, r: nat, e: Event)
    requires r in s.runs && Next(s.runs[r].control, e).Some?
    ensures Moved(s, DoStep(s, r, e), r, e)
  {
  }

  lemma MovedIsWorkerMove(s: State, s': State, r: nat, e: Event)
    requires ControlsOk(s) && r in s.runs && Next(s.runs[r].control, e).Some? && Moved(s, s', r, e)
    ensures WorkerMove(s, s')
  {
    NextKeepsControlOk(s.runs[r].control, e);
  }

  lemma InterruptIsWorkerMove(s: State, r: nat, why: ContextError)
    requires ControlsOk(s) && r in s.runs
    ensures WorkerMove(s, Interrupted(s, r, why))
  {
  }

  lemma CancelIsWorkerMove(s: State, host: nat, j: nat)
    requires ControlsOk(s)
    ensures WorkerMove(s, DoCancel(s, host, j))
  {
  }

  lemma StepKeepsLive(s: State, r: nat, e: Event)
    requires ControlsOk(s) && LiveOk(s) && r in s.runs && Next(s.runs[r].control, e).Some?
    ensures LiveOk(DoStep(s, r, e))
  {
    NextKeepsControlOk(s.runs[r].control, e);
  }

  lemma WorkerMoveKeepsWf(s: State, s': State)
    requires Wf(s) && WorkerMove(s, s') && LiveOk(s')
    requires forall g | g >= s.nextGroup :: s'.book.fired[g] == 0
    ensures Wf(s')
  {
    WorkerMoveKeepsRows(s, s');
    WorkerMoveKeepsLedger(s, s');
    WorkerMoveKeepsRuns(s, s');
    WorkerMoveKeepsUnique(s, s');
  }

  lemma StepKeepsWf(s: State, r: nat, e: Event)
    requires Wf(s) && r in s.runs && Next(s.runs[r].control, e).Some?
    ensures Wf(DoStep(s, r, e))
  {
    StepMoves(s, r, e);
    MovedIsWorkerMove(s, DoStep(s, r, e), r, e);
    StepKeepsLive(s, r, e);
    WorkerMoveKeepsWf(s, DoStep(s, r, e));
  }

  lemma InterruptKeepsWf(s: State, r: nat, why: ContextError)
    requires Wf(s) && r in s.runs
    ensures Wf(Interrupted(s, r, why))
  {
    InterruptIsWorkerMove(s, r, why);
    WorkerMoveKeepsWf(s, Interrupted(s, r, why));
  }

  lemma CancelKeepsWf(s: State, host: nat, j: nat)
    requires Wf(s)
    ensures Wf(DoCancel(s, host, j))
  {
    CancelIsWorkerMove(s, host, j);
    WorkerMoveKeepsWf(s, DoCancel(s, host, j));
  }

  // ---------------------------------------------------------------------------
  // The requests' side
  // ---------------------------------------------------------------------------

  /** What every request, message transfer and account deletion leaves to the workers. */
  ghost predicate RequestMove(s: State, s': State) {
    && s'.runs == s.runs && s'.live == s.live && s'.nextRun == s.nextRun
    && s'.book.taken == s.book.taken && s'.book.fired == s.book.fired
    && (forall j | j in s'.jobs && j !in s.jobs :: j >= s.nextJob && s'.jobs[j].group.None?)
    && (forall j | j in s'.jobs && j in s.jobs ::
          && s'.jobs[j].owner == s.jobs[j].owner
          && (s'.jobs[j].status.Pending? ==> s.jobs[j].status.Pending?)
          && (s'.jobs[j].group == s.jobs[j].group ||
                (s.jobs[j].group.None? && s.jobs[j].status.Pending? && s'.jobs[j].group == Some(s.nextGroup))))
    && s.nextJob <= s'.nextJob && s.nextGroup <= s'.nextGroup
    && (forall j | j < s.nextJob :: j in s'.book.executed <==> j in s.book.executed)
    && (forall j: nat :: Issued(s, j) <= Issued(s', j))
  }

  lemma SubmitKeepsRows(s: State, user: nat, execute: bool)
    requires IdsOk(s) && OwnersOk(s)
    ensures IdsOk(DoSubmit(s, user, execute)) && OwnersOk(DoSubmit(s, user, execute))
  {
  }

  lemma SubmitKeepsLedger(s: State, user: nat, execute: bool)
    requires IdsOk(s) && OwnersOk(s) && LedgerOk(s)
    ensures LedgerOk(DoSubmit(s, user, execute))
  {
  }

  lemma SubmitIsRequest(s: State, user: nat, execute: bool)
    requires IdsOk(s)
    ensures RequestMove(s, DoSubmit(s, user, execute))
  {
  }

  lemma StartKeepsRows(s: State, user: nat, j: nat)
    requires IdsOk(s) && OwnersOk(s)
    ensures IdsOk(DoStart(s, user, j)) && OwnersOk(DoStart(s, user, j))
  {
  }

  lemma StartKeepsLedger(s: State, user: nat, j: nat)
    requires IdsOk(s) && OwnersOk(s) && LedgerOk(s)
    ensures LedgerOk(DoStart(s, user, j))
  {
  }

  lemma StartIsRequest(s: State, user: nat, j: nat)
    requires IdsOk(s)
    ensures RequestMove(s, DoStart(s, user, j))
  {
  }

  lemma JoinKeepsRows(s: State, user: nat, ids: seq<nat>, triggers: nat)
    requires IdsOk(s) && OwnersOk(s)
    ensures IdsOk(JoinGroup(s, user, ids, triggers)) && OwnersOk(JoinGroup(s, user, ids, triggers))
  {
  }

  lemma JoinKeepsLedger(s: State, user: nat, ids: seq<nat>, triggers: nat)
    requires IdsOk(s) && OwnersOk(s) && LedgerOk(s)
    ensures LedgerOk(JoinGroup(s, user, ids, triggers))
  {
  }

  lemma JoinIsRequest(s: State, user: nat, ids: seq<nat>, triggers: nat)
    requires IdsOk(s)
    ensures RequestMove(s, JoinGroup(s, user, ids, triggers))
  {
  }

  lemma StartMembersKeepsRows(s: State, g: nat)
    requires IdsOk(s) && OwnersOk(s) && g in s.groups
    ensures IdsOk(StartMembers(s, s.groups[g].owner, g)) && OwnersOk(StartMembers(s, s.groups[g].owner, g))
  {
  }

  lemma StartMembersKeepsLedger(s: State, g: nat)
    requires IdsOk(s) && OwnersOk(s) && LedgerOk(s) && g in s.groups
    ensures LedgerOk(StartMembers(s, s.groups[g].owner, g))
  {
  }

  lemma StartMembersIsRequest(s: State, g: nat)
    requires IdsOk(s) && g in s.groups
    ensures RequestMove(s, StartMembers(s, s.groups[g].owner, g))
  {
  }

  lemma WithoutUserKeepsRows(s: State, user: nat)
    requires IdsOk(s) && OwnersOk(s)
    ensures IdsOk(WithoutUser(s, user)) && OwnersOk(WithoutUser(s, user))
  {
  }

  lemma WithoutUserKeepsLedger(s: State, user: nat)
    requires IdsOk(s) && OwnersOk(s) && LedgerOk(s)
    ensures LedgerOk(WithoutUser(s, user))
  {
  }

  lemma WithoutUserIsRequest(s: State, user: nat)
    requires IdsOk(s) && OwnersOk(s)
    ensures RequestMove(s, WithoutUser(s, user))
  {
  }

  lemma SendKeepsRows(s: State, j: nat)
    requires IdsOk(s) && OwnersOk(s) && s.outbox[j] > 0
    ensures IdsOk(DoSend(s, j)) && OwnersOk(DoSend(s, j))
  {
  }

  lemma SendKeepsLedger(s: State, j: nat)
    requires IdsOk(s) && OwnersOk(s) && LedgerOk(s) && s.outbox[j] > 0
    ensures LedgerOk(DoSend(s, j))
  {
  }

  lemma SendIsRequest(s: State, j: nat)
    requires IdsOk(s) && s.outbox[j] > 0
    ensures RequestMove(s, DoSend(s, j))
  {
  }

  lemma LoseKeepsRows(s: State, j: nat)
    requires IdsOk(s) && OwnersOk(s) && s.outbox[j] > 0
    ensures IdsOk(DoLose(s, j)) && OwnersOk(DoLose(s, j))
  {
  }

  lemma LoseKeepsLedger(s: State, j: nat)
    requires IdsOk(s) && OwnersOk(s) && LedgerOk(s) && s.outbox[j] > 0
    ensures LedgerOk(DoLose(s, j))
  {
  }

  lemma LoseIsRequest(s: State, j: nat)
    requires IdsOk(s) && s.outbox[j] > 0
    ensures RequestMove(s, DoLose(s, j))
  {
  }

  lemma TakeKeepsRows(s: State, j: nat, host: nat)
    requires IdsOk(s) && OwnersOk(s) && s.queue[j] > 0
    ensures IdsOk(DoTake(s, j, host)) && OwnersOk(DoTake(s, j, host))
  {
  }

  lemma TakeKeepsLedger(s: State, j: nat, host: nat)
    requires IdsOk(s) && LedgerOk(s) && s.queue[j] > 0
    ensures LedgerOk(DoTake(s, j, host))
  {
  }

  /** A message about `j` was taken; with a row there is one more run, which has not done anything. */
  ghost predicate PickedUp(s: State, s': State, j: nat, host: nat) {
    && s'.jobs == s.jobs && s'.book == s.book.(taken := Add(s.book.taken, j))
    && s'.runs == if j in s.jobs then s.runs[s.nextRun := Run(j, host, s.jobs[j].group, Fresh, Alive)] else s.runs
  }

  lemma TakePicksUp(s: State, j: nat, host: nat)
    ensures PickedUp(s, DoTake(s, j, host), j, host)
  {
  }

  lemma PickedUpKeepsRuns(s: State, s': State, j: nat, host: nat)
    requires RunsOk(s) && PickedUp(s, s', j, host)
    ensures RunsOk(s')
  {
  }

  lemma TakeKeepsRuns(s: State, j: nat, host: nat)
    requires RunsOk(s)
    ensures RunsOk(DoTake(s, j, host))
  {
    TakePicksUp(s, j, host);
    PickedUpKeepsRuns(s, DoTake(s, j, host), j, host);
  }

  lemma TakeKeepsUnique(s: State, j: nat, host: nat)
    requires RunsOk(s) && UniqueOk(s)
    ensures UniqueOk(DoTake(s, j, host))
  {
  }

  lemma TakeKeepsLive(s: State, j: nat, host: nat)
    requires IdsOk(s) && LiveOk(s)
    ensures LiveOk(DoTake(s, j, host))
  {
  }

  // ---------------------------------------------------------------------------
  // Every step
  // ---------------------------------------------------------------------------

  lemma RequestKeepsWf(s: State, s': State)
    requires Wf(s) && RequestMove(s, s') && IdsOk(s') && OwnersOk(s') && LedgerOk(s')
    ensures Wf(s')
  {
  }

  lemma ApplyKeepsWf(s: State, a: Action)
    requires Wf(s) && Enabled(s, a)
    ensures Wf(Apply(s, a))
  {
    match a
    case Submit(user, execute) =>
      SubmitKeepsRows(s, user, execute);
      SubmitKeepsLedger(s, user, execute);
      SubmitIsRequest(s, user, execute);
      RequestKeepsWf(s, Apply(s, a));
    case Start(user, j) =>
      StartKeepsRows(s, user, j);
      StartKeepsLedger(s, user, j);
      StartIsRequest(s, user, j);
      RequestKeepsWf(s, Apply(s, a));
    case CreateGroup(user, ids, triggers, execute) =>
      CreateGroupKeepsWf(s, user, ids, triggers, execute);
    case StartGroup(user, g) =>
      if g in s.groups && s.groups[g].owner == user {
        StartMembersKeepsWf(s, g);
      }
    case DeleteUser(user) =>
      WithoutUserKeepsRows(s, user);
      WithoutUserKeepsLedger(s, user);
      WithoutUserIsRequest(s, user);
      RequestKeepsWf(s, Apply(s, a));
    case SendMessage(j) =>
      SendKeepsRows(s, j);
      SendKeepsLedger(s, j);
      SendIsRequest(s, j);
      RequestKeepsWf(s, Apply(s, a));
    case SendFails(j) =>
      LoseKeepsRows(s, j);
      LoseKeepsLedger(s, j);
      LoseIsRequest(s, j);
      RequestKeepsWf(s, Apply(s, a));
    case Take(j, host) =>
      TakeKeepsWf(s, j, host);
    case Step(r, e) => StepKeepsWf(s, r, e);
    case Deadline(r) => InterruptKeepsWf(s, r, DeadlineExceeded);
    case HandleCancel(host, j) => CancelKeepsWf(s, host, j);
    case HandleTerminate(host, j) => TerminateKeepsWf(s, host, j);
  }

  lemma StartMembersKeepsWf(s: State, g: nat)
    requires Wf(s) && g in s.groups
    ensures Wf(StartMembers(s, s.groups[g].owner, g))
  {
    StartMembersKeepsRows(s, g);
    StartMembersKeepsLedger(s, g);
    StartMembersIsRequest(s, g);
    RequestKeepsWf(s, StartMembers(s, s.groups[g].owner, g));
  }

  lemma JoinKeepsWf(s: State, user: nat, ids: seq<nat>, triggers: nat)
    requires Wf(s)
    ensures Wf(JoinGroup(s, user, ids, triggers))
  {
    JoinKeepsRows(s, user, ids, triggers);
    JoinKeepsLedger(s, user, ids, triggers);
    JoinIsRequest(s, user, ids, triggers);
    RequestKeepsWf(s, JoinGroup(s, user, ids, triggers));
  }

  lemma CreateGroupKeepsWf(s: State, user: nat, ids: seq<nat>, triggers: nat, execute: bool)
    requires Wf(s)
    ensures Wf(DoCreateGroup(s, user, ids, triggers, execute))
  {
    if Accepts(s, user, ids) {
      var s1 := JoinGroup(s, user, ids, triggers);
      JoinKeepsWf(s, user, ids, triggers);
      assert s1.groups[s.nextGroup].owner == user;
      if execute {
        StartMembersKeepsWf(s1, s.nextGroup);
      }
    }
  }

  lemma TakeKeepsWf(s: State, j: nat, host: nat)
    requires Wf(s) && s.queue[j] > 0
    ensures Wf(DoTake(s, j, host))
  {
    TakeKeepsRows(s, j, host);
    TakeKeepsLedger(s, j, host);
    TakeKeepsRuns(s, j, host);
    TakeKeepsUnique(s, j, host);
    TakeKeepsLive(s, j, host);
  }

  lemma TerminateKeepsWf(s: State, host: nat, j: nat)
    requires Wf(s)
    ensures Wf(DoTerminate(s, host, j))
  {
    if (host, j) in s.live {
      InterruptKeepsWf(s, s.live[(host, j)], Canceled);
    }
  }
}
