/**
  Who changes what: every message, row, jobs map entry and count of a behaviour is traced to the steps that
  made it.
*/
module FarmHistory {
  import opened Prelude
  import opened BuildFarm
  import opened FarmInvariants
  import opened FarmStatus
  import opened FarmTriggers
  import opened FarmSteps
  import opened FarmTheorems

  // ---------------------------------------------------------------------------
  // Messages and firings
  // ---------------------------------------------------------------------------

  predicate Starts(s: State, user: nat, j: nat) {
    j in s.jobs && s.jobs[j].owner == user && s.jobs[j].status.Pending?
  }

  /** The messages that the step puts into the broker. */
  function Sent(s: State, a: Action): multiset<nat> {
    match a
    case SendMessage(j) => multiset{j}
    case Start(user, j) => if Starts(s, user, j) then multiset{j} else multiset{}
    case _ => multiset{}
  }

  /** The messages that the step takes out of it. */
  function Taken(a: Action): multiset<nat> {
    if a.Take? then multiset{a.job} else multiset{}
  }

  /** The messages that the step should have sent but could not. */
  function Lost(a: Action): multiset<nat> {
    if a.SendFails? then multiset{a.job} else multiset{}
  }

  /** The groups whose trigger loop the step enters. */
  function Entered(s: State, a: Action): multiset<nat> {
    if a.Step? && a.event == Trigger(FireGroup) && a.run in s.runs && s.runs[a.run].group.Some?
    then multiset{s.runs[a.run].group.value} else multiset{}
  }

  /** What the steps up to the i-th state came to. */
  function SentBy(states: seq<State>, acts: seq<Action>, i: nat): multiset<nat>
    requires i <= |acts| <= |states|
  {
    if i == 0 then multiset{} else SentBy(states, acts, i - 1) + Sent(states[i - 1], acts[i - 1])
  }

  function TakenBy(acts: seq<Action>, i: nat): multiset<nat>
    requires i <= |acts|
  {
    if i == 0 then multiset{} else TakenBy(acts, i - 1) + Taken(acts[i - 1])
  }

  function LostBy(acts: seq<Action>, i: nat): multiset<nat>
    requires i <= |acts|
  {
    if i == 0 then multiset{} else LostBy(acts, i - 1) + Lost(acts[i - 1])
  }

  function EnteredBy(states: seq<State>, acts: seq<Action>, i: nat): multiset<nat>
    requires i <= |acts| <= |states|
  {
    if i == 0 then multiset{} else EnteredBy(states, acts, i - 1) + Entered(states[i - 1], acts[i - 1])
  }

  /** The broker, the lost messages and the firings after a step. */
  ghost predicate Accounted(s: State, a: Action, s': State) {
    && s'.queue + Taken(a) == s.queue + Sent(s, a)
    && s'.book.taken == s.book.taken + Taken(a)
    && s'.book.lost == s.book.lost + Lost(a)
    && s'.book.fired == s.book.fired + Entered(s, a)
  }

  lemma CreateGroupAccounted(s: State, user: nat, ids: seq<nat>, triggers: nat, execute: bool)
    ensures Accounted(s, CreateGroup(user, ids, triggers, execute), DoCreateGroup(s, user, ids, triggers, execute))
  {
  }

  lemma StartGroupAccounted(s: State, user: nat, g: nat)
    ensures Accounted(s, StartGroup(user, g), DoStartGroup(s, user, g))
  {
  }

  lemma AddOne(m: multiset<nat>, x: nat)
    ensures Add(m, x) == m + multiset{x}
    ensures m[x] > 0 ==> Remove(m, x) + multiset{x} == m
  {
  }

  lemma StartAccounted(s: State, user: nat, j: nat)
    ensures Accounted(s, Start(user, j), DoStart(s, user, j))
  {
    AddOne(s.queue, j);
  }

  lemma SendAccounted(s: State, j: nat)
    ensures Accounted(s, SendMessage(j), DoSend(s, j))
  {
    AddOne(s.queue, j);
  }

  lemma LoseAccounted(s: State, j: nat)
    ensures Accounted(s, SendFails(j), DoLose(s, j))
  {
    AddOne(s.book.lost, j);
  }

  lemma TakeAccounted(s: State, j: nat, host: nat)
    requires s.queue[j] > 0
    ensures Accounted(s, Take(j, host), DoTake(s, j, host))
  {
    AddOne(s.queue, j);
    AddOne(s.book.taken, j);
  }

  lemma RunAccounted(s: State, r: nat, e: Event)
    requires Enabled(s, Step(r, e))
    ensures Accounted(s, Step(r, e), DoStep(s, r, e))
  {
    if s.runs[r].group.Some? {
      AddOne(s.book.fired, s.runs[r].group.value);
    }
  }

  lemma OthersAccounted(s: State, a: Action)
    requires Enabled(s, a) && (a.Submit? || a.DeleteUser? || a.Deadline? || a.HandleCancel? || a.HandleTerminate?)
    ensures Accounted(s, a, Apply(s, a))
  {
  }

  lemma StepAccounted(s: State, a: Action)
    requires Enabled(s, a)
    ensures Accounted(s, a, Apply(s, a))
  {
    match a
    case Start(user, j) => StartAccounted(s, user, j);
    case CreateGroup(user, ids, triggers, execute) => CreateGroupAccounted(s, user, ids, triggers, execute);
    case StartGroup(user, g) => StartGroupAccounted(s, user, g);
    case SendMessage(j) => SendAccounted(s, j);
    case SendFails(j) => LoseAccounted(s, j);
    case Take(j, host) => TakeAccounted(s, j, host);
    case Step(r, e) => RunAccounted(s, r, e);
    case _ => OthersAccounted(s, a);
  }

  /** The books of a state that steps with these sums lead to. */
  ghost predicate Balances(s: State, sent: multiset<nat>, taken: multiset<nat>, lost: multiset<nat>,
      fired: multiset<nat>)
  {
    && s.queue + taken == sent
    && s.book.taken == taken && s.book.lost == lost && s.book.fired == fired
  }

  lemma StaysBalanced(s: State, a: Action, s': State, sent: multiset<nat>, taken: multiset<nat>, lost: multiset<nat>,
      fired: multiset<nat>)
    requires Balances(s, sent, taken, lost, fired) && Accounted(s, a, s')
    ensures Balances(s', sent + Sent(s, a), taken + Taken(a), lost + Lost(a), fired + Entered(s, a))
  {
    assert s'.queue + (taken + Taken(a)) == s'.queue + Taken(a) + taken == s.queue + taken + Sent(s, a);
  }

  /**
    What waits in the broker and what workers took is exactly what SendMessage steps and successful Start
    calls sent; what was lost is exactly what SendFails steps lost; and the triggers of a group ran exactly
    as often as its runs entered the loop.
  */
  lemma MessagesAreAccounted(states: seq<State>, acts: seq<Action>, i: nat)
    requires Behaviour(states, acts) && i < |states|
    ensures Balances(states[i], SentBy(states, acts, i), TakenBy(acts, i), LostBy(acts, i), EnteredBy(states, acts, i))
  {
    forall k | 0 <= k < i ensures Accounted(states[k], acts[k], states[k + 1]) {
      StepAccounted(states[k], acts[k]);
    }
    BalanceAlong(states, acts, i);
  }

  lemma {:induction false} BalanceAlong(states: seq<State>, acts: seq<Action>, i: nat)
    requires i <= |acts| < |states| && states[0] == Empty
    requires forall k | 0 <= k < i :: Accounted(states[k], acts[k], states[k + 1])
    ensures Balances(states[i], SentBy(states, acts, i), TakenBy(acts, i), LostBy(acts, i), EnteredBy(states, acts, i))
    decreases i
  {
    if i > 0 {
      BalanceAlong(states, acts, i - 1);
      assert Accounted(states[i - 1], acts[i - 1], states[i - 1 + 1]);
      StaysBalanced(states[i - 1], acts[i - 1], states[i], SentBy(states, acts, i - 1), TakenBy(acts, i - 1),
                    LostBy(acts, i - 1), EnteredBy(states, acts, i - 1));
    }
  }

  /** A Start call that changes anything queues its job and puts exactly one message into the broker. */
  lemma StartSendsOneMessage(states: seq<State>, acts: seq<Action>, k: nat)
    requires Behaviour(states, acts) && k < |acts| && acts[k].Start? && states[k + 1] != states[k]
    ensures var s, s', j := states[k], states[k + 1], acts[k].job;
      && j in s.jobs && s.jobs[j].status.Pending? && s.jobs[j].owner == acts[k].user
      && s'.jobs == s.jobs[j := s.jobs[j].(status := Queued)]
      && s'.queue == s.queue + multiset{j} && s'.outbox == s.outbox && s'.groups == s.groups
  {
  }

  // ---------------------------------------------------------------------------
  // Messages still to be sent
  // ---------------------------------------------------------------------------

  /** The jobs that the step commits itself to sending. */
  ghost function Promised(s: State, a: Action): set<nat> {
    match a
    case Submit(_, execute) => if execute then {s.nextJob} else {}
    case CreateGroup(user, ids, _, execute) =>
      if execute && Distinct(ids) && (forall id | id in ids :: Joinable(s, user, id)) then Elements(ids) else {}
    case StartGroup(user, g) => if g in s.groups && s.groups[g].owner == user then Members(s, g) else {}
    case _ => {}
  }

  /** The messages that the step sends or loses after the commit. */
  function Settled(a: Action): multiset<nat> {
    match a
    case SendMessage(j) => multiset{j}
    case SendFails(j) => multiset{j}
    case _ => multiset{}
  }

  ghost predicate OutboxMoves(s: State, a: Action, s': State) {
    s'.outbox + Settled(a) == s.outbox + multiset(Promised(s, a))
  }

  lemma CreateGroupPromises(s: State, user: nat, ids: seq<nat>, triggers: nat, execute: bool)
    requires IdsOk(s) && OwnersOk(s)
    ensures OutboxMoves(s, CreateGroup(user, ids, triggers, execute), DoCreateGroup(s, user, ids, triggers, execute))
  {
    GroupAcceptance(s, user, ids);
    if Accepts(s, user, ids) && execute {
      NewGroupIsEmpty(s);
      JoinMakesGroup(s, user, ids, triggers);
      var s1 := JoinGroup(s, user, ids, triggers);
      TheseAreMembers(s1, user, ids, s.nextGroup, Pending);
      assert StartMembers(s1, user, s.nextGroup).outbox == s.outbox + multiset(Elements(ids));
    }
  }

  lemma StartGroupPromises(s: State, user: nat, g: nat)
    requires OwnersOk(s)
    ensures OutboxMoves(s, StartGroup(user, g), DoStartGroup(s, user, g))
  {
    if g in s.groups && s.groups[g].owner == user {
      assert Startable(s, user, g) == Members(s, g);
    }
  }

  lemma OthersPromise(s: State, a: Action)
    requires Enabled(s, a) && !a.CreateGroup? && !a.StartGroup?
    ensures OutboxMoves(s, a, Apply(s, a))
  {
  }

  /** Every commit owes each of its jobs one message, and only sending or losing it pays. */
  lemma OutboxIsAccounted(states: seq<State>, acts: seq<Action>, k: nat)
    requires Behaviour(states, acts) && k < |acts|
    ensures OutboxMoves(states[k], acts[k], states[k + 1])
  {
    InvAlong(states, acts, k);
    if acts[k].CreateGroup? {
      CreateGroupPromises(states[k], acts[k].user, acts[k].ids, acts[k].triggers, acts[k].execute);
    } else if acts[k].StartGroup? {
      StartGroupPromises(states[k], acts[k].user, acts[k].group);
    } else {
      OthersPromise(states[k], acts[k]);
    }
  }

  // ---------------------------------------------------------------------------
  // Rows
  // ---------------------------------------------------------------------------

  /** The status that the step writes into the row of job `j`, if it writes one. */
  ghost function Written(s: State, a: Action, j: nat): Option<Status>
    requires j in s.jobs
  {
    match a
    case Start(user, i) => if i == j && Starts(s, user, i) then Some(Queued) else None
    case CreateGroup(_, _, _, _) => if j in Promised(s, a) then Some(Queued) else None
    case StartGroup(_, _) => if j in Promised(s, a) then Some(Queued) else None
    case HandleCancel(host, i) => if i == j && (host, j) in s.live then Some(Cancelled) else None
    case Step(r, e) =>
      if r in s.runs && s.runs[r].job == j then
        match e
        case MarkRunning => Some(Running)
        case WriteSuccess => Some(Success)
        case WriteFailure => if s.runs[r].control.pc.Deciding? then Some(s.runs[r].control.pc.pick) else None
        case _ => None
      else None
    case _ => None
  }

  ghost predicate RowMoves(s: State, a: Action, s': State, j: nat) {
    j in s.jobs && j in s'.jobs ==> s'.jobs[j].status == Written(s, a, j).GetOr(s.jobs[j].status)
  }

  lemma CreateGroupWrites(s: State, user: nat, ids: seq<nat>, triggers: nat, execute: bool, j: nat)
    requires IdsOk(s) && OwnersOk(s)
    ensures RowMoves(s, CreateGroup(user, ids, triggers, execute), DoCreateGroup(s, user, ids, triggers, execute), j)
  {
    GroupAcceptance(s, user, ids);
    if Accepts(s, user, ids) {
      GroupGrows(s, user, ids, triggers, execute);
      assert j in ids <==> j in Elements(ids);
    }
  }

  lemma StartGroupWrites(s: State, user: nat, g: nat, j: nat)
    requires OwnersOk(s)
    ensures RowMoves(s, StartGroup(user, g), DoStartGroup(s, user, g), j)
  {
  }

  lemma HandlerWrites(s: State, a: Action, j: nat)
    requires LiveOk(s) && Enabled(s, a) && !IsRequest(a)
    ensures RowMoves(s, a, Apply(s, a), j)
  {
  }

  lemma OthersWrite(s: State, a: Action, j: nat)
    requires IdsOk(s) && Enabled(s, a) && IsRequest(a) && !a.CreateGroup? && !a.StartGroup?
    ensures RowMoves(s, a, Apply(s, a), j)
  {
  }

  /**
    The status of a row is changed by exactly these steps: its owner's start, a start of its group, the run's
    own writes, and a cancel request that finds the run.
  */
  lemma RowsAreAccounted(states: seq<State>, acts: seq<Action>, k: nat, j: nat)
    requires Behaviour(states, acts) && k < |acts|
    ensures RowMoves(states[k], acts[k], states[k + 1], j)
  {
    InvAlong(states, acts, k);
    if acts[k].CreateGroup? {
      CreateGroupWrites(states[k], acts[k].user, acts[k].ids, acts[k].triggers, acts[k].execute, j);
    } else if acts[k].StartGroup? {
      StartGroupWrites(states[k], acts[k].user, acts[k].group, j);
    } else if IsRequest(acts[k]) {
      OthersWrite(states[k], acts[k], j);
    } else {
      HandlerWrites(states[k], acts[k], j);
    }
  }

  /** Rows come by submission and go with their owner's account, and so do groups, which CreateGroup makes. */
  ghost predicate TablesMove(s: State, a: Action, s': State) {
    && (forall j | j in s'.jobs && j !in s.jobs ::
          a.Submit? && j == s.nextJob && s'.jobs[j] == JobRow(a.user, None, Pending))
    && (a.Submit? ==> s.nextJob in s'.jobs)
    && (forall j | j in s.jobs :: j !in s'.jobs <==> a.DeleteUser? && s.jobs[j].owner == a.user)
    && (forall g | g in s.groups :: g !in s'.groups <==> a.DeleteUser? && s.groups[g].owner == a.user)
    && (forall g | g in s'.groups && g !in s.groups :: a.CreateGroup? && g == s.nextGroup)
  }

  lemma CreateGroupMovesTables(s: State, user: nat, ids: seq<nat>, triggers: nat, execute: bool)
    requires IdsOk(s)
    ensures TablesMove(s, CreateGroup(user, ids, triggers, execute), DoCreateGroup(s, user, ids, triggers, execute))
  {
  }

  lemma DeleteUserMovesTables(s: State, user: nat)
    ensures TablesMove(s, DeleteUser(user), WithoutUser(s, user))
  {
  }

  lemma StartGroupMovesTables(s: State, user: nat, g: nat)
    ensures TablesMove(s, StartGroup(user, g), DoStartGroup(s, user, g))
  {
  }

  lemma OthersMoveTables(s: State, a: Action)
    requires IdsOk(s) && Enabled(s, a) && !a.CreateGroup? && !a.StartGroup? && !a.DeleteUser?
    ensures TablesMove(s, a, Apply(s, a))
  {
  }

  lemma TablesAreAccounted(states: seq<State>, acts: seq<Action>, k: nat)
    requires Behaviour(states, acts) && k < |acts|
    ensures TablesMove(states[k], acts[k], states[k + 1])
  {
    InvAlong(states, acts, k);
    if acts[k].CreateGroup? {
      CreateGroupMovesTables(states[k], acts[k].user, acts[k].ids, acts[k].triggers, acts[k].execute);
    } else if acts[k].StartGroup? {
      StartGroupMovesTables(states[k], acts[k].user, acts[k].group);
    } else if acts[k].DeleteUser? {
      DeleteUserMovesTables(states[k], acts[k].user);
    } else {
      OthersMoveTables(states[k], acts[k]);
    }
  }

  // ---------------------------------------------------------------------------
  // Runs and jobs maps
  // ---------------------------------------------------------------------------

  /** A worker's jobs map maps the job to the run after the step. */
  predicate Maps(s: State, host: nat, j: nat, r: nat) {
    (host, j) in s.live && s.live[(host, j)] == r
  }

  predicate RunDoes(s: State, a: Action, host: nat, j: nat, e: Event) {
    a.Step? && a.event == e && a.run in s.runs && s.runs[a.run].host == host && s.runs[a.run].job == j
  }

  ghost predicate EntriesMove(s: State, a: Action, s': State, host: nat, j: nat, r: nat) {
    Maps(s', host, j, r) <==>
      || (RunDoes(s, a, host, j, Register) && a.run == r)
      || (Maps(s, host, j, r) && !RunDoes(s, a, host, j, Register) && !RunDoes(s, a, host, j, Unregister))
  }

  lemma StepMovesEntries(s: State, q: nat, e: Event, host: nat, j: nat, r: nat)
    requires Enabled(s, Step(q, e))
    ensures EntriesMove(s, Step(q, e), DoStep(s, q, e), host, j, r)
  {
  }

  lemma OthersMoveEntries(s: State, a: Action, host: nat, j: nat, r: nat)
    requires Enabled(s, a) && !a.Step? && !IsRequest(a)
    ensures EntriesMove(s, a, Apply(s, a), host, j, r)
  {
  }

  /** A jobs map entry is made by its run's registration and removed by that of a run of the job on the host. */
  lemma EntriesAreAccounted(states: seq<State>, acts: seq<Action>, k: nat, host: nat, j: nat, r: nat)
    requires Behaviour(states, acts) && k < |acts|
    ensures EntriesMove(states[k], acts[k], states[k + 1], host, j, r)
  {
    if IsRequest(acts[k]) {
      RequestKeepsWorkers(states[k], acts[k]);
    } else if acts[k].Step? {
      StepMovesEntries(states[k], acts[k].run, acts[k].event, host, j, r);
    } else {
      OthersMoveEntries(states[k], acts[k], host, j, r);
    }
  }

  /** A run begins when a worker takes a message about a job that is there, and fetches the job's group with it. */
  lemma RunsBeginWithMessages(states: seq<State>, acts: seq<Action>, k: nat, r: nat)
    requires Behaviour(states, acts) && k < |acts| && r !in states[k].runs
    ensures r in states[k + 1].runs <==>
      acts[k].Take? && acts[k].job in states[k].jobs && r == states[k].nextRun
    ensures r in states[k + 1].runs ==>
      states[k + 1].runs[r] == Run(acts[k].job, acts[k].host, states[k].jobs[acts[k].job].group, Fresh, Alive)
  {
    if IsRequest(acts[k]) {
      RequestKeepsWorkers(states[k], acts[k]);
    }
  }

  /** A run can crash at any time before its end, and does nothing after it. */
  lemma EndedRunsRest(c: Control, e: Event)
    ensures c.pc.Finished? || c.pc.Crashed? ==> Next(c, e).None?
    ensures !c.pc.Finished? && !c.pc.Crashed? ==> Next(c, Crash).Some? && Next(c, Crash).value.pc.Crashed?
  {
  }

  // ---------------------------------------------------------------------------
  // Queries
  // ---------------------------------------------------------------------------

  ghost predicate SomeMember(s: State, g: nat) {
    exists j :: InGroup(s, j, g)
  }

  /** The answers that the group's queries give are those of the tables. */
  lemma QueriesTellTheTruth(s: State, r: nat, what: TriggerEvent)
    requires Enabled(s, Step(r, Trigger(what)))
    ensures what.SkipGroup? ==> s.runs[r].group.None?
    ensures what.ReadGroup? || what.ReadTriggers? || what.ReadJobs? || what.ReadFails? || what.FireGroup? ==>
      s.runs[r].group.Some?
    ensures what.ReadGroup? ==>
      var g := s.runs[r].group.value;
      && g in s.groups && SomeMember(s, g)
      && (what.complete <==>
            forall j | InGroup(s, j, g) :: s.jobs[j].status != Pending && s.jobs[j].status != Queued)
    ensures what.ReadTriggers? ==>
      var g := s.runs[r].group.value; what.any <==> g in s.groups && s.groups[g].triggers != 0
    ensures what.ReadJobs? ==>
      var g := s.runs[r].group.value;
      what.done <==> forall j | InGroup(s, j, g) :: s.jobs[j].status in {Success, Failed, Timeout, Cancelled}
  {
    if what.ReadGroup? {
      var j :| j in s.jobs && s.jobs[j].group == s.runs[r].group;
      assert InGroup(s, j, s.runs[r].group.value);
    }
  }

  /** And every query gets one, unless the group has gone, which is an error. */
  lemma QueriesAreAnswered(s: State, r: nat)
    requires r in s.runs && s.runs[r].group.Some?
    ensures s.runs[r].control.pc == Triggering(AskGroup) && s.runs[r].group.value in s.groups
            && SomeMember(s, s.runs[r].group.value) ==>
      Enabled(s, Step(r, Trigger(ReadGroup(true)))) || Enabled(s, Step(r, Trigger(ReadGroup(false))))
    ensures s.runs[r].control.pc == Triggering(AskTriggers) ==>
      Enabled(s, Step(r, Trigger(ReadTriggers(true)))) || Enabled(s, Step(r, Trigger(ReadTriggers(false))))
    ensures s.runs[r].control.pc == Triggering(AskJobs) ==>
      Enabled(s, Step(r, Trigger(ReadJobs(true)))) || Enabled(s, Step(r, Trigger(ReadJobs(false))))
    ensures s.runs[r].control.pc in {Triggering(AskGroup), Triggering(AskTriggers), Triggering(AskJobs)} <==>
      Enabled(s, Step(r, Trigger(ReadFails)))
  {
    var g := s.runs[r].group.value;
    if SomeMember(s, g) {
      var j :| InGroup(s, j, g);
      assert j in s.jobs && s.jobs[j].group == s.runs[r].group;
    }
  }
}
