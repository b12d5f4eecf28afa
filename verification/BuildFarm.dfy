/**
  The build lifecycle as a step system.

  Three kinds of actor write the same tables: the GraphQL resolvers, the runs of
  `RunBuild` on the workers, and the workers' HTTP handlers.  A step is one committed
  transaction, one SQL statement outside a transaction, or one section protected by
  `jobsMutex`; any actor may take the next step.
*/
module BuildFarm {
  import opened Prelude

  datatype Status = Pending | Queued | Running | Success | Failed | Timeout | Cancelled
  {
    predicate Terminal() {
      Success? || Failed? || Timeout? || Cancelled?
    }
  }

  datatype ContextError = Alive | Canceled | DeadlineExceeded

  // ---------------------------------------------------------------------------
  // One run of RunBuild, seen as an automaton over the events it performs
  // ---------------------------------------------------------------------------

  /** Where a run stands inside `ProcessTriggers`. */
  datatype Stage =
    | AskGroup      // about to run GetJobGroup
    | AskTriggers   // the group was complete; about to run GetTriggers
    | AskJobs       // there are triggers; about to run GetJobs
    | Fire          // every member was done; about to enter the group trigger loop
    | Own           // done with the group; about to look at the manifest's own triggers
    | Tail          // past the manifest's own triggers

  /** Where a run stands. */
  datatype Pc =
    | Fetched                // GetJob returned
    | Marked                 // "running" was written
    | Working                // the jobs map holds the run; the pipeline is under way
    | Leaving                // the jobs map entry was deleted
    | Released               // cancel() was called
    | Recovering             // a panic reached the deferred handler
    | Deciding(pick: Status) // the handler looked at the context and picked a status
    | Triggering(stage: Stage)
    | Closing
    | Finished
    | Crashed

  /** What a run does inside `ProcessTriggers`, with the answers it gets. */
  datatype TriggerEvent =
    | SkipGroup
    | ReadGroup(complete: bool)
    | ReadTriggers(any: bool)
    | ReadJobs(done: bool)
    | ReadFails
    | FireGroup
    | RunOwn
    | SkipOwn

  datatype Event =
    | MarkRunning
    | Register
    | Panic
    | Unregister
    | CancelContext
    | WriteSuccess
    | PickStatus(pick: Status)
    | WriteFailure
    | Trigger(what: TriggerEvent)
    | LeaveTriggers
    | Return
    | Crash

  /** Control state of a run: the program counter and what has happened on the way. */
  datatype Control = Control(
    pc: Pc,
    marked: bool,     // "running" has been written
    left: bool,       // the jobs map entry has been deleted by this run
    wrote: bool,      // a terminal status has been written
    late: bool,       // the recovery handler wrote one
    readError: bool)  // a group query failed

  const Fresh := Control(Fetched, false, false, false, false, false)

  /** The control state after event `e`, or None where the code cannot perform `e`. */
  function Next(c: Control, e: Event): Option<Control> {
    match e
    case MarkRunning =>
      if c.pc.Fetched? then Some(c.(pc := Marked, marked := true)) else None
    case Register =>
      if c.pc.Marked? then Some(c.(pc := Working)) else None
    case Panic =>
      if c.pc.Working? || (c.pc.Triggering? && !c.late) then Some(c.(pc := Recovering)) else None
    case Unregister =>
      if c.pc.Working? then Some(c.(pc := Leaving, left := true)) else None
    case CancelContext =>
      if c.pc.Leaving? then Some(c.(pc := Released)) else None
    case WriteSuccess =>
      if c.pc.Released? then Some(c.(pc := Triggering(AskGroup), wrote := true)) else None
    case PickStatus(pick) =>
      if c.pc.Recovering? && (pick.Failed? || pick.Timeout? || pick.Cancelled?)
      then Some(c.(pc := Deciding(pick))) else None
    case WriteFailure =>
      if c.pc.Deciding? then Some(c.(pc := Triggering(AskGroup), wrote := true, late := true)) else None
    case Trigger(what) =>
      if c.pc.Triggering? && NextStage(c.pc.stage, what).Some?
      then Some(c.(pc := Triggering(NextStage(c.pc.stage, what).value), readError := c.readError || what.ReadFails?))
      else None
    case LeaveTriggers =>
      if c.pc.Triggering? && c.pc.stage.Tail? then Some(c.(pc := Closing)) else None
    case Return =>
      if c.pc.Closing? then Some(c.(pc := Finished)) else None
    case Crash =>
      if c.pc.Finished? || c.pc.Crashed? then None else Some(c.(pc := Crashed))
  }

  /** The order of the queries; an unfinished group, or one without triggers, goes no further. */
  function NextStage(stage: Stage, what: TriggerEvent): Option<Stage> {
    match what
    case SkipGroup => if stage.AskGroup? then Some(Own) else None
    case ReadGroup(complete) => if stage.AskGroup? then Some(if complete then AskTriggers else Own) else None
    case ReadTriggers(any) => if stage.AskTriggers? then Some(if any then AskJobs else Own) else None
    case ReadJobs(done) => if stage.AskJobs? then Some(if done then Fire else Own) else None
    case ReadFails => if stage.AskGroup? || stage.AskTriggers? || stage.AskJobs? then Some(Own) else None
    case FireGroup => if stage.Fire? then Some(Own) else None
    case RunOwn | SkipOwn => if stage.Own? then Some(Tail) else None
  }

  /** `controls` are the control states that a run passes through as it performs `events`. */
  ghost predicate Follows(controls: seq<Control>, events: seq<Event>) {
    && |controls| == |events| + 1
    && controls[0] == Fresh
    && forall i {:trigger events[i]} | 0 <= i < |events| :: Next(controls[i], events[i]) == Some(controls[i + 1])
  }

  // ---------------------------------------------------------------------------
  // The shared state
  // ---------------------------------------------------------------------------

  datatype JobRow = JobRow(owner: nat, group: Option<nat>, status: Status)

  datatype GroupRow = GroupRow(owner: nat, triggers: nat)

  /** `group` is the job_group_id this run fetched together with its job. */
  datatype Run = Run(job: nat, host: nat, group: Option<nat>, control: Control, err: ContextError)

  /** History that no step reads: who asked for what, and what came of it. */
  datatype Book = Book(
    executed: set<nat>,          // jobs submitted with execute
    starts: multiset<nat>,       // successful Start calls, by job
    groupStarts: multiset<nat>,  // times StartJobGroupUnsafe ran, by group
    sent: multiset<nat>,         // messages that reached the broker, by job
    lost: multiset<nat>,         // SubmitJob calls that failed, by job
    taken: multiset<nat>,        // messages picked up by a worker, by job
    fired: multiset<nat>)        // times the group trigger loop was entered, by group

  datatype State = State(
    jobs: map<nat, JobRow>,
    groups: map<nat, GroupRow>,
    nextJob: nat,
    nextGroup: nat,
    nextRun: nat,
    outbox: multiset<nat>,         // committed, SubmitJob still to come
    queue: multiset<nat>,          // messages waiting in the broker
    live: map<(nat, nat), nat>,    // (host, job) to run: every worker's jobs map
    runs: map<nat, Run>,
    book: Book)

  const Empty := State(map[], map[], 0, 0, 0, multiset{}, multiset{}, map[], map[],
                       Book({}, multiset{}, multiset{}, multiset{}, multiset{}, multiset{}, multiset{}))

  function Add(m: multiset<nat>, x: nat): multiset<nat> {
    m[x := m[x] + 1]
  }

  function Remove(m: multiset<nat>, x: nat): multiset<nat> {
    m[x := if m[x] == 0 then 0 else m[x] - 1]
  }

  /** The jobs of a group. */
  function Members(s: State, g: nat): set<nat> {
    set j | j in s.jobs && s.jobs[j].group == Some(g)
  }

  predicate AllTerminal(s: State, g: nat) {
    forall j | j in s.jobs && s.jobs[j].group == Some(g) :: s.jobs[j].status.Terminal()
  }

  predicate AllPastQueue(s: State, g: nat) {
    forall j | j in s.jobs && s.jobs[j].group == Some(g) ::
      !s.jobs[j].status.Pending? && !s.jobs[j].status.Queued?
  }

  /** How often anything asked for job `j` to be built. */
  function Issued(s: State, j: nat): nat {
    s.book.sent[j] + s.book.lost[j] + s.outbox[j]
  }

  // ---------------------------------------------------------------------------
  // Steps
  // ---------------------------------------------------------------------------

  datatype Action =
    | Submit(user: nat, execute: bool)
    | Start(user: nat, job: nat)
    | CreateGroup(user: nat, ids: seq<nat>, triggers: nat, execute: bool)
    | StartGroup(user: nat, group: nat)
    | DeleteUser(user: nat)
    | SendMessage(job: nat)
    | SendFails(job: nat)
    | Take(job: nat, host: nat)
    | Step(run: nat, event: Event)
    | Deadline(run: nat)
    | HandleCancel(host: nat, job: nat)
    | HandleTerminate(host: nat, job: nat)

  /** The status that the recovery handler picks. */
  function Verdict(err: ContextError): Status {
    match err
    case DeadlineExceeded => Timeout
    case Canceled => Cancelled
    case Alive => Failed
  }

  /** What the shared state must look like for a run to perform event `e`. */
  predicate Observes(s: State, run: Run, e: Event) {
    match e
    case PickStatus(pick) =>
      pick == Verdict(run.err)
    case Trigger(what) => Answers(s, run.group, what)
    case _ => true
  }

  /** The answers that the tables give to a run of a job in `group`. */
  predicate Answers(s: State, group: Option<nat>, what: TriggerEvent) {
    match what
    case SkipGroup => group.None?
    case ReadGroup(complete) =>
      && group.Some? && group.value in s.groups
      && (exists j :: j in s.jobs && s.jobs[j].group == group)
      && complete == AllPastQueue(s, group.value)
    case ReadTriggers(any) =>
      group.Some? && any == (group.value in s.groups && s.groups[group.value].triggers > 0)
    case ReadJobs(done) => group.Some? && done == AllTerminal(s, group.value)
    case ReadFails => group.Some?
    case FireGroup => group.Some?
    case RunOwn | SkipOwn => true
  }

  predicate Enabled(s: State, a: Action) {
    match a
    case SendMessage(j) => s.outbox[j] > 0
    case SendFails(j) => s.outbox[j] > 0
    case Take(j, _) => s.queue[j] > 0
    case Step(r, e) =>
      r in s.runs && Next(s.runs[r].control, e).Some? && Observes(s, s.runs[r], e)
    case Deadline(r) => r in s.runs
    case _ => true
  }

  /** UPDATE job SET status: no row, no effect. */
  function SetStatus(jobs: map<nat, JobRow>, j: nat, st: Status): map<nat, JobRow> {
    if j in jobs then jobs[j := jobs[j].(status := st)] else jobs
  }

  function Interrupt(err: ContextError, why: ContextError): ContextError {
    if err.Alive? then why else err
  }

  predicate Joinable(s: State, user: nat, j: nat) {
    j in s.jobs && s.jobs[j].owner == user && s.jobs[j].status.Pending? && s.jobs[j].group.None?
  }

  /** The rows that CreateGroup's UPDATE matches. */
  function Matched(s: State, user: nat, ids: seq<nat>): set<nat> {
    set j | j in s.jobs && j in ids && Joinable(s, user, j)
  }

  /** CreateGroup's transaction commits when every listed id accounts for one updated row. */
  predicate Accepts(s: State, user: nat, ids: seq<nat>) {
    |Matched(s, user, ids)| == |ids|
  }

  function Startable(s: State, user: nat, g: nat): set<nat> {
    set j | j in s.jobs && s.jobs[j].group == Some(g) && s.jobs[j].owner == user
  }

  /** StartJobGroupUnsafe: every member is queued again, whatever its status. */
  function StartMembers(s: State, user: nat, g: nat): State {
    var members := Startable(s, user, g);
    s.(jobs := map j | j in s.jobs :: if j in members then s.jobs[j].(status := Queued) else s.jobs[j],
       outbox := s.outbox + multiset(members),
       book := s.book.(groupStarts := Add(s.book.groupStarts, g)))
  }

  function JoinGroup(s: State, user: nat, ids: seq<nat>, triggers: nat): State {
    var g := s.nextGroup;
    var rows := Matched(s, user, ids);
    s.(groups := s.groups[g := GroupRow(user, triggers)],
       nextGroup := g + 1,
       jobs := map j | j in s.jobs :: if j in rows then s.jobs[j].(group := Some(g)) else s.jobs[j])
  }

  /** The foreign keys' ON DELETE clauses applied to one user. */
  function WithoutUser(s: State, user: nat): State {
    var dropped := set g | g in s.groups && s.groups[g].owner == user;
    s.(groups := map g | g in s.groups && s.groups[g].owner != user :: s.groups[g],
       jobs := map j | j in s.jobs && s.jobs[j].owner != user ::
         if s.jobs[j].group.Some? && s.jobs[j].group.value in dropped
         then s.jobs[j].(group := None) else s.jobs[j])
  }

  // What event `e` of a run does: to its job's status, to the worker's jobs map, to its own
  // context, and to the count of group firings.

  function StatusAfter(st: Status, c: Control, e: Event): Status {
    match e
    case MarkRunning => Running
    case WriteSuccess => Success
    case WriteFailure => if c.pc.Deciding? then c.pc.pick else st
    case _ => st
  }

  function LiveAfter(s: State, r: nat, e: Event): map<(nat, nat), nat>
    requires r in s.runs
  {
    match e
    case Register => s.live[(s.runs[r].host, s.runs[r].job) := r]
    case Unregister => s.live - {(s.runs[r].host, s.runs[r].job)}
    case _ => s.live
  }

  function ErrAfter(err: ContextError, e: Event): ContextError {
    if e.CancelContext? then Interrupt(err, Canceled) else err
  }

  function FiredAfter(fired: multiset<nat>, group: Option<nat>, e: Event): multiset<nat> {
    if e == Trigger(FireGroup) && group.Some? then Add(fired, group.value) else fired
  }

  function DoSubmit(s: State, user: nat, execute: bool): State {
    var j := s.nextJob;
    var s1 := s.(jobs := s.jobs[j := JobRow(user, None, Pending)], nextJob := j + 1);
    if execute
    then s1.(outbox := Add(s.outbox, j), book := s.book.(executed := s.book.executed + {j}))
    else s1
  }

  function DoStart(s: State, user: nat, j: nat): State {
    if j in s.jobs && s.jobs[j].status.Pending? && s.jobs[j].owner == user
    then s.(jobs := s.jobs[j := s.jobs[j].(status := Queued)],
            queue := Add(s.queue, j),
            book := s.book.(starts := Add(s.book.starts, j), sent := Add(s.book.sent, j)))
    else s
  }

  function DoCreateGroup(s: State, user: nat, ids: seq<nat>, triggers: nat, execute: bool): State {
    if Accepts(s, user, ids) then
      var s1 := JoinGroup(s, user, ids, triggers);
      if execute then StartMembers(s1, user, s.nextGroup) else s1
    else s
  }

  function DoStartGroup(s: State, user: nat, g: nat): State {
    if g in s.groups && s.groups[g].owner == user then StartMembers(s, user, g) else s
  }

  function DoSend(s: State, j: nat): State {
    s.(outbox := Remove(s.outbox, j), queue := Add(s.queue, j), book := s.book.(sent := Add(s.book.sent, j)))
  }

  function DoLose(s: State, j: nat): State {
    s.(outbox := Remove(s.outbox, j), book := s.book.(lost := Add(s.book.lost, j)))
  }

  /** A worker takes the message and GetJob fetches the row; without a row the run panics at once. */
  function DoTake(s: State, j: nat, host: nat): State {
    var s1 := s.(queue := Remove(s.queue, j), book := s.book.(taken := Add(s.book.taken, j)));
    if j in s.jobs
    then s1.(runs := s.runs[s.nextRun := Run(j, host, s.jobs[j].group, Fresh, Alive)], nextRun := s.nextRun + 1)
    else s1
  }

  function DoStep(s: State, r: nat, e: Event): State
    requires r in s.runs && Next(s.runs[r].control, e).Some?
  {
    var run := s.runs[r];
    s.(jobs := if run.job in s.jobs
               then SetStatus(s.jobs, run.job, StatusAfter(s.jobs[run.job].status, run.control, e)) else s.jobs,
       live := LiveAfter(s, r, e),
       runs := s.runs[r := run.(control := Next(run.control, e).value, err := ErrAfter(run.err, e))],
       book := s.book.(fired := FiredAfter(s.book.fired, run.group, e)))
  }

  function Interrupted(s: State, r: nat, why: ContextError): State
    requires r in s.runs
  {
    s.(runs := s.runs[r := s.runs[r].(err := Interrupt(s.runs[r].err, why))])
  }

  function DoCancel(s: State, host: nat, j: nat): State {
    if (host, j) in s.live && s.live[(host, j)] in s.runs
    then Interrupted(s, s.live[(host, j)], Canceled).(jobs := SetStatus(s.jobs, j, Cancelled)) else s
  }

  function DoTerminate(s: State, host: nat, j: nat): State {
    if (host, j) in s.live && s.live[(host, j)] in s.runs
    then Interrupted(s, s.live[(host, j)], Canceled) else s
  }

  function Apply(s: State, a: Action): State
    requires Enabled(s, a)
  {
    match a
    case Submit(user, execute) => DoSubmit(s, user, execute)
    case Start(user, j) => DoStart(s, user, j)
    case CreateGroup(user, ids, triggers, execute) => DoCreateGroup(s, user, ids, triggers, execute)
    case StartGroup(user, g) => DoStartGroup(s, user, g)
    case DeleteUser(user) => WithoutUser(s, user)
    case SendMessage(j) => DoSend(s, j)
    case SendFails(j) => DoLose(s, j)
    case Take(j, host) => DoTake(s, j, host)
    case Step(r, e) => DoStep(s, r, e)
    case Deadline(r) => Interrupted(s, r, DeadlineExceeded)
    case HandleCancel(host, j) => DoCancel(s, host, j)
    case HandleTerminate(host, j) => DoTerminate(s, host, j)
  }

  /** The state after a schedule, or None when some step of it was not possible. */
  function Exec(s: State, acts: seq<Action>): Option<State>
    decreases |acts|
  {
    if acts == [] then Some(s)
    else if Enabled(s, acts[0]) then Exec(Apply(s, acts[0]), acts[1..])
    else None
  }

  lemma {:induction false} ExecAppend(s: State, first: seq<Action>, second: seq<Action>)
    requires Exec(s, first).Some?
    ensures Exec(s, first + second) == Exec(Exec(s, first).value, second)
    decreases |first|
  {
    if first == [] {
      assert first + second == second;
    } else {
      assert (first + second)[0] == first[0];
      assert (first + second)[1..] == first[1..] + second;
      ExecAppend(Apply(s, first[0]), first[1..], second);
    }
  }
}
