/**
  `RunBuild` as the sequential program it is.  Whatever may fail or panic does so at the
  environment's whim; whatever it chooses, the run is a path of the automaton in `BuildFarm`
  and leaves no machine behind.
*/
module Worker {
  import opened Prelude
  import opened BuildFarm
  import opened FarmInvariants
  import opened FarmStatus
  import opened FarmSteps
  import Tasks

  /** What happens to the build machine. */
  datatype MachineEvent = Boot | Standby | Cleanup

  /** How everything that may fail turns out for one build. */
  datatype Luck = Luck(
    begins: bool,            // SetRunner and SetStatus("running") work
    stages: nat -> bool,     // log, Boot, Settle, seven steps before the tasks, and UploadArtifacts
    guest: Tasks.Guest,      // what the guest makes of the tasks
    ended: ContextError,     // what the recovery handler finds ctx.Context to be
    actions: nat -> bool)    // the actions of the manifest's own triggers
  {
    predicate StagesWork(n: nat) {
      forall i | 0 <= i < n :: stages(i)
    }

    /** The pipeline comes to its end. */
    ghost predicate Builds(n: nat) {
      StagesWork(11) && !exists k :: 0 <= k < n && guest.Reaches(k) && !guest.works(k)
    }

    predicate ActionsWork(n: nat) {
      forall i | 0 <= i < n :: actions(i)
    }
  }

  /** How ProcessTriggers leaves the group after its last step there: without a log it panics where it would log. */
  predicate GroupEnds(last: Event, logOpen: bool, panicked: bool) {
    match last
    case Trigger(ReadFails) => panicked <==> !logOpen
    case Trigger(ReadJobs(done)) => panicked == done && (done ==> !logOpen)
    case Trigger(FireGroup) => logOpen
    case _ => !panicked
  }

  class JobContext {
    const groupId: Option<nat>  // the job's group, as GetJob read it
    const ownTriggers: nat      // triggers in the manifest
    const names: seq<string>    // the manifest's task names
    const tasks: Tasks.JobTasks // the job's task rows
    const luck: Luck
    var settled: bool
    var processedTriggers: bool
    var logOpen: bool           // ctx.Log is not nil
    var cleanup: bool           // the teardown function of a booted machine is set
    ghost var machine: seq<MachineEvent>
    ghost var ownRuns: nat            // times the manifest's trigger loop was entered
    ghost var log: seq<Event>         // every step of the run so far
    ghost var controls: seq<Control>  // the control states in between
    ghost var control: Control        // the last of them

    constructor (groupId: Option<nat>, ownTriggers: nat, names: seq<string>, tasks: Tasks.JobTasks, luck: Luck)
      ensures Unstarted()
      ensures this.groupId == groupId && this.ownTriggers == ownTriggers
      ensures this.names == names && this.tasks == tasks && this.luck == luck
    {
      this.groupId, this.ownTriggers, this.names, this.tasks := groupId, ownTriggers, names, tasks;
      this.luck := luck;
      settled, processedTriggers, logOpen, cleanup := false, false, false, false;
      machine, ownRuns, control, controls, log := [], 0, Fresh, [Fresh], [];
    }

    ghost predicate Unstarted()
      reads this
    {
      && log == [] && controls == [Fresh] && control == Fresh && machine == [] && ownRuns == 0
      && !settled && !processedTriggers && !logOpen && !cleanup
    }

    ghost predicate Traced()
      reads this`log, this`controls, this`control
    {
      Follows(controls, log) && controls[|log|] == control
    }

    ghost predicate Valid()
      reads this
    {
      && Traced()
      && machine == (if cleanup then [Boot] else [])
      && ownRuns == (if processedTriggers && logOpen then 1 else 0) && (processedTriggers ==> ownTriggers > 0)
      && (settled ==> logOpen && cleanup)
    }

    /** Performs one step of the automaton. */
    ghost method Emit(e: Event)
      requires Traced() && Next(control, e).Some?
      modifies this`control, this`controls, this`log
      ensures Traced() && control == Next(old(control), e).value && log == old(log) + [e]
    {
      control := Next(control, e).value;
      controls := controls + [control];
      log := log + [e];
    }

    /** Performs one step inside `ProcessTriggers`. */
    ghost method Ask(what: TriggerEvent, to: Stage)
      requires Traced() && control.pc.Triggering? && NextStage(control.pc.stage, what) == Some(to)
      modifies this`control, this`controls, this`log
      ensures Traced() && control.pc == Triggering(to) && log == old(log) + [Trigger(what)]
      ensures control.late == old(control.late) && control.left == old(control.left)
    {
      Emit(Trigger(what));
    }

    /** What has happened to the machine by the end of a build that failed or not. */
    ghost function MachineHistory(failed: bool, crashed: bool): seq<MachineEvent>
      reads this
    {
      if !cleanup then []
      else if crashed then [Boot]
      else if failed && settled then [Boot, Standby, Cleanup]
      else [Boot, Cleanup]
    }

    ghost predicate Built()
      reads this, tasks
    {
      Tasks.Finished(tasks.rows)
    }

    /**
      One build.  However it goes, what it did is a path of the automaton; the success branch, where
      the jobs map entry is deleted and "success" is written, is taken only over finished tasks; a
      machine that was booted is torn down exactly once, after any standby; and the manifest's own
      triggers are entered at most once.
    */
    method RunBuild() returns (crashed: bool)
      requires Unstarted()
      requires Distinct(names) && names == Tasks.Names(tasks.rows)
      modifies this, tasks
      ensures Follows(controls, log) && controls[|log|].pc == if crashed then Crashed else Finished
      ensures machine == MachineHistory(controls[|log|].late, crashed)
      ensures controls[|log|].left <==> luck.begins && luck.Builds(|names|)
      ensures controls[|log|].left ==> Built()
      ensures ownRuns <= 1 && (!crashed ==> ownRuns == if ownTriggers > 0 then 1 else 0)
    {
      if !luck.begins {  // the handler is not installed yet
        Emit(Crash);
        return true;
      }
      Emit(MarkRunning);
      Emit(Register);
      var panicked := Pipeline();
      if !panicked {
        panicked := Succeed();
      }
      crashed := Deferred(panicked);
    }

    /** The deferred function: recovery if there was a panic, then the teardown. */
    method Deferred(panicked: bool) returns (crashed: bool)
      requires Valid()
      requires if panicked
               then (control.pc.Working? || control.pc.Triggering?) && !control.late
               else control.pc.Closing? && !control.late && (ownTriggers > 0 ==> processedTriggers)
      requires processedTriggers ==> logOpen
      modifies this
      ensures Traced() && control.pc == (if crashed then Crashed else Finished)
      ensures control.left == old(control.left) && control.late == panicked
      ensures machine == MachineHistory(panicked, crashed)
      ensures ownRuns <= 1 && (!crashed ==> ownRuns == if ownTriggers > 0 then 1 else 0)
    {
      crashed := false;
      if panicked {
        Emit(Panic);
        crashed := Recover();
      }
      if !crashed {
        if cleanup {
          machine := machine + [Cleanup];
        }
        Emit(Return);
      }
    }

    /** From the log directory to the end of the task list; true when some stage panicked. */
    method Pipeline() returns (panicked: bool)
      requires Valid() && control.pc.Working? && !cleanup && !settled && !logOpen && !processedTriggers
      requires Distinct(names) && names == Tasks.Names(tasks.rows)
      modifies this`logOpen, this`settled, this`cleanup, this`machine, tasks
      ensures Valid()
      ensures panicked <==> !luck.Builds(|names|)
      ensures logOpen == luck.StagesWork(1) && cleanup == luck.StagesWork(2) && settled == luck.StagesWork(3)
      ensures !luck.StagesWork(10) ==> tasks.rows == old(tasks.rows)
      ensures luck.StagesWork(10) ==> exists failed :: Tasks.Outcome(tasks.rows, old(tasks.rows), luck.guest, failed)
      ensures !panicked ==> Built()
    {
      if !luck.stages(0) {  // MkdirAll and Create
        return true;
      }
      logOpen := true;
      if !luck.stages(1) {  // Boot assigns a port and starts the machine
        return true;
      }
      machine, cleanup := machine + [Boot], true;
      if !luck.stages(2) {  // Settle
        return true;
      }
      settled := true;
      for i := 3 to 10  // SendTasks, SendEnv, SendSecrets, SendHutConfig, ConfigureRepos, InstallPackages, CloneRepos
        invariant luck.StagesWork(i)
      {
        if !luck.stages(i) {
          return true;
        }
      }
      ghost var was := tasks.rows;
      panicked := tasks.RunTasks(names, luck.guest);
      assert Tasks.Outcome(tasks.rows, was, luck.guest, panicked);
      assert |was| == |names|;
      if panicked {
        return;
      }
      panicked := !luck.stages(10);  // UploadArtifacts
    }

    /** The normal end of a build; true when a trigger panicked. */
    method Succeed() returns (panicked: bool)
      requires Valid() && control.pc.Working? && !control.late && logOpen && !processedTriggers
      modifies this
      ensures Valid()
      ensures if panicked then control.pc.Triggering?
              else control.pc.Closing? && (ownTriggers > 0 ==> processedTriggers)
      ensures !control.late && control.left && logOpen && cleanup == old(cleanup) && settled == old(settled)
      ensures old(log) + [Unregister, CancelContext, WriteSuccess] <= log
    {
      Emit(Unregister);
      Emit(CancelContext);
      Emit(WriteSuccess);
      panicked := ProcessTriggers();
    }

    /** The handler looks at the context and writes what it found. */
    method WriteVerdict()
      requires Valid() && control.pc.Recovering?
      modifies this`control, this`controls, this`log
      ensures Valid() && control.pc == Triggering(AskGroup) && control.late && control.left == old(control.left)
      ensures log == old(log) + [PickStatus(match luck.ended
                                            case DeadlineExceeded => Timeout
                                            case Canceled => Cancelled
                                            case Alive => Failed), WriteFailure]
    {
      Emit(PickStatus(Verdict(luck.ended)));
      Emit(WriteFailure);
    }

    /** The recovery handler; true when it panicked itself. */
    method Recover() returns (crashed: bool)
      requires Valid() && control.pc.Recovering? && (processedTriggers ==> logOpen)
      modifies this
      ensures Traced() && control.pc == (if crashed then Crashed else Closing)
      ensures control.left == old(control.left) && control.late
      ensures machine == if cleanup then (if !crashed && settled then [Boot, Standby] else [Boot]) else []
      ensures cleanup == old(cleanup) && settled == old(settled)
      ensures ownRuns <= 1 && (!crashed ==> ownRuns == if ownTriggers > 0 then 1 else 0)
    {
      WriteVerdict();
      crashed := ProcessTriggers();
      if crashed {
        Emit(Crash);
      } else if settled {
        machine := machine + [Standby];
      }
    }

    /** Group triggers on every call, the manifest's own triggers at most once per run. */
    method ProcessTriggers() returns (panicked: bool)
      requires Valid() && control.pc == Triggering(AskGroup) && (processedTriggers ==> logOpen)
      modifies this`control, this`controls, this`log, this`processedTriggers, this`ownRuns
      ensures Valid() && control.late == old(control.late) && control.left == old(control.left)
      ensures if panicked then control.pc.Triggering? else control.pc.Closing?
      ensures !panicked && ownTriggers > 0 ==> processedTriggers && logOpen
      ensures old(log) < log && (log[|old(log)|] == Trigger(SkipGroup) <==> groupId.None?)
    {
      panicked := ProcessGroup();
      if panicked {
        return;
      }
      panicked := ProcessOwnTriggers();
      if !panicked {
        Emit(LeaveTriggers);
      }
    }

    /** The group's turn, if the job has one. */
    method ProcessGroup() returns (panicked: bool)
      requires Traced() && control.pc == Triggering(AskGroup)
      modifies this`control, this`controls, this`log
      ensures Traced() && control.late == old(control.late) && control.left == old(control.left)
      ensures if panicked then control.pc.Triggering? else control.pc == Triggering(Own)
      ensures old(log) < log && (log[|old(log)|] == Trigger(SkipGroup) <==> groupId.None?)
    {
      if groupId.Some? {
        panicked := ProcessJobGroupTriggers();
      } else {
        Ask(SkipGroup, Own);
        panicked := false;
      }
    }

    method ProcessOwnTriggers() returns (panicked: bool)
      requires Valid() && control.pc == Triggering(Own) && (processedTriggers ==> logOpen)
      modifies this`control, this`controls, this`log, this`processedTriggers, this`ownRuns
      ensures Valid() && control.late == old(control.late) && control.left == old(control.left)
      ensures if panicked then control.pc.Triggering? else control.pc == Triggering(Tail)
      ensures processedTriggers == (old(processedTriggers) || ownTriggers > 0)
      ensures panicked <==>
        ownTriggers > 0 && !old(processedTriggers) && (!logOpen || !luck.ActionsWork(ownTriggers))
      ensures old(log) <= log
    {
      if ownTriggers == 0 || processedTriggers {
        Ask(SkipOwn, Tail);
        return false;
      }
      processedTriggers := true;
      if !logOpen {
        return true;  // ctx.Log is nil
      }
      ownRuns := ownRuns + 1;
      Ask(RunOwn, Tail);
      for i := 0 to ownTriggers
        invariant luck.ActionsWork(i)
      {
        if !luck.actions(i) {
          return true;
        }
      }
      return false;
    }

    method ProcessJobGroupTriggers() returns (panicked: bool)
      requires Traced() && control.pc == Triggering(AskGroup)
      modifies this`control, this`controls, this`log
      ensures Traced() && control.late == old(control.late) && control.left == old(control.left)
      ensures if panicked then control.pc.Triggering? else control.pc == Triggering(Own)
      ensures old(log) < log && log[|old(log)|] != Trigger(SkipGroup)
      ensures GroupEnds(log[|log| - 1], logOpen, panicked)
    {
      var failed: bool := *;
      if failed {
        Ask(ReadFails, Own);
        return !logOpen;
      }
      var complete: bool := *;
      Ask(ReadGroup(complete), if complete then AskTriggers else Own);
      if !complete {
        return false;
      }
      failed := *;
      if failed {
        Ask(ReadFails, Own);
        return !logOpen;
      }
      var any: bool := *;
      Ask(ReadTriggers(any), if any then AskJobs else Own);
      if !any {
        return false;
      }
      failed := *;
      if failed {
        Ask(ReadFails, Own);
        return !logOpen;
      }
      var done: bool := *;
      Ask(ReadJobs(done), if done then Fire else Own);
      if !done {
        return false;
      }
      if !logOpen {
        return true;
      }
      Ask(FireGroup, Own);
      panicked := *;  // some trigger's action
    }
  }

  // ---------------------------------------------------------------------------
  // What holds of every path of the automaton
  // ---------------------------------------------------------------------------

  function Count(events: seq<Event>, e: Event): nat {
    if events == [] then 0
    else Count(events[..|events| - 1], e) + (if events[|events| - 1] == e then 1 else 0)
  }

  /** Firings so far: none before the first status write, one per pass through the triggers. */
  function FiringBound(c: Control): nat {
    var earlier := if c.late && c.left then 1 else 0;
    if !c.wrote then 0
    else if c.pc.Triggering? && !c.pc.stage.Own? && !c.pc.stage.Tail? then earlier
    else earlier + 1
  }

  lemma FiringBoundGrows(c: Control, e: Event)
    requires Next(c, e).Some? && ControlOk(c)
    ensures ControlOk(Next(c, e).value)
    ensures FiringBound(c) + (if e == Trigger(FireGroup) then 1 else 0) <= FiringBound(Next(c, e).value)
  {
  }

  lemma OneEventMore(controls: seq<Control>, events: seq<Event>)
    requires Follows(controls, events) && events != []
    ensures var n := |events| - 1;
      Follows(controls[..n + 1], events[..n]) && Next(controls[n], events[n]) == Some(controls[n + 1])
  {
  }

  lemma CountOneMore(events: seq<Event>, e: Event)
    requires events != []
    ensures Count(events, e)
         == Count(events[..|events| - 1], e) + (if events[|events| - 1] == e then 1 else 0)
  {
  }

  lemma {:induction false} PathIsControlOk(controls: seq<Control>, events: seq<Event>)
    requires Follows(controls, events)
    ensures ControlOk(controls[|events|])
  {
    if events != [] {
      OneEventMore(controls, events);
      PathIsControlOk(controls[..|events|], events[..|events| - 1]);
      FiringBoundGrows(controls[|events| - 1], events[|events| - 1]);
    }
  }

  lemma {:induction false} FiringsWithinBound(controls: seq<Control>, events: seq<Event>)
    requires Follows(controls, events)
    ensures Count(events, Trigger(FireGroup)) <= FiringBound(controls[|events|])
  {
    if events != [] {
      var n := |events| - 1;
      OneEventMore(controls, events);
      CountOneMore(events, Trigger(FireGroup));
      FiringsWithinBound(controls[..n + 1], events[..n]);
      PathIsControlOk(controls[..n + 1], events[..n]);
      FiringBoundGrows(controls[n], events[n]);
    }
  }

  /** What the control state says about the writes before it. */
  ghost predicate WritesCounted(c: Control, events: seq<Event>) {
    && Count(events, WriteSuccess) <= (if c.wrote then 1 else 0)
    && Count(events, WriteFailure) == (if c.late then 1 else 0)
  }

  lemma {:induction false} WritesAreCounted(controls: seq<Control>, events: seq<Event>)
    requires Follows(controls, events)
    ensures WritesCounted(controls[|events|], events)
  {
    if events != [] {
      var n := |events| - 1;
      OneEventMore(controls, events);
      CountOneMore(events, WriteSuccess);
      CountOneMore(events, WriteFailure);
      WritesAreCounted(controls[..n + 1], events[..n]);
      PathIsControlOk(controls[..n + 1], events[..n]);
    }
  }

  /**
    Along every path a run enters its group's trigger loop at most twice, and twice only when it
    wrote "success", then panicked, and its recovery handler asked the group again.
  */
  lemma FiringsPerRun(controls: seq<Control>, events: seq<Event>)
    requires Follows(controls, events)
    ensures ControlOk(controls[|events|])
    ensures Count(events, Trigger(FireGroup)) <= FiringBound(controls[|events|]) <= 2
    ensures Count(events, WriteSuccess) <= (if controls[|events|].wrote then 1 else 0)
    ensures Count(events, WriteFailure) == (if controls[|events|].late then 1 else 0)
  {
    PathIsControlOk(controls, events);
    FiringsWithinBound(controls, events);
    WritesAreCounted(controls, events);
  }

  lemma {:induction false} LeftStays(controls: seq<Control>, events: seq<Event>, k: nat)
    requires Follows(controls, events) && k <= |events| && controls[k].left
    ensures controls[|events|].left
    decreases |events| - k
  {
    if k < |events| {
      assert Next(controls[k], events[k]) == Some(controls[k + 1]);
      LeftStays(controls, events, k + 1);
    }
  }

  lemma SuccessfulRunLeft(states: seq<State>, acts: seq<Action>, i: nat, r: nat)
    requires Behaviour(states, acts) && i < |states| && r in states[i].runs
    requires states[i].runs[r].job in states[i].jobs && Issued(states[i], states[i].runs[r].job) <= 1
    requires states[i].jobs[states[i].runs[r].job].status.Success?
    ensures states[i].runs[r].control.left
  {
    InvAlong(states, acts, i);
    assert StatusFits(states[i].jobs[states[i].runs[r].job].status, states[i].runs[r].control);
  }

  /**
    A job issued once whose status is "success" was built: if its run is somewhere on the path of a build
    with RunBuild's contract, the build leaves the job's tasks finished.
  */
  lemma SuccessfulJobIsBuilt(states: seq<State>, acts: seq<Action>, i: nat, r: nat, ctx: JobContext, k: nat)
    requires Behaviour(states, acts) && i < |states| && r in states[i].runs
    requires states[i].runs[r].job in states[i].jobs && Issued(states[i], states[i].runs[r].job) <= 1
    requires states[i].jobs[states[i].runs[r].job].status.Success?
    requires Follows(ctx.controls, ctx.log) && (ctx.controls[|ctx.log|].left ==> ctx.Built())
    requires k <= |ctx.log| && ctx.controls[k] == states[i].runs[r].control
    ensures Tasks.Finished(ctx.tasks.rows)
  {
    SuccessfulRunLeft(states, acts, i, r);
    LeftStays(ctx.controls, ctx.log, k);
  }
}
