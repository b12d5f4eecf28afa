/**
  The task list of a job: what `LoadManifest` accepts, and what `RunTasks` writes to the task
  rows while it works through the list.
*/
module Tasks {
  import opened Prelude

  datatype TaskStatus = Pending | Running | Success | Failed | Skipped

  /** A row of the task table. */
  datatype TaskRow = TaskRow(name: string, status: TaskStatus)

  datatype LoadError = NoTasks | BadSchema | DuplicateTask(name: string) | InvalidName(name: string)

  // ---------------------------------------------------------------------------
  // Task names
  // ---------------------------------------------------------------------------

  predicate NameChar(c: char) {
    'a' <= c <= 'z' || '0' <= c <= '9' || c == '_' || c == '-'
  }

  predicate ValidName(name: string) {
    name != "" && forall c | c in name :: NameChar(c)
  }

  /** Lower-case letters, digits, dashes and underscores, by ASCII codes, and at least one. */
  predicate NameText(s: string) {
    s != "" && forall i | 0 <= i < |s| ::
      97 <= s[i] as int <= 122 || 48 <= s[i] as int <= 57 || s[i] as int in {45, 95}
  }

  lemma NameTextIs(s: string)
    ensures NameText(s) <==> s != "" && forall i | 0 <= i < |s| :: NameChar(s[i])
    ensures NameText(s) <==> ValidName(s)
  {
    if NameText(s) {
      forall i | 0 <= i < |s| ensures NameChar(s[i]) {
        assert 97 <= s[i] as int <= 122 || 48 <= s[i] as int <= 57 || s[i] as int in {45, 95};
      }
    }
  }

  /** The names of a list of one-entry mappings. */
  ghost predicate NamesOf(tasks: seq<map<string, string>>, names: seq<string>) {
    |names| == |tasks| && forall i | 0 <= i < |tasks| :: tasks[i].Keys == {names[i]}
  }

  lemma OneKey(task: map<string, string>, name: string)
    requires |task| == 1 && name in task
    ensures task.Keys == {name}
  {
    assert |task.Keys - {name}| == 0;
    assert task.Keys == {name} + (task.Keys - {name});
  }

  /** Only a manifest that asks for a shell may do without tasks. */
  ghost predicate Loadable(tasks: seq<map<string, string>>, shell: bool, names: seq<string>) {
    && (tasks != [] || shell)
    && NamesOf(tasks, names) && Distinct(names) && forall n | n in names :: ValidName(n)
  }

  lemma BadSchemaRejects(tasks: seq<map<string, string>>, i: nat, shell: bool, names: seq<string>)
    requires i < |tasks| && |tasks[i]| != 1
    ensures !Loadable(tasks, shell, names)
  {
  }

  lemma DuplicateRejects(tasks: seq<map<string, string>>, k: nat, i: nat, name: string, shell: bool,
      names: seq<string>)
    requires k < i < |tasks| && tasks[k].Keys == tasks[i].Keys == {name}
    ensures !Loadable(tasks, shell, names)
  {
  }

  lemma InvalidNameRejects(tasks: seq<map<string, string>>, i: nat, name: string, shell: bool,
      names: seq<string>)
    requires i < |tasks| && tasks[i].Keys == {name} && !ValidName(name)
    ensures !Loadable(tasks, shell, names)
  {
  }

  /**
    Accepts exactly the lists of one-entry mappings whose names are valid and pairwise distinct, and the
    empty list only along with a shell; a rejection names the first offending task.
  */
  method LoadTasks(tasks: seq<map<string, string>>, shell: bool) returns (r: Result<seq<string>, LoadError>)
    ensures r.Ok? ==> Loadable(tasks, shell, r.value)
    ensures r.Err? ==> forall names :: !Loadable(tasks, shell, names)
    ensures r == Err(NoTasks) <==> tasks == [] && !shell
  {
    if tasks == [] && !shell {
      return Err(NoTasks);
    }
    var taskset: set<string> := {};
    var names: seq<string> := [];
    var i := 0;
    while i < |tasks|
      invariant 0 <= i <= |tasks| && |names| == i
      invariant forall k | 0 <= k < i :: tasks[k].Keys == {names[k]}
      invariant Distinct(names)
      invariant forall n | n in names :: ValidName(n)
      invariant forall n :: n in taskset <==> n in names
    {
      if |tasks[i]| != 1 {
        forall all { BadSchemaRejects(tasks, i, shell, all); }
        return Err(BadSchema);
      }
      var name :| name in tasks[i];
      OneKey(tasks[i], name);
      if name in taskset {
        var k :| 0 <= k < |names| && names[k] == name;
        forall all { DuplicateRejects(tasks, k, i, name, shell, all); }
        return Err(DuplicateTask(name));
      }
      taskset := taskset + {name};
      if !ValidName(name) {
        forall all { InvalidNameRejects(tasks, i, name, shell, all); }
        return Err(InvalidName(name));
      }
      names := names + [name];
      i := i + 1;
    }
    return Ok(names);
  }

  // ---------------------------------------------------------------------------
  // The task rows during RunTasks
  // ---------------------------------------------------------------------------

  /** UPDATE task SET status = st WHERE name = name. */
  function Updated(rows: seq<TaskRow>, name: string, st: TaskStatus): seq<TaskRow> {
    seq(|rows|, i requires 0 <= i < |rows| => if rows[i].name == name then rows[i].(status := st) else rows[i])
  }

  function Names(rows: seq<TaskRow>): seq<string> {
    seq(|rows|, i requires 0 <= i < |rows| => rows[i].name)
  }

  /** The first `k` rows are `st` from `from` on. */
  predicate All(rows: seq<TaskRow>, from: nat, to: nat, st: TaskStatus) {
    from <= to <= |rows| && forall i | from <= i < to :: rows[i].status == st
  }

  /** The rows from `k` on are as they were. */
  predicate Untouched(rows: seq<TaskRow>, was: seq<TaskRow>, k: nat) {
    |rows| == |was| && forall i | k <= i < |rows| :: rows[i] == was[i]
  }

  /** Between two tasks, or while task `k` is running or has just failed. */
  ghost predicate AtTask(rows: seq<TaskRow>, was: seq<TaskRow>, k: nat) {
    && All(rows, 0, k, Success)
    && (Untouched(rows, was, k) ||
        (k < |rows| && (rows[k].status.Running? || rows[k].status.Failed?) && Untouched(rows, was, k + 1)))
  }

  /** After task `k - 1` completed the build early: the rows up to `m` have been skipped. */
  ghost predicate Skipping(rows: seq<TaskRow>, was: seq<TaskRow>, k: nat, m: nat) {
    0 < k && All(rows, 0, k, Success) && All(rows, k, m, Skipped) && Untouched(rows, was, m)
  }

  /** A shape the rows can have at some point of RunTasks. */
  ghost predicate Shape(rows: seq<TaskRow>, was: seq<TaskRow>) {
    || (exists k :: 0 <= k <= |rows| && AtTask(rows, was, k))
    || (exists k, m :: 0 < k <= m <= |rows| && Skipping(rows, was, k, m))
  }

  /** Every task succeeded, or a nonempty prefix did and the rest was skipped. */
  ghost predicate Finished(rows: seq<TaskRow>) {
    || All(rows, 0, |rows|, Success)
    || exists k :: 0 < k < |rows| && All(rows, 0, k, Success) && All(rows, k, |rows|, Skipped)
  }

  /** What the guest makes of the i-th task: whether it works, and whether it then completes the build. */
  datatype Guest = Guest(works: nat -> bool, completes: nat -> bool)
  {
    /** The tasks before the k-th work and do not complete the build. */
    predicate Reaches(k: nat) {
      forall i | 0 <= i < k :: works(i) && !completes(i)
    }
  }

  /** What the guest's behaviour makes of the rows. */
  ghost predicate Outcome(rows: seq<TaskRow>, was: seq<TaskRow>, guest: Guest, failed: bool) {
    && |rows| == |was|
    && (failed <==> exists k :: 0 <= k < |rows| && guest.Reaches(k) && !guest.works(k))
    && (forall k | 0 <= k < |rows| && guest.Reaches(k) && !guest.works(k) ::
          All(rows, 0, k, Success) && rows[k].status.Failed? && Untouched(rows, was, k + 1))
    && (forall k | 0 <= k < |rows| && guest.Reaches(k) && guest.works(k) && guest.completes(k) ::
          All(rows, 0, k + 1, Success) && All(rows, k + 1, |rows|, Skipped))
    && (guest.Reaches(|rows|) ==> All(rows, 0, |rows|, Success))
  }

  lemma StoppedAt(rows: seq<TaskRow>, was: seq<TaskRow>, guest: Guest, i: nat, failed: bool)
    requires |rows| == |was| && i < |rows| && guest.Reaches(i) && All(rows, 0, i, Success)
    requires if failed then !guest.works(i) && rows[i].status.Failed? && Untouched(rows, was, i + 1)
             else guest.works(i) && guest.completes(i) && rows[i].status.Success? && All(rows, i + 1, |rows|, Skipped)
    ensures Outcome(rows, was, guest, failed) && (!failed ==> Finished(rows))
  {
    assert forall k | 0 <= k < |rows| && guest.Reaches(k) && (!guest.works(k) || guest.completes(k)) :: k == i;
  }

  lemma NeverStopped(rows: seq<TaskRow>, was: seq<TaskRow>, guest: Guest)
    requires |rows| == |was| && guest.Reaches(|rows|) && All(rows, 0, |rows|, Success)
    ensures Outcome(rows, was, guest, false) && Finished(rows)
  {
  }

  /** From the `n`-th on, every state has a shape that the rows can have. */
  ghost predicate Shapes(states: seq<seq<TaskRow>>, n: nat, was: seq<TaskRow>)
    decreases |states|
  {
    |states| <= n ||
    (Shapes(states[..|states| - 1], n, was) && Shape(states[|states| - 1], was))
  }

  lemma {:induction false} ShapesAt(states: seq<seq<TaskRow>>, n: nat, was: seq<TaskRow>, i: nat)
    requires Shapes(states, n, was) && n <= i < |states|
    ensures Shape(states[i], was)
    decreases |states|
  {
    if i < |states| - 1 {
      ShapesAt(states[..|states| - 1], n, was, i);
    }
  }

  /** `now` goes on from `before` with states of such a shape. */
  ghost predicate Kept(before: seq<seq<TaskRow>>, now: seq<seq<TaskRow>>, was: seq<TaskRow>) {
    |before| <= |now| && now[..|before|] == before && Shapes(now, |before|, was)
  }

  lemma KeptOneMore(before: seq<seq<TaskRow>>, now: seq<seq<TaskRow>>, rows: seq<TaskRow>, was: seq<TaskRow>)
    requires Kept(before, now, was) && Shape(rows, was)
    ensures Kept(before, now + [rows], was)
  {
    assert (now + [rows])[..|now|] == now;
  }

  lemma {:induction false} KeptOn(before: seq<seq<TaskRow>>, mid: seq<seq<TaskRow>>, now: seq<seq<TaskRow>>,
      was: seq<TaskRow>)
    requires Kept(before, mid, was) && Kept(mid, now, was)
    ensures Kept(before, now, was)
    decreases |now|
  {
    if |now| > |mid| {
      KeptOn(before, mid, now[..|now| - 1], was);
      assert now == now[..|now| - 1] + [now[|now| - 1]];
      KeptOneMore(before, now[..|now| - 1], now[|now| - 1], was);
    } else {
      assert now[..|mid|] == now;
    }
  }

  class JobTasks {
    var rows: seq<TaskRow>               // the job's rows of the task table, in manifest order
    ghost var history: seq<seq<TaskRow>> // the rows after each write

    method SetTaskStatus(name: string, st: TaskStatus)
      modifies this
      ensures rows == Updated(old(rows), name, st)
      ensures forall i | 0 <= i < |rows| :: rows[i].name == old(rows)[i].name
      ensures forall i | 0 <= i < |rows| :: rows[i].status == if rows[i].name == name then st else old(rows)[i].status
      ensures history == old(history) + [rows]
    {
      rows := Updated(rows, name, st);
      history := history + [rows];
    }

    /**
      Runs the tasks in order; the guest decides which work and which mark the build as complete.  It
      fails exactly at the first task that does not work, before which none completed the build: then a
      prefix succeeded and the rest is untouched.  A completed build skips the rest.  Every state of the
      rows on the way has such a shape too.
    */
    method RunTasks(tasks: seq<string>, guest: Guest) returns (failed: bool)
      requires Distinct(tasks) && tasks == Names(rows)
      modifies this
      ensures Names(rows) == tasks
      ensures Outcome(rows, old(rows), guest, failed) && (!failed ==> Finished(rows))
      ensures Kept(old(history), history, old(rows))
    {
      ghost var was := rows;
      var i := 0;
      while i < |tasks|
        invariant 0 <= i <= |tasks| && Names(rows) == tasks && guest.Reaches(i)
        invariant All(rows, 0, i, Success) && Untouched(rows, was, i)
        invariant Kept(old(history), history, was)
      {
        ghost var before := history;
        var ok := RunTask(tasks, i, guest, was);
        KeptOn(old(history), before, history, was);
        if !ok {
          StoppedAt(rows, was, guest, i, true);
          return true;
        }
        if guest.completes(i) {
          before := history;
          SkipFrom(tasks, i + 1, was);
          KeptOn(old(history), before, history, was);
          StoppedAt(rows, was, guest, i, false);
          return false;
        }
        i := i + 1;
      }
      NeverStopped(rows, was, guest);
      return false;
    }

    /** One task: running, and then success or failed. */
    method RunTask(tasks: seq<string>, i: nat, guest: Guest, ghost was: seq<TaskRow>) returns (ok: bool)
      requires Distinct(tasks) && tasks == Names(rows) && i < |tasks|
      requires All(rows, 0, i, Success) && Untouched(rows, was, i)
      modifies this
      ensures ok == guest.works(i) && Names(rows) == tasks
      ensures All(rows, 0, i, Success) && Untouched(rows, was, i + 1)
      ensures rows[i].status == if ok then Success else Failed
      ensures Kept(old(history), history, was)
    {
      NameOnce(rows, tasks, i, Running);
      SetTaskStatus(tasks[i], Running);
      assert AtTask(rows, was, i);
      KeptOneMore(old(history), old(history), rows, was);
      ok := guest.works(i);  // log directory, log file, pty, and the task itself
      NameOnce(rows, tasks, i, if ok then Success else Failed);
      ghost var before := history;
      SetTaskStatus(tasks[i], if ok then Success else Failed);
      assert AtTask(rows, was, if ok then i + 1 else i);
      KeptOneMore(old(history), before, rows, was);
    }

    /** The inner loop of RunTasks: the tasks from `k` on are skipped. */
    method SkipFrom(tasks: seq<string>, k: nat, ghost was: seq<TaskRow>)
      requires Distinct(tasks) && tasks == Names(rows) && 0 < k <= |tasks|
      requires All(rows, 0, k, Success) && Untouched(rows, was, k)
      modifies this
      ensures Names(rows) == tasks && All(rows, 0, k, Success) && All(rows, k, |tasks|, Skipped)
      ensures Kept(old(history), history, was)
    {
      var i := k;
      while i < |tasks|
        invariant k <= i <= |tasks| && Names(rows) == tasks && Skipping(rows, was, k, i)
        invariant Kept(old(history), history, was)
      {
        ghost var before := history;
        NameOnce(rows, tasks, i, Skipped);
        SetTaskStatus(tasks[i], Skipped);
        i := i + 1;
        assert Skipping(rows, was, k, i);
        KeptOneMore(old(history), before, rows, was);
      }
    }
  }

  /** Distinct names: an update by name writes one row. */
  lemma NameOnce(rows: seq<TaskRow>, tasks: seq<string>, i: nat, st: TaskStatus)
    requires Distinct(tasks) && tasks == Names(rows) && i < |tasks|
    ensures Updated(rows, tasks[i], st) == rows[i := rows[i].(status := st)]
    ensures Names(Updated(rows, tasks[i], st)) == tasks
  {
    assert forall k | 0 <= k < |rows| :: rows[k].name == tasks[k];
  }

  /**
    What the shapes mean for a job that starts with every row pending: at any point at most one task
    is running or failed, everything before it succeeded, everything after it is pending, and skipped
    tasks follow a success and exclude a failure.
  */
  lemma ShapeOfFreshJob(rows: seq<TaskRow>, was: seq<TaskRow>)
    requires Shape(rows, was) && forall i | 0 <= i < |was| :: was[i].status.Pending?
    ensures forall i, k | 0 <= i < k < |rows| ::
      && (rows[i].status.Running? || rows[i].status.Failed? ==> rows[k].status.Pending?)
      && (rows[i].status.Pending? ==> rows[k].status.Pending?)
      && (rows[i].status.Skipped? ==> rows[k].status.Skipped? || rows[k].status.Pending?)
      && (rows[k].status.Success? || rows[k].status.Running? || rows[k].status.Failed? ==> rows[i].status.Success?)
    ensures (exists i :: 0 <= i < |rows| && rows[i].status.Skipped?) ==>
      rows[0].status.Success? && forall i | 0 <= i < |rows| :: !rows[i].status.Failed? && !rows[i].status.Running?
  {
  }
}
