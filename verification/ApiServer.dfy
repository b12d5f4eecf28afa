/**
  The resolvers that submit and start jobs, as sequential programs over the tables and the broker.
  `farm` is the state of `BuildFarm` they are part of: each resolver performs the steps that its
  contract lists, and nothing else.
*/
module ApiServer {
  import opened Prelude
  import opened BuildFarm
  import FarmTheorems
  import Tasks

  datatype Error = BadManifest(why: Tasks.LoadError) | NotFound | BadJobList | BrokerFailed

  /** The messages that reach the broker, and those that do not. */
  function Sends(ids: seq<nat>): seq<Action> {
    seq(|ids|, i requires 0 <= i < |ids| => SendMessage(ids[i]))
  }

  function Losses(ids: seq<nat>): seq<Action> {
    seq(|ids|, i requires 0 <= i < |ids| => SendFails(ids[i]))
  }

  /** `ids` lists every element of `rows` once, in any order. */
  ghost predicate Lists(ids: seq<nat>, rows: set<nat>) {
    multiset(ids) == multiset(rows)
  }

  /** Each listed job is committed and still to be handed over, as often as it is listed. */
  ghost predicate Waits(ids: seq<nat>, outbox: multiset<nat>) {
    multiset(ids) <= outbox
  }

  function PendingRows(names: seq<string>): seq<Tasks.TaskRow> {
    seq(|names|, i requires 0 <= i < |names| => Tasks.TaskRow(names[i], Tasks.Pending))
  }

  lemma ExecNext(s: State, acts: seq<Action>, a: Action)
    requires Exec(s, acts).Some? && Enabled(Exec(s, acts).value, a)
    ensures Exec(s, acts + [a]) == Some(Apply(Exec(s, acts).value, a))
  {
    ExecAppend(s, acts, [a]);
    assert [a][1..] == [];
  }

  lemma ExecOne(s: State, a: Action)
    requires Enabled(s, a)
    ensures Exec(s, [a]) == Some(Apply(s, a))
  {
  }

  /** The steps of a submission of job `j`: with its message, sent or lost, or without one. */
  function SubmitSteps(user: nat, execute: bool, j: nat, ok: bool): seq<Action> {
    [Submit(user, execute)] + (if !execute then [] else if ok then Sends([j]) else Losses([j]))
  }

  lemma SubmitOnly(s: State, user: nat, j: nat)
    ensures Exec(s, SubmitSteps(user, false, j, true)) == Some(DoSubmit(s, user, false))
  {
    ExecOne(s, Submit(user, false));
    assert SubmitSteps(user, false, j, true) == [Submit(user, false)];
  }

  lemma SubmitAndSend(s: State, user: nat, ok: bool)
    ensures Exec(s, SubmitSteps(user, true, s.nextJob, ok)) ==
      Some(if ok then DoSend(DoSubmit(s, user, true), s.nextJob) else DoLose(DoSubmit(s, user, true), s.nextJob))
  {
    var j := s.nextJob;
    ExecOne(s, Submit(user, true));
    ExecNext(s, [Submit(user, true)], if ok then SendMessage(j) else SendFails(j));
    assert Sends([j]) == [SendMessage(j)] && Losses([j]) == [SendFails(j)];
  }

  /** One pending row per task, in the manifest's order. */
  ghost predicate ArePendingTasks(rows: seq<Tasks.TaskRow>, manifest: seq<map<string, string>>) {
    && |rows| == |manifest|
    && forall i | 0 <= i < |manifest| :: rows[i].name in manifest[i] && rows[i].status == Tasks.Pending
  }

  lemma PendingTasks(manifest: seq<map<string, string>>, shell: bool, names: seq<string>)
    requires Tasks.Loadable(manifest, shell, names)
    ensures ArePendingTasks(PendingRows(names), manifest)
  {
  }

  /** What Submit stores is what a build of the job asks for: the tasks' names, each once. */
  lemma SubmittedTasksCanBeBuilt(manifest: seq<map<string, string>>, shell: bool, names: seq<string>)
    requires Tasks.Loadable(manifest, shell, names)
    ensures Distinct(names) && names == Tasks.Names(PendingRows(names))
  {
    assert |Tasks.Names(PendingRows(names))| == |names|;
  }

  function MembersOf(jobs: map<nat, JobRow>, user: nat, g: nat): set<nat> {
    set j | j in jobs && jobs[j].group == Some(g) && jobs[j].owner == user
  }

  function QueuedIn(jobs: map<nat, JobRow>, rows: set<nat>): map<nat, JobRow> {
    map j | j in jobs :: if j in rows then jobs[j].(status := Queued) else jobs[j]
  }

  function JoinableIn(jobs: map<nat, JobRow>, user: nat, ids: seq<nat>): set<nat> {
    set j | j in jobs && j in ids && jobs[j].group.None? && jobs[j].status.Pending? && jobs[j].owner == user
  }

  function Joined(jobs: map<nat, JobRow>, rows: set<nat>, g: nat): map<nat, JobRow> {
    map j | j in jobs :: if j in rows then jobs[j].(group := Some(g)) else jobs[j]
  }

  /** The UPDATE's rows and result are those of the step. */
  lemma SameRows(s: State, user: nat, ids: seq<nat>, triggers: nat)
    ensures JoinableIn(s.jobs, user, ids) == Matched(s, user, ids)
    ensures Joined(s.jobs, JoinableIn(s.jobs, user, ids), s.nextGroup) == JoinGroup(s, user, ids, triggers).jobs
  {
  }

  lemma SameMembers(s: State, user: nat, ids: seq<nat>, triggers: nat, members: seq<nat>)
    requires Accepts(s, user, ids)
    requires Lists(members, MembersOf(JoinGroup(s, user, ids, triggers).jobs, user, s.nextGroup))
    ensures var s' := DoCreateGroup(s, user, ids, triggers, true);
      && Lists(members, Startable(s', user, s.nextGroup)) && Waits(members, s'.outbox)
      && s'.jobs == QueuedIn(JoinGroup(s, user, ids, triggers).jobs,
                             MembersOf(JoinGroup(s, user, ids, triggers).jobs, user, s.nextGroup))
  {
  }

  /** Group ids are serial: no row mentions one that was not handed out. */
  ghost predicate GroupIdsUsed(jobs: map<nat, JobRow>, nextGroup: nat) {
    forall j | j in jobs && jobs[j].group.Some? :: jobs[j].group.value < nextGroup
  }

  /** The listed rows are the new group's, with this status, and the others as they were. */
  ghost predicate Grouped(was: map<nat, JobRow>, now: map<nat, JobRow>, ids: seq<nat>, user: nat, g: nat, st: Status) {
    && now.Keys == was.Keys
    && forall j | j in was :: now[j] == if j in ids then JobRow(user, Some(g), st) else was[j]
  }

  /** The group's rows are queued, whatever they were, and the others as they were. */
  ghost predicate Requeued(was: map<nat, JobRow>, now: map<nat, JobRow>, user: nat, g: nat) {
    && now.Keys == was.Keys
    && forall j | j in was :: now[j] ==
         if was[j].group == Some(g) && was[j].owner == user then was[j].(status := Queued) else was[j]
  }

  lemma JoinedRows(jobs: map<nat, JobRow>, user: nat, ids: seq<nat>, g: nat)
    requires forall id | id in ids :: id in JoinableIn(jobs, user, ids)
    ensures Grouped(jobs, Joined(jobs, JoinableIn(jobs, user, ids), g), ids, user, g, Pending)
  {
  }

  lemma QueuedRows(jobs: map<nat, JobRow>, user: nat, ids: seq<nat>, g: nat, joined: map<nat, JobRow>)
    requires GroupIdsUsed(jobs, g) && Grouped(jobs, joined, ids, user, g, Pending)
    ensures Grouped(jobs, QueuedIn(joined, MembersOf(joined, user, g)), ids, user, g, Queued)
  {
  }

  lemma GroupIdsStay(was: map<nat, JobRow>, now: map<nat, JobRow>, ids: seq<nat>, user: nat, g: nat, st: Status)
    requires GroupIdsUsed(was, g) && Grouped(was, now, ids, user, g, st)
    ensures GroupIdsUsed(now, g + 1)
  {
  }

  lemma RequeuedRows(jobs: map<nat, JobRow>, user: nat, g: nat)
    ensures Requeued(jobs, QueuedIn(jobs, MembersOf(jobs, user, g)), user, g)
  {
  }

  /** Sending `sent` and losing `lost` leads from `start` to `s`. */
  ghost predicate Reached(start: State, sent: seq<nat>, lost: seq<nat>, s: State) {
    Exec(start, Sends(sent) + Losses(lost)) == Some(s)
  }

  lemma ReachedStart(s: State)
    ensures Reached(s, [], [], s)
  {
  }

  class Server {
    var jobs: map<nat, JobRow>
    var tasks: map<nat, seq<Tasks.TaskRow>>
    var groups: map<nat, GroupRow>
    var nextJob: nat
    var nextGroup: nat
    var queue: multiset<nat>
    ghost var farm: State

    ghost predicate Valid()
      reads this
    {
      && farm.jobs == jobs && farm.groups == groups && farm.queue == queue
      && farm.nextJob == nextJob && farm.nextGroup == nextGroup
      && GroupIdsUsed(jobs, nextGroup)
    }

    /** Hands one committed job to the broker, or fails to. */
    method SubmitJob(j: nat) returns (ok: bool)
      requires Valid() && farm.outbox[j] > 0
      modifies this`queue, this`farm
      ensures Valid()
      ensures farm == if ok then DoSend(old(farm), j) else DoLose(old(farm), j)
      ensures queue == if ok then old(queue) + multiset{j} else old(queue)
    {
      ok := *;
      if ok {
        queue := Add(queue, j);
        farm := DoSend(farm, j);
      } else {
        farm := DoLose(farm, j);
      }
    }

    /** The inserted task rows. */
    method TaskRows(names: seq<string>) returns (rows: seq<Tasks.TaskRow>)
      ensures rows == PendingRows(names)
    {
      rows := [];
      for i := 0 to |names|
        invariant rows == PendingRows(names[..i])
      {
        rows := rows + [Tasks.TaskRow(names[i], Tasks.Pending)];
      }
      assert names[..|names|] == names;
    }

    /** Submit's transaction: the job's row and its task rows. */
    method InsertJob(user: nat, names: seq<string>) returns (j: nat)
      requires Valid()
      modifies this`jobs, this`nextJob, this`tasks
      ensures j == old(nextJob) && nextJob == j + 1 && jobs == old(jobs)[j := JobRow(user, None, Pending)]
      ensures tasks == old(tasks)[j := PendingRows(names)] && GroupIdsUsed(jobs, nextGroup)
    {
      j := nextJob;
      jobs, nextJob := jobs[j := JobRow(user, None, Pending)], j + 1;
      var rows := TaskRows(names);
      tasks := tasks[j := rows];
    }

    /** One job row and one pending task row per task, and then, unless told otherwise, one message. */
    method Submit(user: nat, manifest: seq<map<string, string>>, shell: bool, execute: Option<bool>)
      returns (r: Result<nat, Error>, ghost names: seq<string>)
      requires Valid()
      modifies this
      ensures Valid()
      ensures (r.Err? && r.error.BadManifest?) <==> forall n :: !Tasks.Loadable(manifest, shell, n)
      ensures r.Err? && r.error.BadManifest? ==> farm == old(farm) && tasks == old(tasks)
      ensures !(r.Err? && r.error.BadManifest?) ==>
        var j, run := old(nextJob), execute.GetOr(true);
        && Tasks.Loadable(manifest, shell, names) && tasks == old(tasks)[j := PendingRows(names)]
        && (if r.Ok? then r.value == j else run && r.error.BrokerFailed?)
        && Exec(old(farm), SubmitSteps(user, run, j, r.Ok?)) == Some(farm)
        && jobs == old(jobs)[j := JobRow(user, None, Pending)] && nextJob == j + 1
        && queue == (if run && r.Ok? then old(queue) + multiset{j} else old(queue))
        && ArePendingTasks(tasks[j], manifest)
    {
      names := [];
      var loaded := Tasks.LoadTasks(manifest, shell);
      if loaded.Err? {
        return Err(BadManifest(loaded.error)), names;
      }
      names := loaded.value;
      PendingTasks(manifest, shell, names);
      ghost var before := farm;
      var j := InsertJob(user, loaded.value);
      var run := execute.GetOr(true);
      farm := DoSubmit(farm, user, run);
      if run {
        var ok := SubmitJob(j);
        SubmitAndSend(before, user, ok);
        if !ok {
          return Err(BrokerFailed), names;
        }
      } else {
        SubmitOnly(before, user, j);
      }
      return Ok(j), names;
    }

    /**
      Succeeds only for the owner of a pending job while the broker works; anything else, a failure of the
      broker included, changes nothing.
    */
    method Start(user: nat, j: nat, brokerWorks: bool) returns (r: Result<nat, Error>)
      requires Valid()
      modifies this
      ensures Valid()
      ensures r == if !(j in old(jobs) && old(jobs)[j].status.Pending? && old(jobs)[j].owner == user) then Err(NotFound)
                   else if brokerWorks then Ok(j) else Err(BrokerFailed)
      ensures r.Ok? ==> Exec(old(farm), [BuildFarm.Start(user, j)]) == Some(farm) && farm != old(farm)
      ensures r.Ok? ==>
        && jobs == old(jobs)[j := old(jobs)[j].(status := Queued)]
        && queue == old(queue) + multiset{j} && groups == old(groups)
      ensures r.Err? ==> farm == old(farm)
    {
      if j !in jobs || !jobs[j].status.Pending? || jobs[j].owner != user {
        return Err(NotFound);
      }
      if !brokerWorks {  // SubmitJob, still inside the transaction
        return Err(BrokerFailed);
      }
      jobs, queue := jobs[j := jobs[j].(status := Queued)], Add(queue, j);
      ExecOne(farm, BuildFarm.Start(user, j));
      farm := Apply(farm, BuildFarm.Start(user, j));
      assert farm.jobs[j] != old(farm).jobs[j];
      return Ok(j);
    }

    /** The second loop of StartJobGroupUnsafe, after its commit; it stops at the first failure. */
    method EnqueueAll(ids: seq<nat>) returns (ghost sent: seq<nat>, ghost lost: seq<nat>, ok: bool)
      requires Valid() && Waits(ids, farm.outbox)
      modifies this`queue, this`farm
      ensures Valid() && sent + lost == ids && (ok <==> lost == [])
      ensures Reached(old(farm), sent, lost, farm)
    {
      sent, lost, ok := [], [], true;
      SendingStarts(ids, farm);
      var i := 0;
      while i < |ids|
        invariant i <= |ids| && Valid() && ok && lost == []
        invariant Sending(ids, i, sent, old(farm), farm)
      {
        ghost var before := farm;
        SendingOn(ids, i, sent, old(farm), before);
        ok := SubmitJob(ids[i]);
        if !ok {
          lost := ids[i..];
          farm := LoseAll(before, lost);
          return;
        }
        sent := sent + [ids[i]];
        i := i + 1;
      }
      SendingEnds(ids, sent, old(farm), farm);
    }

    /** StartJobGroupUnsafe up to its commit: queues the group's jobs and lists them in some order. */
    method QueueMembers(user: nat, g: nat) returns (ids: seq<nat>)
      modifies this`jobs
      ensures Lists(ids, MembersOf(old(jobs), user, g))
      ensures jobs == QueuedIn(old(jobs), MembersOf(old(jobs), user, g))
    {
      var rows := MembersOf(jobs, user, g);
      jobs := QueuedIn(jobs, rows);
      var todo := rows;
      ids := [];
      while todo != {}
        invariant todo <= rows && Lists(ids, rows - todo)
        invariant jobs == QueuedIn(old(jobs), rows)
        decreases |todo|
      {
        var j :| j in todo;
        ListsNext(ids, rows, todo, j);
        ids := ids + [j];
        todo := todo - {j};
      }
      assert rows - todo == rows;
    }

    /** CreateGroup's transaction up to the group's start: all of it, or nothing when the row count is wrong. */
    method InsertGroup(user: nat, ids: seq<nat>, details: seq<string>) returns (accepted: bool, g: nat)
      requires Valid()
      modifies this`jobs, this`groups, this`nextGroup
      ensures accepted <==> Accepts(farm, user, ids)
      ensures accepted ==>
        var s1 := JoinGroup(farm, user, ids, |details|);
        g == old(nextGroup) && jobs == s1.jobs && groups == s1.groups && nextGroup == s1.nextGroup
      ensures accepted ==> jobs == Joined(old(jobs), JoinableIn(old(jobs), user, ids), g)
      ensures accepted ==> groups == old(groups)[g := GroupRow(user, |details|)] && nextGroup == g + 1
      ensures !accepted ==> Valid()
    {
      g := nextGroup;
      var rows := JoinableIn(jobs, user, ids);
      SameRows(farm, user, ids, |details|);
      if |rows| != |ids| {
        return false, g;  // the transaction is rolled back
      }
      nextGroup := g + 1;
      jobs := Joined(jobs, rows, g);
      var row := GroupRow(user, 0);
      for i := 0 to |details|
        invariant row == GroupRow(user, i)
      {
        row := row.(triggers := row.triggers + 1);
      }
      groups := groups[g := row];
      accepted := true;
    }

    /**
      Groups the listed jobs, which must be the caller's, pending, in no group and listed once each, or
      changes nothing.  Unless told otherwise it then queues them and hands each to the broker once.
    */
    method CreateGroup(user: nat, ids: seq<nat>, details: seq<string>, execute: Option<bool>)
      returns (r: Result<nat, Error>, ghost sent: seq<nat>, ghost lost: seq<nat>)
      requires Valid()
      modifies this
      ensures Valid()
      ensures (r.Err? && r.error.BadJobList?) <==>
        !(Distinct(ids) && forall id | id in ids :: Joinable(old(farm), user, id))
      ensures r.Err? && r.error.BadJobList? ==> farm == old(farm)
      ensures !(r.Err? && r.error.BadJobList?) ==>
        var run := execute.GetOr(true);
        var s1 := DoCreateGroup(old(farm), user, ids, |details|, run);
        && Reached(s1, sent, lost, farm) && (r.Ok? <==> lost == [])
        && Lists(sent + lost, if run then Startable(s1, user, old(nextGroup)) else {})
        && Grouped(old(jobs), jobs, ids, user, old(nextGroup), if run then Queued else Pending)
        && groups == old(groups)[old(nextGroup) := GroupRow(user, |details|)] && (r.Ok? ==> r.value == old(nextGroup))
        && queue == old(queue) + multiset(sent)
    {
      sent, lost := [], [];
      FarmTheorems.GroupAcceptance(farm, user, ids);
      var accepted, g := InsertGroup(user, ids, details);
      if !accepted {
        return Err(BadJobList), sent, lost;
      }
      ghost var joined := jobs;
      JoinedRows(old(jobs), user, ids, g);
      if execute == Some(false) {
        farm := DoCreateGroup(farm, user, ids, |details|, false);
        GroupIdsStay(old(jobs), jobs, ids, user, g, Pending);
        ReachedStart(farm);
        return Ok(g), sent, lost;
      }
      QueuedRows(old(jobs), user, ids, g, joined);
      var members := QueueMembers(user, g);
      SameMembers(farm, user, ids, |details|, members);
      farm := DoCreateGroup(farm, user, ids, |details|, true);
      GroupIdsStay(old(jobs), jobs, ids, user, g, Queued);
      ghost var start := farm;
      var ok;
      sent, lost, ok := EnqueueAll(members);
      ReachedQueue(start, sent, lost, farm);
      r := if ok then Ok(g) else Err(BrokerFailed);
    }

    /** Queues every member of the caller's group and hands each to the broker once, in some order. */
    method StartGroup(user: nat, g: nat) returns (r: Result<nat, Error>, ghost sent: seq<nat>, ghost lost: seq<nat>)
      requires Valid()
      modifies this
      ensures Valid()
      ensures (r.Err? && r.error.NotFound?) <==> !(g in old(groups) && old(groups)[g].owner == user)
      ensures r.Err? && r.error.NotFound? ==> farm == old(farm)
      ensures !(r.Err? && r.error.NotFound?) ==>
        && Reached(DoStartGroup(old(farm), user, g), sent, lost, farm)
        && Lists(sent + lost, Startable(old(farm), user, g)) && (r.Ok? <==> lost == [])
        && Requeued(old(jobs), jobs, user, g) && groups == old(groups) && (r.Ok? ==> r.value == g)
        && queue == old(queue) + multiset(sent)
    {
      sent, lost := [], [];
      if g !in groups || groups[g].owner != user {
        return Err(NotFound), sent, lost;
      }
      RequeuedRows(jobs, user, g);
      var ids := QueueMembers(user, g);
      farm := DoStartGroup(farm, user, g);
      assert Waits(ids, farm.outbox);
      ghost var start := farm;
      var ok;
      sent, lost, ok := EnqueueAll(ids);
      ReachedQueue(start, sent, lost, farm);
      r := if ok then Ok(g) else Err(BrokerFailed);
    }
  }

  lemma ListsNext(ids: seq<nat>, rows: set<nat>, todo: set<nat>, j: nat)
    requires todo <= rows && j in todo && Lists(ids, rows - todo)
    ensures Lists(ids + [j], rows - (todo - {j}))
  {
  }

  lemma Waiting(ids: seq<nat>, i: nat, outbox: multiset<nat>)
    requires i < |ids| && Waits(ids[i..], outbox)
    ensures outbox[ids[i]] > 0 && Waits(ids[i + 1..], Remove(outbox, ids[i]))
  {
    assert ids[i..] == [ids[i]] + ids[i + 1..];
    assert multiset(ids[i..])[ids[i]] > 0;
  }

  /** The first `i` jobs have been sent, the others wait. */
  ghost predicate Sending(ids: seq<nat>, i: nat, sent: seq<nat>, start: State, s: State) {
    i <= |ids| && sent == ids[..i] && Waits(ids[i..], s.outbox) && Reached(start, sent, [], s)
  }

  lemma SendingStarts(ids: seq<nat>, s: State)
    requires Waits(ids, s.outbox)
    ensures Sending(ids, 0, [], s, s)
  {
    ReachedStart(s);
    assert ids[0..] == ids;
  }

  /** The next job can be sent; if that fails, it and all after it are lost. */
  lemma SendingOn(ids: seq<nat>, i: nat, sent: seq<nat>, start: State, s: State)
    requires i < |ids| && Sending(ids, i, sent, start, s)
    ensures s.outbox[ids[i]] > 0 && sent + ids[i..] == ids && ids[i..] != []
    ensures Sending(ids, i + 1, sent + [ids[i]], start, DoSend(s, ids[i]))
    ensures Reached(start, sent, ids[i..], LoseAll(s, ids[i..]))
    ensures var s' := LoseAll(s, ids[i..]); s' == s.(outbox := s'.outbox, book := s'.book)
  {
    Waiting(ids, i, s.outbox);
    SendOne(start, sent, s, ids[i]);
    StopHere(start, sent, s, ids[i..]);
  }

  lemma SendingEnds(ids: seq<nat>, sent: seq<nat>, start: State, s: State)
    requires Sending(ids, |ids|, sent, start, s)
    ensures sent + [] == ids && Reached(start, sent, [], s)
  {
  }

  lemma SendOne(start: State, sent: seq<nat>, s: State, j: nat)
    requires Reached(start, sent, [], s) && s.outbox[j] > 0
    ensures Reached(start, sent + [j], [], DoSend(s, j))
  {
    ExecNext(start, Sends(sent) + Losses([]), SendMessage(j));
    assert Sends(sent + [j]) + Losses([]) == Sends(sent) + Losses([]) + [SendMessage(j)];
  }

  lemma {:induction false} SendsFillQueue(s: State, sent: seq<nat>)
    requires Exec(s, Sends(sent)).Some?
    ensures Exec(s, Sends(sent)).value.queue == s.queue + multiset(sent)
    decreases |sent|
  {
    if sent != [] {
      assert Sends(sent)[1..] == Sends(sent[1..]);
      SendsFillQueue(DoSend(s, sent[0]), sent[1..]);
      FirstThenRest(s.queue, sent);
    }
  }

  lemma FirstThenRest(queue: multiset<nat>, sent: seq<nat>)
    requires sent != []
    ensures Add(queue, sent[0]) + multiset(sent[1..]) == queue + multiset(sent)
  {
    assert sent == [sent[0]] + sent[1..];
  }

  lemma {:induction false} LossesKeepQueue(s: State, lost: seq<nat>)
    requires Exec(s, Losses(lost)).Some?
    ensures Exec(s, Losses(lost)).value.queue == s.queue
    decreases |lost|
  {
    if lost != [] {
      assert Losses(lost)[1..] == Losses(lost[1..]);
      LossesKeepQueue(DoLose(s, lost[0]), lost[1..]);
    }
  }

  /** What was sent is in the broker. */
  lemma ReachedQueue(start: State, sent: seq<nat>, lost: seq<nat>, s: State)
    requires Reached(start, sent, lost, s)
    ensures s.queue == start.queue + multiset(sent)
  {
    ExecSplit(start, Sends(sent), Losses(lost));
    SendsFillQueue(start, sent);
    LossesKeepQueue(Exec(start, Sends(sent)).value, lost);
  }

  lemma {:induction false} ExecSplit(s: State, first: seq<Action>, second: seq<Action>)
    requires Exec(s, first + second).Some?
    ensures Exec(s, first).Some? && Exec(s, first + second) == Exec(Exec(s, first).value, second)
    decreases |first|
  {
    if first == [] {
      assert first + second == second;
    } else {
      assert (first + second)[0] == first[0] && (first + second)[1..] == first[1..] + second;
      ExecSplit(Apply(s, first[0]), first[1..], second);
    }
  }

  /** None of the jobs after a failure is handed over. */
  function LoseAll(s: State, ids: seq<nat>): State
    decreases |ids|
  {
    if ids == [] then s else LoseAll(DoLose(s, ids[0]), ids[1..])
  }

  lemma LoseOne(start: State, sent: seq<nat>, lost: seq<nat>, s: State, j: nat)
    requires Reached(start, sent, lost, s) && s.outbox[j] > 0
    ensures Reached(start, sent, lost + [j], DoLose(s, j))
  {
    ExecNext(start, Sends(sent) + Losses(lost), SendFails(j));
    assert Sends(sent) + Losses(lost + [j]) == Sends(sent) + Losses(lost) + [SendFails(j)];
  }

  lemma {:induction false} LosingKeepsTables(s: State, ids: seq<nat>)
    ensures LoseAll(s, ids) == s.(outbox := LoseAll(s, ids).outbox, book := LoseAll(s, ids).book)
    decreases |ids|
  {
    if ids != [] {
      LosingKeepsTables(DoLose(s, ids[0]), ids[1..]);
    }
  }

  lemma {:induction false} LoseRest(start: State, sent: seq<nat>, lost: seq<nat>, s: State, rest: seq<nat>)
    requires Reached(start, sent, lost, s) && Waits(rest, s.outbox)
    ensures Reached(start, sent, lost + rest, LoseAll(s, rest))
    decreases |rest|
  {
    if rest == [] {
      assert lost + rest == lost;
    } else {
      Waiting(rest, 0, s.outbox);
      LoseOne(start, sent, lost, s, rest[0]);
      LoseRest(start, sent, lost + [rest[0]], DoLose(s, rest[0]), rest[1..]);
      assert lost + [rest[0]] + rest[1..] == lost + rest;
    }
  }

  lemma StopHere(start: State, sent: seq<nat>, s: State, rest: seq<nat>)
    requires Reached(start, sent, [], s) && Waits(rest, s.outbox)
    ensures Reached(start, sent, rest, LoseAll(s, rest))
    ensures LoseAll(s, rest) == s.(outbox := LoseAll(s, rest).outbox, book := LoseAll(s, rest).book)
  {
    LoseRest(start, sent, [], s, rest);
    LosingKeepsTables(s, rest);
    assert [] + rest == rest;
  }
}
