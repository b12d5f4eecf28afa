# A verified model of builds.sr.ht

builds.sr.ht takes build manifests through a GraphQL API, hands jobs to workers through a broker, runs
them on virtual machines, and tells people about the outcome. This project models the parts of it where
several things happen at once, or where text is written by one program and read by another, and proves
what one would want to rely on.

**The build lifecycle** (`BuildFarm`, `FarmInvariants`, `FarmStatus`, `FarmTriggers`, `FarmSteps`,
`FarmTheorems`, `FarmHistory`, `FarmRuns`, `FarmVerdicts`, `FarmRefire`, `FarmFirings`, `FarmGaps`,
`GroupConditions`, `GroupGaps`). Resolvers,
workers' runs and workers' HTTP handlers write the same tables. One committed transaction, one SQL
statement outside a transaction, or one section under `jobsMutex` is one step; any actor takes the next
step, any number of times. A run of `RunBuild` is an automaton over the events it performs. The theorems
are about every behaviour from the empty database on; where the code falls short of the obvious claim,
`FarmGaps` or `GroupGaps` has a schedule that shows it; the exact conditions are in `FarmTheorems`,
`FarmRefire` (how often a group's triggers can run), `FarmFirings` (when they do run) and
`GroupConditions` (which of them run). `Worker` has `RunBuild` itself, with its deferred handler, as a
program whose every path is a path of that automaton; `ApiServer` has the resolvers as programs that
perform exactly the steps their contracts list, and `HttpServer` has the workers' handlers likewise;
`Tasks` has the task list and its rows; `Standby` has the wait after a failure; `GroupReport` has the
completeness aggregate, the status fold, the trigger conditions and the tag fold.

**Text** (`Text`, `Numbers`, `Shell`, `BuildEnv`, `SourceSpec`). The environment script is proved against
a small shell: quoting as in sections 2.2.2, 2.2.3 and 2.3 of the POSIX.1-2017 Shell Command Language,
`export NAME=word`, and bash's array assignment. Source specifications are proved to be read back as
they were written.

**Algorithms over data** (`Cursor`, `Worklist`, `Ports` and `Sessions` in `Allocators.dfy`, `Migration`,
`Manifest`). Keyset pagination over a changing table, the OpenBSD bootstrap's dependency worklist, the
port and session counters under interleaving, the user-id migration, and manifest normalisation.

Where the code and its comments or messages differ, the model follows the code: starting a group queues
its finished jobs again, a group's `success` triggers look at the finishing job, the Python side's task
name pattern lets a final newline through, and an API job submitted with `execute` keeps its `pending` row.

`dafny verify dfyconfig.toml` checks everything.

## Model

| member | source | states |
|---|---|---|
| FarmSteps.ApplyKeepsInv | worker/context.go:97-221 | every step of a resolver, run, handler or deadline keeps one invariant over rows, messages, runs and jobs maps |
| FarmSteps.InvAlong | worker/context.go:97-221 | so every state of every behaviour has it |
| FarmInvariants.ApplyKeepsWf | api/graph/schema.resolvers.go:313-605 | its first half: serial ids, ownership of grouped jobs, the ledger of requests and messages, one run per message taken |
| FarmTheorems.GroupAcceptance | api/graph/schema.resolvers.go:476-495 | the affected-row count equals the number of listed ids exactly when the ids are distinct and every job is the caller's, pending and ungrouped |
| FarmTheorems.CreateGroupAllOrNothing | api/graph/schema.resolvers.go:457-579 | an accepted list becomes one new group of exactly these jobs, queued or not as asked; a rejected one changes nothing |
| FarmTheorems.GroupIsForLife | schema.sql:55-77 | a job never leaves or changes its group or its owner, and its group exists and has the same owner |
| FarmTheorems.DeletionIsLocal | schema.sql:55-77 | the cascade of an account's deletion removes that account's jobs and groups and changes no other row |
| FarmTheorems.StartSucceedsOnce | api/graph/schema.resolvers.go:368-407 | of two Start calls for a job, in any behaviour, at most one changes anything |
| FarmTheorems.EveryMessageWasAskedFor | api/graph/resolver.go:84-142 | messages sent, lost or outstanding for a job are as many as its execute flag, its at most one Start and its group's starts; a pending row has had neither of the last two |
| FarmHistory.MessagesAreAccounted | api/graph/resolver.go:135-139 | in every behaviour, what waits in the broker and what workers took is exactly what the loops after commits and successful Start calls sent; only failed sends are lost; a group's triggers ran once per entry of its runs into the loop |
| FarmHistory.StartSendsOneMessage | api/graph/schema.resolvers.go:368-407 | a Start call that changes anything queues the caller's pending job and puts exactly one message about it into the broker |
| FarmHistory.OutboxIsAccounted | api/graph/resolver.go:84-142 | a submission with execute, a grouping with execute and a group's start owe each of their jobs one message, and only sending or losing it pays |
| FarmHistory.RowsAreAccounted | worker/context.go:97-221 | a row's status is written by its owner's start, a start of its group, the run's own writes and a cancel request that finds the run, each with its own value, and by nothing else |
| FarmHistory.TablesAreAccounted | schema.sql:55-77 | job rows come by submission, pending and in no group; jobs and groups go with their owner's account |
| FarmHistory.EntriesAreAccounted | worker/context.go:154-213 | a worker's map gets an entry by a run's registration and loses it by the normal end of a run of that job there |
| FarmHistory.RunsBeginWithMessages | worker/context.go:97-100 | a run begins exactly when a worker takes a message about a job that is there, and knows the group that the job has then |
| FarmHistory.EndedRunsRest | worker/context.go:113-139 | a run may crash at any time before its end and does nothing after it |
| FarmHistory.QueriesTellTheTruth | worker/database.go:128-149 | what a run learns about its group is what the tables say: a member, completeness, triggers, and every member finished |
| FarmHistory.QueriesAreAnswered | worker/triggers.go:316-340 | each query can be answered, or fail, and the first only fails when the group has gone |
| FarmTheorems.FirstVerdictIsFinal | worker/context.go:113-139 | once a run of a job issued once has written a terminal status, the job's status is terminal for good |
| FarmTheorems.SuccessIsLostOnlyToRecovery | worker/context.go:211-217 | a success is lost exactly when the run's own recovery handler writes after it; no cancel or terminate request can undo it |
| FarmTheorems.NoSuccessAfterRecovery | worker/context.go:113-123 | after the recovery handler's write the job is never a success again |
| FarmVerdicts.VerdictIsRight | worker/context.go:113-123 | in every behaviour, the recovery handler's status is timeout exactly when the first thing that ended the run's context before the handler looked was its deadline, cancelled exactly when that was a cancel or terminate request or the run's own cancel, and failed exactly when nothing had ended it |
| FarmVerdicts.PickBeforeWrite | worker/context.go:115-123 | every such write rests on one look at the context by the same run, with no step of the run in between |
| FarmVerdicts.ErrorAlong | worker/context.go:142 | the error of a run's context names what ended it first, whatever came later |
| FarmGaps.ExpiredBuildTimesOut | worker/context.go:117-118 | a schedule whose build gives up after its deadline and is stored as timed out |
| FarmTheorems.NoEarlyFiring | worker/triggers.go:316-391 | when a group's trigger loop is entered, every member issued once has a terminal status |
| FarmFirings.FinishedGroupFiresExactlyForAskers | worker/triggers.go:316-391 | while a group stays finished, up to a state in which all runs that fetched their jobs as its members have returned without query errors, and without panics inside ProcessTriggers, its triggers run exactly when at the start some such run had still to write its status or to ask |
| FarmFirings.AskerHasFired | worker/triggers.go:316-391 | one half of it for each run, and with panics: a run that has still to ask about a finished group has it fired by the time it has come through, unless it crashes or a query fails |
| FarmFirings.ReturnedRunIsOld | worker/context.go:97-113 | a run of the group that has returned while the group stayed finished was there when it became so: the first write of a later one would have reopened it |
| FarmFirings.SettledGroupHasFired | worker/database.go:130-149 | so in every behaviour, once every run of a group's members has returned without query errors, each having fetched its job as a member, some run found the group finished and entered the trigger loop |
| FarmTheorems.StartedMembersKnow | worker/context.go:97-100 | the runs of jobs that were not submitted with execute always fetched them as members |
| FarmTheorems.UnknownGroupNeverFires | worker/triggers.go:83-86 | a group whose triggers ever ran is known to some run, in every behaviour |
| FarmTheorems.FinishedIsTakenBackExactlyBy | api/graph/resolver.go:90-96 | a step takes a finished job back exactly when it is a start of the job's group by its owner or another run's first write |
| FarmGaps.GroupCanFireTwice | worker/triggers.go:336-391 | a schedule in which two jobs, each built once without any failure, run their group's triggers twice |
| FarmRefire.FurtherFirings | worker/triggers.go:316-391 | a finished group whose members were issued once each can run its triggers n more times, whatever workers, handlers, deadlines and messages do, exactly when n is at most the firings its runs have left: one per run that has yet to write or to ask, and with panics inside ProcessTriggers one more per run whose recovery is still to come |
| FarmRefire.FiresTwiceExactlyWhenTwoAreToAsk | worker/context.go:113-124 | without such panics it can run them twice exactly when at least two of its uncrashed runs have yet to write their status or to go through the group's queries |
| FarmRefire.GoGoesDown | worker/triggers.go:316-391 | no schedule runs them more often than that |
| FarmRefire.FireOnce | worker/triggers.go:316-391 | each such run can be brought to fire |
| FarmGaps.CancelOverwritesFailure | worker/http.go:69-82 | a schedule in which a cancel request turns a failed job's status into cancelled |
| FarmGaps.CancelOverwritesExactlyFailures | worker/http.go:69-82 | after the verdict of a run of a job issued once, a cancel request overwrites it exactly when the run failed in the pipeline, and else changes nothing |
| FarmGaps.TriggerPanicCancelsSuccess | worker/context.go:113-124 | a schedule in which a trigger's panic turns the job's own success into cancelled |
| FarmGaps.ExecutedJobsGroupNeverFires | api/graph/schema.resolvers.go:357-361 | a schedule in which an executed job, still pending in its row, joins a group that its run does not know of: the group ends settled, with all jobs successful and its trigger never run |
| FarmGaps.MovesAreSteps | worker/context.go:97-221 | a schedule of runs of grouped jobs is a schedule of the whole system with the same statuses and firings |
| Worker.JobContext.RunBuild | worker/context.go:97-221 | every build is a path of the automaton; a booted machine is torn down exactly once unless the handler itself panics, after standby exactly when the build failed on a settled machine; the success branch is taken only over finished tasks; the manifest's triggers, if there are any, are entered exactly once unless the handler panics |
| Worker.JobContext.Deferred | worker/context.go:113-139 | the same for the deferred function: what it does to the machine and to the manifest's triggers is fixed by what had happened |
| Worker.JobContext.Pipeline | worker/context.go:154-209 | a machine is recorded as booted exactly from Boot on, and without a panic it has settled and every task is finished |
| Worker.JobContext.Succeed | worker/context.go:211-220 | the map entry goes, the context is cancelled and success is written, in this order, before any trigger; it ends past the triggers, or inside them when one panicked |
| Worker.JobContext.Recover | worker/context.go:114-134 | one verdict, then the triggers, then standby exactly when the machine had settled and no trigger panicked |
| Worker.JobContext.WriteVerdict | worker/context.go:117-123 | timeout for an exceeded deadline, cancelled for another end of the context, failed for none |
| Worker.JobContext.ProcessTriggers | worker/triggers.go:83-127 | the group is asked on every call exactly when the job has one; after a call without a panic the manifest's own loop has been entered, if it has triggers |
| Worker.JobContext.ProcessOwnTriggers | worker/triggers.go:88-127 | the manifest's loop is entered at most once over all calls, even when a trigger panics, because the debounce flag is set first |
| Worker.JobContext.ProcessJobGroupTriggers | worker/triggers.go:316-391 | a path through the three queries, each of which may end the matter, and then the trigger loop |
| Worker.FiringsPerRun | worker/context.go:113-124 | on every path a run enters its group's trigger loop at most twice, and writes success and a failure at most once each |
| Worker.SuccessfulJobIsBuilt | worker/context.go:199-216 | a job issued once whose status is success had its tasks finished by the build of its run |
| Standby.Run.Select | worker/context.go:231-237 | the wait ends at the earlier of the timer and the context's end |
| Standby.Run.Standby | worker/context.go:223-248 | standby never outlasts the context, ends after ten minutes when nobody claims the run, and at the deadline or the context's end when somebody does |
| Tasks.LoadTasks | api/graph/manifest.go:67-90 | accepts exactly the lists of one-entry mappings with valid, pairwise distinct names, an empty list only along with a shell, and returns those names |
| Tasks.NameTextIs | api/graph/manifest.go:11-89 | the names that the Go side accepts, by ASCII codes |
| Tasks.JobTasks.RunTask | worker/tasks.go:565-607 | one task becomes running and then a success or a failure, and no other row changes |
| Tasks.JobTasks.SkipFrom | worker/tasks.go:594-602 | the remaining tasks are skipped |
| Tasks.JobTasks.RunTasks | worker/tasks.go:552-610 | an error exactly when some task fails before the build is marked as complete, which leaves a successful prefix, that failure and the rest untouched; else all tasks succeed, or a nonempty prefix does and the rest is skipped; every state in between has such a shape |
| Tasks.ShapesAt | worker/tasks.go:552-610 | each state that RunTasks leaves the rows in, at any write, has such a shape |
| Tasks.NameOnce | worker/database.go:172-179 | with distinct names an update by name changes one row |
| Tasks.ShapeOfFreshJob | worker/tasks.go:552-610 | from pending rows: at most one task running or failed, success before it, pending after it, and skipped tasks exclude a failure |
| HttpServer.Worker.Stop | worker/http.go:61-82 | a cancel or terminate request is one step of the system: it ends the context of the run in the worker's map, cancel also writes the status, and without an entry it answers 404 and changes nothing |
| HttpServer.Worker.Claim | worker/http.go:83-98 | a claim marks the run in the worker's map and nothing else |
| ApiServer.Server.Submit | api/graph/schema.resolvers.go:267-365 | one pending job row and one pending task row per task in manifest order, then one message unless told otherwise; a manifest with a bad task list, or with none and no shell, changes nothing |
| ApiServer.SubmittedTasksCanBeBuilt | api/graph/schema.resolvers.go:332-345 | the rows it stores have the names of the manifest's tasks, each once, as a build of the job requires |
| ApiServer.Server.Start | api/graph/schema.resolvers.go:368-407 | queues the caller's pending job and puts one message about it into the broker, or changes nothing |
| ApiServer.Server.CreateGroup | api/graph/schema.resolvers.go:457-579 | the listed rows become the new group's, queued or pending, and no others change; then they are handed over once each, in some order, up to a broker failure; a bad list changes nothing |
| ApiServer.Server.StartGroup | api/graph/schema.resolvers.go:582-605 | every row of the caller's group is queued, whatever it was, and no other changes; then the same |
| ApiServer.Server.InsertGroup | api/graph/schema.resolvers.go:461-495 | inserts the group and claims the listed jobs, or leaves everything as it was when the row count is not the number of ids |
| ApiServer.Server.QueueMembers | api/graph/resolver.go:90-133 | queues the group's jobs and collects each once |
| ApiServer.Server.EnqueueAll | api/graph/resolver.go:135-139 | hands the jobs over in order and stops at the first failure; the rest stays unsent |
| ApiServer.Server.SubmitJob | api/graph/resolver.go:135-139 | one message in the broker, or none |
| GroupReport.FoldStatus | worker/triggers.go:341-351 | done exactly when no member is running, queued or pending; success exactly when all are; else the last status that is not success |
| GroupReport.CompleteMeansPastQueue | worker/database.go:130-149 | the aggregate's sum equals the count exactly when no member is pending or queued |
| GroupReport.RunGroupTriggers | worker/triggers.go:358-391 | runs email triggers only, in order: every always trigger, a failure trigger exactly when the group's status is failed, timeout or cancelled, a success trigger exactly when the finishing job's is success |
| GroupReport.FailureConditionIsRight | worker/triggers.go:371-373 | over finished statuses the failure condition holds of their fold exactly when one of them is no success |
| GroupConditions.GroupTriggersRunRightly | worker/triggers.go:336-391 | in every behaviour, failure triggers run exactly when some row that GetJobs had read was no success, success triggers exactly when the last verdict of the run itself was success, and always triggers always |
| GroupConditions.ReadBeforeFire | worker/triggers.go:336-356 | every entry into the trigger loop follows a read by the same run that found all members finished, with no step of the run in between |
| GroupConditions.OwnAlong | worker/database.go:161-170 | the status that a run keeps in memory, which a cancel request sets too, is success exactly when it wrote success and its recovery handler has written nothing |
| GroupConditions.SuccessTriggersFitReading | worker/triggers.go:374-376 | for the run of a job issued once, success triggers are right about the rows read, except exactly when its own verdict was success and some row read was not |
| GroupConditions.SuccessBetween | worker/context.go:113-124 | the row of a job issued once is a success later exactly when it was one or its run wrote success in between, and no recovery handler wrote in between |
| GroupConditions.FailureTriggersFitEntry | worker/triggers.go:336-373 | the failure triggers, decided by the rows read, fit the rows at the entry into the loop exactly when: some row read was no success and some member that is still there has not turned into a success since, or all were and no recovery handler of a remaining member has written since |
| GroupGaps.FailureTriggersOfSuccessfulGroup | worker/http.go:69-82 | a behaviour in which a cancelled job's run goes on to write success between another run's read and its trigger loop: failure triggers run for a group of successes |
| GroupGaps.NoFailureTriggersOfCancelledGroup | worker/context.go:113-124 | the other way round: a trigger's panic cancels a member in between, and no failure trigger runs |
| GroupGaps.SuccessTriggersOfFailedGroup | worker/triggers.go:371-376 | a behaviour in which a group's success and failure triggers both run |
| GroupGaps.ScheduleIsBehaviour | worker/context.go:97-221 | every schedule that can be carried out from the empty database is a behaviour |
| GroupReport.CutAtDifference | worker/triggers.go:424-429 | the tag is cut at the first entry that differs |
| GroupReport.FoldTags | worker/triggers.go:418-440 | the longest prefix of the first tagged job's list that agrees with every other list where both have an entry |
| GroupReport.WhenTagsAreCommon | worker/triggers.go:418-440 | the fold is a common prefix of the tag lists exactly when no list is shorter than the first and ends before some list disagrees with the first, and then it is the longest one |
| GroupReport.TagsOfEqualLength | worker/triggers.go:418-440 | so lists of the same length give their longest common prefix |
| GroupReport.SharedTagIsSubject | worker/triggers.go:418-449 | jobs that share one tag string give the email exactly this string |
| GroupReport.ShorterListKeepsTag | worker/triggers.go:424-429 | a later, shorter list does not cut the tag |
| BuildEnv.ShquoteRoundTrip | worker/tasks.go:165-176 | the shell reads a quoted string back exactly, whatever it contains |
| Shell.OrdinaryCharacters | worker/tasks.go:165-174 | the characters that are left unquoted, by ASCII codes; none of them means anything to the shell |
| Shell.NamesStartWithNoDigit | worker/tasks.go:212-214 | the names that an export can assign |
| Numbers.DecimalRoundTrip | worker/tasks.go:226-227 | a printed integer is read back and has only digits and a sign |
| Numbers.DecimalNotation | worker/tasks.go:226-227 | decimal notation: the tens, then the ones, with a minus sign before a negative number |
| Numbers.DigitCodes | worker/tasks.go:226-227 | and the digits by ASCII codes |
| BuildEnv.ReadRenderedItems | worker/tasks.go:230-241 | an array of protected strings is read back element by element |
| BuildEnv.FreeIsSafe | worker/tasks.go:234-235 | strings without double quote, backslash, dollar and backtick are protected |
| BuildEnv.ArrayRoundTrip | worker/tasks.go:230-241 | the modelled shell reads the strings of a list back exactly when double quotes protect all of every one: what one unescaped element breaks no other mends |
| BuildEnv.ListComesBackWhole | worker/tasks.go:230-241 | a list item that is no string is lost, so the list comes back whole exactly when all its items are protected strings |
| BuildEnv.ArrayElementRoundTrip | worker/tasks.go:234-235 | in particular a list of one string |
| BuildEnv.NeverCatchesUp | worker/tasks.go:230-241 | a shell that has read past the start of an element never gets back to the list as it was meant |
| BuildEnv.LineRoundTrip | worker/tasks.go:212-245 | each line assigns exactly the value it was made from, whatever follows it |
| BuildEnv.EvalScript | worker/tasks.go:212-245 | the lines of any list of variables, in its order, leave exactly their values |
| BuildEnv.LinesHaveShape | worker/tasks.go:212-245 | whatever the modelled shell reads as a line is an export or an array assignment of a valid name, up to a newline |
| BuildEnv.AppendLines | worker/tasks.go:212-248 | one line per variable, in some order; an unknown type is refused |
| BuildEnv.OwnVariablesWin | worker/tasks.go:203-245 | CI_NAME, JOB_ID, JOB_URL and, if there is one, the token have the build's values; every other variable has the manifest's value: null as the empty string, flags as true and false, numbers in decimal, lists as their strings |
| BuildEnv.SendEnv | worker/tasks.go:191-250 | for valid names and protected list strings, sourcing the script leaves exactly the manifest's environment with the build's own variables, in whatever order the map was walked; of a list only the strings, as items of other types are lost |
| SourceSpec.SourceRoundTrip | worker/tasks.go:466-498 | reading a printed `dir::scm+url#ref` gives back exactly its parts, the URL as String writes it; it comes back as printed exactly when it had no `scm+` or String keeps what follows its scheme |
| SourceSpec.NameIsBaseOfUrl | worker/tasks.go:474 | without a directory the name is the URL's base name exactly when the URL has a slash before it |
| SourceSpec.EmptyDirectoryKeepsSuffix | worker/tasks.go:475-498 | `::url` keeps the default name with its `.git` |
| SourceSpec.RunPlan | worker/tasks.go:466-534 | the sources' commands run in order up to the first failure or refused source; success exactly when there is none |
| SourceSpec.CloneRepos | worker/tasks.go:461-535 | the same for the manifest's sources |
| SourceSpec.WrittenSourceIsCloned | worker/tasks.go:401-534 | what a printed source comes to: git clones the written URL into the written directory, or the default name, checks out the revision exactly when a nonempty one was written, and updates submodules; git9 refuses an "@" and else clones and branches; hg clones and updates; anything else is refused |
| SourceSpec.MoreSeparatorsAreKept | worker/tasks.go:468-483 | a text with more than one "#" or more than one "::" is taken whole |
| SourceSpec.ParseUrlSplits | worker/tasks.go:484-492 | the scheme of a text, by the alphabet of RFC 3986, in lower case, and the rest; without one the text is all rest |
| SourceSpec.NoUrlIsGit | worker/tasks.go:484-492 | a text that is no URL is left to git as it is |
| SourceSpec.BaseIsLastPart | worker/tasks.go:474 | path.Base is the last part of a path, whatever slashes follow it |
| Cursor.QueryWithCursor | api/graph/model/job.go:91-132 | the page and the next cursor are those of the table's rows in descending order |
| Cursor.SecretsWithCursor | api/graph/model/secrets.go:150-195 | the same when rows lose their id on the way |
| Cursor.SubscriptionsWithCursor | api/graph/model/webhooks.go:187-233 | the ascending variant's page and cursor |
| Cursor.WalkDescends | api/graph/model/task.go:72-115 | whatever happens to the table between pages, ids descend strictly over the whole walk |
| Cursor.WalkIsComplete | api/graph/model/user.go:71-112 | whatever happens, a finished walk delivered every row that was there throughout |
| Cursor.PagingUnderChange | api/graph/model/webhooks.go:73-116 | with deletions and fresh larger ids: no row twice, none that is newer than the walk, every row that stayed, and an end once the first table's rows have run out |
| Cursor.PagingThroughFixedTable | api/graph/model/job.go:98-131 | a table that stays the same is delivered whole, newest first |
| Cursor.PagingEnds | api/graph/model/job.go:119-129 | following the cursors ends exactly when the count is positive or there is nothing to page through |
| Cursor.SubscriptionsRepeat | api/graph/model/webhooks.go:195-232 | when there is a next page of subscriptions, it is the same page with the same cursor |
| Worklist.PkgDb.Link | images/openbsd/genimg:181-183 | one line in either file keeps +REQUIRED_BY and +REQUIRING exact inverses |
| Worklist.PkgDb.Install | images/openbsd/genimg:171-184 | queues the dependencies without a directory, once each, and records all of them |
| Worklist.Bootstrap.Round | images/openbsd/genimg:163-185 | one round keeps the loop's invariant and makes a new directory or shortens the queue |
| Worklist.Bootstrap.Run | images/openbsd/genimg:162-185 | ends; downloads exactly the packages bash and git need, once each and git twice exactly when bash lists it; the files record exactly these dependencies in both directions |
| Ports.Redis.AssignPort | worker/tasks.go:53-62 | the port and the counter after a boot that nobody overlaps |
| Ports.NthPort | worker/tasks.go:53-62 | the ports in turn: 1, then 22101 to 23000, then 22001 to 23000 over and over |
| Ports.PortsRepeatEveryThousand | worker/tasks.go:53-62 | after the first, two boots get the same port exactly when a multiple of 1000 lies between them |
| Ports.PortsStayInRange | worker/tasks.go:53-62 | under any interleaving no port exceeds 22999 plus the boots between their two commands plus the failed sets, and once the counter was set it and the ports stay at 22000 or above |
| Ports.TalliesAreRight | worker/tasks.go:53-62 | the counts in that bound are those of the commands that worked and failed, and the most boots that ever waited at once |
| Ports.LoneBoot | worker/tasks.go:53-62 | a boot without overlap does in two steps what AssignPort does |
| Ports.UndisturbedIsInTurn | worker/tasks.go:53-62 | under any interleaving the ports are those of boots one after the other exactly when no boot began while another had its counter still to set, or after one had failed to |
| Ports.UndisturbedPortsAreDistinct | worker/tasks.go:53-62 | then any 1000 consecutive ports after the first are pairwise distinct, and ports repeat exactly at multiples of 1000 |
| Ports.OverlapRepeatsPort | worker/tasks.go:53-62 | two boots that overlap at the end of the range make two later boots share a port |
| Sessions.CounterCountsSessions | runner-shell:69-80 | the counter is the number of sessions between incr and decr, and each return to zero leads to one terminate |
| Sessions.SessionsGoInOrder | runner-shell:69-80 | a session counts itself in, runs ssh, counts itself out and only then may terminate the job |
| Sessions.LastOneOut | runner-shell:78-80 | a session goes on to terminate exactly when no other is inside |
| Sessions.TerminateMeetsSessionExactlyWhenCounted | runner-shell:78-80 | the terminate meets a connected session exactly when the counter is positive again |
| Sessions.TerminateMayHitNewSession | runner-shell:78-80 | which may happen: its terminate may come after another session has connected |
| Migration.Database.Rekey | buildsrht/alembic/versions/6e5389a7ff68_use_canonical_user_id.py:26-47 | table by table, then the columns, then the constraints; a violated constraint leaves everything as it was |
| Migration.Database.Upgrade | buildsrht/alembic/versions/6e5389a7ff68_use_canonical_user_id.py:26-47 | goes through exactly when every user has a remote id, which then is the primary key; no user's ids change |
| Migration.Database.Downgrade | buildsrht/alembic/versions/6e5389a7ff68_use_canonical_user_id.py:50-73 | the way back goes through exactly when every user has a local id, which then is the primary key again; no user's ids change |
| Migration.WhatConstraintsSay | buildsrht/alembic/versions/6e5389a7ff68_use_canonical_user_id.py:33-47 | what the constraints demand: an id for every user, no id twice, and no reference to an id that no user has |
| Migration.UpgradePreservesMeaning | buildsrht/alembic/versions/6e5389a7ff68_use_canonical_user_id.py:18-47 | every row of every table belongs to the same user before and after, even when old and new ids overlap, and all constraints hold again |
| Migration.DowngradeUndoesUpgrade | buildsrht/alembic/versions/6e5389a7ff68_use_canonical_user_id.py:50-73 | a downgrade after an upgrade goes through and restores every row |
| Manifest.TriggerObject.ToDict | buildsrht/manifest.py:28-34 | returns the trigger's attributes with action and condition, which it also leaves in the trigger |
| Manifest.DictTwice | buildsrht/manifest.py:28-34 | so a second call gives the same dict |
| Manifest.DictsOf | buildsrht/manifest.py:144 | the dicts of a list of triggers, even if one is listed twice |
| Manifest.TasksOfRoundTrip | buildsrht/manifest.py:118-127 | the tasks read from to_dict are the same tasks, which uses that strip is idempotent |
| Manifest.TriggersOfRoundTrip | buildsrht/manifest.py:17-34 | the triggers read from to_dict are the same triggers |
| Manifest.SecretsRoundTrip | buildsrht/manifest.py:84-98 | normalised secrets are accepted and normal |
| Manifest.NormalisationIsFixedPoint | buildsrht/manifest.py:52-148 | the dict of an accepted manifest is accepted exactly when it has a nonempty list of tasks or a shell, and then gives the same dict again |
| Manifest.ToDictKeepsWhatWasGiven | buildsrht/manifest.py:133-148 | to_dict keeps nine fields as they were given, secrets in order with ids spelled canonically, tasks in order with their scripts stripped, and triggers in order, entry by entry |
| Manifest.WhatIsRefused | buildsrht/manifest.py:53-129 | the constructor raises exactly for one of the listed faults of a field, a task, a repeated task name or a trigger |
| Manifest.StripCutsSpace | buildsrht/manifest.py:44 | a stripped script is the text without the space on both sides |
| Manifest.ValidNamesAre | buildsrht/manifest.py:45 | a task name is at most 128 characters of the alphabet, at least one, and perhaps a newline at the end |
| Manifest.FalseValues | buildsrht/manifest.py:66-131 | which values count as missing |
| Manifest.ListOrNullHasWork | buildsrht/manifest.py:118-124 | in particular for a `tasks` that is null or a list |
| Manifest.EmptyDictIsNoFixedPoint | buildsrht/manifest.py:118-124 | `tasks: {}` without a shell is accepted, its own dict is not |

## Left out

- Database errors: statements succeed, except the group queries of a run and everything before the handler is installed; a status write that fails is not modelled.
- Transactions are one step each; `Start` submits to the broker inside its transaction, where the row lock keeps others from the job until the commit, so that is one step too. Read skew inside one transaction is not modelled.
- The `Cancel` resolver only reads the job and posts to its worker; the post is the handler's step.
- Secrets: the `secrets` flag of a job, access checks, and the delivery of keys and files to the guest.
- Manifest checks other than those of tasks on the Go side: artifacts, OAuth grants, and the details of triggers. A stored trigger whose details are not JSON would end the group's trigger loop early.
- The guest: SSH, the pty, qemu or docker, log files, downloads and uploads succeed or fail at will, and `<-goctx.Done()` for a shell ends at will.
- `float64` values in the environment, because `%g` is not modelled; neither is a shell variable whose name is not a valid name.
- BuildEnv.SendEnv: the shell evaluates one assignment per line and takes the script's header as given; it does no expansion, and a script that would need one has no value in the model.
- BuildEnv.ArrayRoundTrip: the modelled shell refuses every dollar sign in double quotes that no backslash precedes; a shell such as bash takes one that begins no expansion, as before the closing quote or a blank, for itself, so that such an element does come back there.
- SourceSpec.SourceRoundTrip: which texts `url.Parse` accepts, and how `String` writes what follows the scheme's colon, are parameters.
- Cursor.PagingUnderChange: the count is not negative; rows are taken to come from one table with unique ids, so the join of the task query is one to one.
- Worklist.Bootstrap.Run: a pattern in the package list names one package, and every dependency is in the list; unpacking and the moving of files are not modelled.
- The `tail` mode of `runner-shell`, and crashes of shell sessions and of the Redis server; a session that dies between incr and decr leaves the counter too high for good.
- The column that records who shared a secret, which a later migration added, is not among the migrated ones.
- Manifest.NormalisationIsFixedPoint: UUID syntax is a parameter whose only law is that a canonical spelling is its own; YAML decoding and encoding are not modelled.
- Which of a manifest's own triggers act, by their conditions: `Worker` has when they are entered; the tests are those of the group's loop, with the job's status for the group's.
- Webhooks, email contents apart from the subject tag, RSS, badges, pages, OAuth and payment checks, data loaders and enum names: they would add only easy members.
- Characters are Unicode scalar values throughout; encodings and case folding beyond ASCII scheme names are not modelled.
