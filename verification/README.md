# Verified models of cozy-stack

A Dafny model of the parts of cozy-stack whose correctness spans several functions, several
processes or whole runs. `dafny verify dfyconfig.toml` checks all of it.

| Files | What they model |
|---|---|
| `AllDocs`, `Splitter`, `SplitterExact`, `Export`, `ExportParts`, `ExportSizes` | the export of an instance in parts (`model/move`): cursors, the greedy splitter, the paged listers over CouchDB's `_all_docs` |
| `Banner`, `BannerRuns`, `BannerCommands` | banner commands (`model/banner`): merge, materialization, tombstones, dismissals, language refreshes, validation |
| `RedisSets`, `RedisScheduler`, `SchedulerProtocol`, `SchedulerJobs`, `SchedulerRefinement`, `RedisKey` | the redis scheduler (`model/job`): its Lua script, one poller alone, any number of pollers and clients with crashes, and what the jobs of webhooks carry, and why the first follows the second |
| `Debounce`, `MemQueue` | the memory scheduler's debounce loop and the memory queue with its sender goroutine |
| `Worker`, `Periodic`, `PeriodicWords` | the retry loop of workers, and the parser of periodic triggers |
| `ServiceTriggers` | the triggers of the services of a webapp across installs, updates and deletions |
| `DriveActivity`, `DriveDigest`, `DriveFlush` | the activity counts of shared drives, from a change to the published digest |
| `Email` | the uniqueness of the owners' emails under concurrent calls |
| `Credentials`, `CredentialsClear` | the encryption of account credentials, its inverse, and what it leaves in clear |
| `Options`, `Text`, `Numbers` | options, the string functions of Go that are used, decimal numbers |

Each loop or in-place update of the code is a method, proved against a function or a predicate
that states its result; the theorems are lemmas about those, over all inputs and all runs. Where
a function is what the code computes, what it means is stated once more without it, from the
stored fields, the lookups or the list of requests (`SplitterExact.CutsExactly`, `Banner.Shows`,
`DriveDigest.PlacedIff`, `Debounce.WindowsBetweenTimers`, `BannerCommands.ValidIff`).

## What the proofs found

These are places where the code promises less than it seems to; each has its exact condition.

- Listing an export part stops early when a page of 1000 rows holds design documents only,
  because they are filtered after paging. A listing is right if and only if the design documents
  of its range are fewer than a page or nothing to list sorts after one (`AllDocs.ListedIff`), and
  an export is a partition if and only if this holds of each of its parts
  (`ExportParts.FilesPartition`). `ExportParts.CrowdedExport` is a database where it fails.
- Payloads of a webhook are stranded by the death of the last poller about to drain them, by a
  failed drain, by a document that turns malformed and by emptying the sets, and by nothing else
  (`SchedulerProtocol.StrandsIff`, `StrandedPayload`); the next call schedules them (`FireRepairs`).
- Two commands of the same revision are settled by the order of delivery: the first one wins
  (`BannerRuns.Converges`).
- The comment of `Materialize` promises idempotence; a second run writes in two cases
  (`BannerRuns.IdempotentIff`): a start that is neither stated, decided nor carried and that time
  has moved (`NotIdempotent`), and a command whose title or text is an empty map
  (`CommandIdempotentIff`). Neither deliveries nor refreshes nor rules without a window meet them
  (`DeliveredTwice`, `RefreshedTwice`, `RuleIdempotent`).
- A valid command can be shown with an inverted window in one case only (`BannerCommands.InvertedIff`).
- The last write of an install is not checked (`model/app/webapp.go:499`). When it is lost, the
  triggers of the app live on without being named by its manifest, and later diffs do not know
  them (`ServiceTriggers.LostWrite`); without harm exactly when there are none (`LostWriteIff`).
- A manifest that declares a `trigger_id` for a service that is neither kept nor given a trigger
  breaks the equality between the live triggers and the IDs of the manifest, and no other one does
  (`ServiceTriggers.ForeignIDIff`).
- Emails stay unique as long as a copy of an instance whose write failed is not used again.
  `model/instance/lifecycle/create.go:268` goes on with such a copy; saving it keeps the emails
  unique exactly in the cases of `Email.KeptCopyIff`, and a run that breaks them goes through
  `Email.ReachRace` and `Email.KeptCopyBreaks`.
- Activity counts are exact; members and folders with a newline in them are not counted
  (`DriveActivity.TakeExact`).
- A password is restored by decryption only when it is a text that comes with a text login, and a
  field whose name ends in `_encrypted` never is (`Credentials.AuthRoundTripIff`). The length of
  the login wraps at 2^32 bytes (`Credentials.FrameIff`).
- A retry delay under ten nanoseconds, or one that overflows, makes the random generator panic
  (`Worker.PanicIff`). A negative number of executions in the options of a job makes it done
  without having been executed (`Worker.AtMost`, `Worker.DoneIff`).

## Assumptions

- One redis command, script or pipeline is one step, and so is one CouchDB request. The code uses
  plain pipelines, which redis does not make atomic; scripts and single commands are.
- Locks exclude each other for as long as they are held. CouchDB finds what was last written, and
  refuses the write of a stale revision.
- The cron library gives a time after the one it is given, and the clock never goes back. A random
  generator asked for a number below n gives one of them.
- Base64, the NaCl box and JSON have inverses (`Credentials.Inverses`).
- A client dismisses a banner by writing the date in its document (`Banner.Store.Dismiss`).
- In runs of the service triggers, an update compares with the stored services, as the installer
  ensures (`model/app/webapp.go:473`, `model/app/installer.go:509-512`).

## Model

| member | source | states |
|---|---|---|
| AllDocs.ReadPage | model/move/cursor.go:92-110 | one turn of the paged loop keeps exactly the files of the rows read so far, and moves on or stops for good |
| AllDocs.ListRange | model/move/cursor.go:86-112 | the paged loop terminates and returns what the rows before the first page without ordinary row contribute |
| AllDocs.Rescan | model/move/cursor.go:108-109 | restarting a scan at one of its own rows gives the rows from there on, so skipping one row continues it |
| AllDocs.ListedIff | model/move/cursor.go:86-112 | a listing is the half-open range of IDs, without directories and design documents, if and only if the design documents of the range are fewer than a page or nothing to keep sorts after one |
| AllDocs.InPart | model/move/cursor.go:96-106 | what is in a range: files or versions, without design documents and, for files, without directories, from the first ID to the last one excluded |
| AllDocs.ListedBegins | model/move/cursor.go:86-112 | in any case a listing is a beginning of that range: nothing else, nothing twice, nothing out of order |
| AllDocs.FewDesignsReach | pkg/couchdb/bulk.go:131-136 | fewer than 1000 design documents in the whole database make every listing right |
| AllDocs.CrowdedListing | pkg/couchdb/bulk.go:131-136 | a database with a page of design documents before its only file, of which nothing is listed |
| Splitter.Seam | model/move/export.go:402-409 | splitting the files and then the versions with the budget left over cuts where splitting their concatenation does |
| Splitter.Greedy | model/move/cursor.go:48-67 | every part fits the size or holds exactly one non-empty document, and n cuts mean more than n/2 full parts |
| Splitter.BudgetBounds | model/move/cursor.go:55-64 | the budget never leaves the range of a 64-bit integer when sizes do not |
| SplitterExact.CutsExactly | model/move/cursor.go:55-66 | a list of cuts is the splitter's if and only if each part ends at the first document whose bytes it has no room for, the part not being empty of bytes |
| SplitterExact.PartIsFull | model/move/cursor.go:55-66 | the document after the k-th part would make it larger than the size, and every document inside of it either follows empty ones only or fits |
| SplitterExact.OnePart | model/move/cursor.go:55-66 | what fits in one part, exactly included, is not cut |
| SplitterExact.ExportCutsExactly | model/move/export.go:402-409 | the same of the files and the versions together: cutting both at these places is right if and only if each part, of either or of both, ends at the first document it has no room for |
| Export.ParseOfString | model/move/cursor.go:21-24 | parsing the string of a cursor gives back its doctype and ID, even when the ID has slashes |
| Export.ParseRefuses | model/move/cursor.go:26-38 | a cursor string is refused exactly when it is neither empty nor in the list |
| Export.SortIDs | model/move/cursor.go:49-53 | the IDs of the size map, each once, in increasing order, whatever the order of the map |
| Export.SplitFiles | model/move/cursor.go:48-67 | the cursors returned are the strings of the IDs at the cuts of the greedy split, and the budget is what the split leaves |
| Export.ExportDoc.ExportFiles | model/move/export.go:402-409 | PartsCursors is the cuts of the files, then those of the versions from the budget the files left |
| Export.ListFilesFromCursor | model/move/cursor.go:69-113 | the listing of a part is the one between its cursor and the next, for every kind of the two |
| Export.ListVersionsFromCursor | model/move/cursor.go:115-159 | the same for versions, with the parts of files holding none but the last |
| Export.CursorsAtCuts | model/move/cursor.go:55-66 | every emitted cursor is the string of the ID at its cut |
| ExportParts.CursorRoundTrip | model/move/cursor.go:21-46 | every emitted cursor string parses back to its own part number, doctype and ID |
| ExportParts.FilesOfOnePart | model/move/cursor.go:69-113 | the k-th part lists the range of files between the k-th and the next cut, and no file after the files' last part |
| ExportParts.VersionsOfOnePart | model/move/cursor.go:115-159 | the k-th part lists the range of versions between its cuts, the versions starting in the last part of files |
| ExportParts.FilesPartition | model/move/cursor.go:28-113 | whatever snapshot the cursors come from, the part "" and then every cursor list each file of any one snapshot exactly once in ID order if and only if the listing of each part is right |
| ExportParts.VersionsPartition | model/move/cursor.go:28-159 | the same for versions |
| ExportParts.FewDesigns | model/move/cursor.go:69-159 | fewer than 1000 design documents in the database make every part right |
| ExportParts.CrowdedExport | model/move/cursor.go:69-113 | a database whose export loses its only file |
| ExportSizes.SplitInput | model/move/export.go:372-397 | what the splitter sees is the documents of the snapshot, in ID order, with their sizes |
| ExportSizes.PartSizes | model/move/export.go:402-409 | every part, across the seam too and listed rightly or not, holds at most PartsSize bytes or exactly one non-empty document |
| ExportSizes.PartCount | model/move/export.go:402-409 | n >= 1 cursors imply n * PartsSize < 2 * total bytes |
| BannerRuns.OnceIsPrepared | model/banner/materialize.go:72-99 | what Materialize leaves, written or not, says what was made, can be closed if it must, has no dismissal it cannot have, a start, the stamp of the stack, and the command as it is read back |
| BannerRuns.OccurrenceKept | model/banner/materialize.go:34-53 | what a document keeps: its dismissal and, unless a start is stated or the end comes before it, its start, for the same occurrence only, and its date of creation always; what is written has one revision more and the stamp of the stack |
| BannerRuns.OccurrenceBegins | model/banner/materialize.go:74-90 | a new document starts at the time stated, else decided, else now, and is not dismissed |
| Banner.Store.Materialize | model/banner/materialize.go:58-100 | deletes, creates, leaves alone or updates the document of the category, and no other one |
| Banner.Store.ApplyTo | model/banner/command.go:132-178 | a command is applied when the settings allow it and its revision is higher, and nothing else changes; the document then shows it, each field written out, in the language of the instance if the command is complete in it and in English otherwise |
| Banner.Store.RefreshCommandsAt | model/banner/trigger.go:108-153 | every retained command of an allowed category is materialized again, whatever the order, and shown in the language of the instance in the same way; tombstones are left alone |
| BannerRuns.RunPresents | model/banner/command.go:132-178 | every step of a run keeps the stored presentation equal to that of the winning command |
| BannerRuns.WinnerIsFirstMax | model/banner/command.go:48-53 | the winner is the first command delivered with the highest revision |
| BannerRuns.Converges | model/banner/command.go:132-199 | whatever the order, the duplicates, dismissals and refreshes, the stored document is the highest-revision command: every field is that command's, its wording in the language of the last write if it is complete in it and in English otherwise |
| BannerRuns.ClearTakes | model/banner/command.go:155-178 | an accepted clear leaves an expired tombstone with its revision |
| BannerRuns.StaysCleared | model/banner/trigger.go:138-151 | a clear holds in every later state until a higher revision; late commands and refreshes never revive it |
| BannerRuns.IdempotentIff | model/banner/materialize.go:55-100 | the second of two equal materializations writes nothing exactly when no time has passed or the start is stated, decided, carried or before the end, and the command is as it is read back |
| BannerRuns.NotIdempotent | model/banner/materialize.go:76-82 | a rule that ended when it was evaluated, without a decision time, is written again by each evaluation |
| BannerRuns.CommandIdempotentIff | model/banner/materialize.go:138-143 | materializing a command twice writes once exactly when its title and text are not empty maps, which are read back as nil |
| BannerRuns.DeliveredTwice | model/banner/command.go:151-161 | a command delivered again writes nothing, in any language |
| BannerRuns.RefreshedTwice | model/banner/trigger.go:137-151 | a second refresh in the same language writes nothing |
| BannerRuns.RuleIdempotent | model/banner/materialize.go:134-158 | evaluating a rule without window again at a later time writes nothing |
| BannerRuns.DismissalSurvivesIff | model/banner/materialize.go:39-70 | a dismissal survives exactly the runs of dismissible versions with the same ID; anything else, a rule that produces nothing included, loses it for good |
| BannerRuns.AlwaysEscapable | model/banner/materialize.go:102-111 | a stored modal can always be clicked or closed |
| BannerCommands.Validate | model/banner/command.go:233-357 | accepts exactly the commands whose fields meet every format, bound and dependency of the boundary |
| BannerCommands.ValidIff | model/banner/command.go:82-357 | the fields, bounds and dependencies of a valid command, each written out, in both directions |
| BannerCommands.CategoryIs | model/banner/command.go:76 | the category matches its regular expression |
| BannerCommands.BannerIDIs | model/banner/command.go:77 | so does the banner ID |
| BannerCommands.TargetIs | model/banner/command.go:78 | so does the target |
| BannerCommands.OneLanguage | model/banner/command.go:201-231 | the banner of a valid command is wholly in the instance's language, if it has one and the command has its text, its title and its labels in it, else wholly in English, with no text missing |
| BannerCommands.AlwaysPresentable | model/banner/command.go:132-199 | over any run of valid commands the stored document is a tombstone or a banner wholly in the language of the last write, or in English, without lone secondary action, that can be left |
| BannerCommands.InvertedIff | model/banner/materialize.go:41-47 | a valid command gives an inverted window exactly when it states an end not after its decision time, no start, and none is carried |
| RedisSets.FirstDueExists | model/job/redis_scheduler.go:43-49 | a set with something due has a first due member, by score and then by key |
| RedisSets.LuaAlwaysAnswers | model/job/redis_scheduler.go:41-53 | the script has an answer in every state, a member when something is due in either set |
| RedisSets.ScriptPolls | model/job/redis_scheduler.go:41-53 | the answer in the times of the sets: what has been in the scheduling set for ten seconds, oldest first, else what is due, earliest first, ties in the order of the keys; and both sets after it |
| RedisScheduler.Scheduler.LuaPoll | model/job/redis_scheduler.go:41-53 | one evaluation of the script: retry of what was taken ten seconds ago, else the first due trigger moved to the scheduling set |
| RedisScheduler.Scheduler.AddToRedis | model/job/redis_scheduler.go:382-415 | a timed trigger ends in the triggers set only; a cron one with the next time after the previous one, or after now when that is past |
| RedisScheduler.Scheduler.DeleteTrigger | model/job/redis_scheduler.go:479-494 | the document goes, and a timed trigger leaves both sets |
| RedisScheduler.Scheduler.Fire | model/job/redis_scheduler.go:221-252 | a debounced call appends its payload and keeps the time already set; another one pushes the job at once |
| RedisScheduler.Scheduler.Handle | model/job/redis_scheduler.go:288-369 | the outcome, the sets, the documents, the lists and the one job pushed, for each kind of trigger or document and each answer of CouchDB, redis and the broker; the job of a webhook carries all the payloads listed before, joined and wrapped, when they were drained, and any other job none |
| RedisScheduler.Scheduler.Turn | model/job/redis_scheduler.go:276-370 | one turn touches one key, pushes at most one job for it, with the payloads that were listed when it is a webhook's, and leaves less work |
| RedisScheduler.PolledAgainIff | model/job/redis_scheduler.go:288-369 | which polled keys are left to be polled again: after a failed read, for a client trigger, and for a timed one the broker might take later |
| RedisScheduler.ConsumedIff | model/job/redis_scheduler.go:309-369 | an @at trigger goes with its document, a cron one gets its next time, only when the job was taken; a list goes only when drained |
| RedisScheduler.GoesOnIff | model/job/redis_scheduler.go:288-369 | which answers let the poll go on |
| RedisScheduler.Scheduler.PollScheduler | model/job/redis_scheduler.go:274-371 | it terminates, pushes no job before its time, gives each cron trigger a later time not in the past, runs only a slot of this second twice, and leaves nothing due when it succeeds |
| RedisScheduler.TurnSets | model/job/redis_scheduler.go:276-370 | a turn changes neither set for any other key than the polled one |
| RedisScheduler.WorkDecreases | model/job/redis_scheduler.go:274-371 | a polled key that comes back with a later score leaves less work, which bounds the poll |
| RedisKey.RoundTripIff | model/job/redis_scheduler.go:80-86 | the poller reads back the owner and ID of a scheduled trigger exactly when the prefix has neither separator |
| SchedulerProtocol.RunKeeps | model/job/redis_scheduler.go:221-415 | every state of every interleaving with crashes keeps the invariant of the protocol |
| SchedulerProtocol.NeverInBoth | model/job/redis_scheduler.go:382-415 | no run from the start has a timed trigger in both sets |
| SchedulerProtocol.StaysScheduled | model/job/redis_scheduler.go:301-415 | a timed trigger in one set is in exactly one in every later state until deleted or dropped on purpose, with crashes anywhere |
| SchedulerProtocol.AddedIsScheduled | model/job/redis_scheduler.go:375-415 | adding a trigger puts it in one set, even after it was dropped |
| SchedulerProtocol.CrashRecovery | model/job/redis_scheduler.go:38-46 | what a crash left in the scheduling set is polled again after ten seconds, oldest first |
| SchedulerProtocol.PayloadsConserved | model/job/redis_scheduler.go:236-323 | in every interleaving the drained payloads followed by the listed ones are the fired ones in order |
| SchedulerJobs.CallsConserved | model/job/redis_scheduler.go:236-323 | in every interleaving what the drains took, in their order, then what is listed, are the payloads of the calls in their order |
| SchedulerJobs.JobOfRun | model/job/redis_scheduler.go:315-323 | a poller about to push the job of a webhook holds the whole list as it was when that poller drained it, or nothing if it could not, whatever the others did since |
| SchedulerProtocol.StrandsIff | model/job/redis_scheduler.go:301-334 | a step leaves a list that nobody is going to drain exactly when it takes away the last poller about to drain a live webhook's payloads whose key is in no set, drops such a webhook for its document, or empties the sets |
| SchedulerProtocol.ListsAwaited | model/job/redis_scheduler.go:236-323 | over every run, a live webhook with payloads has at every moment its key in a set or a poller about to drain it, if and only if no such step is taken |
| SchedulerProtocol.StrandedPayload | model/job/redis_scheduler.go:309-323 | a run where a poller dies there and nobody is left to drain |
| SchedulerProtocol.FireRepairs | model/job/redis_scheduler.go:236-250 | the next call of the webhook schedules the stranded payloads again |
| SchedulerRefinement.TurnIsRun | model/job/redis_scheduler.go:276-370 | whatever a turn of the poll does, for any trigger and any answers, is a run of one poller of the protocol, which gives the broker one job with the payloads that were listed when it drains a webhook, and strands nothing when the payloads were drained and the document well formed |
| SchedulerRefinement.FireIsStep | model/job/redis_scheduler.go:236-250 | a debounced call of a webhook is one step of the protocol |
| SchedulerRefinement.AddIsStep | model/job/redis_scheduler.go:382-415 | adding a trigger to redis is one step |
| SchedulerRefinement.DeleteIsRun | model/job/redis_scheduler.go:479-494 | deleting a trigger is a deletion of its document, then of its key |
| Debounce.FoldIsJoin | model/job/mem_scheduler.go:270-286 | folding the combination over payloads gives the bracketed join of them |
| Debounce.SchedulersAgree | model/job/redis_scheduler.go:315-331 | the memory and the redis schedulers give the same text for the same payloads |
| Debounce.WindowsConserve | model/job/mem_scheduler.go:248-267 | the payloads of the windows, then those pending, are the requests received in order, and no window is empty |
| Debounce.WindowsBetweenTimers | model/job/mem_scheduler.go:244-267 | the windows are the requests between two timers when there are some, and those after the last timer are pending |
| Debounce.CombinedJob | model/job/mem_scheduler.go:270-286 | one more request in a window gives the job of the longer window, in each mode |
| Debounce.Schedule | model/job/mem_scheduler.go:230-268 | the loop pushes exactly one job per window: with its payloads joined and wrapped, with the first one, or with none, depending on the mode; without debounce, one job per request |
| MemQueue.SharedQueue.Enqueue | model/job/mem_broker.go:48-58 | appends the job and spawns a sender exactly when none runs |
| MemQueue.SharedQueue.Lock | model/job/mem_broker.go:60-70 | the critical section of the sender: the first job in hand, or the end |
| MemQueue.NothingLostOrReordered | model/job/mem_broker.go:49-77 | in every interleaving at most one sender is alive; delivered, in hand and listed jobs are the enqueued ones in order; without a sender nothing waits |
| MemQueue.FirstInFirstOut | model/job/mem_broker.go:49-77 | in every interleaving the jobs handed over by the senders are the first ones given to Enqueue, in order, and all of them once no sender is alive |
| MemQueue.SenderDrains | model/job/mem_broker.go:60-77 | the sender left alone delivers everything and ends |
| Worker.DefaultedConf | model/job/worker.go:383-407 | each of the four values that is unset gets its default, and options replace what is higher |
| Worker.OptionsOnlyLower | model/job/worker.go:400-405 | options never raise the executions or the timeout, nor make the timeout vanish |
| Worker.Task.NextDelay | model/job/worker.go:542-578 | when a task stops, panics or executes again, and within which bounds it is delayed |
| Worker.Task.Run | model/job/worker.go:420-438 | without execution when the start hook fails; else the loop, and the commit hook once however it ends |
| Worker.Task.Loop | model/job/worker.go:439-519 | the loop terminates after exactly the executions their outcomes determine, with the error of the last one and one delay before each retry |
| Worker.AtMost | model/job/worker.go:557-559 | a task executes at most as often as the effective configuration says |
| Worker.RunsForUnique | model/job/worker.go:439-515 | the number of executions is determined by their outcomes |
| Worker.RunsToTheLast | model/job/worker.go:439-559 | with sane delays a task executes up to the first execution that succeeds, refuses a retry, fails beyond recovery, is stopped by the error hook, or is the last allowed |
| Worker.NeverPanics | model/job/worker.go:570-574 | with a delay of ten nanoseconds or more that fits, no retry panics and delays double exactly |
| Worker.PanicIff | model/job/worker.go:570-574 | a worker that always fails panics exactly when an allowed retry has a delay under ten nanoseconds, overflow included |
| Worker.WithinATenth | model/job/worker.go:570-574 | the k-th delay is within a tenth of RetryDelay * 2^(k-1) |
| Worker.DelaysGrow | model/job/worker.go:570-574 | delays grow strictly in spite of the fuzz |
| Worker.TotalBound | model/job/worker.go:455-457 | n executions sleep less than 1.1 * RetryDelay * 2^(n-1) in all |
| Worker.DoneIff | model/job/worker.go:327-352 | a job is done exactly when it was aborted at its start, was not executed though started, succeeded or was aborted |
| Periodic.ParseDaysOfMonth | model/job/periodic_parser.go:121-150 | the days of all the parts, or an error when one is wrong |
| Periodic.ParseDaysOfWeek | model/job/periodic_parser.go:163-198 | the same for days of the week |
| Periodic.CyclicDays | model/job/periodic_parser.go:177-184 | a range of days of the week is the cyclic interval between its ends |
| PeriodicWords.DayNames | model/job/periodic_parser.go:200-219 | the names of the days, short and long |
| PeriodicWords.WeekWords | model/job/periodic_parser.go:185-188 | weekday and weekend are Monday to Friday, and Saturday with Sunday |
| PeriodicWords.WeekRangeText | model/job/periodic_parser.go:168-186 | two different days with a dash are the cyclic range between them, and the same day twice is refused |
| PeriodicWords.MonthRangeIs | model/job/periodic_parser.go:126-141 | two days of the month with a dash are the days from one to the other, and refused unless they go forward |
| PeriodicWords.HourIs | model/job/periodic_parser.go:221-251 | the hours with am and pm, twelve coming first, and no other number |
| PeriodicWords.BeforeMeans | model/job/periodic_parser.go:86-98 | before and and set the end of the range of hours, midnight being 24 |
| PeriodicWords.AfterMeans | model/job/periodic_parser.go:99-108 | after and between set its beginning |
| PeriodicWords.OnMeans | model/job/periodic_parser.go:58-85 | on the is for monthly triggers and on for weekly ones, and each sets the list of days of its kind |
| PeriodicWords.OtherwiseRefused | model/job/periodic_parser.go:58-111 | a keyword alone and any other word are refused |
| Periodic.Parse | model/job/periodic_parser.go:51-119 | the clauses applied in order; what is accepted has days in range and a non-empty range of hours |
| Periodic.ParseValid | model/job/periodic_parser.go:51-119 | from a sound specification, any clauses accepted give a valid one of the same frequency |
| Periodic.ParsedIff | model/job/periodic_parser.go:51-251 | the specifications some text is parsed to are exactly the valid ones with the other list of days left to its default |
| Periodic.RandomCrontab | model/job/periodic_parser.go:257-281 | the generator is never asked for a number in an empty range, and the time drawn satisfies the specification |
| Periodic.CrontabReads | model/job/periodic_parser.go:266-280 | the text of the crontab is read back, word by word, as the time drawn |
| Periodic.EveryTimeDrawn | model/job/periodic_parser.go:257-281 | every time that satisfies the specification can be drawn |
| ServiceTriggers.CompareStored | model/app/webapp.go:552-582 | which services are kept with their trigger, which triggers go and which services need one |
| ServiceTriggers.App.DiffServices | model/app/webapp.go:544-604 | fails exactly when the scheduler refuses to delete or to add a trigger; otherwise obsolete triggers are gone and new ones have new, distinct IDs |
| ServiceTriggers.App.Create | model/app/webapp.go:487-504 | succeeds exactly when the scheduler accepts everything, and is then one step of the runs below, whether its last write landed or was lost; a failed one stores the manifest as it came |
| ServiceTriggers.App.Update | model/app/webapp.go:507-529 | succeeds exactly when the scheduler accepts everything and the write lands, and is then one step; a failed one leaves the stored manifest |
| ServiceTriggers.App.Delete | model/app/webapp.go:532-542 | succeeds exactly when the triggers can be deleted and the document too, and is then one step |
| ServiceTriggers.ChangedGetsNewTrigger | model/app/webapp.go:569-602 | a service whose file, kind, options or debounce an update changes loses its trigger, gets a new one with a new ID if it needs one, and is otherwise as the new manifest has it |
| ServiceTriggers.SameKeepsTrigger | model/app/webapp.go:569-577 | one that changes in none of these is as it was stored, its trigger living on |
| ServiceTriggers.RemovedLosesTrigger | model/app/webapp.go:563-567 | a service that an update or a deletion removes loses its trigger |
| ServiceTriggers.AddedGetsTrigger | model/app/webapp.go:580-602 | a service that an update adds gets a new trigger if it needs one |
| ServiceTriggers.NeedsTriggerIff | model/app/webapp.go:609-622 | a service needs a trigger when its options have a first word and are not the date of those called by programs |
| ServiceTriggers.LiveTriggersExact | model/app/webapp.go:487-604 | over any run the IDs of the current manifest are distinct, and they are exactly the live triggers, less those that vanished by themselves, if and only if none is left of an install whose last write was lost |
| ServiceTriggers.LostWriteIff | model/app/webapp.go:495-500 | the last write of an install can be lost without harm exactly when no service gets a trigger |
| ServiceTriggers.LostWrite | model/app/webapp.go:499 | an install that succeeds and leaves a live trigger that its manifest does not name |
| ServiceTriggers.UnchangedKeepsTrigger | model/app/webapp.go:569-577 | an unchanged service keeps its trigger |
| ServiceTriggers.ForeignIDIff | model/app/webapp.go:569-602 | an install or an update keeps live triggers and IDs equal exactly when the manifest declares no ID for a service that is neither kept nor given a trigger |
| DriveActivity.DecodeIff | model/driveactivity/store.go:130-145 | a field is read as what it was written for exactly when member and folder have no newline |
| DriveActivity.ParseCounts | model/driveactivity/store.go:130-150 | for any hash and any order: a tally for each member and folder mentioned, with their values and at most five distinct stored samples |
| DriveActivity.TakeExact | model/driveactivity/store.go:116-124 | whatever the interleaving and the changes, each tally has exactly the number of changes of each kind of its member and folder; those with changes, and only they, have one if and only if no member or folder has a newline |
| DriveActivity.Store.Add | model/driveactivity/store.go:87-114 | a change is counted in the window returned and no other; the call that opened the window says so |
| DriveActivity.FirstFiveNamed | model/driveactivity/store.go:103-112 | the names of the first five changes of each kind of a member in a folder are stored |
| DriveActivity.Store.Take | model/driveactivity/store.go:116-124 | the counts of the window, changing nothing, so that taking again gives the same |
| DriveActivity.Store.Drop | model/driveactivity/store.go:126-128 | the counts of the window are gone and no others |
| DriveDigest.TopIsChild | model/driveactivity/flush.go:164-191 | the top folder of a folder is a child of the root, and the folder is inside of it |
| DriveDigest.OnlyOneTop | model/driveactivity/flush.go:176-182 | there is only one such path |
| DriveDigest.CachedTop | model/driveactivity/flush.go:163-191 | the cached answer is the uncached one |
| DriveDigest.PlacedIff | model/driveactivity/flush.go:163-191 | where a folder counts, from the lookups: the root for itself, a folder directly under it for itself, a folder below for the one found at the path above it; out when it is gone or not below the root; unknown when a lookup fails |
| DriveDigest.WhereCounted | model/driveactivity/flush.go:162-206 | the digest in which the changes of a folder are: that of the root, of the folder itself or of the one above it; none exactly when the folder is gone or has left the drive |
| DriveDigest.GroupUnder | model/driveactivity/flush.go:193-217 | fails exactly when a folder or its top folder cannot be found; else one digest per member and top folder, with the sums of the tallies of the folders placed under it by the lookups, all of them conserved, and at most five of their names, all when there are fewer |
| DriveDigest.GroupedUnique | model/driveactivity/flush.go:193-217 | the sums do not depend on the order of the map |
| DriveFlush.DigestExact | model/driveactivity/flush.go:151-218 | a digest counts exactly the changes its member made in folders now under its top folder, both without newline |
| DriveFlush.Flush | model/driveactivity/flush.go:78-102 | succeeds exactly when there is nothing to publish, nobody to publish for, or every digest could be made and was accepted; it then has published every digest, with exact sums, and dropped the window; a failed one keeps the counts, having published the first digests accepted |
| Email.TwoRowsSuffice | model/instance/email.go:24-33 | two rows show another instance with the email exactly when there is one |
| Email.OneRowHides | model/instance/email.go:24-33 | one row would not be enough |
| Email.Service.SetEmail | model/instance/service.go:102-127 | a call by itself is refused exactly when another instance has the email, conflicts exactly when its copy is stale, and otherwise writes its own document and nothing else |
| Email.EmailsStayUnique | model/instance/service.go:105-132 | in every interleaving of callers, saves, creations, deletions and failures no two instances share an email and organization instances have none |
| Email.WriteTakes | model/instance/service.go:125-126 | a write that happens gives the instance the email, and it alone |
| Email.KeptCopyIff | model/instance/service.go:125-132 | after any steps of the other callers, saving a copy kept after a failed request keeps emails unique if and only if it was stale, its document was rewritten since, or no other instance took the email in between |
| Email.ReachRace | model/instance/service.go:105-125 | a run from the start to two callers after the same free email |
| Email.KeptCopyBreaks | model/instance/lifecycle/create.go:268-270 | from there, going on with such a copy makes two instances share an email |
| Credentials.FrameIff | model/account/credentials.go:37-48 | login and password come back from the frame exactly when the login is shorter than 2^32 bytes |
| Credentials.FrameBuffer | model/account/credentials.go:37-48 | the copies fill the buffer with the frame |
| Credentials.EncryptAuth | model/account/credentials.go:242-271 | the encrypted map, whatever the order of the fields, and whether something was encrypted |
| Credentials.DecryptAuth | model/account/credentials.go:286-308 | panics exactly when credentials are too short for their length; else the decrypted map for the given order, and whether something was decrypted |
| Credentials.AuthRoundTripIff | model/account/credentials.go:242-308 | decryption undoes encryption in every order exactly when no field is already encrypted and a password is a text with a text login that fits |
| Credentials.RoundTripIff | model/account/credentials.go:237-316 | the same at every nesting level of the data |
| Credentials.EncryptMap | model/account/credentials.go:237-279 | every visited level is encrypted, and the flag says whether any had something to encrypt |
| CredentialsClear.EncryptedNowhereClear | model/account/credentials.go:237-279 | whatever the document, no password and no secret is left in clear at any level visited |
| CredentialsClear.SecretSealed | model/account/credentials.go:254-258 | each secret is stored under its own name with a suffix, as header, nonce and box in base64 |
| CredentialsClear.PasswordSealed | model/account/credentials.go:37-60 | the password is stored with the login, behind the length of the login in four bytes, highest first |
| CredentialsClear.OtherFieldsKept | model/account/credentials.go:259-271 | every other field is kept, unless a sealed one takes its place |
| Credentials.DecryptMap | model/account/credentials.go:281-316 | the same at every visited level, and whether any had something to decrypt |
| CredentialsClear.PanicsIff | model/account/credentials.go:141-150 | decryption panics exactly when the credentials have the header and a whole nonce, and their box opens on less than four bytes |
| CredentialsClear.FieldGives | model/account/credentials.go:287-302 | each field gives itself, its value under the shorter name, what its box has in JSON, or null |
| CredentialsClear.PairGives | model/account/credentials.go:149-162 | the credentials give the login of the length in front of it and the password after it, or both empty |
| Credentials.EncryptedSafe | model/account/credentials.go:41-51 | decrypting what was encrypted never panics |

## Left out

- ExportParts.FilesPartition: IDs from U+10FFFF on, which the listers exclude by their end key, are not among the files that must be listed.
- ExportParts.VersionsPartition: the same.
- ExportSizes.PartSizes: the parts are measured on the snapshot that the cursors come from; a later snapshot has other sizes.
- ExportSizes.SplitInput: the walk of the file system and the list of versions see every file and version of one snapshot.
- AllDocs.ListRange: the pages of one listing read one snapshot; writes between two pages are not modelled, and IDs are compared character by character, without CouchDB's collation.
- RedisScheduler.Scheduler.PollScheduler: the scripts and the removals from the sets do not fail for a poller alone; SchedulerProtocol lets any request fail.
- RedisScheduler.Scheduler.Fire: the parsing of the debounce duration and the combination of requests other than webhook payloads.
- SchedulerProtocol.PayloadsConserved: a drained payload may still be lost when the push fails, as the code accepts; delivery is not claimed.
- SchedulerRefinement.TurnIsRun: a client trigger, which is never scheduled, and keys without a slash that have a document are excluded.
- RedisKey.RoundTripIff: cluster numbers are below 2^63.
- ServiceTriggers.App.DiffServices: services are values, so writing through a pointer shared with the manifest is not modelled; trigger IDs are numbers, zero standing for the empty one.
- ServiceTriggers.App.Create: the permissions, which are written after the services, are not modelled, nor is a failure to write them.
- ServiceTriggers.LiveTriggersExact: an install whose last write is lost declares no trigger ID; operations that fail are not part of the runs.
- DriveDigest.GroupUnder: digests are values in a list with an index, instead of pointers shared by a list and a map; the file system does not change during a flush.
- DriveActivity.Store.Add: redis errors other than the expiry of the window key; the expiry of counts that no flush took.
- DriveFlush.Flush: the form of the event and its hashed ID.
- Credentials.EncryptMap: maps are values, and nonces are given by level and key instead of drawn; DecryptMap and DecryptAuth likewise.
- Credentials.RoundTripIff: every JSON value can be marshalled, and both keys are present; without them Encrypt and Decrypt do nothing.
- Worker.Task.Loop: the timeout of an execution, the slots, panics recovered in the worker function and metrics.
- Worker.Task.NextDelay: the fuzz is rounded down exactly, while the code computes it in floating point; both agree for delays below 2^52 nanoseconds, 52 days. Worker.WithinATenth, Worker.DelaysGrow and Worker.TotalBound inherit this.
- Worker.DoneIff: the deletion of the trigger after a BadTriggerError.
- Periodic.EveryTimeDrawn: the generator is any function that answers in range; which of them the seeds give is not modelled.
- Email.EmailsStayUnique: normalisation of emails, the expiry of a lock that is still held; a caller whose request failed gives up its copy, and Email.KeptCopyIff is about one that does not.
- Email.Service.SetEmail: a lock that cannot be taken.
- Banner.Store.ApplyTo: the resolution of the targets of a command and the errors of CouchDB.
- BannerCommands.Validate: which check fails first, the parsing of URLs, and zones with an offset; lengths are in characters.
- BannerRuns.Converges: the settings allow the category throughout the run, and only commands write to the category.
- MemQueue.NothingLostOrReordered: what happens after close, and the channel's receiver, which takes one job at a time.
- Debounce.Schedule: the duration of a window; the loss of a pending window when the trigger is unscheduled.
- The calls of Update without the old services (UpgradeInstalledState and the stale branch of DoLazyUpdate).
- GetLastsJobs, whose comment and sort order disagree; listByOrgField, a plain pager; FindIntent and the accessors of manifests.
- The quota rule and its bucket sizes, which are floating point; worker shutdown; event triggers other than their place in the protocol.
- HTTP routes, the command line, the virtual file system, app fetchers, OAuth flows and cryptography.
