# sidekiq-robust-job, modelled in Dafny

sidekiq-robust-job makes Sidekiq jobs persistent. Every `perform_async`,
`perform_in` or `perform_at` of a worker first writes a *job record* to the
database and pushes only the record id to Sidekiq. When the job runs, the
record is loaded, marked started, and executed under its *uniqueness
strategy*: no uniqueness, until executing, until executed or while
executing. The strategy decides whether a lock on the record's *digest* (a
hash of class name and arguments) is taken, whether duplicates are dropped,
and whether the job is rescheduled when the lock is held elsewhere. At
enqueue time an *enqueue conflict resolution strategy* (do nothing, drop
self, replace) decides what happens when records with the same digest are
still waiting. A periodic sweep reschedules records a policy calls missed.

The model is split by the library's own files:

| file | models |
|---|---|
| `basics.dfy` | options, results, ids, times and the errors the library raises |
| `job_class.dfy` | worker classes, their `sidekiq_options`, and `set` proxies (`setter_proxy_job.rb`) |
| `digest_generator.dfy` | `DigestGenerator#generate`; the hash backend is a function parameter |
| `uniqueness_strategy.dfy`, `enqueue_conflict_resolution_strategy.dfy` | the strategy tags and their resolvers |
| `job_record.dfy` | the record (`model.rb`): its state predicates, its setters as pure functions and as methods of the in-memory `Job`, validation, `reschedule` |
| `repository.dfy` | `Repository` over an in-memory table `map<Id, Record>`: `find`, `build`, `save`, `create`, the two queries and the bulk drop |
| `sidekiq.dfy` | the transport: the pushes it accepted, and which pushes its client middleware refuses |
| `uniqueness_strategies.dfy` | `Base` and the four strategies, with a trace of lock, payload and drop events |
| `enqueue_conflict_resolutions.dfy` | do nothing, drop self and replace |
| `sidekiq_job_manager.dfy` | `SidekiqJobManager`: record creation, conflict resolution in a transaction, enqueueing, `perform` |
| `missed_jobs.dfy` | `MissedJobs#all` (memoised) and `#invoke` |
| `configuration.dfy` | `Configuration`: defaults and validating setters |

Objects whose fields the library updates are classes: the in-memory record
`JobRecord.Job` (one `attributes` field, as ActiveRecord keeps one attribute
set), `JobsRepository.Repository` (the table), `Sidekiq.Transport`,
`UniquenessStrategies.Trace`, `MissedJobsSweep.MissedJobs` and
`RobustJobConfiguration.Configuration`. Each state-changing method is
specified by a pure function of the old state (`SaveResult`,
`TransactionResult`, `CreateResult`, `EnqueueResult`, `ResolvedRecord`,
`ResolvedTable`, `FinalizedTable`, `DropByDigest`, `ReschedulePushes`, and
`StrategyOutcome`, `StrategyTable`, `StrategyTrace` and `StrategyPushes`
for what each uniqueness strategy does), and
the promised properties are lemmas about those functions.

Time, the memory monitor's readings, the lock outcome and the payload's
result are parameters: `now`, `mb`, `acquired` and `payload`.

## Model

| member | source | states |
|---|---|---|
| Basics.Message | lib/sidekiq_robust_job/uniqueness_strategy.rb:64-75 | the unknown-strategy errors read "unknown uniqueness strategy: tag" and "unknown enqueue conflict resolution strategy: tag"; a payload error keeps its own message |
| JobClass.Name | lib/sidekiq_robust_job/setter_proxy_job.rb:3-13 | a `set` proxy answers with the name of the worker it finally wraps |
| JobClass.GetSidekiqOptions | lib/sidekiq_robust_job/setter_proxy_job.rb:16-18 | a worker answers its own options; a proxy answers its target's options merged with its custom options, the custom ones winning |
| JobClass.Set | lib/sidekiq_robust_job/setter_proxy_job.rb:16-18 | the proxy's options hold every custom option, and every other option of the wrapped class unchanged; its name is the wrapped class's |
| JobClass.OptionsOfChain | lib/sidekiq_robust_job/setter_proxy_job.rb:16-18 | the options of a chain of proxies are the worker's options merged with each layer of custom options in turn |
| JobClass.OutermostOverrideWins | lib/sidekiq_robust_job/setter_proxy_job.rb:16-18 | the outermost `set` wins for its keys; a key no layer overrides keeps the worker's value or stays absent |
| JobClass.QueueOf | lib/sidekiq_robust_job/sidekiq_job_manager.rb:61 | the queue is the "queue" option as a string, "default" when absent |
| JobClass.RescheduleInterval | lib/sidekiq_robust_job/model.rb:65 | the reschedule interval is the "reschedule_interval_in_seconds" option, 5 seconds when absent |
| JobClass.PersistSelfDroppedJobs | lib/sidekiq_robust_job/sidekiq_job_manager.rb:91-93 | records persist before conflict resolution unless "persist_self_dropped_jobs" is set to false; absent means true |
| DigestGenerator.Join | lib/sidekiq_robust_job/digest_generator.rb:11 | joining no arguments gives the empty string, one argument gives itself |
| DigestGenerator.Preimage | lib/sidekiq_robust_job/digest_generator.rb:11 | the hashed text starts with the class name and a dash; with no arguments it is exactly that |
| DigestGenerator.SplitJoin | lib/sidekiq_robust_job/digest_generator.rb:11 | splitting a dash-joined list of dash-free pieces gives the pieces back |
| DigestGenerator.PreimageInjective | lib/sidekiq_robust_job/digest_generator.rb:11 | for dash-free class names and non-empty lists of dash-free arguments, equal preimages mean equal class and arguments |
| DigestGenerator.GenerateInjective | lib/sidekiq_robust_job/digest_generator.rb:10-12 | with a collision-free hash backend, two jobs with dash-free class names and non-empty lists of dash-free arguments get equal digests exactly when class and arguments are equal |
| DigestGenerator.PreimageExample | spec/sidekiq_robust_job/digest_generator_spec.rb:18-42 | "Object" with two arguments hashes "Object-argument_1-argument_2"; with none, "Object-" |
| DigestGenerator.PreimageCollisions | lib/sidekiq_robust_job/digest_generator.rb:11 | distinct argument lists can share a digest: ["a-b"] and ["a", "b"], [""] and [] |
| UniquenessStrategy.NameInjective | lib/sidekiq_robust_job/uniqueness_strategy.rb:3-17 | the four tags are pairwise distinct |
| UniquenessStrategy.Resolve | lib/sidekiq_robust_job/uniqueness_strategy.rb:29-62 | a tag resolves exactly when it is one of the four names, to the strategy of that name; otherwise UnknownStrategyError for the tag, with its message |
| UniquenessStrategy.ResolveName | lib/sidekiq_robust_job/uniqueness_strategy.rb:29-62 | resolving a strategy's name gives that strategy back |
| EnqueueConflictResolutionStrategy.NameInjective | lib/sidekiq_robust_job/enqueue_conflict_resolution_strategy.rb:3-13 | the three tags are pairwise distinct |
| EnqueueConflictResolutionStrategy.Resolve | lib/sidekiq_robust_job/enqueue_conflict_resolution_strategy.rb:23-43 | a tag resolves exactly when it is one of the three names; otherwise UnknownStrategyError for the tag, with its message |
| EnqueueConflictResolutionStrategy.ResolveName | lib/sidekiq_robust_job/enqueue_conflict_resolution_strategy.rb:23-43 | resolving a strategy's name gives that strategy back |
| JobRecord.IsCompleted | lib/sidekiq_robust_job/model.rb:32-34 | a record is completed exactly when completed_at is set |
| JobRecord.IsDropped | lib/sidekiq_robust_job/model.rb:36-38 | a record is dropped exactly when dropped_at is set |
| JobRecord.IsUnprocessable | lib/sidekiq_robust_job/model.rb:28-30 | a record is unprocessable exactly when it is completed or dropped |
| JobRecord.AfterStart | lib/sidekiq_robust_job/model.rb:40-44 | `started` records the memory reading, adds one attempt and stamps started_at; nothing else changes and processability is kept |
| JobRecord.AfterComplete | lib/sidekiq_robust_job/model.rb:46-55 | `completed` records memory after and the change since start, stamps completed_at and clears drop and failure columns; the record is then completed, not dropped, unprocessable |
| JobRecord.AfterFail | lib/sidekiq_robust_job/model.rb:57-61 | `failed` records error class, message and failed_at and nothing else; completion and drop state are kept |
| JobRecord.AfterDrop | lib/sidekiq_robust_job/model.rb:70-73 | `drop` stamps dropped_at and the dropper id; the record is then dropped and unprocessable |
| JobRecord.WithSidekiqData | lib/sidekiq_robust_job/model.rb:85-88 | only execute_at and the Sidekiq jid change |
| JobRecord.CompletionDominates | lib/sidekiq_robust_job/model.rb:28-55 | a failure after completion leaves the record unprocessable; a completion after a drop and a failure clears both |
| JobRecord.PresenceValid | lib/sidekiq_robust_job/model.rb:6 | job_class, digest and queue are present (not blank) and enqueued_at is set |
| JobRecord.ValidForCreate | lib/sidekiq_robust_job/model.rb:6-21 | on insert, presence holds and the uniqueness tag is no_uniqueness, until_executing or until_executed and the conflict tag is do_nothing, drop_self or replace |
| JobRecord.CreatableTagsResolve | lib/sidekiq_robust_job/model.rb:6-21 | every tag a record may be created with resolves; while_executing resolves but cannot be created |
| JobRecord.UpdatesKeepPresence | lib/sidekiq_robust_job/model.rb:6 | no setter empties a presence-validated column |
| JobRecord.ReschedulePush | lib/sidekiq_robust_job/model.rb:63-68 | the reschedule push carries the record id, the class's queue, and now plus the class's interval (5 s by default) |
| JobRecord.PushReschedule | lib/sidekiq_robust_job/model.rb:63-68 | exactly that push is handed to the transport; the jid is its position, or nil when refused |
| JobRecord.Job.Load | lib/sidekiq_robust_job/repository.rb:15-17 | an object loaded from a row holds exactly that row's values |
| JobRecord.Job.AssignInsertData | lib/sidekiq_robust_job/repository.rb:19-21 | an insert gives the object the new id and created_at and changes nothing else |
| JobRecord.Job.Started | lib/sidekiq_robust_job/model.rb:40-44 | the in-memory record becomes AfterStart of the old one |
| JobRecord.Job.Completed | lib/sidekiq_robust_job/model.rb:46-55 | becomes AfterComplete; without a start reading, memory after is set and a TypeError is raised |
| JobRecord.Job.Failed | lib/sidekiq_robust_job/model.rb:57-61 | becomes AfterFail of the old record |
| JobRecord.Job.Drop | lib/sidekiq_robust_job/model.rb:70-73 | becomes AfterDrop of the old record |
| JobRecord.Job.AssignSidekiqData | lib/sidekiq_robust_job/model.rb:85-88 | becomes WithSidekiqData of the old record |
| JobRecord.Job.Reschedule | lib/sidekiq_robust_job/model.rb:63-68 | hands the record's reschedule push to the transport |
| JobsRepository.UnprocessedForDigest | lib/sidekiq_robust_job/repository.rb:37-43 | exactly the rows with the digest, neither completed nor dropped, other than the excluded id |
| JobsRepository.NotStartedForDigest | lib/sidekiq_robust_job/enqueue_conflict_resolution_strategy/replace.rb:4-10 | exactly those unprocessed rows that have not started |
| JobsRepository.MissedJobs | lib/sidekiq_robust_job/repository.rb:31-35 | exactly the rows with completed_at, dropped_at and failed_at unset for which the policy holds |
| JobsRepository.DroppedTable | lib/sidekiq_robust_job/repository.rb:45-52 | the chosen rows are dropped by the dropper, every other row is kept, no row appears or disappears |
| JobsRepository.DropByDigest | lib/sidekiq_robust_job/repository.rb:45-52 | the bulk drop as a table: the rows the unprocessed query for the digest finds are dropped by the dropper at now |
| JobsRepository.DropByDigestEffect | lib/sidekiq_robust_job/repository.rb:45-52 | the bulk drop stamps every unprocessed row with the digest (except the excluded one) and leaves all others |
| JobsRepository.DropByDigestEmptiesQuery | lib/sidekiq_robust_job/repository.rb:45-52 | afterwards the unprocessed query for the digest is empty |
| JobsRepository.DropByDigestIdempotent | lib/sidekiq_robust_job/repository.rb:45-52 | a second bulk drop changes nothing |
| JobsRepository.NotStartedDropSparesStarted | lib/sidekiq_robust_job/enqueue_conflict_resolution_strategy/replace.rb:4-10 | dropping the not-started duplicates never touches a started row |
| JobsRepository.DroppedTableValid | lib/sidekiq_robust_job/repository.rb:45-52 | dropping keeps every row keyed by its id and presence-valid |
| JobsRepository.SaveResult | lib/sidekiq_robust_job/repository.rb:19-21 | save: an unsaved record is inserted under the next id with created_at when it passes the create validations, otherwise RecordInvalid and nothing written; a saved record unchanged from its row writes nothing; a changed one is written when presence holds, otherwise RecordInvalid |
| JobsRepository.SaveResultEffect | lib/sidekiq_robust_job/repository.rb:19-21 | a successful save leaves the record stored under its id, other rows untouched and the table valid; a failed save changes nothing; saving again is a no-op |
| JobsRepository.Repository.Find | lib/sidekiq_robust_job/repository.rb:15-17 | a present id gives a fresh object holding the row; an absent id gives nothing |
| JobsRepository.Repository.Build | lib/sidekiq_robust_job/repository.rb:27-29 | a fresh object holding the attributes, table untouched |
| JobsRepository.Repository.Save | lib/sidekiq_robust_job/repository.rb:19-21 | an unsaved valid record is inserted under the next id with created_at; an invalid one raises RecordInvalid; an unchanged record writes nothing; a changed one is updated if presence-valid |
| JobsRepository.Repository.Create | lib/sidekiq_robust_job/repository.rb:23-25 | a valid record is inserted under the next id, an invalid one raises RecordInvalid and writes nothing |
| JobsRepository.Repository.DropAll | lib/sidekiq_robust_job/repository.rb:47-50 | dropping and saving the given rows one by one yields DroppedTable |
| JobsRepository.Repository.DropOne | lib/sidekiq_robust_job/repository.rb:48-49 | one row is dropped and saved |
| JobsRepository.Repository.DropUnprocessedJobsByDigest | lib/sidekiq_robust_job/repository.rb:45-52 | the table becomes DropByDigest of the old table |
| JobsRepository.Repository.DropNotStartedJobsByDigest | lib/sidekiq_robust_job/enqueue_conflict_resolution_strategy/replace.rb:5-9 | the not-started duplicates are dropped by the dropper (see Findings) |
| JobsRepository.Repository.Rollback | lib/sidekiq_robust_job/repository.rb:11-13 | a failed transaction restores the table as it was |
| Sidekiq.Transport.Schedule | lib/sidekiq_robust_job/sidekiq_job_manager.rb:16 | an accepted push is appended and its position is the jid; a refused one gives nil and changes nothing |
| UniquenessStrategies.AfterPayload | lib/sidekiq_robust_job/uniqueness_strategy/base.rb:20-31 | a payload raising a StandardError marks the record failed, a returning one completes it, one raising outside StandardError leaves it as it was; id, digest, attempts and start are kept |
| UniquenessStrategies.PayloadOutcome | lib/sidekiq_robust_job/uniqueness_strategy/base.rb:20-31 | the strategy returns exactly when the payload returned and completion succeeded; a payload error, rescued or not, is raised again |
| UniquenessStrategies.FinalizedTable | lib/sidekiq_robust_job/uniqueness_strategy/base.rb:20-31 | only the record's own row changes, to the finalized record when it is saved |
| UniquenessStrategies.PerformJobAndFinalize | lib/sidekiq_robust_job/uniqueness_strategy/base.rb:20-31 | the payload runs once; the record and table become AfterPayload and FinalizedTable; the outcome is PayloadOutcome; an exception outside StandardError is raised again with nothing recorded or saved |
| UniquenessStrategies.AbortedRowIsSwept | lib/sidekiq_robust_job/uniqueness_strategy/base.rb:20-31 | a run cut short outside StandardError leaves its row unchanged, so the missed-jobs sweep still finds it when the policy does; a failed run is marked failed and is never swept |
| UniquenessStrategies.DropUnprocessedJobs | lib/sidekiq_robust_job/uniqueness_strategy/base.rb:33-39 | the record's unprocessed duplicates are dropped by its id |
| UniquenessStrategies.Lock | lib/sidekiq_robust_job/uniqueness_strategy/base.rb:41-43 | the lock is asked on the digest with the record's TTL |
| UniquenessStrategies.Unlock | lib/sidekiq_robust_job/uniqueness_strategy/base.rb:41-43 | the lock on the digest is released when the block ends |
| UniquenessStrategies.ExecuteNoUniqueness | spec/sidekiq_robust_job/uniqueness_strategy/no_uniqueness_spec.rb:62-105 | no lock: the payload runs once, the job becomes AfterPayload of the old record, nothing is dropped or pushed; outcome, table, trace and pushes are those StrategyOutcome, StrategyTable, StrategyTrace and StrategyPushes give for NoUniqueness |
| UniquenessStrategies.MissLock | lib/sidekiq_robust_job/uniqueness_strategy/base.rb:41-43 | a refused lock logs the miss and pushes one reschedule of the record (unless the transport refuses it); the table is not touched |
| UniquenessStrategies.ExecuteWhileExecuting | lib/sidekiq_robust_job/uniqueness_strategy/while_executing.rb:4-12 | with the lock: lock, payload, release, the job becomes AfterPayload of the old record, nothing pushed; without it: the record is rescheduled and nothing else happens (the WhileExecuting case of the Strategy* functions) |
| UniquenessStrategies.HoldUntilExecuted | lib/sidekiq_robust_job/uniqueness_strategy/until_executed.rb:6-9 | inside a granted lock: payload (the job becomes AfterPayload), then the duplicates dropped only when it returned, then the release |
| UniquenessStrategies.ExecuteUntilExecuted | lib/sidekiq_robust_job/uniqueness_strategy/until_executed.rb:4-13 | with the lock: payload (the job becomes AfterPayload) then, on success, the duplicates are dropped, all inside the lock; on failure no drop; without the lock: reschedule only (the UntilExecuted case of the Strategy* functions) |
| UniquenessStrategies.HoldUntilExecuting | lib/sidekiq_robust_job/uniqueness_strategy/until_executing.rb:6-8 | inside a granted lock: the duplicates are dropped, then the lock is released |
| UniquenessStrategies.ExecuteUntilExecuting | lib/sidekiq_robust_job/uniqueness_strategy/until_executing.rb:4-13 | with the lock: duplicates dropped inside the lock, payload after release, the job becomes AfterPayload; without it: reschedule only (corrected, see Findings; the UntilExecuting case of the Strategy* functions) |
| UniquenessStrategies.ExecuteUntilExecutingAsWritten | lib/sidekiq_robust_job/uniqueness_strategy/until_executing.rb:4-13 | without the lock and with the reschedule refused, the payload still runs outside any lock |
| UniquenessStrategies.RunsPayload | lib/sidekiq_robust_job/uniqueness_strategy/while_executing.rb:4-12 | the payload runs under no_uniqueness always, under a locking strategy only when the lock is granted |
| UniquenessStrategies.StrategyOutcome | lib/sidekiq_robust_job/uniqueness_strategy.rb:29-62 | a strategy's outcome is PayloadOutcome when the payload runs, and a plain return after a missed lock (with the corrected strategies, see Findings) |
| UniquenessStrategies.StrategyTable | lib/sidekiq_robust_job/uniqueness_strategy.rb:29-62 | a strategy's table: no_uniqueness and while_executing only finalize the job's row; until_executed finalizes then drops duplicates when the payload returned; until_executing drops then finalizes; a missed lock leaves the table (with the corrected strategies, see Findings) |
| UniquenessStrategies.StrategyTrace | lib/sidekiq_robust_job/uniqueness_strategy.rb:29-62 | a strategy's lock, payload, drop, release and miss events in the order its source performs them (with the corrected strategies, see Findings) |
| UniquenessStrategies.StrategyPushes | lib/sidekiq_robust_job/uniqueness_strategy/while_executing.rb:4-12 | a missed lock adds the record's reschedule push, unless refused; otherwise no push |
| UniquenessStrategies.StrategyTraceRunsPayload | lib/sidekiq_robust_job/uniqueness_strategy.rb:29-62 | the payload runs exactly when there is no uniqueness or the lock was granted; a lock is released exactly when one was granted; a miss is logged exactly when the payload does not run |
| UniquenessStrategies.StrategyTraceDrops | lib/sidekiq_robust_job/uniqueness_strategy.rb:29-62 | duplicates are dropped only under a granted lock, by UntilExecuting always and before its payload, by UntilExecuted only after a payload that returned |
| UniquenessStrategies.StrategyTableUntouched | lib/sidekiq_robust_job/uniqueness_strategy.rb:29-62 | a missed lock leaves the table unchanged; NoUniqueness and WhileExecuting change no row but the job's |
| UniquenessStrategies.CombinedTablesAgree | lib/sidekiq_robust_job/uniqueness_strategy/base.rb:20-39 | finalizing, dropping, or both in either order keep the ids, the rows of other digests, and the record's attempts and start |
| UniquenessStrategies.StrategyTablesAgree | lib/sidekiq_robust_job/uniqueness_strategy.rb:29-62 | every strategy keeps the table's ids, the rows of other digests, and the record's attempts and start |
| UniquenessStrategies.Execute | lib/sidekiq_robust_job/model.rb:75-79 | the outcome, table, trace and pushes are those of the given strategy (StrategyOutcome, StrategyTable, StrategyTrace, StrategyPushes); when the payload runs the job becomes AfterPayload; whatever strategy runs, ids, other digests and the record's attempts and start are kept (with the corrected strategies, see Findings) |
| EnqueueConflictResolutions.ResolvedRecord | lib/sidekiq_robust_job/enqueue_conflict_resolution_strategy/drop_self.rb:4-8 | drop_self drops the new record by its own id when an unprocessed duplicate exists; every other strategy leaves it |
| EnqueueConflictResolutions.ResolvedTable | lib/sidekiq_robust_job/enqueue_conflict_resolution_strategy/replace.rb:4-10 | replace drops the not-started duplicates by the new record's id (corrected, see Findings); every other strategy leaves the table |
| EnqueueConflictResolutions.DropSelfEffect | lib/sidekiq_robust_job/enqueue_conflict_resolution_strategy/drop_self.rb:4-8 | the new record is dropped by its own id exactly when another unprocessed record has its digest; the table is untouched |
| EnqueueConflictResolutions.ReplaceEffect | lib/sidekiq_robust_job/enqueue_conflict_resolution_strategy/replace.rb:4-10 | every unprocessed, not started duplicate is dropped by the new record; all other rows and the record are kept |
| EnqueueConflictResolutions.ReplaceLeavesNoWaitingDuplicate | lib/sidekiq_robust_job/enqueue_conflict_resolution_strategy/replace.rb:4-10 | after replace no not-started duplicate is waiting |
| EnqueueConflictResolutions.DoNothingEffect | spec/sidekiq_robust_job/enqueue_conflict_resolution_strategy/do_nothing_spec.rb:2-13 | neither record nor table changes |
| EnqueueConflictResolutions.ResolutionKeepsRecord | lib/sidekiq_robust_job/enqueue_conflict_resolution_strategy/drop_self.rb:4-8 | no strategy changes the record's id or completion, or breaks its validity |
| EnqueueConflictResolutions.ResolutionKeepsTable | lib/sidekiq_robust_job/enqueue_conflict_resolution_strategy/replace.rb:4-10 | no strategy adds or removes rows, touches the record's own row, or breaks the table's validity |
| EnqueueConflictResolutions.ExecuteDoNothing | spec/sidekiq_robust_job/enqueue_conflict_resolution_strategy/do_nothing_spec.rb:2-13 | the state is ResolvedRecord and ResolvedTable of do nothing |
| EnqueueConflictResolutions.ExecuteDropSelf | lib/sidekiq_robust_job/enqueue_conflict_resolution_strategy/drop_self.rb:4-8 | the in-memory record is dropped when a duplicate waits; the table is not written |
| EnqueueConflictResolutions.ExecuteReplace | lib/sidekiq_robust_job/enqueue_conflict_resolution_strategy/replace.rb:4-10 | the table becomes ResolvedTable of replace (corrected, see Findings) |
| EnqueueConflictResolutions.ExecuteReplaceAsWritten | lib/sidekiq_robust_job/enqueue_conflict_resolution_strategy/replace.rb:5 | the repository has no such method: NoMethodError, with its message |
| EnqueueConflictResolutions.ReplaceAsWrittenKeepsDuplicate | lib/sidekiq_robust_job/enqueue_conflict_resolution_strategy/replace.rb:4-10 | on a repository holding a not-started duplicate, the as-written replace raises NoMethodError and the duplicate is still waiting; the intended replace leaves none waiting |
| EnqueueConflictResolutions.Execute | lib/sidekiq_robust_job/sidekiq_job_manager.rb:75-79 | the resolved strategy leaves ResolvedRecord and ResolvedTable (with the corrected strategies, see Findings) |
| SidekiqJobManager.NewRecord | lib/sidekiq_robust_job/sidekiq_job_manager.rb:55-65 | a new record has the class name, arguments, enqueue time, digest, queue and both strategy tags from the options with their defaults, and is unsaved and unprocessed |
| SidekiqJobManager.DefaultsAreCreatable | lib/sidekiq_robust_job/sidekiq_job_manager.rb:55-65 | a worker without options gets queue "default", no_uniqueness and do_nothing, and the record passes validation |
| SidekiqJobManager.TransactionResult | lib/sidekiq_robust_job/sidekiq_job_manager.rb:68-71 | the transaction as a value: an unknown conflict tag raises with nothing written; otherwise the strategy's record and table, then a save unless the record was dropped and dropped records are not kept; a failed save restores the table (with the corrected strategies, see Findings) |
| SidekiqJobManager.CreateResult | lib/sidekiq_robust_job/sidekiq_job_manager.rb:55-73 | create_job as a value: when dropped records are kept the record is saved first and a failed save ends there; then the transaction (with the corrected strategies, see Findings) |
| SidekiqJobManager.ResolveConflictAndSave | lib/sidekiq_robust_job/sidekiq_job_manager.rb:68-71 | resolve, then save when persisting or not dropped; any error rolls the table back (TransactionResult) (with the corrected strategies, see Findings) |
| SidekiqJobManager.CreateJob | lib/sidekiq_robust_job/sidekiq_job_manager.rb:55-73 | build, save first when persisting, then the transaction (CreateResult) (with the corrected strategies, see Findings) |
| SidekiqJobManager.EnqueuePushMatchesRecord | lib/sidekiq_robust_job/sidekiq_job_manager.rb:13-38 | the push perform_async/perform_in/perform_at makes and the record create_job builds for the same class name the same worker and the same queue |
| SidekiqJobManager.SetRoutesQueue | lib/sidekiq_robust_job/sidekiq_job_manager.rb:40-42 | `set(queue: q)` routes both record and push to q and keeps class name, digest, strategies and persistence |
| SidekiqJobManager.EnqueueFrom | lib/sidekiq_robust_job/sidekiq_job_manager.rb:13-38 | after creation: an error, an unprocessable record or one without an id gives nil and no push; otherwise one push of the record id, and the row saved with the due time and the transport's handle (nil when refused) |
| SidekiqJobManager.EnqueueResult | lib/sidekiq_robust_job/sidekiq_job_manager.rb:13-38 | perform_async, perform_in and perform_at as a value: build the record, create it, then EnqueueFrom (with the corrected strategies, see Findings) |
| SidekiqJobManager.EnqueueFromEffect | lib/sidekiq_robust_job/sidekiq_job_manager.rb:13-38 | at most one push, carrying the record id; none after an error or for an unprocessable record; otherwise the row stores due time and jid, and nothing is pushed exactly when refused |
| SidekiqJobManager.EnqueueResultEffect | lib/sidekiq_robust_job/sidekiq_job_manager.rb:13-38 | a created record that is not dropped is always saved, so it is pushed unless refused and its row holds due time and jid |
| SidekiqJobManager.Enqueue | lib/sidekiq_robust_job/sidekiq_job_manager.rb:13-38 | jid, record, table and pushes are EnqueueResult of the old state (with the corrected strategies, see Findings) |
| SidekiqJobManager.PerformAsync | lib/sidekiq_robust_job/sidekiq_job_manager.rb:13-20 | an enqueue with no delay, due now (with the corrected strategies, see Findings) |
| SidekiqJobManager.PerformIn | lib/sidekiq_robust_job/sidekiq_job_manager.rb:22-29 | an enqueue at now plus the interval, due then (with the corrected strategies, see Findings) |
| SidekiqJobManager.PerformAt | lib/sidekiq_robust_job/sidekiq_job_manager.rb:31-38 | an enqueue at the given time, due then (with the corrected strategies, see Findings) |
| SidekiqJobManager.Perform | lib/sidekiq_robust_job/sidekiq_job_manager.rb:44-51 | an absent id raises RecordNotFound; an unprocessable record is left alone; otherwise the row gets one more attempt and a start time before the strategy runs, and an unknown tag raises after that save; a known tag runs that strategy on the started record, with the outcome, table, trace and pushes the Strategy* functions give (with the corrected strategies, see Findings) |
| SidekiqJobManager.CreatedProcessableIsSaved | lib/sidekiq_robust_job/sidekiq_job_manager.rb:55-73 | creation never completes a record; a created record that is not dropped is stored under its id |
| SidekiqJobManager.PersistedTransaction | lib/sidekiq_robust_job/sidekiq_job_manager.rb:68-71 | for a record already saved, the transaction never fails and leaves the record stored |
| SidekiqJobManager.UnpersistedTransaction | lib/sidekiq_robust_job/sidekiq_job_manager.rb:85-89 | without persist_self_dropped_jobs a dropped record is never inserted; a kept one is inserted under the next id |
| SidekiqJobManager.CreateResultStore | lib/sidekiq_robust_job/sidekiq_job_manager.rb:67 | a valid record of a persisting class is stored under the next id; a failed creation leaves the table |
| SidekiqJobManager.UnpersistedDropWritesNothing | lib/sidekiq_robust_job/sidekiq_job_manager.rb:85-89 | a record dropped by its own strategy, of a class not persisting such records, writes nothing |
| SidekiqJobManager.UnprocessedIgnoresInserted | lib/sidekiq_robust_job/enqueue_conflict_resolution_strategy/drop_self.rb:5 | excluding its own id, the inserted record sees the same duplicates as the unsaved one |
| SidekiqJobManager.TransactionDropSelf | lib/sidekiq_robust_job/sidekiq_job_manager.rb:68-71 | with drop_self, the record is dropped by itself exactly when a duplicate waits, and stored unless dropped and not persisting |
| SidekiqJobManager.CreateDropSelf | lib/sidekiq_robust_job/sidekiq_job_manager.rb:55-73 | a new drop_self record is dropped exactly when an unprocessed duplicate exists, by its new id when persisting, by nil otherwise |
| SidekiqJobManager.CreateDropSelfKeepsRows | lib/sidekiq_robust_job/sidekiq_job_manager.rb:55-73 | creating a drop_self record never changes an existing row |
| SidekiqJobManager.TransactionReplace | lib/sidekiq_robust_job/sidekiq_job_manager.rb:68-71 | with replace, the record is stored, not dropped, and exactly the not-started duplicates are dropped by it |
| SidekiqJobManager.CreateReplace | lib/sidekiq_robust_job/sidekiq_job_manager.rb:55-73 | a new replace record is stored under the next id; exactly the not-started duplicates are dropped, by its id when persisting, by nil otherwise |
| MissedJobsSweep.ReschedulePushes | lib/sidekiq_robust_job/missed_jobs.rb:22-24 | a sweep pushes at most once per record |
| MissedJobsSweep.ReschedulePushesSound | lib/sidekiq_robust_job/missed_jobs.rb:22-24 | every push of a sweep is an accepted reschedule of one of its records |
| MissedJobsSweep.ReschedulePushesComplete | lib/sidekiq_robust_job/missed_jobs.rb:22-24 | every record whose reschedule is accepted is pushed |
| MissedJobsSweep.ReschedulePushesAllAccepted | lib/sidekiq_robust_job/missed_jobs.rb:22-24 | with no refusals, exactly one push per record |
| MissedJobsSweep.MissedJobs.All | lib/sidekiq_robust_job/missed_jobs.rb:18-20 | the first call answers the repository's missed jobs; later calls repeat it |
| MissedJobsSweep.MissedJobs.Invoke | lib/sidekiq_robust_job/missed_jobs.rb:22-24 | every record of `all` is rescheduled once, in some order, and no other |
| MissedJobsSweep.MissedJobsExample | spec/sidekiq_robust_job/perform_missed_jobs_job_spec.rb:54-70 | with a one-hour policy only the unfinished record created 65 minutes ago is missed |
| RobustJobConfiguration.DefaultMissedJobPolicyEdge | spec/sidekiq_robust_job/configuration_spec.rb:143-153 | the default policy is strict: 181 minutes old is missed, 180 and 179 are not |
| RobustJobConfiguration.Configuration.SetLocker | lib/sidekiq_robust_job/configuration.rb:5 | only the locker changes, and the getter then answers the value set |
| RobustJobConfiguration.Configuration.SetMemoryMonitor | lib/sidekiq_robust_job/configuration.rb:5 | only the memory monitor changes, and the getter then answers the value set |
| RobustJobConfiguration.Configuration.SetSidekiqJobModel | lib/sidekiq_robust_job/configuration.rb:5 | only the job model changes, and the getter then answers the value set |
| RobustJobConfiguration.Configuration.SetClock | lib/sidekiq_robust_job/configuration.rb:5 | only the clock changes |
| RobustJobConfiguration.Configuration.Clock | lib/sidekiq_robust_job/configuration.rb:17-19 | Time unless set, stored on first use |
| RobustJobConfiguration.Configuration.SetDigestGeneratorBackend | lib/sidekiq_robust_job/configuration.rb:5 | only the digest backend changes |
| RobustJobConfiguration.Configuration.DigestGeneratorBackend | lib/sidekiq_robust_job/configuration.rb:21-23 | MD5 unless set, stored on first use |
| RobustJobConfiguration.Configuration.SetLockTtlProc | lib/sidekiq_robust_job/configuration.rb:8-11 | a non-callable raises ArgumentError "must be lambda-like object!" and keeps the old value; a callable is stored |
| RobustJobConfiguration.Configuration.LockTtlProc | lib/sidekiq_robust_job/configuration.rb:13-15 | 120000 for every record unless set, stored on first use |
| RobustJobConfiguration.Configuration.SetMissedJobPolicy | lib/sidekiq_robust_job/configuration.rb:29-32 | a non-callable raises ArgumentError and keeps the old value; a callable is stored |
| RobustJobConfiguration.Configuration.MissedJobPolicy | lib/sidekiq_robust_job/configuration.rb:34-36 | the set policy, or: created more than three hours before now, strictly; not stored |
| RobustJobConfiguration.Configuration.SetMissedJobCron | lib/sidekiq_robust_job/configuration.rb:38-42 | a line that does not parse raises ArgumentError and keeps the old value; one that parses is stored |
| RobustJobConfiguration.Configuration.MissedJobCron | lib/sidekiq_robust_job/configuration.rb:44-46 | the set line, or "0 */3 * * *" |
| RobustJobConfiguration.FreshDefaults | lib/sidekiq_robust_job/configuration.rb:3-46 | a fresh configuration has no locker, monitor or model and the three-hourly cron, also after a rejected cron line |

## Left out

- Sidekiq itself: the queues, the Redis round trip, the server middleware and the `perform` entry point of a worker. The transport only records accepted pushes and which pushes its client middleware refuses.
- The locker: its TTL expiry and any race between two processes. The lock outcome is the parameter `acquired`; a lock held elsewhere is only observed through it.
- Concurrency between enqueues. Two enqueues racing past each other's conflict check are not modelled; every operation runs alone.
- ActiveRecord mechanics: `updated_at`, `lock!`, batching in `find_each`, and the database's own id sequence (ids are `nextId`, counting from 1). Dirty tracking is approximated: a save writes exactly when the record differs from its stored row.
- JobsRepository.Repository.Rollback: the transaction rolls back only after a save that failed validation, which assigns no id. The table is restored; the in-memory record keeps what the conflict strategy assigned to it (`dropped_at`, `dropped_by_job_id`). ActiveRecord's restoring of the object's own id and `new_record?` state on rollback is not modelled.
- The MD5 digest and Fugit's cron parser: the digest backend is a function parameter and cron validity a predicate parameter. The error message for an unparsable cron line is the model's own wording.
- Memory readings are integers rather than floats; arguments are strings; `const_get` of a class name is the `classOptions` function.
- JobClass.RescheduleInterval: a non-integer `reschedule_interval_in_seconds` falls back to 5 seconds instead of raising; JobRecord.ReschedulePush, which adds that interval to now, inherits the fallback.
- Basics.Blank: only the six ASCII white-space characters count as blank; ActiveSupport's `blank?` also treats Unicode spaces (such as U+3000 and U+2003) as blank.
- RobustJobConfiguration.Configuration.MissedJobPolicy: the default policy calls a record without `created_at` not missed, where the library would raise on `nil + 3.hours`.
- JobsRepository.Repository.Create: assumes the attributes carry no id, as every caller builds them.
- SidekiqJobManager.Perform, SidekiqJobManager.Enqueue, SidekiqJobManager.CreateJob, SidekiqJobManager.ResolveConflictAndSave, SidekiqJobManager.PerformAsync, SidekiqJobManager.PerformIn, SidekiqJobManager.PerformAt, UniquenessStrategies.Execute and EnqueueConflictResolutions.Execute dispatch to the corrected until_executing and replace strategies (see Findings), not to the code as written. So two behaviours of the library are stated only by the as-written members: (a) under until_executing, with the lock held elsewhere and the reschedule refused, the library runs the payload without the lock, while Perform's ensures give an unchanged table and no payload run; (b) under replace, the library raises NoMethodError from create_job, and when `persist_self_dropped_jobs` is at its default the save at `sidekiq_job_manager.rb:67` has already stored the row, which stays and is never pushed, while CreateJob and Enqueue drop the not-started duplicates and push the new record.
- UniquenessStrategies.Execute: requires the in-memory record to match its stored row, which `perform` establishes by loading and saving it first.
- The NoUniqueness and DoNothing classes are not part of this model's source; their behaviour follows their tests.
- `lib/sidekiq_robust_job/missed_jobs_scheduler.rb` (a Sidekiq::Cron registration), `lib/sidekiq_robust_job/dependencies_container.rb` (wiring only; its line 13 passes `enqueue_conflict_resultion_failure_handler`, which `SidekiqJobManager#initialize` does not accept), `lib/sidekiq_robust_job.rb` (delegation), `enqueue_conflict_resolution_strategy/base.rb` (an abstract `execute`) and the RSpec matcher.
- When `persist_self_dropped_jobs` is false, the new record has no id while its conflict is resolved, so replace drops duplicates with a nil dropper and drop_self drops the record with a nil dropper. The model keeps this behaviour.

## Findings

| source | as written | input that shows it | evidently intended | confidence | as-written member | corrected member |
|---|---|---|---|---|---|---|
| lib/sidekiq_robust_job/uniqueness_strategy/until_executing.rb:9-12 | `job.reschedule and return` returns only when `reschedule` is truthy. When the push is refused, `reschedule` returns nil, so the payload runs after the block, with no lock held. | until_executing record, lock held elsewhere, client middleware refusing the reschedule push | without the lock the job is rescheduled and never runs | not executed | UniquenessStrategies.ExecuteUntilExecutingAsWritten | UniquenessStrategies.ExecuteUntilExecuting |
| lib/sidekiq_robust_job/enqueue_conflict_resolution_strategy/replace.rb:5 | calls `jobs_repository.drop_not_started_jobs_by_digest`, which `Repository` does not define, so every enqueue with the replace strategy raises NoMethodError | any record with enqueue_conflict_resolution_strategy "replace" and one waiting duplicate | drop the unprocessed, not-started records with the digest, by the new record's id | not executed | EnqueueConflictResolutions.ExecuteReplaceAsWritten | EnqueueConflictResolutions.ExecuteReplace |

The corrected replace uses `JobsRepository.Repository.DropNotStartedJobsByDigest`, which this model adds to the repository. Its behaviour is inferred from the method's name and the strategy's tests: the unprocessed rows with the digest that have not started, other than the new record, are dropped by the new record's id.
