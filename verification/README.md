# LakeMind: a model of the control plane's state and its proofs

LakeMind's services, background loops and clients change state that lives in tables, caches and logs. This
project models the parts of that state with the most ways to go wrong and proves what every run keeps.

Where the program works by changing things step by step, the model does too: tables and dictionaries are
fields of classes, services are methods that write them statement by statement, and each method is proved equal
to a function on the state. The properties are then proved about those functions over whole runs, in which
everything outside the program (Ray, the clock, handlers, row order, other threads, crashes of a client) is an
arbitrary input. The modules, by subject:

- **Job runtime** (`JobTables`, `JobService`, `JobSyncService`, `JobSafety`, `JobCallSafety`, `JobSyncSafety`,
  `JobRuns`, `JobRecovery`, `JobConcurrency`, `JobSyncLimit`, `JobStranded`, `JobVerdicts`,
  `JobCallOutcomes`, `Numbering`, `JobStateMachine`): two services write the same three
  tables. A job's row is safe to change only together with its attempts; the joint invariant says how.
- **Skill references and log redaction** (`SkillRef`, `LogRedact`, `PyStr`): both rest on Python's left-to-right
  replacement, whose effect on other substrings is proved once.
- **Outbox** (`Outbox`, `OutboxSafety`): routing, retries with exponential backoff, a termination measure.
- **Event log and stream** (`EventLog`, `EventStream`): paged polling with a cursor, and resuming with the id of
  the last message, refine filtering the log.
- **Schema conversion** (`SchemaConvert`): a recursive translation that draws ids from a global counter.
- **Tokens** (`Tokens`, `TokenSafety`, `TokenOutcomes`): which tokens are accepted after any sequence of tenant calls.
- **Configuration** (`Configuration`, `ConfigurationSafety`): revisions, activation, rollback, effective values.
- **Model registry** (`ModelRegistry`, `RegistryCoherence`, `RegistryOutcomes`, `RegistrySeed`,
  `SeedOutcomes`): three engines as caches of the tables, and seeding from the configuration file.
- **Embedding models** (`EmbeddingLock`): double-checked locking as a state machine over threads.
- **Meeting agent** (`TaskTable`, `PollJob`): an append-only table that stands for a map, and a bounded polling loop.

Rows are kept in insertion order and identified by their position (or, where rows are deleted, by a number from a
counter), so fresh ids are new by construction. Every service call is one atomic step, except that a cancel may
stop after its first write.

## What the code does differently from what one might expect

- `_finalize_job` does nothing for CANCELLED, because the transition table has no edge from RUNNING to CANCELLED: a
  job whose attempt Ray reports as STOPPED stays open without a live attempt until a user cancels it or a later
  recovery closes it (`JobStranded.StrandedStays`, `JobStranded.StrandedIsClosed`). So a recovery that meets STOPPED
  is not the last word (`JobRecovery.RecoveryIdempotence` says exactly when).
- The sync asks the transition table for a job that is RUNNING, whatever its status, or not at all. So a running job
  may go back to QUEUED, and a QUEUED one may end as SUCCEEDED or LOST (`JobVerdicts.SyncFollowsTableExactly`).
- `submit` closes the job when the backend refuses it, `retry` leaves it QUEUED; and `retry` does not look at the
  limit of running jobs (`JobConcurrency.RetryLimit`, `JobConcurrency.RetryExceedsLimit`). Nor does a sync that finds
  requeued jobs running again (`JobSyncLimit.SyncLimit`, `JobSyncLimit.RequeueExceedsLimit`).
- `update_model` unloads by the row it has just written, so a renamed or moved model leaves its old entry live
  (`RegistryCoherence.UpdateIsExactIff`, `RegistryCoherence.RenameLeavesOldName`).
- The recognizer registers only the two SenseVoice providers, and a refusal is only logged: a local speech model of
  any other provider, the default `faster-whisper` included, stays enabled without being loaded
  (`RegistryCoherence.EnabledButNotLive`; `RegistryCoherence.LiveExactly` says when a model is live). After a rename
  its name may even answer with the entry of an earlier model (`RegistryCoherence.RefusedNameCanAnswer`).
- A secret that can overlap the mask may survive redaction (`LogRedact.OneSecretIsHiddenExactly`).
- `embed` reads the model outside the lock, and misses it exactly when `unregister` has removed it since the call
  found it and nobody has stored it again (`EmbeddingLock.ReadMissesExactly`, `EmbeddingLock.ReadCanMiss`).
- `get` takes a scope's category from the text before the colon, `get_effective` by prefix and with the platform's
  values on top (`ConfigurationSafety.EffectiveAgreesWithGet`).

## Model

| member | source | states |
|---|---|---|
| Numbering.MaxIsCount | LakeMindServer/src/lakemind_server/services/job_sync_service.py:28-33 | in a table numbered this way, the largest number of an owner is the number of its rows |
| Numbering.AppendNext | LakeMindServer/src/lakemind_server/services/job_service.py:277-287 | the number both services choose for a new row keeps every owner's rows numbered in order |
| Numbering.ExactlyOneToN | LakeMindServer/src/lakemind_server/services/job_sync_service.py:28-33 | an owner uses exactly the numbers 1 to n, n being the number of its rows |
| Numbering.Increasing | LakeMindServer/src/lakemind_server/services/job_sync_service.py:28-33 | later rows of an owner carry larger numbers, so none is used twice |
| JobTables.FindByKey | LakeMindServer/src/lakemind_server/services/job_service.py:55-61 | finds a job of the tenant with that idempotency key exactly when there is one |
| JobTables.LatestOpen | LakeMindServer/src/lakemind_server/services/job_sync_service.py:114-117 | finds the open attempt of a job with the largest number, or nothing exactly when no attempt of the job is open |
| JobTables.Tables.WriteEvent | LakeMindServer/src/lakemind_server/services/job_sync_service.py:25-41 | appends one event carrying the next number of its job |
| JobService.Service.Submit | LakeMindServer/src/lakemind_server/services/job_service.py:55-182 | a repeated key returns the earlier job and writes nothing; a refusal writes nothing; otherwise the three tables become those of a new job with attempt 1, started, closed as FAILED or left queued by what the backend did |
| JobService.Service.Start | LakeMindServer/src/lakemind_server/services/job_service.py:312-321 | attempt and job become RUNNING, the attempt gets its Ray id and start time, one event is logged |
| JobService.Service.Cancel | LakeMindServer/src/lakemind_server/services/job_service.py:233-264 | refused without a write unless the job may move to CANCELLING or CANCELLED; otherwise the job and every open attempt of it close together, or the job is left CANCELLING when the call stops after its first write |
| JobService.Service.Retry | LakeMindServer/src/lakemind_server/services/job_service.py:272-328 | refused without a write unless the job is FAILED, TIMED_OUT or LOST; otherwise the next attempt is added and the job reopened, started, or left QUEUED with a failed attempt |
| JobSyncService.Service.SyncAll | LakeMindServer/src/lakemind_server/services/job_sync_service.py:43-85 | each attempt that was live at the start is synced once, from the row fetched before the loop, in any order |
| JobSyncService.Service.WriteRow | LakeMindServer/src/lakemind_server/services/job_sync_service.py:54-83 | one round of the loop: what the answer about one fetched row writes |
| JobSyncService.Service.CheckTimeouts | LakeMindServer/src/lakemind_server/services/job_sync_service.py:173-210 | exactly the running attempts of running jobs that are over their timeout are closed, with their jobs |
| JobSyncService.Service.RecoverOnStartup | LakeMindServer/src/lakemind_server/services/job_sync_service.py:105-171 | each job QUEUED, RUNNING or CANCELLING at the start is recovered once, in any order |
| JobSyncService.Service.WriteAttemptStatus | LakeMindServer/src/lakemind_server/services/job_sync_service.py:212-219 | sets the status, the start time once and the end time for SUCCEEDED, FAILED and CANCELLED |
| JobSyncService.Service.WriteFinal | LakeMindServer/src/lakemind_server/services/job_sync_service.py:236-242 | closes an open job and logs it, and does nothing for CANCELLED |
| JobSyncService.Service.WriteLost | LakeMindServer/src/lakemind_server/services/job_sync_service.py:244-259 | closes the attempt as LOST, its job too when it is open, and logs it |
| JobSafety.RewriteKeeps | LakeMindServer/src/lakemind_server/services/job_sync_service.py:53-85 | rewriting an attempt without live rivals together with its job keeps the joint invariant and undoes nothing settled |
| JobSafety.JobAloneKeeps | LakeMindServer/src/lakemind_server/services/job_sync_service.py:118-132 | a job may change without its attempts if it has no live one or does not become terminal |
| JobSafety.InsertNumbered | LakeMindServer/src/lakemind_server/services/job_service.py:277-287 | the attempt that retry adds carries a number above all earlier ones of the job |
| JobCallSafety.NewJobRows | LakeMindServer/src/lakemind_server/services/job_service.py:110-144 | the first attempt of a new job, written with the constant 1, is the next number of its job |
| JobCallSafety.SubmitKeeps | LakeMindServer/src/lakemind_server/services/job_service.py:110-182 | submit keeps the joint invariant and numbering and undoes nothing settled |
| JobCallSafety.RetryKeeps | LakeMindServer/src/lakemind_server/services/job_service.py:272-328 | so does retry |
| JobCallSafety.CancelKeeps | LakeMindServer/src/lakemind_server/services/job_service.py:233-264 | so does cancel, complete or stopped after its first write |
| JobSyncSafety.SyncRowKeeps | LakeMindServer/src/lakemind_server/services/job_sync_service.py:53-83 | syncing one fetched row keeps the invariant, for any answer of Ray |
| JobSyncSafety.LiveJobsDiffer | LakeMindServer/src/lakemind_server/services/job_sync_service.py:47-51 | no two rows fetched by sync belong to the same job, so no fetched row goes stale during the loop |
| JobSyncSafety.SyncAllKeeps | LakeMindServer/src/lakemind_server/services/job_sync_service.py:43-85 | a whole sync keeps the invariant, for any answers and any row order |
| JobSyncSafety.CheckTimeoutsKeeps | LakeMindServer/src/lakemind_server/services/job_sync_service.py:173-210 | so does a timeout check |
| JobSyncSafety.RecoverKeeps | LakeMindServer/src/lakemind_server/services/job_sync_service.py:105-171 | so does recovery on startup |
| JobRuns.StepKeeps | LakeMindServer/src/lakemind_server/services/job_sync_service.py:43-259 | every call of either service keeps the invariant, undoes nothing settled and only appends events |
| JobRuns.RunIsSafe | LakeMindServer/src/lakemind_server/services/job_sync_service.py:43-259 | every state of every run satisfies the invariant and keeps what any earlier state settled |
| JobRuns.OneLiveAttempt | LakeMindServer/src/lakemind_server/services/job_sync_service.py:47-51 | in every reachable state the job of a live attempt is not terminal, and every other attempt of it is not live and has a smaller number |
| JobRuns.NumbersAreExact | LakeMindServer/src/lakemind_server/services/job_service.py:277-294 | in every reachable state attempt numbers of a job are exactly 1..n and its event numbers, written by both services, exactly 1..m, in order |
| JobRuns.SettledForever | LakeMindServer/src/lakemind_server/services/job_sync_service.py:212-259 | over every run SUCCEEDED and CANCELLED jobs and terminal attempts never change, finished_at is set exactly when terminal, every RUNNING attempt has a started_at, which is never overwritten |
| JobRecovery.RecoverJobOutcome | LakeMindServer/src/lakemind_server/services/job_sync_service.py:113-169 | what recovering one job leaves: never CANCELLING, and open only with an attempt that backs it |
| JobRecovery.RecoverySettles | LakeMindServer/src/lakemind_server/services/job_sync_service.py:105-171 | after recovery, for any answers or failures, no job is CANCELLING and every open job has the live attempt it had or one just closed because Ray said STOPPED |
| JobRecovery.RecoveryIdempotence | LakeMindServer/src/lakemind_server/services/job_sync_service.py:105-171 | a second recovery on the same answers changes the tables if and only if Ray said STOPPED about the attempt of a job nobody was cancelling |
| JobConcurrency.SubmitWithin | LakeMindServer/src/lakemind_server/services/job_service.py:92-97 | submit keeps every tenant within the limit |
| JobConcurrency.CalmRunWithinLimit | LakeMindServer/src/lakemind_server/services/job_service.py:92-97 | in every run without retry in which Ray never reports PENDING or QUEUED for a started attempt, each tenant has at most 30 RUNNING jobs and no QUEUED job has an attempt with a Ray id |
| JobConcurrency.RetryLimit | LakeMindServer/src/lakemind_server/services/job_service.py:272-321 | an accepted retry breaks the limit if and only if it is launched for a tenant that is at the limit |
| JobConcurrency.BusyTenant | LakeMindServer/src/lakemind_server/services/job_service.py:92-182 | up to the limit, a tenant can reach any number of RUNNING jobs beside a failed one |
| JobConcurrency.RetryExceedsLimit | LakeMindServer/src/lakemind_server/services/job_service.py:295-321 | a run of submissions and one retry after which a tenant has 31 RUNNING jobs |
| JobSyncLimit.SyncCount | LakeMindServer/src/lakemind_server/services/job_sync_service.py:69-78 | a sync turns as many jobs of a tenant RUNNING as resume and takes away as many as yield |
| JobSyncLimit.SyncLimit | LakeMindServer/src/lakemind_server/services/job_sync_service.py:69-78 | a sync leaves every tenant within the limit if and only if no tenant resumes more jobs than it has room for, counting those that yield |
| JobSyncLimit.RequeueExceedsLimit | LakeMindServer/src/lakemind_server/services/job_sync_service.py:74-78 | a run of submissions and two syncs, without retry, after which a tenant has 31 RUNNING jobs: Ray reports 30 as pending, one more is submitted, Ray reports all as running |
| JobStranded.StrandedStays | LakeMindServer/src/lakemind_server/services/job_sync_service.py:212-242 | in every run, no call but a cancel of the job itself and a recovery touches an open job without a live attempt |
| JobStranded.StrandedIsClosed | LakeMindServer/src/lakemind_server/services/job_sync_service.py:105-171 | and each of those closes it |
| JobVerdicts.SyncRowRows | LakeMindServer/src/lakemind_server/services/job_sync_service.py:54-83 | the attempt and the job after one synced row, answer by answer: SUCCEEDED, FAILED, STOPPED, RUNNING, PENDING, QUEUED, unknown, unreachable |
| JobVerdicts.SyncRowHistory | LakeMindServer/src/lakemind_server/services/job_sync_service.py:54-83 | the events the row writes for its job, and none for another |
| JobVerdicts.SyncOutcome | LakeMindServer/src/lakemind_server/services/job_sync_service.py:43-85 | after a sync, whatever the order, each live attempt and its job have become what the answer about the attempt says, with its events; every job without a live attempt is as it was |
| JobVerdicts.SyncFollowsTableExactly | LakeMindServer/src/lakemind_server/services/job_sync_service.py:43-85 | a sync moves a job along the transition table if and only if it neither takes a running job back to QUEUED nor ends a QUEUED one as SUCCEEDED or LOST |
| JobVerdicts.TimeoutIdsExactly | LakeMindServer/src/lakemind_server/services/job_sync_service.py:175-179 | a timeout check looks at exactly the running attempts of running jobs |
| JobVerdicts.TimeoutOutcome | LakeMindServer/src/lakemind_server/services/job_sync_service.py:173-210 | it closes exactly those that have run longer than their timeout, each with its job and one event; every other attempt and job is as it was |
| JobVerdicts.TimeoutFollowsTable | LakeMindServer/src/lakemind_server/services/job_sync_service.py:173-210 | timing out moves every job along the transition table |
| JobVerdicts.RecoverRows | LakeMindServer/src/lakemind_server/services/job_sync_service.py:134-169 | the attempt and the job after recovering one job with a live attempt, answer by answer |
| JobVerdicts.RecoveryOutcome | LakeMindServer/src/lakemind_server/services/job_sync_service.py:105-171 | after a recovery, whatever the order, every QUEUED, RUNNING or CANCELLING job has become what the answer about its live attempt says, or LOST without one; every other job is as it was |
| JobCallOutcomes.CountRunningIs | LakeMindServer/src/lakemind_server/services/job_service.py:92-95 | the running count is the number of RUNNING jobs of the tenant |
| JobCallOutcomes.SubmitDecision | LakeMindServer/src/lakemind_server/services/job_service.py:76-97 | a submission is refused exactly for an unusable skill, 30 running jobs of the tenant, or a used key |
| JobCallOutcomes.SubmitRows | LakeMindServer/src/lakemind_server/services/job_service.py:110-182 | the new job and its first attempt, as the launch went |
| JobCallOutcomes.SubmitFollowsTable | LakeMindServer/src/lakemind_server/services/job_service.py:110-182 | a new job goes from SUBMITTED to QUEUED and on along the transition table |
| JobCallOutcomes.SubmitEvents | LakeMindServer/src/lakemind_server/services/job_service.py:129-182 | the events of a submission, in order |
| JobCallOutcomes.CancelDecision | LakeMindServer/src/lakemind_server/services/job_service.py:192-236 | a cancel is accepted exactly from the tenant of the job or an administrator and while the job is not terminal |
| JobCallOutcomes.CancelRows | LakeMindServer/src/lakemind_server/services/job_service.py:238-263 | the job and its open attempts become CANCELLED, all others stay; only a RUNNING job passes through CANCELLING |
| JobCallOutcomes.CancelEvents | LakeMindServer/src/lakemind_server/services/job_service.py:243-264 | the events of a cancel, in order |
| JobCallOutcomes.RetryDecision | LakeMindServer/src/lakemind_server/services/job_service.py:192-198 | a retry is accepted exactly from the same callers and for a FAILED, TIMED_OUT or LOST job |
| JobCallOutcomes.RetryRows | LakeMindServer/src/lakemind_server/services/job_service.py:277-328 | the next attempt as the launch went, and the job reopened; a refused launch leaves it QUEUED |
| JobCallOutcomes.RetryEvents | LakeMindServer/src/lakemind_server/services/job_service.py:292-328 | the events of a retry, in order |
| JobCallOutcomes.TerminalLeadsNowhere | LakeMindServer/src/lakemind_server/services/job_state_machine.py:3-29 | the terminal statuses are exactly those without a transition |
| JobCallOutcomes.TenantsAreApart | LakeMindServer/src/lakemind_server/services/job_service.py:192-198 | in every run nothing a tenant calls touches a job of another tenant, its attempts or its events |
| JobCallOutcomes.RepeatedKeyReturnsEarlier | LakeMindServer/src/lakemind_server/services/job_service.py:55-61 | a key once used returns the job it was used for, in every later state |
| JobCallOutcomes.ResubmissionWritesNothing | LakeMindServer/src/lakemind_server/services/job_service.py:55-61 | so a submission repeated with its key changes nothing, whatever happened in between |
| SkillRef.LakeRefParsesBack | LakeMindServer/src/lakemind_server/services/job_service.py:63-75 | lake://skills/name@ver parses back to (name, ver) if and only if ver has no "@" and the rest does not contain the prefix again |
| SkillRef.UnversionedIsLatest | LakeMindServer/src/lakemind_server/services/job_service.py:63-75 | a lake:// reference without a version means the latest |
| SkillRef.PlainPackageIsLatest | LakeMindServer/src/lakemind_server/services/job_service.py:64-71 | a package whose file name holds no version is the latest of its name without .zip |
| SkillRef.VersionIsThreeRuns | LakeMindServer/src/lakemind_server/services/job_service.py:67 | a version is three runs of digits separated by dots, and nothing else is |
| SkillRef.PackageRefParsesBack | LakeMindServer/src/lakemind_server/services/job_service.py:64-71 | s3://.../name-vX.Y.Z.zip parses back to (name, X.Y.Z) for every non-empty name without slash or newline, also when the name contains version text |
| SkillRef.FileNameInjective | LakeMindServer/src/lakemind_server/services/job_service.py:66-69 | one package file name stands for one name and one version |
| SkillRef.TailTooLong | LakeMindServer/src/lakemind_server/services/job_service.py:67 | no shorter name lets the pattern match |
| PyStr.ReplaceCreatesNothing | LakeMindServer/src/lakemind_server/utils/log_redact.py:7 | whatever occurs after a replacement overlaps the replacement text or occurred before, away from the replaced pattern |
| PyStr.ReplaceAbsent | LakeMindServer/src/lakemind_server/utils/log_redact.py:7 | replacing a pattern that does not occur changes nothing |
| LogRedact.RedactLogs | LakeMindServer/src/lakemind_server/utils/log_redact.py:4-8 | masks the secrets in turn; each secret of length 4 or more that cannot overlap the mask is gone |
| LogRedact.DisjointIsClear | LakeMindServer/src/lakemind_server/utils/log_redact.py:4-8 | a secret sharing no character with the mask cannot overlap it |
| LogRedact.SecretIsGone | LakeMindServer/src/lakemind_server/utils/log_redact.py:4-8 | a secret of length 4 or more that cannot overlap the mask is gone, whatever the other secrets are |
| LogRedact.RedactHides | LakeMindServer/src/lakemind_server/utils/log_redact.py:4-8 | no secret of length 4 or more is left, whatever the order, overlap or containment of the secrets |
| LogRedact.RedactUnchanged | LakeMindServer/src/lakemind_server/utils/log_redact.py:4-8 | text that holds no secret is unchanged |
| LogRedact.RedactIdempotent | LakeMindServer/src/lakemind_server/utils/log_redact.py:4-8 | redacting twice is redacting once |
| LogRedact.MaskLeaks | LakeMindServer/src/lakemind_server/utils/log_redact.py:7 | a secret that is part of the mask survives |
| LogRedact.OneSecretIsHiddenExactly | LakeMindServer/src/lakemind_server/utils/log_redact.py:4-8 | a single secret is hidden in every text if and only if no way of laying it over the mask agrees with the mask |
| Outbox.Batch | LakeMindServer/src/lakemind_server/outbox/worker.py:30-34 | due rows only, in creation order |
| OutboxSafety.BatchTakesOldest | LakeMindServer/src/lakemind_server/outbox/worker.py:30-34 | as many due rows as there are, up to the batch size, and the oldest ones |
| OutboxSafety.DueExactly | LakeMindServer/src/lakemind_server/outbox/worker.py:31-32 | a row is due while it is pending and its retry time, if any, has come |
| OutboxSafety.BatchSettlesWhatItTook | LakeMindServer/src/lakemind_server/outbox/worker.py:38-76 | each row taken fails for want of a handler, is done, or has one more try counted and fails at the limit or waits 2^n seconds; each row left is untouched |
| OutboxSafety.BatchEmptiesTheQueue | LakeMindServer/src/lakemind_server/outbox/worker.py:29-77 | when no more rows are due than the batch may take, each has its handler called or fails for want of one, and none is due any longer |
| OutboxSafety.CountIsNumber | LakeMindServer/src/lakemind_server/outbox/worker.py:37-62 | the reported count is the number of rows delivered or without a handler |
| OutboxSafety.RouteExactly | LakeMindServer/src/lakemind_server/outbox/worker.py:43-48 | an exact key wins, otherwise the first registered prefix; no handler exactly when none fits |
| Outbox.Worker.RegisterHandler | LakeMindServer/src/lakemind_server/outbox/worker.py:25-26 | a known key keeps its place in the registration order |
| Outbox.Worker.Enqueue | LakeMindServer/src/lakemind_server/outbox/worker.py:11-19 | adds one pending row with the default number of tries |
| Outbox.Worker.ProcessBatch | LakeMindServer/src/lakemind_server/outbox/worker.py:29-77 | each due row is routed and settled once: DONE, FAILED, or PENDING with one more try counted and a delay of 2^n; the result counts the delivered and the unroutable |
| Outbox.Worker.ProcessRow | LakeMindServer/src/lakemind_server/outbox/worker.py:38-76 | the same for one row |
| OutboxSafety.SettleRowOk | LakeMindServer/src/lakemind_server/outbox/worker.py:56-76 | one more handler call keeps the call count and the spacing of the calls |
| OutboxSafety.RunIsSafe | LakeMindServer/src/lakemind_server/outbox/worker.py:29-77 | in every run DONE and FAILED rows are final and their handler is not called again |
| OutboxSafety.CallsAreBounded | LakeMindServer/src/lakemind_server/outbox/worker.py:29-77 | in every reachable state calls on an event equal its retry_count, plus one if DONE, and do not exceed max_retries; no row is PROCESSING; the n-th call comes at least 2^n - 2 seconds after the first |
| OutboxSafety.BatchesTerminate | LakeMindServer/src/lakemind_server/outbox/worker.py:29-77 | the tries left over all pending events never go below zero and fall by at least one for each event a batch processes |
| OutboxSafety.DefaultRouteIsUnique | LakeMindServer/src/lakemind_server/outbox/worker.py:148-156 | with the default handlers at most one prefix fits an event type, so the order of registration does not matter |
| EventLog.EventService.Emit | LakeMindServer/src/lakemind_server/services/event_service.py:14-27 | appends one event with a fresh, larger sequence number and keeps the log ordered |
| EventLog.SelectIs | LakeMindServer/src/lakemind_server/services/event_service.py:53-75 | a query selects exactly the events above the cursor that match every given filter |
| EventLog.QueryCondition | LakeMindServer/src/lakemind_server/services/event_service.py:53-68 | the condition filter by filter: an absent or empty one lets every event pass |
| EventLog.SelectOrdered | LakeMindServer/src/lakemind_server/services/event_service.py:69-72 | in the order of the log |
| EventLog.PageIsNextStretch | LakeMindServer/src/lakemind_server/services/event_service.py:69-78 | a page, or any first part of it, is exactly the matching events between the old and the new cursor; more is promised exactly when more is there |
| EventLog.PageSize | LakeMindServer/src/lakemind_server/services/event_service.py:69-76 | a page holds the first page_size matching events, or all when there are no more |
| EventLog.PageCursor | LakeMindServer/src/lakemind_server/services/event_service.py:77-78 | the returned cursor is the last event delivered; the page is what lies between the two cursors, and what follows the new one completes the filtered log |
| EventLog.PollingDeliversAll | LakeMindServer/src/lakemind_server/services/event_service.py:53-78 | polling with the returned cursor delivers the whole filtered log in as many pages as it fills |
| EventStream.ResumesAtId | LakeMindServer/src/lakemind_server/api/events.py:38-42 | an id sent in a message parses back from the Last-Event-ID header, as in section 9.2 of the WHATWG HTML Living Standard |
| EventStream.Generator.constructor | LakeMindServer/src/lakemind_server/api/events.py:38-42 | a missing or unreadable header starts the stream from the beginning |
| EventStream.Generator.Round | LakeMindServer/src/lakemind_server/api/events.py:48-74 | one round sends the page in order, moves the cursor to the last id sent, and sends a heartbeat exactly when the page is empty |
| EventStream.StreamRefinesFilter | LakeMindServer/src/lakemind_server/api/events.py:48-74 | however emits, rounds, disconnects and resumes interleave, the client has received exactly the in-scope events above its starting id up to its cursor, in order, each once; what is still to come completes the filtered log |
| EventStream.RoundDelivers | LakeMindServer/src/lakemind_server/api/events.py:48-69 | a round delivers the next events due, at most 50 |
| EventStream.ShortPageIsComplete | LakeMindServer/src/lakemind_server/services/event_service.py:69-78 | a completed round that fetched less than a page leaves nothing undelivered |
| SchemaConvert.Converter.NextId | LakeMindServer/src/lakemind_server/plugins/_schema_convert.py:7-10 | draws the next id from the counter |
| SchemaConvert.Converter.ConvertType | LakeMindServer/src/lakemind_server/plugins/_schema_convert.py:12-50 | the converted type, or None for the ValueError, and where the counter then stands |
| SchemaConvert.Converter.ConvertList | LakeMindServer/src/lakemind_server/plugins/_schema_convert.py:41-43 | the element is converted before the list draws its id |
| SchemaConvert.Converter.ConvertFields | LakeMindServer/src/lakemind_server/plugins/_schema_convert.py:44-49 | each field draws its id before its type is converted; the first failure stops the conversion |
| SchemaConvert.Converter.ConvertSchema | LakeMindServer/src/lakemind_server/plugins/_schema_convert.py:52-61 | the counter starts over for every schema, also after a failed one |
| SchemaConvert.TypeImage | LakeMindServer/src/lakemind_server/plugins/_schema_convert.py:12-50 | a type converts if and only if all its leaves are supported, and the result has its structure |
| SchemaConvert.LeafTypes | LakeMindServer/src/lakemind_server/plugins/_schema_convert.py:19-40 | leaf by leaf, what each Arrow type becomes, and that no other is supported |
| SchemaConvert.ImageIsUnique | LakeMindServer/src/lakemind_server/plugins/_schema_convert.py:12-50 | the structure decides everything but the ids: two images of a type are equal once ids are erased |
| SchemaConvert.TypeIds | LakeMindServer/src/lakemind_server/plugins/_schema_convert.py:12-50 | the ids of a converted type are consecutive from where the counter stood |
| SchemaConvert.TypeNested | LakeMindServer/src/lakemind_server/plugins/_schema_convert.py:41-49 | everywhere inside, a field's id is below every id of its type and a list's element id above every id of its element |
| SchemaConvert.SchemaConverts | LakeMindServer/src/lakemind_server/plugins/_schema_convert.py:52-61 | all of this for whole schemas: success exactly when all leaves are supported, the structural image, ids exactly 1..n once each, and their nesting |
| Tokens.Tables.IssueToken | LakeMindServer/src/lakemind_server/security/token_parser.py:19-42 | the token carries the current version of its principal; an unknown principal is refused |
| Tokens.Tables.RevokeToken | LakeMindServer/src/lakemind_server/security/token_parser.py:44-52 | stamps the token once; true exactly when something changed |
| Tokens.Tables.CreatePrincipal | LakeMindServer/src/lakemind_server/security/token_parser.py:110-118 | adds an enabled principal of version 0 |
| Tokens.Tables.Create | LakeMindServer/src/lakemind_server/api/tenants.py:25-73 | refused for a taken name or an unknown admin; otherwise one tenant, one membership, and the admin's version bumped |
| Tokens.Tables.Suspend | LakeMindServer/src/lakemind_server/api/tenants.py:107-122 | the status, and one more version for everyone who ever had a membership |
| Tokens.Tables.Resume | LakeMindServer/src/lakemind_server/api/tenants.py:125-135 | the status only |
| Tokens.Tables.Archive | LakeMindServer/src/lakemind_server/api/tenants.py:138-157 | the status, every membership revoked, and the versions of all members bumped |
| Tokens.Tables.AddMembership | LakeMindServer/src/lakemind_server/api/tenants.py:170-182 | inserts or reinstates the membership and bumps the version; a missing principal or inviter is refused only when a row must be inserted |
| Tokens.Tables.RevokeMembership | LakeMindServer/src/lakemind_server/api/tenants.py:185-200 | refused for a membership of another tenant; otherwise revoked and the version bumped |
| Tokens.FindMembership | LakeMindServer/src/lakemind_server/api/tenants.py:172-177 | finds a membership of the two exactly when there is one |
| TokenSafety.RunKeeps | LakeMindServer/src/lakemind_server/security/token_parser.py:25-31 | in every reachable state a token's version does not exceed its principal's |
| TokenSafety.RunEvolves | LakeMindServer/src/lakemind_server/api/tenants.py:107-200 | over every run versions only grow and a revocation is never lifted or re-dated |
| TokenSafety.AcceptedExactly | LakeMindServer/src/lakemind_server/security/token_parser.py:68-87 | a known token is accepted if and only if it is not revoked, not expired, of its principal's version, and the principal is enabled |
| TokenSafety.IssuedIsAccepted | LakeMindServer/src/lakemind_server/security/token_parser.py:19-42 | a new token is accepted exactly while its principal is enabled and it has not expired |
| TokenSafety.RejectedForever | LakeMindServer/src/lakemind_server/security/token_parser.py:80-87 | a token once rejected as revoked, expired or version-mismatched is rejected in every later state of any run |
| TokenSafety.CallInvalidatesExactly | LakeMindServer/src/lakemind_server/api/tenants.py:107-200 | each call rejects exactly the tokens of the principals it affects and changes the verdict on no other |
| TokenSafety.AffectedTokensAreRejected | LakeMindServer/src/lakemind_server/api/tenants.py:107-200 | suspend, archive and revoke_membership reject every earlier token of those affected, in every later state |
| TokenSafety.ResumeAdmitsNothing | LakeMindServer/src/lakemind_server/api/tenants.py:125-135 | resume changes no verdict |
| TokenSafety.ResumeUndoesSuspend | LakeMindServer/src/lakemind_server/api/tenants.py:107-135 | suspend then resume restores an active tenant and leaves only the versions moved on |
| TokenSafety.AddedMemberIsJoined | LakeMindServer/src/lakemind_server/api/tenants.py:170-182 | in every reachable state adding a member leaves exactly one membership of the two, and it is active |
| TokenSafety.DisabledCanReturn | LakeMindServer/src/lakemind_server/security/token_parser.py:84-85 | the one rejection that can be undone: a disabled principal |
| TokenOutcomes.SuspendOutcome | LakeMindServer/src/lakemind_server/api/tenants.py:107-122 | exactly the versions of those with a membership row rise by one, the tenant is SUSPENDED, nothing else changes |
| TokenOutcomes.ArchiveOutcome | LakeMindServer/src/lakemind_server/api/tenants.py:138-157 | the same with ARCHIVED, and exactly the tenant's memberships are stamped as revoked |
| TokenOutcomes.CreateOutcome | LakeMindServer/src/lakemind_server/api/tenants.py:25-73 | refused for a taken name first and an unknown admin second; otherwise exactly these rows |
| TokenOutcomes.AddMembershipDecision | LakeMindServer/src/lakemind_server/api/tenants.py:170-182 | refused exactly for an unknown principal or inviter when the two have no membership yet |
| TokenOutcomes.AddMembershipRows | LakeMindServer/src/lakemind_server/api/tenants.py:170-182 | one version rises, the membership is joined, every other row stays |
| TokenOutcomes.RevokeMembershipOutcome | LakeMindServer/src/lakemind_server/api/tenants.py:185-200 | refused exactly for an unknown membership or one of another tenant; otherwise stamped as revoked |
| TokenOutcomes.RevokeTokenOutcome | LakeMindServer/src/lakemind_server/security/token_parser.py:44-52 | stamped once with the time of the first call, and then rejected as revoked |
| TokenOutcomes.FirstTokenIsAccepted | LakeMindServer/src/lakemind_server/security/token_parser.py:19-42 | a new principal's first token is accepted, with version 0, until it expires |
| Configuration.ActiveOf | LakeMindServer/src/lakemind_server/services/configuration_service.py:37-40 | finds an active revision of the scope exactly when there is one |
| Configuration.ConfigurationService.Set | LakeMindServer/src/lakemind_server/services/configuration_service.py:49-75 | refused for an immutable key; otherwise one inactive revision with the current values and that key |
| Configuration.ConfigurationService.Activate | LakeMindServer/src/lakemind_server/services/configuration_service.py:97-127 | refused for an unknown revision or while a rollout of the scope is applying; otherwise it replaces the active revision of its scope |
| Configuration.ConfigurationService.Rollback | LakeMindServer/src/lakemind_server/services/configuration_service.py:130-131 | the same |
| Configuration.ConfigurationService.GetEffective | LakeMindServer/src/lakemind_server/services/configuration_service.py:78-94 | the defaults by prefix, overlaid by the platform's and then the scope's active values |
| Configuration.ConfigurationService.Overlay | LakeMindServer/src/lakemind_server/services/configuration_service.py:85-93 | copies exactly the mutable keys of the active revision |
| ConfigurationSafety.RunIsSafe | LakeMindServer/src/lakemind_server/services/configuration_service.py:110-118 | in every reachable state each scope has at most one active revision and no revision holds an immutable key |
| ConfigurationSafety.SetDecision | LakeMindServer/src/lakemind_server/services/configuration_service.py:49-75 | a key can be set exactly when it is none of the four immutable ones, and the revision added has the current values with that key |
| ConfigurationSafety.ActivationDecision | LakeMindServer/src/lakemind_server/services/configuration_service.py:97-109 | a revision can be activated exactly when it exists and none of its scope is being rolled out |
| ConfigurationSafety.ActivationRows | LakeMindServer/src/lakemind_server/services/configuration_service.py:110-118 | the activated and the replaced revision change as stated and no other row does |
| ConfigurationSafety.ActivationTakesEffect | LakeMindServer/src/lakemind_server/services/configuration_service.py:97-118 | activating puts the revision's values in force in its scope and changes no other scope |
| ConfigurationSafety.SetThenActivate | LakeMindServer/src/lakemind_server/services/configuration_service.py:49-118 | set, then activate at any later time, makes the scope's values those at the time of the set with exactly that key changed |
| ConfigurationSafety.RollbackRestores | LakeMindServer/src/lakemind_server/services/configuration_service.py:130-131 | rolling back to a revision restores the values the scope had while it was active |
| ConfigurationSafety.VersionCountsActivations | LakeMindServer/src/lakemind_server/services/configuration_service.py:114-118 | a revision's rollout_version is the number of its successful activations |
| ConfigurationSafety.EffectiveAgreesWithActive | LakeMindServer/src/lakemind_server/services/configuration_service.py:78-94 | get_effective agrees with the scope's active revision on every key of it |
| ConfigurationSafety.EffectiveAgreesWithGet | LakeMindServer/src/lakemind_server/services/configuration_service.py:36-94 | on a key that get reports, get_effective reports the same if and only if the scope has an active revision, or the platform's does not say otherwise |
| ConfigurationSafety.SetIsAnswered | LakeMindServer/src/lakemind_server/services/configuration_service.py:36-94 | once a key is set and its revision active, asking for it answers the value set, asking for another answers as before the set |
| ConfigurationSafety.DefaultsInForce | LakeMindServer/src/lakemind_server/services/configuration_service.py:12-27 | without a revision a scope has the documented defaults of the part before its first colon |
| ModelRegistry.ModelGateway.RegisterModel | LakeMindModelServing/src/lakemind_model_serving/gateway.py:103-133 | the name answers with the new entry |
| ModelRegistry.ModelGateway.DeregisterModel | LakeMindModelServing/src/lakemind_model_serving/gateway.py:135-149 | the name no longer answers; false exactly when it did not before |
| ModelRegistry.EmbeddingManager.Register | LakeMindModelServing/src/lakemind_model_serving/services/embedding.py:20-23 | dimension and path by name |
| ModelRegistry.EmbeddingManager.Unregister | LakeMindModelServing/src/lakemind_model_serving/services/embedding.py:25-30 | the name is forgotten |
| ModelRegistry.AsrRouter.Register | LakeMindModelServing/src/lakemind_model_serving/services/asr/router.py:26-43 | registers the two known providers and refuses any other |
| ModelRegistry.AsrRouter.Unregister | LakeMindModelServing/src/lakemind_model_serving/services/asr/router.py:45-48 | the name is forgotten |
| ModelRegistry.Registry.HotLoad | LakeMindModelServing/src/lakemind_model_serving/registry.py:412-449 | exactly one slot of the routed engine is written, with the provider's current data, or none when the engine refuses |
| ModelRegistry.Registry.HotUnload | LakeMindModelServing/src/lakemind_model_serving/registry.py:451-470 | exactly the slot of the current row is removed |
| ModelRegistry.Registry.CreateProvider | LakeMindModelServing/src/lakemind_model_serving/registry.py:210-219 | refused for a taken name |
| ModelRegistry.Registry.UpdateProvider | LakeMindModelServing/src/lakemind_model_serving/registry.py:221-243 | the row, then every enabled model of it unloaded and loaded again in listing order |
| ModelRegistry.Registry.DeleteProvider | LakeMindModelServing/src/lakemind_model_serving/registry.py:245-254 | refused while a model references it |
| ModelRegistry.Registry.CreateModel | LakeMindModelServing/src/lakemind_model_serving/registry.py:287-307 | the row, and loaded when enabled |
| ModelRegistry.Registry.UpdateModel | LakeMindModelServing/src/lakemind_model_serving/registry.py:309-334 | the row first, then unloaded by the new row and loaded when enabled |
| ModelRegistry.Registry.DeleteModel | LakeMindModelServing/src/lakemind_model_serving/registry.py:336-343 | unloaded, its profiles deleted, then the row |
| ModelRegistry.Registry.EnableModel | LakeMindModelServing/src/lakemind_model_serving/registry.py:345-350 | the status, then loaded |
| ModelRegistry.Registry.DisableModel | LakeMindModelServing/src/lakemind_model_serving/registry.py:352-355 | unloaded, then the status |
| ModelRegistry.Registry.CreateProfile | LakeMindModelServing/src/lakemind_model_serving/registry.py:494-504 | refused for a taken name or a missing model |
| ModelRegistry.Registry.LoadAllEnabled | LakeMindModelServing/src/lakemind_model_serving/registry.py:472-477 | loads every enabled model on top of whatever the engines hold |
| RegistryOutcomes.ProviderDecisions | LakeMindModelServing/src/lakemind_model_serving/registry.py:210-254 | a provider is created exactly under a free name and deleted exactly when no model references it |
| RegistryOutcomes.ProviderUpdateDecision | LakeMindModelServing/src/lakemind_model_serving/registry.py:221-238 | and updated exactly when it exists and no other has the new name |
| RegistryOutcomes.ProviderRows | LakeMindModelServing/src/lakemind_model_serving/registry.py:210-254 | creating adds one row with the data given under a fresh id, deleting takes one away, and nothing else moves |
| RegistryOutcomes.ProviderUpdateRow | LakeMindModelServing/src/lakemind_model_serving/registry.py:225-238 | its row is what the caller gave, the key encrypted, and what was not given as it was |
| RegistryOutcomes.ProviderUpdateReaches | LakeMindModelServing/src/lakemind_model_serving/registry.py:221-243 | every enabled gateway model of the provider is then registered with the type, key and URL given, and what was not given is as in its entry before |
| RegistryOutcomes.NewProviderReaches | LakeMindModelServing/src/lakemind_model_serving/registry.py:210-219 | a model of a new provider is registered with the type, key and URL given |
| RegistryOutcomes.UnprovidedModel | LakeMindModelServing/src/lakemind_model_serving/registry.py:418-426 | a gateway model without a provider is registered under the provider name of its row, with no key or URL |
| RegistryOutcomes.ModelCreateDecision | LakeMindModelServing/src/lakemind_model_serving/registry.py:287-303 | a model is created exactly under a free name and for a provider that exists |
| RegistryOutcomes.ModelUpdateDecision | LakeMindModelServing/src/lakemind_model_serving/registry.py:309-328 | and updated exactly when it exists, no other has the new name, and the new provider exists |
| RegistryOutcomes.ModelUpdateRow | LakeMindModelServing/src/lakemind_model_serving/registry.py:313-328 | the fields given are written and the others kept |
| RegistryOutcomes.ModelUpdateReaches | LakeMindModelServing/src/lakemind_model_serving/registry.py:309-334 | after an update the model is served by its new row, or gone from the engine it routes to |
| RegistryOutcomes.RunServes | LakeMindModelServing/src/lakemind_model_serving/registry.py:412-449 | in every run each enabled model is served, engine by engine, by the fields of its row and of its provider |
| RegistryOutcomes.RemovedIsGone | LakeMindModelServing/src/lakemind_model_serving/registry.py:336-355 | disabling and deleting take the model out of its engine; deleting removes exactly the profiles that name it |
| RegistryOutcomes.EnabledIsServed | LakeMindModelServing/src/lakemind_model_serving/registry.py:345-350 | enabling serves the model as its row stands |
| RegistryOutcomes.LoadingServes | LakeMindModelServing/src/lakemind_model_serving/registry.py:472-477 | loading all serves every enabled model whatever the engines held; after a restart nothing stale is left |
| RegistryOutcomes.ProfileDecision | LakeMindModelServing/src/lakemind_model_serving/registry.py:494-504 | a profile is created exactly under a free name and for models that exist |
| RegistryCoherence.LoadSlot | LakeMindModelServing/src/lakemind_model_serving/registry.py:412-449 | loading sets the model's own slot and touches no other |
| RegistryCoherence.UpdateProviderCoheres | LakeMindModelServing/src/lakemind_model_serving/registry.py:221-243 | after a provider update every enabled model, of this provider or another, is live with current data |
| RegistryCoherence.UpdateModelCoheres | LakeMindModelServing/src/lakemind_model_serving/registry.py:309-334 | so it is after a model update, renames included |
| RegistryCoherence.RunCoheres | LakeMindModelServing/src/lakemind_model_serving/registry.py:221-477 | after any sequence of registry calls, restarts and loads into engines already filled, every enabled model that its engine does not refuse is live in the engine its type and source route to, under its current name and with its provider's current type, key and URL |
| RegistryCoherence.UpdateIsExactIff | LakeMindModelServing/src/lakemind_model_serving/registry.py:328-333 | update_model leaves a stale entry behind if and only if a live model is renamed or moved to another engine |
| RegistryCoherence.KeepingTheSlotIsCareful | LakeMindModelServing/src/lakemind_model_serving/registry.py:309-334 | an update that keeps name, type and source leaves none |
| RegistryCoherence.CarefulRunIsExact | LakeMindModelServing/src/lakemind_model_serving/registry.py:221-477 | in runs of such updates nothing but the enabled models is ever live |
| RegistryCoherence.RenameLeavesOldName | LakeMindModelServing/src/lakemind_model_serving/registry.py:328-333 | a run of one creation and one rename after which a name without a model still answers |
| RegistryCoherence.AcceptedIsLive | LakeMindModelServing/src/lakemind_model_serving/registry.py:412-449 | in every run an enabled model that its engine accepts is live with the entry the tables say; only the recognizer refuses models |
| RegistryCoherence.LiveExactly | LakeMindModelServing/src/lakemind_model_serving/registry.py:412-470 | in runs of careful updates a name answers in an engine if and only if an enabled model of that name routes there and the engine accepts it; so a routed model is live exactly when it is enabled and accepted |
| RegistryCoherence.EnabledButNotLive | LakeMindModelServing/src/lakemind_model_serving/registry.py:432-437 | a run after which an enabled local speech model of the default provider is not live |
| RegistryCoherence.RefusedNameCanAnswer | LakeMindModelServing/src/lakemind_model_serving/registry.py:328-333 | a run in which, after a rename, the name of a refused model answers with the entry of an earlier one |
| RegistrySeed.FirstOfType | LakeMindModelServing/src/lakemind_model_serving/registry.py:652-656 | the model of that type that comes first by priority and age |
| RegistrySeed.EnsureProvider | LakeMindModelServing/src/lakemind_model_serving/registry.py:551-569 | a provider is created, and counted, exactly when it has a name that is not taken |
| RegistrySeed.EnsureModel | LakeMindModelServing/src/lakemind_model_serving/registry.py:604-623 | a model is created, and counted, exactly when its name is not taken |
| RegistrySeed.SeedModelsUnder | LakeMindModelServing/src/lakemind_model_serving/registry.py:587-602 | the models under one provider reference it |
| RegistrySeed.EnsureProfile | LakeMindModelServing/src/lakemind_model_serving/registry.py:658-673 | a default profile is created for the first model of its type unless it resolves already |
| RegistrySeed.SeedFromYaml | LakeMindModelServing/src/lakemind_model_serving/registry.py:548-677 | the whole chain of loops asks for exactly the configured rows in order |
| RegistrySeed.SeedingTwice | LakeMindModelServing/src/lakemind_model_serving/registry.py:548-677 | seeding a registry without models succeeds and reports exactly the rows it added; a second seeding with the same configuration, duplicate names included, imports nothing and leaves everything unchanged |
| RegistrySeed.BootInStep | LakeMindModelServing/src/lakemind_model_serving/app.py:42-49 | engines in step with the tables are so after seeding and after loading all enabled models on top, whatever the configuration: nothing missing, nothing stale |
| SeedOutcomes.ListedModelIsWanted | LakeMindModelServing/src/lakemind_model_serving/registry.py:571-585 | a listed model is asked for under its provider, an external chat model of priority 100 by default |
| SeedOutcomes.LlmModelIsWanted | LakeMindModelServing/src/lakemind_model_serving/registry.py:587-602 | each model id under a provider is asked for as an external chat model of it |
| SeedOutcomes.BuiltInsAreWanted | LakeMindModelServing/src/lakemind_model_serving/registry.py:604-649 | the built-in models with their defaults, the embedding model also under its short name |
| SeedOutcomes.ProvidersComeFirst | LakeMindModelServing/src/lakemind_model_serving/registry.py:551-602 | the providers of both lists are asked for before any model |
| SeedOutcomes.ListedProviderIsSeeded | LakeMindModelServing/src/lakemind_model_serving/registry.py:551-569 | the first listed provider of a free name is there with the data and defaults of the file |
| SeedOutcomes.WantedModelIsSeeded | LakeMindModelServing/src/lakemind_model_serving/registry.py:548-677 | after seeding a wanted model of a free name is there as first asked for, and refers to its provider exactly when there is one |
| SeedOutcomes.NothingElseIsSeeded | LakeMindModelServing/src/lakemind_model_serving/registry.py:548-677 | earlier rows stay, and every new one is of a name asked for |
| SeedOutcomes.DefaultProfile | LakeMindModelServing/src/lakemind_model_serving/registry.py:652-673 | a default profile for the first model of its type unless one leads to a model; the taken name is the only error |
| EmbeddingLock.ConstructionsAreBounded | LakeMindModelServing/src/lakemind_model_serving/services/embedding.py:25-48 | under any interleaving, constructions of a model are its removals plus one exactly when it is loaded (or about to be stored by the lock holder), and never exceed the unregister calls plus one |
| EmbeddingLock.MutualExclusion | LakeMindModelServing/src/lakemind_model_serving/services/embedding.py:36-44 | at most one thread is inside the lock |
| EmbeddingLock.GoneExactly | LakeMindModelServing/src/lakemind_model_serving/services/embedding.py:25-44 | a name that was loaded is gone later if and only if some unregister removed it since and nobody stored it after that |
| EmbeddingLock.ReadMissesExactly | LakeMindModelServing/src/lakemind_model_serving/services/embedding.py:35-45 | the read outside the lock misses if and only if, since this call of embed found or stored the model, some unregister removed it and nobody has stored it again; otherwise the call is served |
| EmbeddingLock.MissNeedsRemovalSince | LakeMindModelServing/src/lakemind_model_serving/services/embedding.py:45 | the same from any state in which the name is loaded |
| EmbeddingLock.MissOnlyAfterRemoval | LakeMindModelServing/src/lakemind_model_serving/services/embedding.py:45 | after a miss the count of removals of the name has grown since this call found the model |
| EmbeddingLock.ReadCanMiss | LakeMindModelServing/src/lakemind_model_serving/services/embedding.py:45 | and an interleaving in which it does |
| TaskTable.TaskManager.CreateTask | examples/meeting-agent/agent.py:92-112 | appends one row |
| TaskTable.TaskManager.ListTasks | examples/meeting-agent/agent.py:122-131 | folds the scan into the newest row of each id and sorts |
| TaskTable.TaskManager.GetTask | examples/meeting-agent/agent.py:133-137 | the listed task of that id |
| TaskTable.TaskManager.UpdateTask | examples/meeting-agent/agent.py:114-120 | appends the merged row, or nothing for an unknown id |
| TaskTable.ListedIs | examples/meeting-agent/agent.py:122-131 | a listing holds the newest row of each non-empty id once, latest start first |
| TaskTable.GetReturnsLastWrite | examples/meeting-agent/agent.py:122-137 | with increasing timestamps and a log within the scan limit, get_task returns the last write of its id, in whatever order the scan comes |
| TaskTable.ListReturnsTheMap | examples/meeting-agent/agent.py:122-131 | list_tasks holds exactly the rows of the map behind the log, each id once, sorted by start time descending |
| TaskTable.UpdateChangesOneTask | examples/meeting-agent/agent.py:114-120 | update_task changes one id, in the given fields and the timestamp only, and keeps the timestamps increasing |
| TaskTable.MergedRow | examples/meeting-agent/agent.py:118-119 | every field given is written and every other column kept |
| TaskTable.NewestIsFirst | examples/meeting-agent/agent.py:122-131 | of the rows with the greatest timestamp of an id, the first in the scan counts |
| TaskTable.UpdateVisibleIff | examples/meeting-agent/agent.py:114-137 | for any timestamps and any order of the scans, a read after an update sees the new row if and only if its timestamp is later than that of the row it replaces, or equal and the new row comes first in the scan among those of that timestamp |
| TaskTable.UpdateVisibleInLogOrder | examples/meeting-agent/agent.py:114-137 | in particular, with scans in the order of the log, exactly when the timestamp is later |
| PollJob.Poll | examples/meeting-agent/lakemind_client.py:111-139 | ends within max(1, floor(timeout/interval) + 2) rounds of at most three calls each, in a final status, the third failed call of a round, or a timeout past the deadline after exactly one cancel |
| PollJob.SleepsFit | examples/meeting-agent/lakemind_client.py:113-139 | the sleeps that fit before the deadline |

## Left out

- The SQL engine, psycopg2, Ray, litellm, S3, Iceberg, HTTP handlers, the MCP servers and the user interfaces: they are maps, sequences and arbitrary answers here.
- Encryption, hashing and token generation: encryption is an invertible pair under a fixed key, a token string stands for the row its hash finds, ids are fresh.
- Crashes between statements and races between two job service calls: each call is atomic, apart from the cut in cancel.
- Skill lookup, resource clamping, secrets and model bindings of a submission: arbitrary answers, since their branches do not touch the tables.
- `job_artifacts`, audit records, metrics, event payloads, `updated_at` and the counters that sync, recovery and timeouts return: side records no property depends on.
- `cleanup_zombies`: it only sends cancels to Ray and writes no table.
- JobService.Service.Submit: a Ray id is taken to be non-empty text, as the backend returns it.
- Outbox.Worker.ProcessBatch: models one worker that does not crash; `next_retry_at` is clock seconds, although the code passes an epoch float to a timestamp column; `processed_at` and payloads are not modelled.
- EventStream.StreamRefinesFilter: assumes that events are committed in the order of their sequence numbers and that no event is cleaned up; `mark_published`, `mark_failed` and `cleanup_expired` only add bookkeeping.
- EventStream.ResumesAtId: covers the ids the stream itself writes; the white space and underscores that Python's `int` also accepts are read as unreadable.
- SchemaConvert.SchemaConverts: names that collide are refused by the Iceberg library itself, which is not part of this model.
- SkillRef.PackageRefParsesBack: `\d` stands for the ASCII digits.
- Tokens.Tables.CreatePrincipal: the principal created together with a membership by the security endpoints is a creation followed by an added membership.
- Configuration.ActiveOf: rows with equal `created_at` do not occur, because rows are ordered by insertion.
- ConfigurationSafety.RunIsSafe: revisions of a new tenant get a scope made from its fresh id.
- ModelRegistry.Registry.UpdateModel: capabilities, context length and health status are not modelled, as no engine reads them.
- RegistryCoherence.RunCoheres: an engine accepts every registration except the recognizer's unknown providers, and the litellm Router is a map keyed by model name.
- RegistrySeed.SeedFromYaml: every configured model has a name, without which the code raises KeyError; the recognizer's configuration is opaque text.
- EmbeddingLock.ConstructionsAreBounded: `embed` with no texts returns at once and is not a step; `_dims` and `_paths` change only in `ModelRegistry.EmbeddingManager`.
- TaskTable.GetReturnsLastWrite: says nothing about a log beyond the scan limit of 1000 rows, where the scan may miss rows.
- PollJob.Poll: time is a real number; the outcome of the cancel call is ignored, as in the code.
- `_resolve_model`, `resolve_profile` with a tenant, profile updates and `test_model`: settled by reading one branch.
- Asset and operation state machines, steward findings, search and view aggregation: easy members or plumbing.
