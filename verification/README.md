# Social publisher: the post workflow, verified

News items become post jobs. A job is scored and written up by AI workers, reviewed by an
operator, published or scheduled, and reported to the operator through a notification outbox.
Several application instances run all of this over one database and may crash at any point.
This project models the tables and the code that drives them, and proves what holds of every
interleaving.

`dafny verify dfyconfig.toml` checks everything.

## How it is built

| modules | content |
|---|---|
| `JobStatus` | the transition table |
| `PostTables`, `PostRepository` | the job, variant and publish-log tables: each transaction as a function from tables to tables, and the repository class whose methods are proved equal to those functions |
| `Pipeline` | the service as processes with program counters and the local values they have read; one action is one statement, one external publish, a tick of the clock or a crash |
| `PipelineInvariant`, `PipelineSafety`, `PipelineRuns` | the inductive invariant, its preservation by every action, and the step from actions to runs |
| `StepFrames`, `StatusMoves`, `OperatorLineage` | what one action leaves alone, which statement can make which status change, and which processes descend from an operator's request |
| `PublishTheorems`, `LostPublishes`, `StatusFlow`, `RetryBudget`, `RetryStages`, `SelectionGate` | the results about all runs |
| `WitnessRuns`, `ReleaseRuns`, `EarlyExhaustion`, `ApprovalReminders` | concrete runs that show where the code's limits are, and that PUBLISHED is reached |
| `SoloRuns`, `Notices`, `ApprovalService`, `StaleRecovery` | the service in the imperative form it is written in, with the notices it enqueues; every method is proved to do what its process does when nobody interferes |
| `OutboxTable`, `OutboxRepository`, `OutboxDelivery`, `NoticeDedupe` | the outbox, its delivery protocol, and the outbox running beside the job protocol on one clock |
| `RateLimiter`, `WordWrap`, `AiParse`, `AiService`, `Text`, `Wrappers` | the request limiter, the word wrap of post images, and the AI answers that feed the variant table |

A worker pass that lists a batch is one process for each listed job, which allows every
interleaving of the pass and more. The age limit of stale recovery is left open, so the results
about runs hold for every configured timeout. `History` in `Pipeline` is a record of what
happened (operator decisions, publisher calls, what was selected on approval); no process reads it.

## What the code does not promise

- A job can change status 26 times between two operator writes, not 25. A worker that lost its
  claim long ago and then finds the job's context missing fails the job wherever it is, also
  while it waits for its operator. That statement is the only one that can move a waiting job
  without its operator (`RetryBudget.WaitingChangesIffLateFailure`), and without it the bound is
  25, whether or not the job fails (`RetryBudget.BoundedWithoutLateFailure`).
  `WitnessRuns.TwentySixChangesHappen` is a run that reaches 26.
- A job that was in fact published can end up FAILED, and the publisher can be called for a job
  that is FAILED already: after its claim the live worker never looks at the status again
  (`internal/approval/service.go:642-670`). A published job is FAILED exactly when recovery that
  found no success, or a worker that lost an earlier claim, failed it out of PUBLISHING, before
  the call or after it (`LostPublishes.PublishedIsLostIff`, `LostPublishes.CalledWhenFailedIff`).
  The publish log does not settle this. Recovery finds no success exactly when its read fails or
  none is logged yet (`LostPublishes.LookupMissesIff`), and it may look before the live worker has
  called, or before it has written its success. `ReleaseRuns.PublishedThenFailedHappens` and
  `ReleaseRuns.PublishedAfterFailedHappens` are runs of the two kinds in which nothing is lost. The
  other way round nothing goes wrong: PUBLISHED is never false.
- An operator who asks to publish a job that somebody else has just scheduled moves it from
  SCHEDULED to APPROVED before its time, because the status is read and written in two steps
  (`internal/approval/service.go:517-538`). That is the only way to be early
  (`PublishTheorems.PromotedEarlyIffRequested`), and it happens
  (`ReleaseRuns.PromotedEarlyHappens`).
- `ReplaceVariants` looks at no status (`internal/post/post.go:578-612`). A recovered worker can
  clear the selection of a job past review (`WitnessRuns.LateReplaceHappens`), and that is the
  only way to lose one (`SelectionGate.SelectionHeldIffNoLateReplace`). It never makes the wrong
  post go out: `PublishTheorems.PublishesWhatWasApproved` and
  `PublishTheorems.PublishingWasAuthorised` need no hypothesis on it.
- A retry can send a job whose variants were requested back to scoring: the stage is picked from
  the row as listed and the job claimed later (`internal/approval/service.go:774-791`). That is the
  only way there (`RetryStages.ScoredAgainIffMisdirected`), and it happens
  (`RetryStages.MisdirectedHappens`).
- The 63 minutes of backoff are only kept if queued jobs are taken when due. Workers that listed
  a job before its later parks exhaust its retries within a minute
  (`EarlyExhaustion.ExhaustedInAMinuteHappens`).
- The service comment calls repeated repairs safe because of the dedupe keys
  (`internal/approval/service.go:864-865`). For finished jobs that is proved
  (`NoticeDedupe.NoticeCreatedOnce`). Jobs waiting for an approval are repaired without a
  lookback (`internal/approval/service.go:867-905`). A notice is created at most once if everybody
  who asks with its key does so within the 30 days of retention
  (`NoticeDedupe.ReminderCreatedOnce`, `NoticeDedupe.VariantNoticeCreatedOnce`). A job that waits
  longer can be asked about twice, once its first notice was delivered and purged
  (`ApprovalReminders.RemindedTwiceHappens`).
- Marking an outbox message looks at no lease (`internal/outbox/outbox.go:91-117`), so a worker
  that is late shares its message with another (`OutboxDelivery.LateWorkerDeliversTwice`). The
  other delivery results assume that a worker is done, or gone, before its lease runs out.
- A text with the character U+0000 passes the parser of AI answers and is refused by the
  database. Generated variants are stored if and only if none of their texts has one, and a score
  if and only if its reason has none (`AiService.GeneratedVariantsCanBeStored`,
  `AiService.FirstScoreWins`). `AiService.NulIsGeneratedAndRefused` is such an answer, and in
  `AiService.NulScoreWins` one wins over a provider whose score could have been stored.

## Model

| member | source | states |
|---|---|---|
| JobStatus.EdgesInto | internal/post/status.go:27-45 | the transition table read backwards: from which statuses each status can be entered, no more and no fewer |
| JobStatus.TerminalIffDeadEnd | internal/post/status.go:59-62 | the statuses called terminal are exactly those without an outgoing transition |
| JobStatus.SealedForGood | internal/post/status.go:38-44 | from APPROVED on, no walk along the table returns to review or to an AI stage |
| JobStatus.PublishingVisitedOnce | internal/post/status.go:47-57 | no walk along the table visits PUBLISHING twice; it is left for PUBLISHED or FAILED only and then the walk ends |
| PostTables.InsertAllAt | internal/post/post.go:592-608 | inserted variants get the next ids in order, and rows below those ids are kept |
| PostTables.MediaIdIsLogged | internal/post/post.go:692-718 | a media id that recovery finds comes from a log entry recording a success of that very job |
| PostTables.FoundOnceLogged | internal/post/post.go:692-718 | if every success entry of the job can be read, a media id is found if and only if there is such an entry |
| PostRepository.Repository.UpdateStatus | internal/post/post.go:177-200 | the guarded transition: new tables and outcome for a missing job, a forbidden edge and a commit |
| PostRepository.Repository.ClaimStatus | internal/post/post.go:205-217 | compare-and-set: committed if and only if the job still has the expected status and the edge exists; a lost claim and a forbidden edge are told apart |
| PostRepository.Repository.ApplyScored | internal/post/post.go:228-235 | the transition also stores provider, model and error of the AI call, clears the retry count and makes the job due now |
| PostRepository.Repository.CompleteAIStage | internal/post/post.go:237-242 | finishing a stage clears the AI error and the retry count and makes the job due now |
| PostRepository.Repository.ParkForAIRetry | internal/post/post.go:246-279 | the shift loop yields the delay 1, 2, 4, 8, then 16 minutes, the eighth park fails the job, and either way the AI error is stored |
| PostRepository.Repository.MarkPublished | internal/post/post.go:407-413 | status, media id and cleared error change together or not at all |
| PostRepository.Repository.MarkFailed | internal/post/post.go:416-421 | status and error change together or not at all |
| PostRepository.Repository.QueueVariants | internal/post/post.go:282-288 | queueing generation sets the count and drops the selection |
| PostRepository.Repository.SelectVariant | internal/post/post.go:291-310 | rolls back, status included, if the variant is not the job's own |
| PostRepository.Repository.ReselectVariant | internal/post/post.go:314-342 | only in READY_TO_PUBLISH and only to a variant of the job |
| PostRepository.Repository.UpdateVariantCaption | internal/post/post.go:348-379 | the edit and the clearing of the old artwork are one transaction, and the caller learns whether the edited variant is selected |
| PostRepository.Repository.Schedule | internal/post/post.go:429-456 | status and time are set together, and only with a selection |
| PostRepository.Repository.Reschedule | internal/post/post.go:460-475 | moves the time of a job that is still SCHEDULED, and no other |
| PostRepository.Repository.CancelSchedule | internal/post/post.go:478-501 | back to READY_TO_PUBLISH with the time cleared |
| PostRepository.Repository.ClaimScheduledDue | internal/post/post.go:506-519 | promoted if and only if still SCHEDULED with a time that has passed |
| PostRepository.Repository.ListByStatus | internal/post/post.go:130-150 | every listed job has the status and a retry time that has come; they come in order of last update, each once; any other such job was updated no earlier than all of them, and is missing only if the page is full |
| PostRepository.Repository.ListDueScheduled | internal/post/post.go:522-544 | every listed job is SCHEDULED with a time that has passed; they come in order of that time, each once; any other such job is scheduled no earlier, and is missing only if the page is full |
| PostRepository.Repository.ListStaleProcessing | internal/post/post.go:382-404 | every listed job is in SCORING, GENERATING_VARIANTS or PUBLISHING since before the cutoff; they come oldest first, each once; any other such job is no older, and is missing only if the page is full |
| PostRepository.QueuePage | internal/post/post.go:130-150 | a page of a queue in terms of the rows alone: who is on it, in which order, and whom it can miss |
| PostRepository.DuePage | internal/post/post.go:522-544 | a page of due schedules in terms of the rows alone |
| PostRepository.Repository.ReplaceVariants | internal/post/post.go:578-612 | the insert loop accepts the rows if and only if the job exists and numbers, lengths and texts meet the constraints; then each is stored under the next id, the selection is cleared and other jobs keep their rows; otherwise nothing changes |
| PostRepository.Repository.SetVariantImageURL | internal/post/post.go:649-652 | the unguarded write of a preview |
| PostRepository.Repository.SetVariantImageURLForCaption | internal/post/post.go:657-664 | the write of a preview that commits if and only if the caption is still the rendered one |
| PostRepository.Repository.InsertPublishLog | internal/post/post.go:678-688 | the log only grows, by an entry with platform, request, response and error, the platform defaulting to the one published to |
| PostRepository.Repository.SuccessfulPublishMediaID | internal/post/post.go:692-718 | the newest entry that records a success decides, by its id field and then by its media_id field; none, and one that names nothing, are no success, and one that does not decode is an error |
| PipelineRuns.StepKeeps | internal/approval/service.go:618-862 | the invariant is inductive: every statement of every process, every tick and every crash keeps it |
| PipelineRuns.AlwaysInv | internal/approval/service.go:618-862 | the invariant holds after every run |
| PipelineRuns.RowNext | internal/post/post.go:177-573 | any action changes any job only along the table, never touches the result of a finished job, and never revises what was released |
| PublishTheorems.PublisherCalledAtMostOnce | internal/approval/service.go:618-670 | in no run is the external publisher called twice for one job, whatever workers, instances, crashes, recoveries, promotions and operators do |
| PublishTheorems.PublishesWhatWasApproved | internal/approval/service.go:619-661 | before every call the job entered APPROVED, and the call sends the variant selected at that moment, the caption it had then, and artwork rendered from exactly that caption |
| PublishTheorems.ReleasedWasApproved | internal/approval/service.go:517-541 | a job whose release is recorded entered APPROVED at an earlier step of the run |
| PublishTheorems.StoredArtworkMatchesCaption | internal/post/post.go:348-379 | in every reachable state a stored image URL was rendered from the caption stored beside it, despite edits during slow renders and the unguarded write |
| PublishTheorems.PublishedStoresTheAnswer | internal/approval/service.go:666-693 | a PUBLISHED job made a call that succeeded and stores exactly the media id it answered, whether the worker or recovery completed it |
| LostPublishes.PublishedIsLostIff | internal/approval/service.go:618-701 | at any time of any run, a job whose call succeeded is FAILED if and only if recovery without a found success, or a worker that lost its claim, failed it out of PUBLISHING before, on whichever side of the call |
| LostPublishes.CalledWhenFailedIff | internal/approval/service.go:642-670 | the publisher is called for a job that is FAILED already if and only if its live worker was overruled in PUBLISHING before |
| LostPublishes.LookupMissesIff | internal/post/post.go:692-718 | in every reachable state recovery goes on without a media id if and only if its read is lost or no success of the job is logged yet |
| PublishTheorems.FinishedIsFinal | internal/post/status.go:41-44 | status, media id, error and times of a finished job never change again, so recovery and a live worker cannot overwrite each other |
| PublishTheorems.PublishingWasAuthorised | internal/approval/service.go:321-349 | a job in PUBLISHING or PUBLISHED has in its operator log, in order, a generation, the selection of the released variant with no generation or selection after it, and a publish or schedule request not cancelled since |
| PublishTheorems.DecisionsAreOperators | internal/approval/service.go:774-791 | only the write of an operator request adds to that log, made by a process that a request started; retries, recoveries and promotions never do |
| OperatorLineage.RequestsOnly | internal/approval/service.go:321-349 | in every reachable state each process at a statement of an operator operation was started by an operator request |
| PublishTheorems.PhaseSpeaks | internal/approval/service.go:436-585 | the phase folded from the operator log says which decisions the log contains |
| PublishTheorems.PromotedOnlyWhenDue | internal/approval/service.go:842-862 | a promotion that no operator wrote finds the time in force at that moment passed, also after a reschedule or cancel since the listing |
| PublishTheorems.PromotedEarlyIffRequested | internal/approval/service.go:517-541 | a job leaves SCHEDULED for APPROVED with its time still ahead if and only if the commit of an operator publish request is the step |
| PublishTheorems.ScheduledAsAsked | internal/post/post.go:429-475 | in every reachable state a SCHEDULED job has a time, and it is the one its operators asked for last |
| PublishTheorems.ApprovedAtMostOnce | internal/post/post.go:506-519 | APPROVED is entered at most once in a job's life, so a schedule is promoted at most once across instances |
| PublishTheorems.ApprovedIsNeverHidden | internal/approval/service.go:826-837 | the retry-time filter of the publish listing never hides an APPROVED job |
| PublishTheorems.RetryColumns | internal/post/post.go:246-279 | in every reachable state the retry count is at most 8, 8 only in FAILED, at least 1 in WAITING_AI, and 0 with a retry time not ahead of the clock at or past an approval gate |
| StatusFlow.StatusFollowsTable | internal/post/post.go:547-573 | over every run a job only moves along the table, and is created NEW |
| StatusMoves.StatusMovesByStatement | internal/approval/service.go:618-862 | a status changes only by a statement of a process of that very job, and only to what that statement writes |
| StatusFlow.WinsAreExits | internal/post/post.go:205-217 | each claim won out of a status, by a worker, a retry pass or a promotion, takes the job out of it |
| StatusFlow.WinsNeverExceedEntries | internal/post/post.go:205-217 | in every run and for every status, the claims won out of it never outnumber the entries into it |
| StatusFlow.FinishedIsEnteredOnce | internal/post/status.go:59-62 | a terminal status is entered at most once and never left |
| StatusFlow.EntersPublishingIffWins | internal/approval/service.go:627-640 | a step enters PUBLISHING if and only if it is a claim won from APPROVED, by a worker or otherwise |
| StatusFlow.PublishingIsWonOnce | internal/approval/service.go:627-640 | the entries into PUBLISHING are the claims won from APPROVED, and there is at most one in a run |
| RetryBudget.BudgetPays | internal/approval/service.go:774-791 | a budget computed from stage, retry count and place in the retry loop pays for every status change but a final failure |
| RetryBudget.StatusChangesAreBounded | internal/approval/service.go:774-822 | between two operator writes a job changes status at most 26 times, and 25 if it has not failed |
| RetryBudget.WaitingChangesIffLateFailure | internal/approval/service.go:717-770 | a job that waits for its operator changes status without an operator write if and only if a worker that lost its claim finds the context missing and fails it |
| RetryBudget.BoundedWithoutLateFailure | internal/approval/service.go:774-822 | without such a late failure a job changes status at most 25 times between two operator writes, even if it ends in FAILED |
| RetryBudget.WaitsAddUp | internal/post/post.go:261-276 | the delays of all parks since the last completed stage add up, if queued jobs are taken when due |
| RetryBudget.ExhaustionTakesAnHour | internal/post/post.go:246-279 | a job failed by retry exhaustion had its eighth park at least 63 minutes after its first, if queued jobs are taken when due |
| EarlyExhaustion.ExhaustedInAMinuteHappens | internal/post/post.go:246-279 | a concrete run with late claims in which the eighth park comes one minute after the first, so the hypothesis is needed |
| RetryStages.ScoredAgainIffMisdirected | internal/approval/service.go:774-791 | at some moment of a run a job whose variants were requested is to be scored again if and only if an earlier retry was won for a stage its row no longer named |
| RetryStages.RetryResumesIff | internal/approval/service.go:774-791 | if none was misdirected before, a won retry resumes the stage in which the job was parked if and only if the stage picked at the listing is the one the row names at the claim |
| RetryStages.MisdirectedHappens | internal/approval/service.go:774-791 | a concrete run in which a retry pass that listed the job before its variants were requested sends it back to scoring |
| SelectionGate.SelectionIsOwn | internal/post/post.go:291-310 | a selection is always a stored variant of the job itself |
| SelectionGate.SelectionHeldIffNoLateReplace | internal/post/post.go:578-590 | READY_TO_PUBLISH, SCHEDULED, APPROVED and PUBLISHING jobs have a selection at every moment of a run if and only if no replacement came after review |
| WitnessRuns.LateReplaceHappens | internal/approval/service.go:351-388 | a concrete run in which a recovered worker replaces the variants of a reviewed job |
| WitnessRuns.TwentySixChangesHappen | internal/approval/service.go:717-742 | a concrete run without operator requests in which a job changes status 26 times, the last one a late failure |
| ReleaseRuns.PublishedHappens | internal/approval/service.go:618-701 | a concrete run from ingestion to PUBLISHED |
| ReleaseRuns.PromotedEarlyHappens | internal/approval/service.go:517-541 | a concrete run in which a job leaves SCHEDULED for APPROVED before its time |
| ReleaseRuns.PublishedThenFailedHappens | internal/approval/service.go:797-822 | a concrete run in which recovery looks before the success is written and then fails the published job, with nothing lost and a readable log |
| ReleaseRuns.PublishedAfterFailedHappens | internal/approval/service.go:642-670 | a concrete run in which recovery fails the job while its live worker renders, which then publishes the FAILED job |
| ApprovalService.Service.PublishJob | internal/approval/service.go:618-701 | an approved job with a selection is claimed and published or failed; any other, or one whose context cannot be loaded, is left alone, with success if another worker has claimed or published it; the tables end up as after the publish process run alone |
| ApprovalService.AnswerByAnswer | internal/approval/service.go:642-701 | for each answer of reading, rendering and publishing: what the publisher is handed, and the row and the log entry with media id or reason that are left |
| ApprovalService.Service.PreparePreview | internal/approval/service.go:483-513 | the two attempts of the loop are those of the preview process; on success exactly the selected variant has got artwork, made from its caption, and otherwise no variant has changed; no success if both renders fail |
| ApprovalService.Service.SelectVariantForReview | internal/approval/service.go:436-462 | a variant of the job is selected in review, a reviewed or scheduled job changes to it, a job on its way with it is left alone, and anything else is refused without a change; success means artwork made from the stored caption |
| ApprovalService.Service.UpdateVariantCaption | internal/approval/service.go:466-479 | a caption that is blank or longer than 2200 characters once trimmed changes nothing; any other replaces the caption and drops the artwork of a variant of the job in review, and the artwork is made anew if the variant is selected |
| ApprovalService.Service.QueuePublish | internal/approval/service.go:517-541 | success if and only if the job is APPROVED, PUBLISHING or PUBLISHED afterwards; only a reviewed job changes, it is approved if its selected variant has artwork, and gets artwork made from the stored caption if it has none |
| ApprovalService.Service.SchedulePublish | internal/approval/service.go:547-604 | a time that has passed or is over 30 days ahead changes nothing; a scheduled job is moved, a reviewed one with artwork is scheduled, with status and time written together, and the notice is enqueued if and only if that succeeds |
| ApprovalService.Service.ScoreListedJob | internal/approval/service.go:717-742 | run alone, it does what the scoring process does; for each outcome of context, providers and storage the row that is left, and a first-approval notice if and only if the job comes to that gate |
| ApprovalService.Service.GenerateForListedJob | internal/approval/service.go:351-388 | run alone, it does what the generation process does; for each outcome the row that is left; n stored variants are reported by exactly n + 1 keys, one for each new id in order and the one that asks to pick last, and no answer by the key that says parked or given up |
| ApprovalService.Service.QueueVariantApproval | internal/approval/service.go:390-416 | exactly one key for each stored variant in order, and last the one that asks to pick among them |
| ApprovalService.Service.ProcessScoringQueue | internal/approval/service.go:717-742 | at most 5 due queued jobs are listed, fewer only if that is all; each of them ends with the row its outcome calls for, no other row changes, and the notices are enqueued in order |
| ApprovalService.Service.ProcessVariantQueue | internal/approval/service.go:745-770 | at most 5 due queued jobs are listed, fewer only if that is all; each of them ends with the row its outcome calls for, no other row changes, and the notices are enqueued in order |
| ApprovalService.Service.RetryWaitingAI | internal/approval/service.go:774-791 | every due parked job is queued again, for generation if and only if its row names a number of variants, unless 50 others were parked no later; no other row changes |
| ApprovalService.Service.PublishApproved | internal/approval/service.go:826-837 | at most 20 due approved jobs are listed, fewer only if that is all; each of them is published, failed or, without its context or a selection, left alone; no other row changes, and the notices are enqueued in order |
| ApprovalService.Service.PromoteAndPublish | internal/approval/service.go:842-862 | a job that is not SCHEDULED or not yet due is left alone; a due one becomes APPROVED and is published or failed at once |
| ApprovalService.Service.ProcessScheduledPublishes | internal/approval/service.go:842-862 | at most 20 due scheduled jobs are listed, fewer only if that is all; each of them is promoted and published or failed; no other row changes, and the notices are enqueued in order |
| Notices.EnqueueInTurn | internal/approval/service.go:1003-1011 | enqueueing one list of notices after another is enqueueing both at once |
| Notices.EnqueueAllStores | internal/outbox/outbox.go:28-41 | after enqueueing a list every key is taken, a key that was free is stored with its text and due at once, and the rows there before are unchanged |
| StaleRecovery.RecoveredIsSettled | internal/approval/service.go:804-819 | recovery leaves a listed job in WAITING_AI, FAILED or PUBLISHED, and PUBLISHED if and only if its log can be read and names a media id, which it stores |
| StaleRecovery.RecoveredByField | internal/approval/service.go:804-819 | the recovered row in every field: the waiting time after each park, the eighth as the last, and the stored media id or the reason |
| StaleRecovery.RecoveryPass.RecoverStaleJobs | internal/approval/service.go:797-822 | an undisturbed pass recovers exactly the listed jobs, whichever logs cannot be read, changes no other row, and leaves nothing stale if at most 50 jobs were |
| StaleRecovery.MissedMeansMore | internal/post/post.go:382-404 | a stale job missing from the page means more stale jobs than the page holds |
| StaleRecovery.RecoveredAsProcess | internal/approval/service.go:797-822 | what the pass does to a row, with or without a readable log, is what the stale process of the protocol does, run alone |
| OutboxTable.InsertTwice | internal/outbox/outbox.go:28-41 | enqueueing is idempotent by key, keeps keys unique and touches no other row |
| OutboxRepository.Repository.Enqueue | internal/outbox/outbox.go:28-41 | a new key is stored with itself as idempotency key if none is given, due at once; a taken key changes no row |
| OutboxRepository.Repository.ClaimDue | internal/outbox/outbox.go:45-89 | of the messages that are open, due and not leased the one with the least id is leased for a minute and handed out as it is stored, with its attempt counted; one that does not decode is given up; none is found only if there is none |
| OutboxRepository.Repository.MarkSent | internal/outbox/outbox.go:91-97 | marks a message sent and releases it, without a look at the lease |
| OutboxRepository.Repository.MarkFailed | internal/outbox/outbox.go:99-117 | the shift loop yields delays of 1 to 64 minutes, and the tenth attempt gives the message up |
| OutboxRepository.Repository.PurgeSent | internal/outbox/outbox.go:123-130 | removes exactly the messages sent before the cutoff, leaves the others as they are, and counts the removed |
| OutboxRepository.HandledIsOver | internal/outbox/outbox.go:91-117 | a delivered or refused message is released, not due again in the same instant, and given up only on its tenth attempt |
| OutboxRepository.HandledRow | internal/outbox/outbox.go:91-117 | the row after a delivery in every field: sent, or waiting 1 to 64 minutes with the error cut to 1000 characters, or given up at the tenth attempt |
| OutboxRepository.Courier.DeliverNotifications | internal/approval/service.go:947-968 | sends due messages in order of id, at most 20, each once and exactly as stored in its row, records every answer, and stops early only when nothing is due or a message does not decode |
| OutboxDelivery.AlwaysMsgInv | internal/outbox/outbox.go:45-117 | the invariant of one message over all runs in which its workers keep their leases |
| OutboxDelivery.HeldByOne | internal/outbox/outbox.go:43-60 | at most one worker has a message, and it is still open |
| OutboxDelivery.SentXorDead | internal/outbox/outbox.go:91-117 | sent and dead are never both set |
| OutboxDelivery.AttemptsAreSends | internal/outbox/outbox.go:45-117 | without crashes attempts equals sends and is at most 10, a decodable message is dead exactly after 10 failed sends, and no message is delivered twice |
| OutboxDelivery.CrashesCostAttempts | internal/outbox/outbox.go:75-80 | with crashes, sends never exceed attempts and each crash costs at most one attempt more |
| OutboxDelivery.GivenUpAfterFourHours | internal/outbox/outbox.go:99-117 | a message given up had its tenth lease at least 255 minutes after its first failure was recorded |
| OutboxDelivery.LateWorkerDeliversTwice | internal/outbox/outbox.go:91-97 | a concrete run in which a worker past its lease delivers a message a second time |
| NoticeDedupe.FinishedFrozen | internal/post/post.go:547-573 | no action of the job protocol moves the completion time of a finished job |
| NoticeDedupe.PurgeKeeps | internal/approval/service.go:935-944 | a purged notice was sent a whole retention ago, and after the time from which its job could be reported |
| NoticeDedupe.NoticeCreatedOnce | internal/approval/service.go:906-931 | for a finished job at most one of the published and the job-failed notice is ever created, once, under the key of how it finished, if every pass enqueues within 23 days of reading the clock |
| NoticeDedupe.ReminderCreatedOnce | internal/approval/service.go:867-905 | the notice of a waiting job is created at most once if all who ask with its key find the job at its gate within the retention, less the time a pass takes |
| NoticeDedupe.VariantNoticeCreatedOnce | internal/approval/service.go:887-905 | a notice about a set of variants is created at most once if the job waits with that set no longer than the retention, less the time a pass takes, however long it waits with other sets |
| ApprovalReminders.RemindedTwiceHappens | internal/approval/service.go:867-905 | a concrete run in which the first-approval notice of a job that waits longer is created twice |
| RateLimiter.Limiter.Allow | internal/http/security.go:121-144 | the answer and the new table, for tracked, expired, new and untracked clients |
| RateLimiter.Limiter.Sweep | internal/http/security.go:127-133 | deleting in place leaves exactly the windows that have not expired |
| RateLimiter.OneRequest | internal/http/security.go:135-144 | a request is admitted if and only if its count in the window of its client, or as the first of a new window, is within the limit |
| RateLimiter.WhoIsTracked | internal/http/security.go:124-143 | after a request the tracked clients are those before, without the expired ones if a sweep was due, and the requesting one if it was among them or there is room; no other window changes |
| RateLimiter.SweepingChangesNoAnswer | internal/http/security.go:121-144 | with times that do not run backwards and at most 50 000 clients, every request is answered as by a limiter that never sweeps |
| RateLimiter.NeverTooManyTracked | internal/http/security.go:86-89 | the table never exceeds 50 000 entries, whatever the clock and the clients do |
| RateLimiter.TwoWindows | internal/http/security.go:136-143 | requests admitted within one window length come from at most two counting windows |
| RateLimiter.IntervalAdmitsTwiceTheLimit | internal/http/security.go:121-144 | any stretch of one window length admits at most twice the limit of one client |
| RateLimiter.TwiceIsReached | internal/http/security.go:121-144 | for every limit and every window there are requests that reach twice the limit within one window length |
| WordWrap.Wrap | internal/media/media.go:194-210 | the loop computes the greedy lines; no words give no lines |
| WordWrap.LinesKeepTheWords | internal/media/media.go:193-210 | the lines hold the words in order, and a line exceeds the width only if it is a single word |
| WordWrap.FewestLines | internal/media/media.go:193-210 | no split under the same rules has fewer lines |
| WordWrap.BreaksOnlyWhenFull | internal/media/media.go:201-208 | a line ends only where its next word would not have fitted |
| WordWrap.FieldsAreStretches | internal/media/media.go:193-199 | the words are the longest stretches without white space, in order, and nothing else of the text is left but white space |
| WordWrap.OneSpaceBetween | internal/media/media.go:205-206 | the words of a line are set apart by one space each |
| WordWrap.WrapIsLossless | internal/media/media.go:193-210 | the words read back from the lines are the words of the text |
| Text.TrimIsTight | internal/approval/service.go:467-470 | a trimmed caption has no white space at its ends and is empty exactly if it was blank |
| Text.TrimIsMiddle | internal/approval/service.go:467-470 | a trimmed caption is the text without the white space at its two ends, all of it and nothing more |
| Text.WhiteSpace | internal/approval/service.go:467-470 | the 25 code points that count as white space |
| AiParse.ParsedScoreIsStorable | internal/ai/parse.go:36-65 | a parsed score meets the constraints of the score table if and only if its reason has no U+0000, a storable one is kept as it is, and parsing again changes nothing |
| AiParse.ParsedScoreByField | internal/ai/parse.go:36-65 | which answers are refused, and each field of one that is not: numbers moved into 0 to 100, defaults for an absent category or risk, and the first 1000 characters of the reason |
| AiParse.NormalizeVariants | internal/ai/parse.go:92-105 | the loop computes the acceptable variants renumbered from one |
| AiParse.NormalizedKeepsTheAcceptable | internal/ai/parse.go:92-105 | exactly the variants with a caption that is not blank and has at most 2200 characters are kept, in order, each with its style and caption, numbered 1, 2, 3 and so on |
| AiParse.EnvelopeIsPreferred | internal/ai/parse.go:73-90 | the envelope decides if it holds variants, otherwise the bare array, and a response with neither is an error |
| AiService.FirstServingProviderAnswers | internal/ai/service.go:59-80 | generation succeeds if and only if some available provider has exactly the requested number of acceptable variants, and the first such provider answers |
| AiService.FirstScoreWins | internal/ai/service.go:42-56 | scoring succeeds if and only if some available provider parses, the first one wins with what it parses to, and its score can be stored if and only if its reason has no U+0000 |
| AiService.NulScoreWins | internal/ai/service.go:42-56 | two concrete answers of which the first wins and is refused by the score table, and the second could have been stored |
| AiService.AnswersAreStorable | internal/ai/parse.go:73-90 | whatever a response decodes to, the variants parsed from it are numbered from one and meet the constraints of the variant table if and only if no text of theirs contains U+0000 |
| AiService.GeneratedVariantsCanBeStored | internal/ai/service.go:59-80 | a generation that succeeds has exactly the requested number, at least one; replacing the variants of an existing job with them commits if and only if no text contains U+0000, and then leaves exactly these rows |
| AiService.NulIsGeneratedAndRefused | internal/ai/parse.go:92-105 | a concrete answer with U+0000 that the parser accepts and the variant table refuses |

## Left out

- RetryBudget.ExhaustionTakesAnHour: assumes that a worker takes a queued job only when its retry time has come; a worker that listed the job before a later park may take it earlier.
- OutboxDelivery.AttemptsAreSends: assumes that workers keep their leases, and that none crashed while it had the message.
- NoticeDedupe.ReminderCreatedOnce: the time between the first and the last ask is a hypothesis, since the code gives an operator no deadline.
- NoticeDedupe.VariantNoticeCreatedOnce: assumes that whoever asks about a set of variants finds it stored; a worker whose set was replaced before it could ask is not covered.
- NoticeDedupe.NoticeCreatedOnce: the notice that variant generation was given up has a key of its own and is not counted.
- ApprovalService.Service.PublishJob: error texts are shortened, and a method answers whether it succeeded and not with which error.
- StaleRecovery.RecoveryPass.RecoverStaleJobs: is one undisturbed pass; disturbed passes are covered by the runs of `Pipeline`.
- SelectVariantForJob, CancelScheduledPublish, SkipJob, CancelJob, GenerateVariants and RegenerateVariants have processes in `Pipeline` but no imperative method of their own: they are a composition or a single repository call.
- What a notice says is a parameter; `HandleCallback`, which only dispatches an operator's answer, is left out.
- `GetOrCreate` is reduced to creating a job under an unused id; the uniqueness of candidate and account is not modelled.
- The stored score does not influence the workflow and is left out.
- Captions, styles and the reasons of scores are checked for U+0000, which a text column refuses; provider names, error texts and logged payloads are taken to be free of it.
- An image URL stands for the variant and the caption it was rendered from; drawing, file upload and clean-up are left out. File names are random, so an upload is never overwritten.
- The publisher is an outside choice that either fails or names a non-empty media id, the same in its result and in the response kept in the log (`internal/instagram/instagram.go:62-101`).
- There is one clock for application and database, in whole seconds; it never runs backwards, and a transaction is stamped with the time at which it takes effect.
- JSON decoding, SQL and the scheduling of passes are taken as given: a statement or transaction is one atomic step, and a pass may run at any time.
- Parsing a remote address into the limiter's client key, and text that is not valid UTF-8, are left out.
- Progress from NEW and SCORED after a crash, and fairness of listings, are not claimed: the code does not provide them.
- News sync, HTTP handlers, the admin console, authentication, configuration and account sync are left out.
