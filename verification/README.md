# Clip pipeline: a verified model

This project models the parts of the video-to-clips system in which many actors or many passes
have to agree, and proves what they guarantee together.

- **Pipeline hand-off** (`PipelineDatabase`, `PipelineProtocol`, `PipelineSafety`,
  `PipelineTheorems`, `PipelineEndings`, `PipelineRedrive`, `PipelineServices`, `PipelineRelay`). Runs, stage
  executions, outbox events, dead letters and queues. Each database call or transaction is one
  step; any number of workers and relays interleave, jobs are delivered any number of times,
  locks expire, actors stop anywhere, videos are deleted with their events, dead letters are
  redriven. One inductive invariant covers every execution. `PipelineStore` and `OutboxRelay` are the services as they are written, and every
  undisturbed worker delivery and relay dispatch is shown to be a path of the protocol.
- **Minutes ledger** (`UsageLedger`, `UsageSettlement`): reservations, commits, refunds, the
  snapshot and the admission check with two-decimal rounding; then all of these as separate
  database calls of any number of processes.
- **Direct uploads** (`UploadRace`, `MultipartUpload`): confirms, aborts and cleanup passes that
  race on one attempt, the slices of a file, the two browser workers with one cursor, and the
  list of parts the server accepts.
- **Render fingerprints** (`StableJson`, `StableJsonReader`, `StableJsonTheorems`,
  `RenderRequests`): the canonical text, a reader that recovers the tree from it, and the reuse
  of exports. The collation behind `localeCompare` and SHA-256 are parameters; the latter is
  taken to be injective.
- **Event stream** (`EventStream`, `EventStreamRoundTrip`, `EventStreamJson`): the writer on the
  API side, the incremental reader in the browser, and JSON values sent from one to the other.
- **Composition** (`CompositionSamples`, `CompositionWindows`, `CompositionLayouts`,
  `CompositionTracking`, `CompositionHysteresis`, `CompositionCuts`, `CompositionPlan`,
  `CompositionKeyframes`, `CompositionScenes`, `SpeakerTracks`, `SpeakerMapping`): the list passes of the layout engine
  as loops over a local copy, each stated as a relation between the list that goes in and the
  list that comes out, then the chain of passes, the camera path, the scenes, and the matching
  of speakers to tracks. Times and coordinates are real numbers.
- **Clip search and captions** (`ClipSearch`, `Captions`), and the sorting all of these rely on
  (`Sorting`, `Common`).

## What does not hold

Each of these promises fails for some input. A lemma shows one; another says for all inputs when
the promise is kept.

- Key order is visible in the canonical text exactly when two keys tie under the collation
  (`OrderInvisibleIffUntied`). The text does not tell `[undefined]` from `[]`
  (`UndefinedElementCollides`); that and key order are all it loses (`SameTextIffSameCanonical`,
  `ReadPrinted`).
- Redriving a dead letter keeps the invariant if and only if its stage is the newest of its run,
  no worker has it, and no other worker's letter for it is open (`RedriveSafeIff`). Open letters of
  stage workers always meet that (`WorkerLetterSafe`). A letter of the relay need not: the stage may
  have finished (`RelayLetterCanBreakChain`) or failed for good (`BothCanHoldLetters`). Neither does
  a letter that two operators redrive at once (`RacingRedrivesTwoWorkers`). Safe redrives of either
  kind are steps of the protocol.
- A completed upload can still be marked failed by an abort or a confirm that read it earlier
  (`StaleAbortFailsStartedUpload`), and by nothing else (`CompletedIsFinalIff`).
- Two opposite settlement calls in flight settle one reservation both ways
  (`OppositeCallsSettleTwice`), and without such a clash that never happens (`SettledOnceIff`). The
  pipeline has one worker per run, which begins no second call before the first has ended.
- Two admission checks before both reservations exceed the limit, by just the minutes in flight
  (`SplitAdmissionExceedsLimit`); the limit holds in every continuation if and only if the
  admissions in flight fit together (`LimitKeptIff`).
- One application of the layout stabilisation need not be a fixed point (`FirstRunCanStayShort`).
  It is one if and only if the list that goes in does not leave its first run short
  (`StableOnceIff`); two always are (`StableThrice`).
- The last pass, which holds on to tracks, can cut a layout run that the passes before it have made
  long enough to a single sample (`TracksCanCutRuns`), also when everything is done from the frames
  on (`FramesCanCutRuns`). No fill or split run inside the clip comes out short if and only if, in
  the list before that pass, no stretch of fill that is left between forced samples is short, and
  no stretch that is forced to split away from other split samples (`RunsStayLongIff`).
- The early exit of the window search hides a window (`LateEndHidesWindow`) if and only if an
  eligible window contains a segment that ends too late for its start (`NothingLostIff`).
- Given track ids behind boxes without one can clash (`MixedIdsCanClash`). The ids of a frame differ
  whatever overlaps if and only if no given id can be offered or issued to a box before it
  (`DistinctIffHarmless`).
- The browser's frame parser is not the one of section 9.2.6 of the WHATWG HTML Living Standard:
  it knows only the newline as line end, trims all leading white space of data, and has no `id`
  or `retry`. `FrameReadsBackIff` says which events and data survive it.

## Model

| member | source | states |
|---|---|---|
| `PipelineDatabase.CompletedEventRoutes` | apps/api/src/queues/pipeline.constants.ts:48-67 | the event of a completed stage routes to the queue of the stage that follows, and to none after the last |
| `PipelineServices.PipelineStore.Begin` | apps/api/src/queues/pipeline-orchestrator.service.ts:30-49 | compare-and-set claim: only a pending, queued or retrying stage becomes processing; otherwise nothing changes and the outcome says why |
| `PipelineServices.PipelineStore.Complete` | apps/api/src/queues/pipeline-orchestrator.service.ts:51-118 | success, the successor row, its event and the chain change together or not at all; the run ends exactly behind the exports, or behind the composition when rendering does not start by itself |
| `PipelineServices.PipelineStore.Retry` | apps/api/src/queues/pipeline-orchestrator.service.ts:120-130 | the stage becomes retrying; fails only when the row is gone |
| `PipelineServices.PipelineStore.Fail` | apps/api/src/queues/pipeline-orchestrator.service.ts:132-178 | stage and run fail in one transaction or neither does; see Left out for exports, clips and the refund |
| `PipelineServices.PipelineStore.Capture` | apps/api/src/queues/dead-letter.service.ts:16-49 | one dead letter per queue and job id; a second capture only updates the attempts; references are kept only to rows that exist |
| `PipelineServices.PipelineStore.Redrive` | apps/api/src/queues/dead-letter.service.ts:51-93 | only an open letter with both references; letter, stage, run and a fresh event change together |
| `PipelineServices.PipelineStore.HandleError` | apps/api/src/queues/stage-worker.factory.ts:39-54 | retry, fail, or fail and capture, by attempts and kind of error; returns normally only after a user's own final error; a path of the protocol |
| `PipelineServices.PipelineStore.Work` | apps/api/src/queues/stage-worker.factory.ts:36-54 | process, complete and the catch block together: the rows they leave, the status of stage and run after each kind of error, exactly when they throw, and that they are a path of the protocol |
| `PipelineServices.PipelineStore.Deliver` | apps/api/src/queues/stage-worker.factory.ts:31-55 | one whole delivery is a path of protocol steps; a job on the wrong queue or without a claim changes nothing; exactly when a delivery throws |
| `PipelineServices.FailThenCapture` | apps/api/src/queues/stage-worker.factory.ts:42-49 | fail followed by capture leaves what the terminal branch promises |
| `PipelineRelay.OutboxRelay.ClaimBatch` | apps/api/src/queues/outbox-relay.service.ts:65-83 | claims at most a batch of distinct claimable events, the oldest first, all of them when fewer, and locks exactly those |
| `PipelineRelay.OutboxRelay.DispatchOne` | apps/api/src/queues/outbox-relay.service.ts:85-140 | every branch of a dispatch: mismatch, stale references, failed enqueue, failed publish, success, and exactly when an exception leaves it |
| `PipelineRelay.OutboxRelay.MarkPublished` | apps/api/src/queues/outbox-relay.service.ts:93-106 | event published, a pending stage queued, run running, in one transaction |
| `PipelineRelay.OutboxRelay.HandleFailure` | apps/api/src/queues/outbox-relay.service.ts:112-139 | the fifth failure captures and publishes, an earlier one releases the lock; an exception of its own leaves the event as it was |
| `PipelineRelay.OutboxRelay.DispatchBatch` | apps/api/src/queues/outbox-relay.service.ts:52-63 | one batch at a time; every claimed event gets one attempt and ends unlocked, all available ones when the batch is not full; an exception from a catch block leaves that event and the later ones locked and untried; no other event changes |
| `PipelineRelay.DispatchOutcome` | apps/api/src/queues/outbox-relay.service.ts:85-140 | after a dispatch that does not throw the event is unlocked, and published only if enqueued, captured or without references, unpublished only with fewer than five attempts; one that throws leaves every event as it was |
| `PipelineRelay.DispatchIsPath` | apps/api/src/queues/outbox-relay.service.ts:85-160 | whatever `DispatchOne` does to the rows, also when it throws, a path of protocol steps does |
| `PipelineSafety.BeginKeepsInv` | apps/api/src/queues/pipeline-orchestrator.service.ts:30-49 | a claim keeps the invariant, in particular that no two workers have one stage |
| `PipelineSafety.CompleteKeepsInv` | apps/api/src/queues/pipeline-orchestrator.service.ts:51-118 | a completion keeps the chain consecutive and leaves one unfinished execution at most |
| `PipelineSafety.RetryKeepsInv` | apps/api/src/queues/pipeline-orchestrator.service.ts:120-130 | a retry keeps the invariant |
| `PipelineSafety.FailKeepsInv` | apps/api/src/queues/pipeline-orchestrator.service.ts:132-178 | a failure keeps the invariant |
| `PipelineSafety.CaptureKeepsInv` | apps/api/src/queues/dead-letter.service.ts:16-49 | a capture by a worker keeps the invariant: its stage is dead-lettered and no longer held |
| `PipelineSafety.RedriveKeepsInv` | apps/api/src/queues/dead-letter.service.ts:51-93 | a redrive of a worker's open letter at any time, or of a relay's when it is safe, keeps the invariant |
| `PipelineSafety.RedriveLateKeepsInv` | apps/api/src/queues/dead-letter.service.ts:74-90 | so does the transaction of a redrive whose letter was redriven since its check, when it is safe |
| `PipelineSafety.RedriveRoutes` | apps/api/src/queues/dead-letter.service.ts:66-77 | the event type chosen for a redriven stage routes back to that stage |
| `PipelineSafety.UploadKeepsInv` | apps/api/src/videos/prisma-video.repository.ts:72-130 | starting an ingestion run keeps the invariant |
| `PipelineSafety.RequestRenderKeepsInv` | apps/api/src/exports/clip-render-request.service.ts:147-208 | starting a render run keeps the invariant |
| `PipelineSafety.ClaimKeepsInv` | apps/api/src/queues/outbox-relay.service.ts:65-83 | a relay claim keeps the invariant |
| `PipelineSafety.EnqueueKeepsInv` | apps/api/src/queues/outbox-relay.service.ts:91-92 | adding the job to its queue keeps the invariant |
| `PipelineSafety.PublishKeepsInv` | apps/api/src/queues/outbox-relay.service.ts:93-106 | publishing keeps the invariant, also when it comes late |
| `PipelineSafety.DispatchFailsKeepsInv` | apps/api/src/queues/outbox-relay.service.ts:112-139 | releasing or capturing after a failed dispatch keeps the invariant |
| `PipelineSafety.DiscardKeepsInv` | apps/api/src/queues/outbox-relay.service.ts:154-160 | discarding a stale event keeps the invariant |
| `PipelineSafety.DeleteKeepsInv` | apps/api/src/videos/video-lifecycle.service.ts:39-50 | deleting a run with its stages and events, and clearing the references of dead letters, keeps the invariant, whatever workers and relays still hold |
| `PipelineSafety.EveryRunSafe` | apps/api/src/queues/pipeline-orchestrator.service.ts:30-178 | the invariant holds after every sequence of steps of all actors |
| `PipelineTheorems.ChainTheorem` | apps/api/src/queues/pipeline-orchestrator.service.ts:51-118 | in every reachable state a run's executions are consecutive stages and all but the newest have succeeded |
| `PipelineTheorems.OneExecutionPerStage` | apps/api/src/queues/pipeline-orchestrator.service.ts:96-103 | no run has two executions of one stage, so no execution gets two successors |
| `PipelineTheorems.OneWorkerPerRun` | apps/api/src/queues/pipeline-orchestrator.service.ts:36-43 | at most one worker is busy with a run, and a held stage is PROCESSING |
| `PipelineTheorems.HandOffAccounted` | apps/api/src/queues/outbox-relay.service.ts:85-139 | the event behind every stage is unpublished, or its job was added to that stage's queue, or an operator has it |
| `PipelineTheorems.MismatchUnreachable` | apps/api/src/queues/outbox-relay.service.ts:87-89 | neither the relay's nor the worker's mismatch error can be raised, also for events claimed before their row was deleted |
| `PipelineTheorems.HolderCompletes` | apps/api/src/queues/pipeline-orchestrator.service.ts:58-66 | the worker that holds a stage is never refused its completion |
| `PipelineTheorems.RunKeepsHistory` | apps/api/src/queues/pipeline-orchestrator.service.ts:30-178 | over any stretch of any execution a success is undone only by a redrive, which gives the stage a new event; chains grow at the end; deleted rows never return |
| `PipelineTheorems.SuccessIsFinal` | apps/api/src/queues/dead-letter.service.ts:51-93 | while only workers' letters are redriven, each once, success is final |
| `PipelineEndings.CompletionEndsIff` | apps/api/src/queues/pipeline-orchestrator.service.ts:52-66 | a completion ends the run exactly in the exports, or in the composition without automatic rendering, and otherwise starts the very next stage |
| `PipelineEndings.CompletionEffect` | apps/api/src/queues/pipeline-orchestrator.service.ts:66-117 | the rows a completion leaves, in both cases, and that no other stage changes |
| `PipelineEndings.StartEffect` | apps/api/src/videos/prisma-video.repository.ts:72-130 | the rows a new run begins with |
| `PipelineEndings.WorkerEffects` | apps/api/src/queues/pipeline-orchestrator.service.ts:30-178 | the stage and the run after a claim, a retry and a failure |
| `PipelineEndings.RelayEffects` | apps/api/src/queues/outbox-relay.service.ts:65-160 | the event after each thing a relay does to it, and stage and run after it is published |
| `PipelineEndings.RedriveEffect` | apps/api/src/queues/dead-letter.service.ts:59-90 | the letter, the stage, the run and the new event after a redrive |
| `PipelineEndings.DeleteEffect` | apps/api/src/videos/video-lifecycle.service.ts:39-50 | what deleting a run takes away, and that it touches nothing else |
| `PipelineEndings.RunsEndWhereTheyShould` | apps/api/src/queues/pipeline-orchestrator.service.ts:51-118 | in every reachable state a succeeded execution is the newest of its run if and only if nothing is to follow its stage |
| `PipelineEndings.UploadsStopAtComposition` | apps/api/src/queues/pipeline-orchestrator.service.ts:56-56 | without automatic rendering no run that began with an upload gets past the composition |
| `PipelineRedrive.RedriveSafeIff` | apps/api/src/queues/dead-letter.service.ts:51-93 | a redrive keeps the whole invariant if and only if its stage is the newest of its run, nobody works on it, and no other worker's letter for it is open; whoever captured the letter and whatever became of it since the check |
| `PipelineSafety.WorkerLetterSafe` | apps/api/src/queues/stage-worker.factory.ts:42-46 | open letters captured by stage workers always meet that condition |
| `PipelineRedrive.RelayLetterCanBreakChain` | apps/api/src/queues/outbox-relay.service.ts:113-124 | an execution after which redriving a relay's letter puts a finished stage back behind its successor |
| `PipelineRedrive.BothCanHoldLetters` | apps/api/src/queues/outbox-relay.service.ts:113-124 | an execution after which the relay's and the worker's letter for one stage are both open, and redriving the relay's is not safe |
| `PipelineRedrive.TwoLettersTwoWorkers` | apps/api/src/queues/dead-letter.service.ts:51-93 | two open letters for one stage, redriven one after the other, let two workers claim it |
| `PipelineRedrive.RacingRedrivesTwoWorkers` | apps/api/src/queues/dead-letter.service.ts:52-90 | two redrives that both found one letter open do so too |
| `UsageLedger.Conservation` | apps/api/src/usage/usage.service.ts:66-94 | reserved minutes are the committed, the refunded and the open ones together |
| `UsageLedger.ReservedIsOpen` | apps/api/src/usage/usage.service.ts:92-93 | the shown reservation is the open sum: its lower bound of zero never takes effect |
| `UsageLedger.RoundingError` | apps/api/src/usage/usage.service.ts:279-281 | two-decimal rounding is off by half a hundredth at most |
| `UsageLedger.TopUpRaisesLimit` | apps/api/src/usage/usage.service.ts:94-95 | bought minutes raise the limit by just as many |
| `UsageLedger.SnapshotShows` | apps/api/src/usage/usage.service.ts:92-109 | what is shown as used, reserved, bought and remaining is the exact number up to 0.005 |
| `UsageLedger.SettleMovesMinutes` | apps/api/src/usage/usage.service.ts:206-231 | a settlement takes the run's minutes out of the open sum and charges them only when it is a commit |
| `UsageLedger.AdmitsWithinRounding` | apps/api/src/usage/usage.service.ts:132-144 | a run that passes the check fits the monthly and the bought minutes, with its exact minutes, up to 0.01, and one turned away for it does not |
| `UsageLedger.ReserveAddsMinutes` | apps/api/src/usage/usage.service.ts:175-196 | the reservation of a new run adds just its minutes to the open ones |
| `UsageLedger.TransitionIs` | apps/api/src/usage/usage.service.ts:206-231 | a commit charges what was reserved unless it was refunded, a refund gives it back unless it was committed, and neither does anything twice |
| `UsageLedger.Sum` | apps/api/src/usage/usage.service.ts:61-91 | adding up the rows in any order gives their total |
| `UsageLedger.UsageService.Current` | apps/api/src/usage/usage.service.ts:40-46 | an answer this process has cached is given again as it is; otherwise the present snapshot, which is kept |
| `UsageLedger.UsageService.TakeSnapshot` | apps/api/src/usage/usage.service.ts:52-112 | the five numbers of the snapshot, from the rows |
| `UsageLedger.UsageService.AssertCanProcessVideo` | apps/api/src/usage/usage.service.ts:125-147 | never from the cache: refused, in this order, without a verified e-mail, for a blocked account, for too long a video, or over the limit; a run that passes fits the monthly and the bought minutes and one refused for it does not, up to 0.01; an existing reservation or an unknown duration asks for nothing more |
| `UsageLedger.UsageService.ReserveProcessingMinutes` | apps/api/src/usage/usage.service.ts:175-196 | upsert of the reservation, none without a duration; this process's cached answer is dropped when it writes |
| `UsageLedger.UsageService.TransitionProcessingMinutes` | apps/api/src/usage/usage.service.ts:206-231 | the whole transition when undisturbed; this process's cached answer is dropped whenever rows change |
| `UsageSettlement.LedgerSafe` | apps/api/src/usage/usage.service.ts:125-231 | over every execution with orderly calls: the books balance, no run is both committed and refunded, and the limit is exceeded by the rounding and the minutes found in flight at checks at most |
| `UsageSettlement.LimitKeptIff` | apps/api/src/media/media-stage.processor.ts:625-627 | used and open minutes stay within limit, rounding and spare in every continuation whose checks find at most the spare minutes in flight, if and only if what is used, open and in flight fits into that now |
| `UsageSettlement.FirstSettlementFinalIff` | apps/api/src/usage/usage.service.ts:206-231 | the first of commit and refund stays, with its quantity, and the other never appears in any continuation, if and only if no opposite call is in flight |
| `UsageSettlement.CallIsTransition` | apps/api/src/usage/usage.service.ts:206-231 | the three database calls without interference are the transition |
| `UsageSettlement.OppositeCallsSettleTwice` | apps/api/src/usage/usage.service.ts:207-217 | from every state with two opposite calls on one reservation in flight there is a continuation that settles it both ways |
| `UsageSettlement.SettledOnceIff` | apps/api/src/usage/usage.service.ts:206-231 | a reservation is settled one way only in every continuation with orderly new calls if and only if no opposite calls, and no call opposite to its row, are in flight |
| `UsageSettlement.SplitAdmissionExceedsLimit` | apps/api/src/media/media-stage.processor.ts:625-627 | for every amount of minutes an execution in which two checks before both reservations exceed the limit by that amount |
| `UploadRace.UploadServices.MarkUploaded` | apps/api/src/videos/prisma-video.repository.ts:72-130 | succeeds exactly when it changes anything: video UPLOADING, then video, attempt and run together |
| `UploadRace.UploadServices.FailAttempt` | apps/api/src/videos/direct-upload.service.ts:222-233 | attempt and video fail, whatever their status |
| `UploadRace.UploadServices.Confirm` | apps/api/src/videos/direct-upload.service.ts:148-176 | only a started attempt with all parts goes on; metadata decide between start and failure; it succeeds exactly for an attempt completed before, or started with all in order and its video uploading, which is exactly when the attempt is completed afterwards |
| `UploadRace.UploadServices.Abort` | apps/api/src/videos/direct-upload.service.ts:178-190 | refused exactly for completed or unknown attempts |
| `UploadRace.UploadServices.ClaimAttempt` | apps/api/src/videos/orphan-upload-cleanup.service.ts:55-67 | claims only a started attempt, and fails its video only while it is uploading |
| `UploadRace.UploadServices.CleanupOnce` | apps/api/src/videos/orphan-upload-cleanup.service.ts:32-99 | one pass at a time; exactly the started and pending attempts found change, each as its storage allows, the started ones are claimed, and the count is the number given up |
| `UploadRace.OneRunPerUpload` | apps/api/src/videos/prisma-video.repository.ts:72-130 | over every execution a video starts at most one run, and an attempt claimed by cleanup none, before or after |
| `UploadRace.ClaimIsForEver` | apps/api/src/videos/orphan-upload-cleanup.service.ts:55-67 | a claim is never taken back |
| `UploadRace.CompletedIsFinalIff` | apps/api/src/videos/direct-upload.service.ts:178-233 | a completed attempt stays so in every continuation if and only if no abort or confirm that read it before is still to act |
| `UploadRace.StaleAbortFailsStartedUpload` | apps/api/src/videos/direct-upload.service.ts:178-190 | an execution that ends with a failed video whose run has started |
| `UploadRace.ConfirmIsPath` | apps/api/src/videos/direct-upload.service.ts:148-176 | a confirm that nothing interrupts is a path of the steps |
| `UploadRace.AbortIsPath` | apps/api/src/videos/direct-upload.service.ts:178-190 | so is an abort |
| `UploadRace.CleanupIsPath` | apps/api/src/videos/orphan-upload-cleanup.service.ts:55-99 | and a cleanup, which claims before it asks the storage |
| `UploadRace.TransactionsWrite` | apps/api/src/videos/direct-upload.service.ts:222-233 | the attempt and the video after each transaction |
| `MultipartUpload.SlicesTile` | apps/web/lib/upload.ts:126-127 | the slices are nonempty, as long as announced, at most a part long, and make up the file in order |
| `MultipartUpload.LengthsTile` | apps/web/lib/upload.ts:260-263 | the part lengths add up to the size of the file |
| `MultipartUpload.CountBounds` | apps/api/src/videos/direct-upload.service.ts:212-214 | the part count covers the file and the last part is needed |
| `MultipartUpload.Accepts` | apps/api/src/videos/direct-upload.service.ts:152-156 | the sort-and-compare check accepts exactly the arrangements of 1 to n |
| `MultipartUpload.AcceptsIff` | apps/api/src/videos/direct-upload.service.ts:153-156 | sorted numbers equal positions if and only if the list is a permutation of 1 to n |
| `MultipartUpload.Uploader.UploadBatch` | apps/web/lib/upload.ts:121-144 | for every interleaving of the two workers each part of a batch is taken once, and exactly these are completed; it fails exactly when a part does, and what is up by then is kept |
| `MultipartUpload.Uploader.UploadAll` | apps/web/lib/upload.ts:114-145 | over all batches of at most twenty every pending part is taken once, in order, and gets its tag; it fails exactly when a part does |
| `MultipartUpload.Uploader.UploadVideo` | apps/web/lib/upload.ts:112-154 | it succeeds exactly when no part that has no tag fails; then all parts from 1 to n are sent in order, each with the tag it had or the new one, in a list the server accepts |
| `MultipartUpload.EntriesOf` | apps/web/lib/upload.ts:147-149 | every completed part is listed once |
| `StableJsonReader.ReadPrinted` | apps/api/src/exports/clip-render-request.service.ts:257-266 | a reader gets every tree back from its text, followed by any rest that cannot extend the last token |
| `StableJsonTheorems.ObjectText` | apps/api/src/exports/clip-render-request.service.ts:259-263 | the text of an object is its sorted entries between braces |
| `StableJsonTheorems.ItemsSample` | apps/api/src/exports/clip-render-request.service.ts:258-258 | the text of an array, letter by letter |
| `StableJsonTheorems.SameTextIffSameCanonical` | apps/api/src/exports/clip-render-request.service.ts:257-266 | two values have one text exactly when their sorted forms agree |
| `StableJsonTheorems.SameTextImpliesSameJson` | apps/api/src/exports/clip-render-request.service.ts:257-266 | equal texts come from equal values up to key order, under any collation |
| `StableJsonTheorems.SameTextIffSameJson` | apps/api/src/exports/clip-render-request.service.ts:257-266 | and conversely, when no keys tie |
| `StableJsonTheorems.OrderInvisibleIffUntied` | apps/api/src/exports/clip-render-request.service.ts:261-261 | the order of keys never shows in the text if and only if no two keys of an object tie |
| `StableJsonTheorems.UndefinedElementCollides` | apps/api/src/exports/clip-render-request.service.ts:258-258 | an array of one undefined element shares its text with the empty array |
| `RenderRequests.FingerprintDetermines` | apps/api/src/exports/clip-render-request.service.ts:92-125 | equal fingerprints were made for equal requests, the hashed plan included |
| `RenderRequests.ClipRenderRequests.FindExisting` | apps/api/src/exports/clip-render-request.service.ts:126-136 | the newest reusable export, or none if there is none |
| `RenderRequests.ClipRenderRequests.Request` | apps/api/src/exports/clip-render-request.service.ts:88-210 | the newest export that can be reused is, and was made for the same request; otherwise exactly one new row is queued and a render run with its stage and event is started in one transaction; the clip takes over a changed aspect ratio and is marked by a final render |
| `RenderRequests.ClipRenderRequests.ReusableIff` | apps/api/src/exports/clip-render-request.service.ts:127-134 | an export can be reused exactly for the same clip, purpose and fingerprint unless it failed, so one made for this very request always can |
| `RenderRequests.ClipMarked` | apps/api/src/exports/clip-render-request.service.ts:89-182 | what a request does to the status of its clip |
| `RenderRequests.AcceleratorNamed` | apps/api/src/exports/clip-render-request.service.ts:112-112 | the accelerator a plan names, "legacy" when that is nothing |
| `EventStream.ParseServerSentEvent` | apps/web/hooks/use-video-events.ts:104-118 | last event name, data lines joined, nothing without data |
| `EventStream.MeaningStep` | apps/web/hooks/use-video-events.ts:104-118 | what each line does to the message: naming it, making it one, adding a line to its data, or nothing |
| `EventStream.NamedBefore` | apps/web/hooks/use-video-events.ts:106-113 | the last name before the first data line counts |
| `EventStream.SplitResumes` | apps/web/hooks/use-video-events.ts:62-63 | keeping the last piece and splitting it again with more text changes no piece |
| `EventStream.ReadMore` | apps/web/hooks/use-video-events.ts:61-66 | what a chunk adds to the messages, whatever came before |
| `EventStream.EventReader.Receive` | apps/web/hooks/use-video-events.ts:61-72 | buffer and messages depend on the text received, not on its cuts |
| `EventStream.Connect` | apps/web/hooks/use-video-events.ts:57-72 | any chunks give the messages of one split of the whole text |
| `EventStreamRoundTrip.EventWriter.Write` | apps/api/src/content/content.controller.ts:126-129 | one frame after the others, nothing once closed |
| `EventStreamRoundTrip.EventWriter.Beat` | apps/api/src/content/content.controller.ts:156-158 | one comment frame, nothing once closed |
| `EventStreamRoundTrip.EventWriter.Cleanup` | apps/api/src/content/content.controller.ts:120-125 | the stream is closed and what was written stays |
| `EventStreamRoundTrip.SplitWire` | apps/web/hooks/use-video-events.ts:104-118 | readable items come back in order, heartbeats vanish, nothing is left in the buffer |
| `EventStreamRoundTrip.RoundTrip` | apps/web/hooks/use-video-events.ts:57-72 | writer to reader over any cutting of the text |
| `EventStreamRoundTrip.EventIsClean` | apps/web/hooks/use-video-events.ts:106-113 | an event name never holds a newline or outer white space |
| `EventStreamRoundTrip.FrameReadsBackIff` | apps/web/hooks/use-video-events.ts:104-118 | one frame gives back its event and data and nothing else if and only if both fit on a line and no white space is trimmed |
| `EventStreamRoundTrip.JoinSplit` | apps/web/hooks/use-video-events.ts:62-62 | joining the pieces of a split gives the text back |
| `EventStreamJson.JsonReadable` | apps/api/src/content/content.controller.ts:128-128 | the JSON text of a value is on one line and begins with no white space, so it is readable under any clean event name |
| `EventStreamJson.ValuesRoundTrip` | apps/web/hooks/use-video-events.ts:57-72 | every JSON value written comes back in order over any cutting of the text |
| `CompositionWindows.WindowedUsableRates` | services/media-worker/src/media_worker/composition.py:749-765 | for sorted times the share of usable samples among exactly those within the radius, with at most 2n pointer moves |
| `CompositionLayouts.StabilizeLayouts` | services/media-worker/src/media_worker/composition.py:942-963 | only layouts change, and each run becomes what the pass says, given its left neighbour's new layout |
| `CompositionLayouts.StabilizedUnique` | services/media-worker/src/media_worker/composition.py:942-963 | the relation leaves exactly one result |
| `CompositionLayouts.StableRunsAreLong` | services/media-worker/src/media_worker/composition.py:942-963 | afterwards every run but the first spans the minimum |
| `CompositionLayouts.StableTwiceIff` | services/media-worker/src/media_worker/composition.py:942-963 | a second application changes nothing if and only if the first run came out long, or alone |
| `CompositionLayouts.StableOnceIff` | services/media-worker/src/media_worker/composition.py:942-963 | the same, decided by the list that goes in: its first run is long or alone, or is long together with all that follows up to the first long run of another layout, or that is everything |
| `CompositionLayouts.StableThrice` | services/media-worker/src/media_worker/composition.py:942-963 | the second application always reaches a fixed point |
| `CompositionLayouts.FirstRunCanStayShort` | services/media-worker/src/media_worker/composition.py:953-960 | samples whose first run stays short |
| `CompositionLayouts.SettleShortUnsafeRuns` | services/media-worker/src/media_worker/composition.py:966-991 | exactly the short interior fill and split runs become fit and safe |
| `CompositionLayouts.SettledRunsAreLong` | services/media-worker/src/media_worker/composition.py:966-991 | no interior fill or split run is left that the next sample follows too soon |
| `CompositionLayouts.SettledIff` | services/media-worker/src/media_worker/composition.py:966-991 | a run becomes fit exactly when it lies inside, fills or splits, and is followed too soon |
| `CompositionLayouts.SettleIdempotent` | services/media-worker/src/media_worker/composition.py:966-991 | a second application changes nothing |
| `CompositionLayouts.EnforceSafeLayouts` | services/media-worker/src/media_worker/composition.py:824-839 | every sample is framed safely and only safe ones stay fill |
| `CompositionLayouts.SafeInstead` | services/media-worker/src/media_worker/composition.py:824-839 | an unsafe fill becomes split with two people and fit otherwise, and is marked |
| `CompositionTracking.DetectCrossTalk` | services/media-worker/src/media_worker/composition.py:773-801 | whole runs of flagged samples become split, or nothing changes |
| `CompositionTracking.CrossTalkIff` | services/media-worker/src/media_worker/composition.py:788-801 | a sample is forced to split exactly when it lies in an unbroken flagged stretch that lasts long enough |
| `CompositionTracking.CrossTalkSampleIff` | services/media-worker/src/media_worker/composition.py:776-787 | a sample is flagged exactly when the two most active of its people both reach the floor and are close |
| `CompositionTracking.BridgeSafeFillGaps` | services/media-worker/src/media_worker/composition.py:842-897 | exactly the gaps between two safe fill samples of one track, close enough, are bridged |
| `CompositionTracking.BridgedIff` | services/media-worker/src/media_worker/composition.py:855-897 | a gap is bridged exactly between two samples that fill safely with one known track, close enough in time |
| `CompositionTracking.HeldShows` | services/media-worker/src/media_worker/composition.py:880-896 | how a bridged sample is shown |
| `CompositionTracking.HeldBetween` | services/media-worker/src/media_worker/composition.py:877-891 | a bridged focus lies between its two neighbours' |
| `CompositionTracking.HeldAtOnePace` | services/media-worker/src/media_worker/composition.py:877-891 | a bridged focus moves at one pace |
| `CompositionTracking.HeldGoesForward` | services/media-worker/src/media_worker/composition.py:877-891 | from the one neighbour, never turning back, to the other |
| `CompositionHysteresis.StabilizeActiveTracks` | services/media-worker/src/media_worker/composition.py:900-939 | each sample is what the held track at that point makes of it; nothing changes without a delay |
| `CompositionHysteresis.SwitchIff` | services/media-worker/src/media_worker/composition.py:911-925 | a known track is given up for another if and only if the unbroken run proposing it spans the delay, up to the tolerance |
| `CompositionHysteresis.SwitchNeedsUnbrokenRun` | services/media-worker/src/media_worker/composition.py:911-925 | during that run every sample proposes the new track while the old one is held |
| `CompositionHysteresis.OnlyProposalsSwitch` | services/media-worker/src/media_worker/composition.py:917-919 | no proposal or the same one leaves the held track |
| `CompositionHysteresis.HeldFromFirst` | services/media-worker/src/media_worker/composition.py:906-916 | the first proposed track is held at once, none before it, and from then on some track always is |
| `CompositionHysteresis.TrackedIsSafe` | services/media-worker/src/media_worker/composition.py:926-939 | no layout becomes fill, and a sample whose focus is moved away is not fill |
| `CompositionHysteresis.KeptLooksAt` | services/media-worker/src/media_worker/composition.py:926-939 | the held person is looked at when visible |
| `CompositionCuts.KeptLayouts` | services/media-worker/src/media_worker/composition.py:900-939 | a sample comes out split where a change of track is resisted and two people are seen, and with its own layout otherwise; times stay |
| `CompositionCuts.LayoutsKeptIff` | services/media-worker/src/media_worker/composition.py:900-939 | no layout changes if and only if every such sample was split already |
| `CompositionCuts.FillRunKeptIff` | services/media-worker/src/media_worker/composition.py:937-938 | a fill run comes out whole if and only if none of its samples is forced |
| `CompositionCuts.SplitRunKeptIff` | services/media-worker/src/media_worker/composition.py:937-938 | a split run comes out whole if and only if neither sample next to it is forced |
| `CompositionCuts.RunsStayLongIff` | services/media-worker/src/media_worker/composition.py:900-991 | the run lengths that settling guarantees survive the last pass if and only if no stretch of fill left, and none split on its own, is short |
| `CompositionPlan.Label` | services/media-worker/src/media_worker/composition.py:525-582 | a frame fills the screen exactly when its best subject is safe to crop, its window is reliable and nothing else speaks against that subject; it is split only with two people, and always framed safely |
| `CompositionPlan.LabelFrames` | services/media-worker/src/media_worker/composition.py:484-582 | every frame labelled, its window unreliable exactly when fewer than 35 % of the frames up to a second away show somebody |
| `CompositionPlan.UnreliableIff` | services/media-worker/src/media_worker/composition.py:514-532 | a frame is unreliable exactly when fewer than 35 % of the frames up to one second away show somebody |
| `CompositionPlan.LabelsFocusOk` | services/media-worker/src/media_worker/composition.py:525-582 | a label looks at its best subject, and without one is never fill-safe |
| `CompositionPlan.FrameSamples` | services/media-worker/src/media_worker/composition.py:514-594 | after the whole chain, whose result is fixed pass by pass, every sample is framed safely, and a fill sample looks at its own best subject with a safe crop, or between the two such sightings of one track that bound its gap, half a second apart at most |
| `CompositionPlan.PlanScenes` | services/media-worker/src/media_worker/composition.py:584-602 | frames to scenes: every scene safely framed and of the layout, the person and the mean confidence of its samples, a filling one over safe samples only; their keyframes in order the smoothed path of the framed samples; as many layout switches as between samples; and for frames 40 ms apart a tiling of the clip that shows at each sample's time what the sample says |
| `CompositionPlan.TracksKeepFraming` | services/media-worker/src/media_worker/composition.py:900-939 | the last pass undoes none of this |
| `CompositionPlan.FramedRunsLongIff` | services/media-worker/src/media_worker/composition.py:590-594 | at the end of the chain no fill or split run inside the clip is short if and only if no stretch of fill left between forced samples is short before the last pass, and no stretch forced to split on its own |
| `CompositionPlan.TracksCanCutRuns` | services/media-worker/src/media_worker/composition.py:926-939 | a list of which the last pass makes a run of one sample |
| `CompositionPlan.FramesCanCutRuns` | services/media-worker/src/media_worker/composition.py:514-594 | three clear frames of two people that reach the last pass as such a list |
| `CompositionKeyframes.SmoothKeyframes` | services/media-worker/src/media_worker/composition.py:994-1017 | each keyframe is the clamped camera position after its sample |
| `CompositionKeyframes.PathSteps` | services/media-worker/src/media_worker/composition.py:996-1011 | the camera starts in the middle and moves once for each sample |
| `CompositionKeyframes.StepIsGentle` | services/media-worker/src/media_worker/composition.py:1002-1009 | a step is 35 % of the way and at most 8 % of the frame, never passes its target, and is none exactly within 3 % |
| `CompositionKeyframes.PathStaysInFrame` | services/media-worker/src/media_worker/composition.py:994-1014 | with targets in the frame the clamp does nothing |
| `CompositionKeyframes.SettlesWithin15` | services/media-worker/src/media_worker/composition.py:1002-1009 | fifteen samples with one target bring the camera into the dead zone from anywhere |
| `CompositionKeyframes.StaysSettled` | services/media-worker/src/media_worker/composition.py:1004-1009 | and there it stands still |
| `CompositionScenes.Scenes` | services/media-worker/src/media_worker/composition.py:1024-1105 | one scene for each maximal run of samples that show the same thing, up to the last sample |
| `CompositionScenes.ScenesShow` | services/media-worker/src/media_worker/composition.py:1050-1105 | each scene has the layout of all its samples, outside splits their person, their mean confidence and their flags, and neighbouring ones differ |
| `CompositionScenes.SceneMeetsNextIff` | services/media-worker/src/media_worker/composition.py:1083-1084 | neighbouring scenes meet if and only if the first lasts 40 ms or the clip ends there |
| `CompositionScenes.ScenesTile` | services/media-worker/src/media_worker/composition.py:1050-1084 | for samples inside the clip and 40 ms apart the scenes tile the clip |
| `CompositionScenes.ScenesCover` | services/media-worker/src/media_worker/composition.py:1050-1084 | then a scene covers in time just its own samples |
| `CompositionScenes.KeyframesKept` | services/media-worker/src/media_worker/composition.py:1100-1100 | the scenes' keyframes, in order, are the clip's |
| `CompositionScenes.SwitchCountKept` | services/media-worker/src/media_worker/composition.py:598-602 | layout switches between scenes are those between samples |
| `CompositionScenes.ScenesSafe` | services/media-worker/src/media_worker/composition.py:1094-1096 | scenes of safely framed samples are safely framed |
| `SpeakerTracks.BestMatch` | services/media-worker/src/media_worker/composition.py:240-240 | the first previous box of greatest overlap |
| `SpeakerTracks.AssignFrame` | services/media-worker/src/media_worker/composition.py:230-247 | the ids of one frame and the next free id |
| `SpeakerTracks.AssignSingle` | services/media-worker/src/media_worker/composition.py:231-246 | a given id stays; otherwise the first box of greatest overlap hands its id on, from 20 % up; otherwise it is new |
| `SpeakerTracks.NewIdsAreConsecutive` | services/media-worker/src/media_worker/composition.py:243-246 | new ids are consecutive |
| `SpeakerTracks.AssignDistinct` | services/media-worker/src/media_worker/composition.py:230-247 | the ids of a frame differ, and one neither given nor taken over is new, when no given id can be offered or issued to a box before it |
| `SpeakerTracks.DistinctIffHarmless` | services/media-worker/src/media_worker/composition.py:230-247 | the ids of a frame differ whatever overlaps if and only if the given ids differ and none behind a box without an id is offered to that box or is the one it gets when nothing overlaps |
| `SpeakerTracks.TrackAll` | services/media-worker/src/media_worker/composition.py:222-248 | the frames in order, each against the last one that showed anybody |
| `SpeakerTracks.TracksSound` | services/media-worker/src/media_worker/composition.py:222-248 | over all frames that are harmless to the ones before: ids differ within a frame, and an id is continued from the last frame or was never used before |
| `SpeakerTracks.MixedIdsCanClash` | services/media-worker/src/media_worker/composition.py:231-246 | a frame with a given id behind a box without one ends with two equal ids |
| `SpeakerMapping.ScoreTracks` | services/media-worker/src/media_worker/composition.py:249-257 | the score of a pair is the track's activity over the frames in which the speaker speaks |
| `SpeakerMapping.TotalActivityConcat` | services/media-worker/src/media_worker/composition.py:249-257 | activity adds up over shots |
| `SpeakerMapping.TotalActivityOne` | services/media-worker/src/media_worker/composition.py:249-257 | and a shot counts only while that very speaker speaks |
| `SpeakerMapping.RankPairs` | services/media-worker/src/media_worker/composition.py:259-266 | all pairs with their scores, highest first, ties by speaker and track |
| `SpeakerMapping.Greedy` | services/media-worker/src/media_worker/composition.py:267-273 | one to one, positive, and every positive pair chosen or beaten by a pair scoring no less |
| `SpeakerMapping.MapSpeakers` | services/media-worker/src/media_worker/composition.py:249-273 | the mapping has no blocking pair in terms of the activity itself |
| `ClipSearch.Windows` | services/media-worker/src/media_worker/clips.py:21-39 | exactly the windows in the duration range that no longer predecessor cuts off |
| `ClipSearch.CandidateIff` | services/media-worker/src/media_worker/clips.py:22-38 | when a window is a candidate, in terms of times alone |
| `ClipSearch.WindowScoreShape` | services/media-worker/src/media_worker/clips.py:31-38 | the mean of the segments and up to fifteen points more: all for one segment of 42 seconds, less for every second off and every further segment, a hundred at most |
| `ClipSearch.NothingLost` | services/media-worker/src/media_worker/clips.py:26-27 | with ends in order the early exit cuts off no eligible window |
| `ClipSearch.NothingLostIff` | services/media-worker/src/media_worker/clips.py:21-39 | every eligible window is a candidate if and only if no eligible window contains a segment before its last that ends too late for its start |
| `ClipSearch.LateEndHidesWindow` | services/media-worker/src/media_worker/clips.py:26-27 | segments for which it does |
| `ClipSearch.Rank` | services/media-worker/src/media_worker/clips.py:40-40 | the same candidates, scores falling, ties by later and longer windows first |
| `ClipSearch.Select` | services/media-worker/src/media_worker/clips.py:41-56 | at most the requested number, in ranking order, pairwise not overlapping too much; when fewer, every other candidate overlaps a better one that was chosen |
| `ClipSearch.OverlapsIff` | services/media-worker/src/media_worker/clips.py:47-55 | two windows overlap too much when they share more than 55 % of the shorter |
| `ClipSearch.OverlapShare` | services/media-worker/src/media_worker/clips.py:67-70 | the overlap ratio is a share of the shorter stretch, the same from both sides, none and all of it exactly where it should be |
| `ClipSearch.BuildClip` | services/media-worker/src/media_worker/clips.py:87-100 | trimming stays inside the window and leaves three seconds or the full window |
| `ClipSearch.SuggestionsTaken` | services/media-worker/src/media_worker/clips.py:87-100 | suggested ends are taken when they lie in their segments and leave three seconds |
| `ClipSearch.FindClips` | services/media-worker/src/media_worker/clips.py:5-64 | the whole search: clamped count, all candidates considered, best first, and one clip for everything, with the first segment's score, when there is no candidate |
| `Captions.EvenlyTiles` | services/media-worker/src/media_worker/captions.py:340-353 | untimed words share their segment evenly, without gaps and without empty shares |
| `Captions.TranscriptWords` | services/media-worker/src/media_worker/captions.py:334-354 | all words of all segments, by start, words that start together in transcript order |
| `Captions.ShownElements` | services/media-worker/src/media_worker/captions.py:55-59 | the words of a clip are exactly those that overlap it |
| `Captions.ShownAreTheShown` | services/media-worker/src/media_worker/captions.py:55-59 | in their order and each as often as it was |
| `Captions.Groups` | services/media-worker/src/media_worker/captions.py:92-113 | each group ends at the first word that ends a group |
| `Captions.GroupsPartition` | services/media-worker/src/media_worker/captions.py:92-113 | groups partition the words in order, one to eight words each |
| `Captions.GroupsAreCutByRules` | services/media-worker/src/media_worker/captions.py:92-113 | two neighbouring words share a group exactly when it is not full, the pause is under 0.32 s, less than 2.2 s have passed, and no sentence of two or more words ends there |
| `Captions.CutsUnique` | services/media-worker/src/media_worker/captions.py:92-113 | which leaves one way to cut |
| `Captions.CueTakesTime` | services/media-worker/src/media_worker/captions.py:116-122 | no cue is empty in time, and no word inside it |
| `Captions.CueSpans` | services/media-worker/src/media_worker/captions.py:116-129 | a cue lasts from its first word to its last within the clip, and its words have their own times within the cue |
| `Captions.CuesKeepWords` | services/media-worker/src/media_worker/captions.py:114-135 | the words of all cues are exactly the words that are not blank, stripped, in order |
| `Captions.CuesAreTimed` | services/media-worker/src/media_worker/captions.py:114-135 | cues lie inside the clip and words inside their cue |
| `Captions.GroupWords` | services/media-worker/src/media_worker/captions.py:84-135 | grouping by those rules and timing together |
| `Captions.CaptionClip` | services/media-worker/src/media_worker/captions.py:53-64 | from transcript to the cues of a clip: the shown words, grouped by those rules, each cue over the time of its group |

## Left out

- Exports and clips touched by a failing stage, and metrics: no other modelled step reads them.
- The status of a run as a final state: a late dispatch sets it back to running, so only stage executions carry the guarantees.
- Progress after a worker dies in PROCESSING: the source has no step that reclaims the stage.
- Events without a job payload, for which the relay creates a run itself (the legacy `video.uploaded` format).
- PipelineProtocol.Apply: `begin` is one step although it makes two calls, and `complete` either commits or throws.
- PipelineProtocol.StepRedrive: a relay's letter is redriven only when that is safe, as is a letter that was redriven since its check (`StepRedriveLate`); what the unsafe ones do is said in PipelineRedrive, and no invariant is claimed after them.
- PipelineServices.PipelineStore.Fail: the exports and clips the transaction marks as failed are not modelled, and the refund that follows it is a call of UsageSettlement.
- PipelineServices.PipelineStore.Capture: the job added to the dead-letter queue, and payloads that do not parse, for which a letter without references is stored.
- PipelineRelay.OutboxRelay.DispatchBatch: the heartbeat after the loop, which can throw as well.
- PipelineDatabase.DbExpireLock: lock ages and back-off times are a step that may happen at any moment.
- PipelineServices.PipelineStore.Deliver: job ids equal event ids, and retries of BullMQ are further deliveries.
- The offer-production relay and processor, a second copy of the same protocol.
- UsageLedger.UsageService.AssertCanProcessVideo: a blocked subscription and an unverified e-mail are two answers; videos without a workspace are refused before.
- UsageLedger.Admits: legacy usage rows, changing durations and a change of billing period are not part of this model.
- UsageLedger.UsageService.Current: the lifetime of cached answers is not modelled, nor an answer stored after a write that came while it was computed; a cached answer is not claimed to be up to date.
- UsageSettlement.CheckLimit: the reads of one check are taken at one moment.
- RenderRequests.ClipRenderRequests.Request: clips that do not exist, other formats than MP4 and videos without finished captions are refused before, and the rest of the job's payload is not modelled.
- EventStreamJson.ValuesRoundTrip: the text of `JSON.stringify` is that of StableJson.Print for values without `undefined`, with entries in their given order.
- UploadRace.UploadServices.Confirm: object storage is two answers, parts complete and metadata matching; the streamed upload is left out.
- MultipartUpload.Uploader.UploadBatch: retries, renewed links, progress figures and cancellation are one failure answer per part.
- StableJson.Print: number tokens are given as text, and strings hold no lone surrogates, which the database cannot store either.
- EventStream.EventReader.Receive: chunks are text; the decoding of bytes that end inside a character is not modelled. An unfinished frame at the end of the connection is dropped, as in the source.
- CompositionPlan.Label: `_fill_is_safe` is a parameter, and boxes come filtered, ranked and merged.
- CompositionPlan.PlanScenes: the fallback plan for a clip in which hardly anybody is ever seen.
- CompositionPlan.FrameSamples: the passes work on values; the copies of dictionaries that the source makes at the start of each pass are not aliased, so nothing is lost.
- CompositionKeyframes.SmoothKeyframes and CompositionScenes.SceneOf: printed values before rounding; orientation and subjects of a scene are left out.
- SpeakerTracks.AssignFrame: boxes are values that come back with their ids, where the source writes the id into the box; the overlap ratio is a parameter.
- The activity update after speakers are mapped, voice-activity intervals and the AI speaker signal.
- ClipSearch.WindowScore: scores are given per segment; titles, hooks, genres and the printed rounding are left out.
- The SRT and ASS texts, keyword highlighting and editing of cues.
- IEEE rounding: all arithmetic is over real numbers, apart from the two decimals of the usage snapshot.
