/** The stages of a run, their event routes, and the database rows of the pipeline.
    Every function named Db... is one Prisma call or one transaction: it either happens
    as a whole or, when the call throws, leaves the rows as they were. */
module PipelineDatabase {
  import opened Common

  datatype Stage =
    | Ingestion | Transcription | Segmentation | Scoring | Clips | Captions | Composition | Rendering | Exports

  const PIPELINE_STAGES: seq<Stage> :=
    [Ingestion, Transcription, Segmentation, Scoring, Clips, Captions, Composition, Rendering, Exports]

  /** `PIPELINE_STAGES.indexOf(stage)` */
  function Index(stage: Stage): (i: nat)
    ensures i < |PIPELINE_STAGES| && PIPELINE_STAGES[i] == stage
  {
    match stage
    case Ingestion => 0
    case Transcription => 1
    case Segmentation => 2
    case Scoring => 3
    case Clips => 4
    case Captions => 5
    case Composition => 6
    case Rendering => 7
    case Exports => 8
  }

  function NextStage(stage: Stage): Option<Stage> {
    if Index(stage) == |PIPELINE_STAGES| - 1 then None else Some(PIPELINE_STAGES[Index(stage) + 1])
  }

  datatype EventType =
    | VideoUploaded | VideoUploadedV1 | VideoUploadedV2
    | StageCompleted(stage: Stage)
    | ClipRenderRequested

  function CompletedEventType(stage: Stage): EventType {
    StageCompleted(stage)
  }

  /** The route table; None where the lookup throws. */
  function EventQueue(event: EventType): Option<Stage> {
    match event
    case VideoUploaded => Some(Ingestion)
    case VideoUploadedV1 => Some(Ingestion)
    case VideoUploadedV2 => Some(Ingestion)
    case StageCompleted(Ingestion) => Some(Transcription)
    case StageCompleted(Transcription) => Some(Segmentation)
    case StageCompleted(Segmentation) => Some(Scoring)
    case StageCompleted(Scoring) => Some(Clips)
    case StageCompleted(Clips) => Some(Captions)
    case StageCompleted(Captions) => Some(Composition)
    case StageCompleted(Composition) => Some(Rendering)
    case StageCompleted(Rendering) => Some(Exports)
    case StageCompleted(Exports) => None
    case ClipRenderRequested => Some(Rendering)
  }

  /** A completed stage is announced on the queue of the stage that follows it. */
  lemma CompletedEventRoutes(stage: Stage)
    ensures EventQueue(CompletedEventType(stage)) == NextStage(stage)
    ensures NextStage(stage).Some? ==> Index(NextStage(stage).value) == Index(stage) + 1
  {
    if NextStage(stage).Some? {
      assert PIPELINE_STAGES[Index(stage) + 1] == NextStage(stage).value;
    }
  }

  // ----- rows

  type Id = nat

  datatype StageStatus = Pending | Queued | Processing | Retrying | Succeeded | Failed | DeadLettered

  datatype StageRow = StageRow(run: Id, stage: Stage, status: StageStatus, jobId: Id, attempts: nat)

  datatype RunStatus = RunPending | RunRunning | RunSucceeded | RunFailed

  /** `chain` lists the run's stage executions in the order they were created. */
  datatype RunRow = RunRow(chain: seq<Id>, status: RunStatus, current: Option<Stage>)

  datatype Job = Job(eventId: Id, run: Id, exec: Id, stage: Stage)

  datatype Event = Event(kind: EventType, job: Job, published: bool, lockedBy: Option<Id>, attempts: nat)

  datatype Queue = Outbox | Worker(stage: Stage)

  datatype DeadLetterStatus = Open | Redriven

  datatype DeadLetter = DeadLetter(job: Job, run: Option<Id>, exec: Option<Id>, attempts: nat, status: DeadLetterStatus)

  datatype Db = Db(
    runs: map<Id, RunRow>, stages: map<Id, StageRow>, events: map<Id, Event>,
    deadLetters: map<(Queue, Id), DeadLetter>, queued: set<(Stage, Job)>, used: set<Id>)

  const EmptyDb := Db(map[], map[], map[], map[], {}, {})

  function SetStatus(db: Db, exec: Id, status: StageStatus): Db
    requires exec in db.stages
  {
    db.(stages := db.stages[exec := db.stages[exec].(status := status)])
  }

  // ----- starting a run: an upload, a reprocess or a render request

  predicate Fresh(db: Db, run: Id, exec: Id, event: Id) {
    run !in db.used && exec !in db.used && event !in db.used && run != exec && exec != event && run != event
  }

  function DbStart(db: Db, kind: EventType, stage: Stage, run: Id, exec: Id, event: Id): Db
    requires Fresh(db, run, exec, event)
  {
    db.(runs := db.runs[run := RunRow([exec], RunPending, Some(stage))],
        stages := db.stages[exec := StageRow(run, stage, Pending, event, 0)],
        events := db.events[event := Event(kind, Job(event, run, exec, stage), false, None, 0)],
        used := db.used + {run, exec, event})
  }

  // ----- the orchestrator

  datatype BeginResult = Started | AlreadyCompleted | NotFound | Conflict

  predicate Claimable(status: StageStatus) {
    status == Pending || status == Queued || status == Retrying
  }

  function BeginOutcome(db: Db, job: Job): BeginResult {
    if job.exec !in db.stages then NotFound
    else if db.stages[job.exec].status == Succeeded then AlreadyCompleted
    else if !Claimable(db.stages[job.exec].status) then Conflict
    else Started
  }

  function DbBegin(db: Db, job: Job): Db {
    if BeginOutcome(db, job) != Started then db
    else
      var row := db.stages[job.exec];
      db.(stages := db.stages[job.exec := row.(status := Processing, attempts := row.attempts + 1)],
          runs := if job.run in db.runs
                  then db.runs[job.run := db.runs[job.run].(status := RunRunning, current := Some(job.stage))]
                  else db.runs)
  }

  datatype CompleteResult = Advanced(next: Job) | Finished | AlreadySucceeded | CompleteConflict

  function Following(stage: Stage, autoRender: bool): Option<Stage> {
    if stage == Composition && !autoRender then None else NextStage(stage)
  }

  function CompleteOutcome(db: Db, job: Job, autoRender: bool, exec: Id, event: Id): CompleteResult {
    if job.exec !in db.stages || job.run !in db.runs then CompleteConflict
    else if db.stages[job.exec].status == Succeeded then AlreadySucceeded
    else if db.stages[job.exec].status != Processing then CompleteConflict
    else match Following(job.stage, autoRender)
      case None => Finished
      case Some(next) => Advanced(Job(event, job.run, exec, next))
  }

  function DbComplete(db: Db, job: Job, autoRender: bool, exec: Id, event: Id): Db
    requires exec !in db.used && event !in db.used && exec != event
  {
    match CompleteOutcome(db, job, autoRender, exec, event)
    case AlreadySucceeded => db
    case CompleteConflict => db
    case Finished =>
      var done := SetStatus(db, job.exec, Succeeded);
      done.(runs := db.runs[job.run := db.runs[job.run].(status := RunSucceeded, current := None)])
    case Advanced(next) =>
      var done := SetStatus(db, job.exec, Succeeded);
      var run := db.runs[job.run];
      done.(stages := done.stages[exec := StageRow(job.run, next.stage, Pending, event, 0)],
            events := db.events[event := Event(CompletedEventType(job.stage), next, false, None, 0)],
            runs := db.runs[job.run := run.(chain := run.chain + [exec], current := Some(next.stage))],
            used := db.used + {exec, event})
  }

  function DbRetry(db: Db, job: Job): Db {
    if job.exec !in db.stages then db else SetStatus(db, job.exec, Retrying)
  }

  function DbFail(db: Db, job: Job, deadLettered: bool): Db {
    if job.exec !in db.stages || job.run !in db.runs then db
    else
      var failed := SetStatus(db, job.exec, if deadLettered then DeadLettered else Failed);
      failed.(runs := db.runs[job.run := db.runs[job.run].(status := RunFailed)])
  }

  // ----- dead letters

  function DbCapture(db: Db, queue: Queue, jobId: Id, job: Job, attempts: nat): Db {
    var key := (queue, jobId);
    var letter :=
      if key in db.deadLetters then db.deadLetters[key].(attempts := attempts)
      else DeadLetter(job, if job.run in db.runs then Some(job.run) else None,
                      if job.exec in db.stages then Some(job.exec) else None, attempts, Open);
    db.(deadLetters := db.deadLetters[key := letter])
  }

  function RedriveEventType(stage: Stage): EventType {
    if stage == Rendering then ClipRenderRequested
    else if Index(stage) > 0 then CompletedEventType(PIPELINE_STAGES[Index(stage) - 1])
    else VideoUploadedV1
  }

  /** The rows the transaction of a redrive updates exist. */
  predicate HasReferences(db: Db, key: (Queue, Id)) {
    && key in db.deadLetters
    && var letter := db.deadLetters[key];
    && letter.exec.Some? && letter.run.Some?
    && letter.exec.value in db.stages && letter.run.value in db.runs
  }

  predicate CanRedrive(db: Db, key: (Queue, Id)) {
    HasReferences(db, key) && db.deadLetters[key].status == Open
  }

  /** The transaction alone, which does not look at the letter's status again. */
  function DbWriteRedrive(db: Db, key: (Queue, Id), event: Id): Db
    requires event !in db.used
  {
    if !HasReferences(db, key) then db
    else
      var letter := db.deadLetters[key];
      var exec, run := letter.exec.value, letter.run.value;
      var job := letter.job.(eventId := event);
      db.(deadLetters := db.deadLetters[key := letter.(status := Redriven)],
          stages := db.stages[exec := db.stages[exec].(status := Pending, jobId := event)],
          runs := db.runs[run := db.runs[run].(status := RunRunning)],
          events := db.events[event := Event(RedriveEventType(job.stage), job, false, None, 0)],
          used := db.used + {event})
  }

  /** Check and transaction together. */
  function DbRedrive(db: Db, key: (Queue, Id), event: Id): Db
    requires event !in db.used
  {
    if CanRedrive(db, key) then DbWriteRedrive(db, key, event) else db
  }

  // ----- the outbox relay

  predicate CanClaim(db: Db, event: Id) {
    event in db.events && !db.events[event].published && db.events[event].lockedBy.None?
  }

  function DbClaim(db: Db, event: Id, relay: Id): Db {
    if !CanClaim(db, event) then db
    else db.(events := db.events[event := db.events[event].(lockedBy := Some(relay))])
  }

  function DbExpireLock(db: Db, event: Id): Db {
    if event !in db.events then db
    else db.(events := db.events[event := db.events[event].(lockedBy := None)])
  }

  predicate ReferencesExist(db: Db, job: Job) {
    job.run in db.runs && job.exec in db.stages
  }

  function DbEnqueue(db: Db, queue: Stage, job: Job): Db {
    db.(queued := db.queued + {(queue, job)})
  }

  /** Publish, PENDING to QUEUED, run to RUNNING: one transaction, undone when the run is gone. */
  function DbPublish(db: Db, event: Id, job: Job): Db {
    if event !in db.events || job.run !in db.runs then db
    else
      db.(events := db.events[event := db.events[event].(published := true, lockedBy := None)],
          stages := if job.exec in db.stages && db.stages[job.exec].status == Pending
                    then db.stages[job.exec := db.stages[job.exec].(status := Queued)]
                    else db.stages,
          runs := db.runs[job.run := db.runs[job.run].(status := RunRunning, current := Some(job.stage))])
  }

  function DbDiscard(db: Db, event: Id): Db {
    if event !in db.events then db
    else db.(events := db.events[event := db.events[event].(published := true, lockedBy := None)])
  }

  function DbRelease(db: Db, event: Id, attempts: nat): Db {
    if event !in db.events then db
    else db.(events := db.events[event := db.events[event].(attempts := attempts, lockedBy := None)])
  }

  function DbGiveUp(db: Db, event: Id, attempts: nat): Db {
    if event !in db.events then db
    else db.(events := db.events[event := db.events[event].(attempts := attempts, published := true, lockedBy := None)])
  }

  // ----- deleting a video: its runs, their stages and events go; dead letters lose their references

  function DbDeleteRun(db: Db, run: Id): Db {
    db.(runs := db.runs - {run},
        stages := map x | x in db.stages && db.stages[x].run != run :: db.stages[x],
        events := map e | e in db.events && db.events[e].job.run != run :: db.events[e],
        deadLetters := map k | k in db.deadLetters :: Forget(db, run, db.deadLetters[k]))
  }

  function Forget(db: Db, run: Id, letter: DeadLetter): DeadLetter {
    letter.(run := if letter.run == Some(run) then None else letter.run,
            exec := if letter.exec.Some? && letter.exec.value in db.stages && db.stages[letter.exec.value].run == run
                    then None else letter.exec)
  }
}
