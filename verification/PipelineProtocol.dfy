/** The hand-off protocol as a state machine: any number of relays and workers take the
    database steps one at a time in any order, and may stop at any point. */
module PipelineProtocol {
  import opened Common
  import opened PipelineDatabase

  /** Where a worker is in the body that runs one delivery of a job. */
  datatype WorkerPhase =
    | Holding(job: Job)                  // claimed: processing, or handling an error it caught
    | Failing(job: Job, capture: bool)   // stage marked failed; refund and dead letter still to come

  /** Where a relay is in dispatching one event it has locked. */
  datatype DispatchPhase = Claimed | Checked | Enqueued | Stale | Captured

  /** What the claim returned of the event, which may be deleted meanwhile, and how far the relay got. */
  datatype Dispatch = Dispatch(event: Id, kind: EventType, job: Job, attempts: nat, phase: DispatchPhase)

  datatype State = State(db: Db, workers: map<Id, WorkerPhase>, dispatches: map<Id, Dispatch>)

  const Init := State(EmptyDb, map[], map[])

  datatype Action =
    | Upload(kind: EventType, run: Id, exec: Id, event: Id)
    | RequestRender(run: Id, exec: Id, event: Id)
    | DeleteRun(run: Id)
    // a worker
    | Begin(w: Id, queue: Stage, job: Job)
    | Complete(w: Id, exec: Id, event: Id)
    | Retry(w: Id)
    | Fail(w: Id, capture: bool)
    | Capture(w: Id, attempts: nat)
    | WorkerStops(w: Id)
    // a relay
    | Claim(d: Id, event: Id)
    | LockExpires(event: Id)
    | CheckReferences(d: Id)
    | Enqueue(d: Id)
    | Publish(d: Id)
    | Discard(d: Id)
    | DispatchFails(d: Id)
    | GiveUp(d: Id)
    | RelayStops(d: Id)
    // an operator
    | Redrive(key: (Queue, Id), event: Id)
    | RedriveLate(key: (Queue, Id), event: Id)   // checked before somebody else redrove the letter

  function Apply(s: State, a: Action, autoRender: bool): State {
    match a
    case Upload(kind, run, exec, event) => StepUpload(s, kind, run, exec, event)
    case RequestRender(run, exec, event) => StepRequestRender(s, run, exec, event)
    case DeleteRun(run) => s.(db := DbDeleteRun(s.db, run))
    case Begin(w, queue, job) => StepBegin(s, w, queue, job)
    case Complete(w, exec, event) => StepComplete(s, w, autoRender, exec, event)
    case Retry(w) => StepRetry(s, w)
    case Fail(w, capture) => StepFail(s, w, capture)
    case Capture(w, attempts) => StepCapture(s, w, attempts)
    case WorkerStops(w) => s.(workers := s.workers - {w})
    case Claim(d, event) => StepClaim(s, d, event)
    case LockExpires(event) => s.(db := DbExpireLock(s.db, event))
    case CheckReferences(d) => StepCheck(s, d)
    case Enqueue(d) => StepEnqueue(s, d)
    case Publish(d) => StepPublish(s, d)
    case Discard(d) => StepDiscard(s, d)
    case DispatchFails(d) => StepDispatchFails(s, d)
    case GiveUp(d) => StepGiveUp(s, d)
    case RelayStops(d) => s.(dispatches := s.dispatches - {d})
    case Redrive(key, event) => StepRedrive(s, key, event)
    case RedriveLate(key, event) => StepRedriveLate(s, key, event)
  }

  function StepUpload(s: State, kind: EventType, run: Id, exec: Id, event: Id): State {
    if (kind == VideoUploadedV1 || kind == VideoUploadedV2) && Fresh(s.db, run, exec, event)
    then s.(db := DbStart(s.db, kind, Ingestion, run, exec, event))
    else s
  }

  function StepRequestRender(s: State, run: Id, exec: Id, event: Id): State {
    if Fresh(s.db, run, exec, event)
    then s.(db := DbStart(s.db, ClipRenderRequested, Rendering, run, exec, event))
    else s
  }

  predicate Newest(db: Db, exec: Id) {
    && exec in db.stages && db.stages[exec].run in db.runs
    && var chain := db.runs[db.stages[exec].run].chain;
    && chain != [] && chain[|chain| - 1] == exec
  }

  /** An open dead letter of a worker. */
  predicate Redrivable(db: Db, k: (Queue, Id)) {
    k in db.deadLetters && k.0.Worker? && db.deadLetters[k].status == Open
  }

  /** The stage is its run's newest, no worker has it, and no worker's letter for it is open as
      well. Nothing in `redrive` looks at this. */
  predicate SafeToRedrive(s: State, key: (Queue, Id)) {
    && HasReferences(s.db, key)
    && var exec := s.db.deadLetters[key].exec.value;
    && Newest(s.db, exec)
    && (forall w | w in s.workers :: s.workers[w].job.exec != exec)
    && (forall k | k in s.db.deadLetters && Redrivable(s.db, k) && k != key :: s.db.deadLetters[k].job.exec != exec)
  }

  /** Letters of workers are redriven at any time, a relay's letter only when that is safe. */
  function StepRedrive(s: State, key: (Queue, Id), event: Id): State {
    if event !in s.db.used && (key.0.Worker? || SafeToRedrive(s, key)) then s.(db := DbRedrive(s.db, key, event)) else s
  }

  /** The transaction of a redrive that found its letter open some time ago; also only when safe. */
  function StepRedriveLate(s: State, key: (Queue, Id), event: Id): State {
    if event !in s.db.used && SafeToRedrive(s, key) then s.(db := DbWriteRedrive(s.db, key, event)) else s
  }

  /** A job can be delivered any number of times once it is in its queue. */
  function StepBegin(s: State, w: Id, queue: Stage, job: Job): State {
    if w in s.workers || (queue, job) !in s.db.queued || job.stage != queue || BeginOutcome(s.db, job) != Started then s
    else State(DbBegin(s.db, job), s.workers[w := Holding(job)], s.dispatches)
  }

  function StepComplete(s: State, w: Id, autoRender: bool, exec: Id, event: Id): State {
    if w !in s.workers || !s.workers[w].Holding? || exec in s.db.used || event in s.db.used || exec == event then s
    else
      var job := s.workers[w].job;
      if CompleteOutcome(s.db, job, autoRender, exec, event).CompleteConflict? then s
      else State(DbComplete(s.db, job, autoRender, exec, event), s.workers - {w}, s.dispatches)
  }

  function StepRetry(s: State, w: Id): State {
    if w !in s.workers || !s.workers[w].Holding? then s
    else State(DbRetry(s.db, s.workers[w].job), s.workers - {w}, s.dispatches)
  }

  function StepFail(s: State, w: Id, capture: bool): State {
    if w !in s.workers || !s.workers[w].Holding? then s
    else
      var job := s.workers[w].job;
      State(DbFail(s.db, job, capture),
            if ReferencesExist(s.db, job) then s.workers[w := Failing(job, capture)] else s.workers - {w},
            s.dispatches)
  }

  function StepCapture(s: State, w: Id, attempts: nat): State {
    if w !in s.workers || !s.workers[w].Failing? then s
    else
      var job := s.workers[w].job;
      State(if s.workers[w].capture then DbCapture(s.db, Worker(job.stage), job.eventId, job, attempts) else s.db,
            s.workers - {w}, s.dispatches)
  }

  function StepClaim(s: State, d: Id, event: Id): State {
    if d in s.dispatches || !CanClaim(s.db, event) then s
    else
      var row := s.db.events[event];
      s.(db := DbClaim(s.db, event, d),
         dispatches := s.dispatches[d := Dispatch(event, row.kind, row.job, row.attempts, Claimed)])
  }

  function StepCheck(s: State, d: Id): State {
    if d !in s.dispatches || s.dispatches[d].phase != Claimed then s
    else
      var x := s.dispatches[d];
      if EventQueue(x.kind) != Some(x.job.stage) then s
      else s.(dispatches := s.dispatches[d := x.(phase := if ReferencesExist(s.db, x.job) then Checked else Stale)])
  }

  function StepEnqueue(s: State, d: Id): State {
    if d !in s.dispatches || s.dispatches[d].phase != Checked then s
    else
      var x := s.dispatches[d];
      State(DbEnqueue(s.db, x.job.stage, x.job), s.workers, s.dispatches[d := x.(phase := Enqueued)])
  }

  function StepPublish(s: State, d: Id): State {
    if d !in s.dispatches || s.dispatches[d].phase != Enqueued then s
    else
      var x := s.dispatches[d];
      if x.event !in s.db.events || x.job.run !in s.db.runs then s
      else State(DbPublish(s.db, x.event, x.job), s.workers, s.dispatches - {d})
  }

  /** Any exception while dispatching: release for a later attempt, or capture at the fifth. */
  function StepDispatchFails(s: State, d: Id): State {
    if d !in s.dispatches || s.dispatches[d].phase == Stale || s.dispatches[d].phase == Captured then s
    else
      var x := s.dispatches[d];
      if x.attempts + 1 >= 5 then
        State(DbCapture(s.db, Outbox, x.event, x.job, x.attempts + 1), s.workers, s.dispatches[d := x.(phase := Captured)])
      else
        State(DbRelease(s.db, x.event, x.attempts + 1), s.workers, s.dispatches - {d})
  }

  function StepDiscard(s: State, d: Id): State {
    if d !in s.dispatches || s.dispatches[d].phase != Stale then s
    else State(DbDiscard(s.db, s.dispatches[d].event), s.workers, s.dispatches - {d})
  }

  function StepGiveUp(s: State, d: Id): State {
    if d !in s.dispatches || s.dispatches[d].phase != Captured then s
    else State(DbGiveUp(s.db, s.dispatches[d].event, s.dispatches[d].attempts + 1), s.workers, s.dispatches - {d})
  }

  function Run(s: State, actions: seq<Action>, autoRender: bool): State
    decreases |actions|
  {
    if actions == [] then s else Run(Apply(s, actions[0], autoRender), actions[1..], autoRender)
  }

  // ----- the invariant

  /** The row a job points at, if it still exists, belongs to the job's run and stage. */
  ghost predicate JobFits(db: Db, job: Job) {
    && job.exec in db.used && job.run in db.used
    && (job.exec in db.stages ==> db.stages[job.exec].run == job.run && db.stages[job.exec].stage == job.stage)
  }

  ghost predicate IdsUsed(db: Db) {
    && (forall r | r in db.runs :: r in db.used)
    && (forall x | x in db.stages :: x in db.used)
    && (forall e | e in db.events :: e in db.used)
  }

  /** Stage rows and the chains of runs describe each other. */
  ghost predicate RowsInChains(db: Db) {
    forall x | x in db.stages :: db.stages[x].run in db.runs && x in db.runs[db.stages[x].run].chain
  }

  /** The executions of one run are consecutive stages, and all but the newest have succeeded. */
  ghost predicate ChainConsecutive(db: Db, run: Id)
    requires run in db.runs
  {
    var chain := db.runs[run].chain;
    && chain != []
    && (forall i | 0 <= i < |chain| :: chain[i] in db.stages && db.stages[chain[i]].run == run)
    && (forall i | 0 <= i < |chain| :: Index(db.stages[chain[i]].stage) == Index(db.stages[chain[0]].stage) + i)
    && (forall i | 0 <= i < |chain| - 1 :: db.stages[chain[i]].status == Succeeded)
  }

  ghost predicate Chains(db: Db) {
    RowsInChains(db) && forall r | r in db.runs :: ChainConsecutive(db, r)
  }

  ghost predicate EventsRouted(db: Db) {
    forall e | e in db.events ::
      && db.events[e].job.eventId == e
      && EventQueue(db.events[e].kind) == Some(db.events[e].job.stage)
      && JobFits(db, db.events[e].job)
  }

  /** The event named by a stage row is the one that hands that stage over. */
  ghost predicate RowsAnnounced(db: Db) {
    forall x | x in db.stages ::
      db.stages[x].jobId in db.events && db.events[db.stages[x].jobId].job.exec == x
  }

  /** A job as it was announced; its event may be deleted by now. */
  ghost predicate Announced(db: Db, job: Job) {
    JobFits(db, job) && job.eventId in db.used && (job.eventId in db.events ==> db.events[job.eventId].job == job)
  }

  ghost predicate QueuesMatch(db: Db) {
    forall q, j | (q, j) in db.queued :: q == j.stage && Announced(db, j)
  }

  /** What must have happened to an event before it may be marked published. */
  ghost predicate Delivered(db: Db, e: Id)
    requires e in db.events
  {
    var job := db.events[e].job;
    (job.stage, job) in db.queued || (Outbox, e) in db.deadLetters || job.exec !in db.stages
  }

  ghost predicate PublishedDelivered(db: Db) {
    forall e | e in db.events && db.events[e].published :: Delivered(db, e)
  }

  ghost predicate LetterOk(db: Db, key: (Queue, Id)) 
    requires key in db.deadLetters
  {
    var letter := db.deadLetters[key];
    && JobFits(db, letter.job)
    && (letter.exec.Some? ==> letter.exec.value == letter.job.exec)
    && (letter.exec.Some? <==> letter.job.exec in db.stages)
    && (letter.run.Some? ==> letter.run.value == letter.job.run)
    && (key.0.Worker? && letter.status == Open && letter.exec.Some? ==>
          db.stages[letter.job.exec].status == DeadLettered)
  }

  ghost predicate LettersOk(db: Db) {
    forall k | k in db.deadLetters :: LetterOk(db, k)
  }

  ghost predicate WorkerOk(db: Db, phase: WorkerPhase) {
    && JobFits(db, phase.job)
    && (phase.job.exec in db.stages ==>
          db.stages[phase.job.exec].status ==
            if phase.Holding? then Processing else if phase.capture then DeadLettered else Failed)
  }

  /** At most one worker is between the claim of a stage and the end of its handling, and no
      dead letter for that stage can be redriven meanwhile. */
  ghost predicate WorkersExclusive(s: State) {
    && (forall w | w in s.workers :: WorkerOk(s.db, s.workers[w]))
    && (forall v, w | v in s.workers && w in s.workers && s.workers[v].job.exec == s.workers[w].job.exec :: v == w)
    && (forall w, k | w in s.workers && Redrivable(s.db, k) :: s.db.deadLetters[k].job.exec != s.workers[w].job.exec)
  }

  ghost predicate LettersExclusive(db: Db) {
    forall k, l | Redrivable(db, k) && Redrivable(db, l) && db.deadLetters[k].job.exec == db.deadLetters[l].job.exec :: k == l
  }

  ghost predicate DispatchOk(db: Db, d: Dispatch) {
    && d.job.eventId == d.event && Announced(db, d.job) && EventQueue(d.kind) == Some(d.job.stage)
    && (d.phase == Enqueued ==> (d.job.stage, d.job) in db.queued)
    && (d.phase == Captured ==> (Outbox, d.event) in db.deadLetters)
    && (d.phase == Stale ==> d.job.exec !in db.stages)
  }

  ghost predicate DispatchesOk(s: State) {
    forall d | d in s.dispatches :: DispatchOk(s.db, s.dispatches[d])
  }

  ghost predicate DbInv(db: Db) {
    && IdsUsed(db) && Chains(db) && EventsRouted(db) && RowsAnnounced(db) && QueuesMatch(db)
    && PublishedDelivered(db) && LettersOk(db) && LettersExclusive(db)
  }

  ghost predicate Inv(s: State) {
    DbInv(s.db) && WorkersExclusive(s) && DispatchesOk(s)
  }
}
