/** Every step keeps the invariant, so every run of the protocol is safe. */
module PipelineSafety {
  import opened Common
  import opened PipelineDatabase
  import opened PipelineProtocol

  // ----- what a step does not touch

  /** Nothing the invariant looks at: run status, attempt counters and locks may differ. */
  ghost predicate SameShape(db: Db, db': Db) {
    && db'.runs.Keys == db.runs.Keys && (forall r | r in db.runs :: db'.runs[r].chain == db.runs[r].chain)
    && db'.stages.Keys == db.stages.Keys
    && (forall x | x in db.stages :: db'.stages[x].(attempts := 0) == db.stages[x].(attempts := 0))
    && db'.events.Keys == db.events.Keys
    && (forall e | e in db.events ::
          db'.events[e].(lockedBy := None, attempts := 0) == db.events[e].(lockedBy := None, attempts := 0))
    && db'.deadLetters == db.deadLetters && db'.queued == db.queued && db'.used == db.used
  }

  lemma SameShapeKeepsDb(db: Db, db': Db)
    requires DbInv(db) && SameShape(db, db')
    ensures DbInv(db')
  {
    SameShapeKeepsRows(db, db');
    forall k | k in db'.deadLetters ensures LetterOk(db', k) {
      assert LetterOk(db, k);
    }
    forall e | e in db'.events && db'.events[e].published ensures Delivered(db', e) {
      assert Delivered(db, e);
    }
    assert forall k | Redrivable(db', k) :: Redrivable(db, k);
  }

  lemma SameShapeKeepsRows(db: Db, db': Db)
    requires DbInv(db) && SameShape(db, db')
    ensures IdsUsed(db') && Chains(db') && EventsRouted(db') && RowsAnnounced(db') && QueuesMatch(db')
  {
    forall r | r in db'.runs ensures ChainConsecutive(db', r) {
      assert ChainConsecutive(db, r);
    }
    QueuesStay(db, db');
  }

  /** What an announced job relies on: its row keeps its place, its event its payload. */
  ghost predicate AnnounceFrame(db: Db, db': Db) {
    && db.used <= db'.used
    && (forall x | x in db.used && x in db'.stages ::
          x in db.stages && db'.stages[x].run == db.stages[x].run && db'.stages[x].stage == db.stages[x].stage)
    && (forall e | e in db.used && e in db'.events :: e in db.events && db'.events[e].job == db.events[e].job)
  }

  lemma QueuesStay(db: Db, db': Db)
    requires QueuesMatch(db) && AnnounceFrame(db, db') && db'.queued == db.queued
    ensures QueuesMatch(db')
  {
    forall q, j | (q, j) in db'.queued ensures q == j.stage && Announced(db', j) {
      assert Announced(db, j);
    }
  }

  lemma SameRowsKeepChains(db: Db, db': Db)
    requires Chains(db) && db'.runs == db.runs && db'.stages == db.stages
    ensures Chains(db')
  {
    forall r | r in db'.runs ensures ChainConsecutive(db', r) {
      assert ChainConsecutive(db, r);
    }
  }

  lemma SameLettersKept(db: Db, db': Db)
    requires LettersOk(db) && LettersExclusive(db)
    requires db'.stages == db.stages && db'.deadLetters == db.deadLetters && db'.used == db.used
    ensures LettersOk(db') && LettersExclusive(db')
  {
    forall k | k in db'.deadLetters ensures LetterOk(db', k) {
      assert LetterOk(db, k);
    }
    assert forall k | Redrivable(db', k) :: Redrivable(db, k);
  }

  /** What in-flight dispatches rely on: their jobs stay announced, deliveries are not undone. */
  ghost predicate DispatchFrame(db: Db, db': Db) {
    && AnnounceFrame(db, db')
    && db.queued <= db'.queued
    && (forall k | k in db.deadLetters :: k in db'.deadLetters)
  }

  lemma DispatchesStay(s: State, s': State)
    requires Inv(s) && DispatchFrame(s.db, s'.db)
    requires forall d | d in s'.dispatches :: d in s.dispatches && s'.dispatches[d] == s.dispatches[d]
    ensures DispatchesOk(s')
  {
    forall d | d in s'.dispatches ensures DispatchOk(s'.db, s'.dispatches[d]) {
      assert DispatchOk(s.db, s.dispatches[d]);
    }
  }

  /** What working workers rely on: their rows keep their place and status. */
  ghost predicate WorkerFrame(s: State, s': State) {
    && (forall w | w in s'.workers :: w in s.workers && s'.workers[w] == s.workers[w])
    && (forall w | w in s'.workers && s.workers[w].job.exec in s'.db.stages ::
          var x := s.workers[w].job.exec;
          x in s.db.stages && s'.db.stages[x].(jobId := 0, attempts := 0) == s.db.stages[x].(jobId := 0, attempts := 0))
    && s.db.used <= s'.db.used
    && (forall k | Redrivable(s'.db, k) :: Redrivable(s.db, k) && s'.db.deadLetters[k].job == s.db.deadLetters[k].job)
  }

  lemma WorkersStay(s: State, s': State)
    requires Inv(s) && WorkerFrame(s, s')
    ensures WorkersExclusive(s')
  {
    forall w | w in s'.workers ensures WorkerOk(s'.db, s'.workers[w]) {
      assert WorkerOk(s.db, s.workers[w]);
    }
  }

  // ----- marking one stage row

  lemma StatusKeepsChains(db: Db, exec: Id, status: StageStatus)
    requires Chains(db) && exec in db.stages
    requires status != Succeeded ==> db.stages[exec].status != Succeeded
    ensures Chains(SetStatus(db, exec, status))
  {
    var db' := SetStatus(db, exec, status);
    forall r | r in db'.runs ensures ChainConsecutive(db', r) {
      assert ChainConsecutive(db, r);
    }
  }

  lemma StatusKeepsLinks(db: Db, exec: Id, status: StageStatus)
    requires DbInv(db) && exec in db.stages
    requires status != Succeeded ==> db.stages[exec].status != Succeeded
    ensures var db' := SetStatus(db, exec, status);
      IdsUsed(db') && Chains(db') && EventsRouted(db') && RowsAnnounced(db') && QueuesMatch(db') && PublishedDelivered(db')
  {
    StatusKeepsChains(db, exec, status);
    QueuesStay(db, SetStatus(db, exec, status));
  }

  lemma StatusKeepsLetters(db: Db, exec: Id, status: StageStatus)
    requires DbInv(db) && exec in db.stages
    requires forall k | Redrivable(db, k) :: db.deadLetters[k].job.exec != exec
    ensures var db' := SetStatus(db, exec, status); LettersOk(db') && LettersExclusive(db')
  {
    var db' := SetStatus(db, exec, status);
    forall k | k in db'.deadLetters ensures LetterOk(db', k) {
      assert LetterOk(db, k);
      assert Redrivable(db, k) ==> db.deadLetters[k].job.exec != exec;
    }
    assert forall k | Redrivable(db', k) :: Redrivable(db, k);
  }

  lemma NoLetterToRedrive(db: Db, exec: Id)
    requires DbInv(db) && exec in db.stages && db.stages[exec].status != DeadLettered
    ensures forall k | Redrivable(db, k) :: db.deadLetters[k].job.exec != exec
  {
    forall k | Redrivable(db, k) ensures db.deadLetters[k].job.exec != exec {
      assert LetterOk(db, k);
    }
  }

  // ----- a worker's steps

  lemma QueuedJobFits(db: Db, queue: Stage, job: Job)
    requires DbInv(db) && (queue, job) in db.queued
    ensures JobFits(db, job) && queue == job.stage
  {
    assert Announced(db, job);
  }

  lemma BeginShape(db: Db, job: Job)
    requires BeginOutcome(db, job) == Started
    ensures SameShape(SetStatus(db, job.exec, Processing), DbBegin(db, job))
  {
  }

  lemma BeginKeepsDb(db: Db, job: Job)
    requires DbInv(db) && JobFits(db, job)
    ensures DbInv(DbBegin(db, job))
  {
    if BeginOutcome(db, job) == Started {
      MarkKeepsDb(db, job.exec, Processing);
      BeginShape(db, job);
      SameShapeKeepsDb(SetStatus(db, job.exec, Processing), DbBegin(db, job));
    }
  }

  lemma BeginKeepsInv(s: State, w: Id, queue: Stage, job: Job)
    requires Inv(s)
    ensures Inv(StepBegin(s, w, queue, job))
  {
    var s' := StepBegin(s, w, queue, job);
    if s' != s {
      QueuedJobFits(s.db, queue, job);
      BeginKeepsDb(s.db, job);
      DispatchesStay(s, s');
      BeginClaimsAlone(s, w, queue, job);
    }
  }

  lemma NobodyHolds(s: State, exec: Id)
    requires WorkersExclusive(s) && exec in s.db.stages && Claimable(s.db.stages[exec].status)
    ensures forall v | v in s.workers :: s.workers[v].job.exec != exec
  {
    forall v | v in s.workers ensures s.workers[v].job.exec != exec {
      assert WorkerOk(s.db, s.workers[v]);
    }
  }

  lemma BeginClaimsAlone(s: State, w: Id, queue: Stage, job: Job)
    requires Inv(s) && StepBegin(s, w, queue, job) != s
    ensures WorkersExclusive(StepBegin(s, w, queue, job))
  {
    QueuedJobFits(s.db, queue, job);
    NoLetterToRedrive(s.db, job.exec);
    NobodyHolds(s, job.exec);
    HoldAlone(s, w, queue, job);
  }

  lemma HoldAlone(s: State, w: Id, queue: Stage, job: Job)
    requires WorkersExclusive(s) && StepBegin(s, w, queue, job) != s && JobFits(s.db, job)
    requires forall k | Redrivable(s.db, k) :: s.db.deadLetters[k].job.exec != job.exec
    requires forall v | v in s.workers :: s.workers[v].job.exec != job.exec
    ensures WorkersExclusive(StepBegin(s, w, queue, job))
  {
    var s' := StepBegin(s, w, queue, job);
    assert forall k | Redrivable(s'.db, k) :: Redrivable(s.db, k);
    forall v | v in s'.workers ensures WorkerOk(s'.db, s'.workers[v]) {
      assert v != w ==> WorkerOk(s.db, s.workers[v]);
    }
  }

  /** A stage that has not succeeded is the newest of its run. */
  lemma NewestIfUnfinished(db: Db, exec: Id)
    requires Chains(db) && exec in db.stages && db.stages[exec].status != Succeeded
    ensures var run := db.stages[exec].run;
      run in db.runs && db.runs[run].chain != [] && db.runs[run].chain[|db.runs[run].chain| - 1] == exec
  {
    assert ChainConsecutive(db, db.stages[exec].run);
    LastIfUnfinished(db, db.stages[exec].run, exec);
  }

  lemma LastIfUnfinished(db: Db, run: Id, exec: Id)
    requires run in db.runs && ChainConsecutive(db, run) && exec in db.runs[run].chain
    requires db.stages[exec].status != Succeeded
    ensures db.runs[run].chain[|db.runs[run].chain| - 1] == exec
  {
    var i :| 0 <= i < |db.runs[run].chain| && db.runs[run].chain[i] == exec;
  }

  /** The row, event and chain entry that hand a run on to its next stage. */
  function Append(db: Db, run: Id, stage: Stage, kind: EventType, exec: Id, event: Id): Db
    requires run in db.runs
  {
    db.(stages := db.stages[exec := StageRow(run, stage, Pending, event, 0)],
        events := db.events[event := Event(kind, Job(event, run, exec, stage), false, None, 0)],
        runs := db.runs[run := db.runs[run].(chain := db.runs[run].chain + [exec], current := Some(stage))],
        used := db.used + {exec, event})
  }

  predicate CanAppend(db: Db, last: Id, stage: Stage, kind: EventType, exec: Id, event: Id) {
    && last in db.stages && db.stages[last].run in db.runs
    && var chain := db.runs[db.stages[last].run].chain;
    && chain != [] && chain[|chain| - 1] == last && db.stages[last].status == Succeeded
    && Index(stage) == Index(db.stages[last].stage) + 1
    && EventQueue(kind) == Some(stage)
    && exec !in db.used && event !in db.used && exec != event
  }

  lemma AppendKeepsRows(db: Db, last: Id, stage: Stage, kind: EventType, exec: Id, event: Id)
    requires IdsUsed(db) && Chains(db) && CanAppend(db, last, stage, kind, exec, event)
    ensures RowsInChains(Append(db, db.stages[last].run, stage, kind, exec, event))
  {
    var run := db.stages[last].run;
    var db' := Append(db, run, stage, kind, exec, event);
    forall x | x in db'.stages ensures x in db'.runs[db'.stages[x].run].chain {
      if x == exec {
        assert db'.runs[run].chain[|db.runs[run].chain|] == exec;
      }
    }
  }

  lemma AppendKeepsChain(db: Db, last: Id, stage: Stage, kind: EventType, exec: Id, event: Id)
    requires IdsUsed(db) && CanAppend(db, last, stage, kind, exec, event)
    requires ChainConsecutive(db, db.stages[last].run)
    ensures ChainConsecutive(Append(db, db.stages[last].run, stage, kind, exec, event), db.stages[last].run)
  {
    var run := db.stages[last].run;
    var db' := Append(db, run, stage, kind, exec, event);
    var chain, chain' := db.runs[run].chain, db'.runs[run].chain;
    assert forall i | 0 <= i < |chain| :: chain'[i] == chain[i] && db'.stages[chain'[i]] == db.stages[chain[i]];
  }

  lemma AppendKeepsChains(db: Db, last: Id, stage: Stage, kind: EventType, exec: Id, event: Id)
    requires IdsUsed(db) && Chains(db) && CanAppend(db, last, stage, kind, exec, event)
    ensures Chains(Append(db, db.stages[last].run, stage, kind, exec, event))
  {
    var run := db.stages[last].run;
    var db' := Append(db, run, stage, kind, exec, event);
    AppendKeepsRows(db, last, stage, kind, exec, event);
    AppendKeepsChain(db, last, stage, kind, exec, event);
    forall r | r in db'.runs && r != run ensures ChainConsecutive(db', r) {
      assert ChainConsecutive(db, r);
    }
  }

  lemma AppendKeepsEvents(db: Db, last: Id, stage: Stage, kind: EventType, exec: Id, event: Id)
    requires IdsUsed(db) && EventsRouted(db) && RowsAnnounced(db) && CanAppend(db, last, stage, kind, exec, event)
    ensures var db' := Append(db, db.stages[last].run, stage, kind, exec, event);
      IdsUsed(db') && EventsRouted(db') && RowsAnnounced(db')
  {
  }

  lemma AppendKeepsDb(db: Db, last: Id, stage: Stage, kind: EventType, exec: Id, event: Id)
    requires DbInv(db) && CanAppend(db, last, stage, kind, exec, event)
    ensures DbInv(Append(db, db.stages[last].run, stage, kind, exec, event))
  {
    var db' := Append(db, db.stages[last].run, stage, kind, exec, event);
    AppendKeepsChains(db, last, stage, kind, exec, event);
    AppendKeepsEvents(db, last, stage, kind, exec, event);
    NewEventKeepsQueues(db, db', event);
    NewRowKeepsLetters(db, db', exec);
  }

  /** Adding one unpublished event under a new id leaves deliveries as they were. */
  lemma NewEventKeepsQueues(db: Db, db': Db, event: Id)
    requires IdsUsed(db) && QueuesMatch(db) && PublishedDelivered(db) && EventsRouted(db) && event !in db.used
    requires event in db'.events && !db'.events[event].published
    requires forall e | e in db'.events && e != event :: e in db.events && db'.events[e] == db.events[e]
    requires db'.queued == db.queued && db'.deadLetters.Keys == db.deadLetters.Keys
    requires AnnounceFrame(db, db')
    ensures QueuesMatch(db') && PublishedDelivered(db')
  {
    QueuesStay(db, db');
    forall e | e in db'.events && db'.events[e].published ensures Delivered(db', e) {
      assert Delivered(db, e);
      assert JobFits(db, db.events[e].job);
    }
  }

  /** Adding one row under a new id leaves dead letters as they were. */
  lemma NewRowKeepsLetters(db: Db, db': Db, exec: Id)
    requires IdsUsed(db) && LettersOk(db) && LettersExclusive(db) && exec !in db.used && db.used <= db'.used
    requires forall x | x in db'.stages && x != exec :: x in db.stages && db'.stages[x] == db.stages[x]
    requires forall x | x in db.stages :: x in db'.stages
    requires db'.deadLetters == db.deadLetters
    ensures LettersOk(db') && LettersExclusive(db')
  {
    forall k | k in db'.deadLetters ensures LetterOk(db', k) {
      assert LetterOk(db, k);
    }
    assert forall k | Redrivable(db', k) :: Redrivable(db, k);
  }

  lemma MarkKeepsDb(db: Db, exec: Id, status: StageStatus)
    requires DbInv(db) && exec in db.stages
    requires db.stages[exec].status != DeadLettered && db.stages[exec].status != Succeeded
    ensures DbInv(SetStatus(db, exec, status))
  {
    NoLetterToRedrive(db, exec);
    StatusKeepsLinks(db, exec, status);
    StatusKeepsLetters(db, exec, status);
  }

  lemma FinishShape(db: Db, job: Job, autoRender: bool, exec: Id, event: Id)
    requires exec !in db.used && event !in db.used && exec != event
    requires CompleteOutcome(db, job, autoRender, exec, event).Finished?
    ensures SameShape(SetStatus(db, job.exec, Succeeded), DbComplete(db, job, autoRender, exec, event))
  {
  }

  lemma CompleteKeepsDb(db: Db, job: Job, autoRender: bool, exec: Id, event: Id)
    requires DbInv(db) && JobFits(db, job)
    requires exec !in db.used && event !in db.used && exec != event
    ensures DbInv(DbComplete(db, job, autoRender, exec, event))
  {
    var outcome := CompleteOutcome(db, job, autoRender, exec, event);
    if outcome.Finished? {
      MarkKeepsDb(db, job.exec, Succeeded);
      FinishShape(db, job, autoRender, exec, event);
      SameShapeKeepsDb(SetStatus(db, job.exec, Succeeded), DbComplete(db, job, autoRender, exec, event));
    } else if outcome.Advanced? {
      AdvanceKeepsDb(db, job, outcome.next.stage, exec, event);
    }
  }

  lemma AdvanceCanAppend(db: Db, job: Job, next: Stage, exec: Id, event: Id)
    requires Chains(db) && JobFits(db, job) && job.exec in db.stages && job.run in db.runs
    requires db.stages[job.exec].status == Processing && NextStage(job.stage) == Some(next)
    requires exec !in db.used && event !in db.used && exec != event
    ensures CanAppend(SetStatus(db, job.exec, Succeeded), job.exec, next, CompletedEventType(job.stage), exec, event)
  {
    NewestIfUnfinished(db, job.exec);
    CompletedEventRoutes(job.stage);
  }

  lemma AdvanceKeepsDb(db: Db, job: Job, next: Stage, exec: Id, event: Id)
    requires DbInv(db) && JobFits(db, job) && job.exec in db.stages && job.run in db.runs
    requires db.stages[job.exec].status == Processing && NextStage(job.stage) == Some(next)
    requires exec !in db.used && event !in db.used && exec != event
    ensures DbInv(Append(SetStatus(db, job.exec, Succeeded), job.run, next, CompletedEventType(job.stage), exec, event))
  {
    AdvanceCanAppend(db, job, next, exec, event);
    MarkKeepsDb(db, job.exec, Succeeded);
    AppendKeepsDb(SetStatus(db, job.exec, Succeeded), job.exec, next, CompletedEventType(job.stage), exec, event);
  }

  /** A worker that lets go of its stage disturbs no other worker. */
  lemma LeavingDisturbsNobody(s: State, s': State, w: Id)
    requires Inv(s) && w in s.workers && s'.workers == s.workers - {w}
    requires s.db.used <= s'.db.used && s'.db.deadLetters == s.db.deadLetters
    requires forall x | x in s.db.used && x in s'.db.stages && x != s.workers[w].job.exec ::
      x in s.db.stages && s'.db.stages[x] == s.db.stages[x]
    ensures WorkersExclusive(s')
  {
    forall v | v in s'.workers ensures WorkerOk(s'.db, s'.workers[v]) {
      assert WorkerOk(s.db, s.workers[v]);
      assert v != w;
    }
    assert forall k | Redrivable(s'.db, k) :: Redrivable(s.db, k);
  }

  lemma CompleteFrame(db: Db, job: Job, autoRender: bool, exec: Id, event: Id)
    requires IdsUsed(db) && exec !in db.used && event !in db.used && exec != event
    ensures var db' := DbComplete(db, job, autoRender, exec, event);
      && DispatchFrame(db, db') && db.used <= db'.used && db'.deadLetters == db.deadLetters
      && forall x | x in db.used && x in db'.stages && x != job.exec :: x in db.stages && db'.stages[x] == db.stages[x]
  {
  }

  lemma CompleteKeepsInv(s: State, w: Id, autoRender: bool, exec: Id, event: Id)
    requires Inv(s)
    ensures Inv(StepComplete(s, w, autoRender, exec, event))
  {
    var s' := StepComplete(s, w, autoRender, exec, event);
    if s' != s {
      var job := s.workers[w].job;
      assert WorkerOk(s.db, s.workers[w]);
      CompleteKeepsDb(s.db, job, autoRender, exec, event);
      CompleteFrame(s.db, job, autoRender, exec, event);
      DispatchesStay(s, s');
      LeavingDisturbsNobody(s, s', w);
    }
  }

  lemma RetryKeepsDb(db: Db, job: Job)
    requires DbInv(db) && (job.exec in db.stages ==> db.stages[job.exec].status == Processing)
    ensures DbInv(DbRetry(db, job)) && DispatchFrame(db, DbRetry(db, job))
  {
    if job.exec in db.stages { MarkKeepsDb(db, job.exec, Retrying); }
  }

  lemma RetryKeepsInv(s: State, w: Id)
    requires Inv(s)
    ensures Inv(StepRetry(s, w))
  {
    var s' := StepRetry(s, w);
    if s' != s {
      assert WorkerOk(s.db, s.workers[w]);
      RetryKeepsDb(s.db, s.workers[w].job);
      DispatchesStay(s, s');
      LeavingDisturbsNobody(s, s', w);
    }
  }

  lemma FailShape(db: Db, job: Job, capture: bool)
    requires ReferencesExist(db, job)
    ensures SameShape(SetStatus(db, job.exec, if capture then DeadLettered else Failed), DbFail(db, job, capture))
  {
  }

  lemma FailKeepsDb(db: Db, job: Job, capture: bool)
    requires DbInv(db) && (job.exec in db.stages ==> db.stages[job.exec].status == Processing)
    ensures DbInv(DbFail(db, job, capture))
  {
    if ReferencesExist(db, job) {
      FailShape(db, job, capture);
      MarkKeepsDb(db, job.exec, if capture then DeadLettered else Failed);
      SameShapeKeepsDb(SetStatus(db, job.exec, if capture then DeadLettered else Failed), DbFail(db, job, capture));
    }
  }

  lemma FailKeepsInv(s: State, w: Id, capture: bool)
    requires Inv(s)
    ensures Inv(StepFail(s, w, capture))
  {
    var s' := StepFail(s, w, capture);
    if s' != s {
      assert WorkerOk(s.db, s.workers[w]);
      FailKeepsDb(s.db, s.workers[w].job, capture);
      DispatchesStay(s, s');
      FailKeepsWorkers(s, w, capture);
    }
  }

  lemma FailKeepsWorkers(s: State, w: Id, capture: bool)
    requires Inv(s) && StepFail(s, w, capture) != s
    ensures WorkersExclusive(StepFail(s, w, capture))
  {
    var s' := StepFail(s, w, capture);
    assert forall k | Redrivable(s'.db, k) :: Redrivable(s.db, k);
    forall v | v in s'.workers ensures WorkerOk(s'.db, s'.workers[v]) {
      assert WorkerOk(s.db, s.workers[v]);
      assert v != w ==> s.workers[v].job.exec != s.workers[w].job.exec;
    }
  }

  // ----- dead letters

  lemma CaptureKeepsDb(db: Db, queue: Queue, jobId: Id, job: Job, attempts: nat)
    requires DbInv(db) && JobFits(db, job)
    requires queue.Worker? ==> forall k | Redrivable(db, k) :: db.deadLetters[k].job.exec != job.exec
    requires queue.Worker? && job.exec in db.stages ==> db.stages[job.exec].status == DeadLettered
    ensures DbInv(DbCapture(db, queue, jobId, job, attempts))
  {
    var db' := DbCapture(db, queue, jobId, job, attempts);
    CaptureKeepsLetters(db, queue, jobId, job, attempts);
    SameRowsKeepChains(db, db');
    QueuesStay(db, db');
    forall e | e in db'.events && db'.events[e].published ensures Delivered(db', e) {
      assert Delivered(db, e);
    }
  }

  lemma CaptureKeepsLetters(db: Db, queue: Queue, jobId: Id, job: Job, attempts: nat)
    requires LettersOk(db) && LettersExclusive(db) && JobFits(db, job)
    requires queue.Worker? ==> forall k | Redrivable(db, k) :: db.deadLetters[k].job.exec != job.exec
    requires queue.Worker? && job.exec in db.stages ==> db.stages[job.exec].status == DeadLettered
    ensures LettersOk(DbCapture(db, queue, jobId, job, attempts)) && LettersExclusive(DbCapture(db, queue, jobId, job, attempts))
  {
    var db' := DbCapture(db, queue, jobId, job, attempts);
    var key := (queue, jobId);
    forall k | k in db'.deadLetters ensures LetterOk(db', k) {
      assert k in db.deadLetters ==> LetterOk(db, k);
    }
    forall k | Redrivable(db', k) && k != key ensures Redrivable(db, k) {}
    assert key in db.deadLetters && Redrivable(db', key) ==> Redrivable(db, key);
  }

  lemma CaptureKeepsInv(s: State, w: Id, attempts: nat)
    requires Inv(s)
    ensures Inv(StepCapture(s, w, attempts))
  {
    var s' := StepCapture(s, w, attempts);
    if s' != s {
      var job := s.workers[w].job;
      assert WorkerOk(s.db, s.workers[w]);
      if s.workers[w].capture {
        CaptureKeepsDb(s.db, Worker(job.stage), job.eventId, job, attempts);
      }
      DispatchesStay(s, s');
      CaptureKeepsWorkers(s, w, attempts);
    }
  }

  lemma CaptureKeepsWorkers(s: State, w: Id, attempts: nat)
    requires Inv(s) && StepCapture(s, w, attempts) != s
    ensures WorkersExclusive(StepCapture(s, w, attempts))
  {
    var s' := StepCapture(s, w, attempts);
    var job := s.workers[w].job;
    var key := (Worker(job.stage), job.eventId);
    forall v | v in s'.workers ensures WorkerOk(s'.db, s'.workers[v]) && s.workers[v].job.exec != job.exec {
      assert WorkerOk(s.db, s.workers[v]);
      assert v != w;
    }
    forall k | Redrivable(s'.db, k) ensures k == key || (Redrivable(s.db, k) && s'.db.deadLetters[k] == s.db.deadLetters[k]) {}
    assert Redrivable(s'.db, key) && !Redrivable(s.db, key) ==> s'.db.deadLetters[key].job == job;
    assert Redrivable(s'.db, key) && Redrivable(s.db, key) ==> s'.db.deadLetters[key].job == s.db.deadLetters[key].job;
  }

  lemma RedriveRoutes(stage: Stage)
    ensures EventQueue(RedriveEventType(stage)) == Some(stage)
  {
    if stage != Rendering && Index(stage) > 0 {
      var previous := PIPELINE_STAGES[Index(stage) - 1];
      assert Index(previous) == Index(stage) - 1;
      CompletedEventRoutes(previous);
    }
  }

  lemma RedriveKeepsEvents(db: Db, key: (Queue, Id), event: Id)
    requires IdsUsed(db) && EventsRouted(db) && RowsAnnounced(db) && LettersOk(db)
    requires event !in db.used && HasReferences(db, key)
    ensures var db' := DbWriteRedrive(db, key, event); IdsUsed(db') && EventsRouted(db') && RowsAnnounced(db')
  {
    assert LetterOk(db, key);
    RedriveRoutes(db.deadLetters[key].job.stage);
  }

  lemma RedriveKeepsChains(db: Db, key: (Queue, Id), event: Id)
    requires Chains(db) && event !in db.used && HasReferences(db, key) && Newest(db, db.deadLetters[key].exec.value)
    ensures Chains(DbWriteRedrive(db, key, event))
  {
    var exec := db.deadLetters[key].exec.value;
    assert ChainConsecutive(db, db.stages[exec].run);
    DistinctInChain(db, db.stages[exec].run, exec);
    PendingNewestKeepsChains(db, exec, DbWriteRedrive(db, key, event));
  }

  lemma PendingNewestKeepsChains(db: Db, exec: Id, db': Db)
    requires Chains(db) && Newest(db, exec)
    requires forall i | 0 <= i < |db.runs[db.stages[exec].run].chain| - 1 ::
      db.runs[db.stages[exec].run].chain[i] != exec
    requires db'.stages.Keys == db.stages.Keys && db'.runs.Keys == db.runs.Keys
    requires forall r | r in db.runs :: db'.runs[r].chain == db.runs[r].chain
    requires forall x | x in db.stages && x != exec :: db'.stages[x] == db.stages[x]
    requires db'.stages[exec].run == db.stages[exec].run && db'.stages[exec].stage == db.stages[exec].stage
    ensures Chains(db')
  {
    forall r | r in db'.runs ensures ChainConsecutive(db', r) {
      assert ChainConsecutive(db, r);
    }
  }

  /** Only the last place of a chain can hold the execution that is its last. */
  lemma DistinctInChain(db: Db, run: Id, exec: Id)
    requires run in db.runs && ChainConsecutive(db, run) && Newest(db, exec)
    ensures forall i | 0 <= i < |db.runs[run].chain| - 1 :: db.runs[run].chain[i] != exec
  {
    var chain := db.runs[run].chain;
    forall i | 0 <= i < |chain| - 1 ensures chain[i] != exec {
      assert Index(db.stages[chain[i]].stage) != Index(db.stages[chain[|chain| - 1]].stage);
    }
  }

  lemma RedriveKeepsLetters(s: State, key: (Queue, Id), event: Id)
    requires LettersOk(s.db) && LettersExclusive(s.db) && event !in s.db.used && SafeToRedrive(s, key)
    ensures var db' := DbWriteRedrive(s.db, key, event); LettersOk(db') && LettersExclusive(db')
  {
    var db, db' := s.db, DbWriteRedrive(s.db, key, event);
    assert LetterOk(db, key);
    forall k | k in db'.deadLetters ensures LetterOk(db', k) {
      assert LetterOk(db, k);
      assert Redrivable(db, k) && k != key ==> db.deadLetters[k].job.exec != db.deadLetters[key].exec.value;
    }
    assert forall k | Redrivable(db', k) :: Redrivable(db, k) && k != key;
  }

  lemma RedriveFrame(db: Db, key: (Queue, Id), event: Id)
    requires IdsUsed(db) && event !in db.used
    ensures DispatchFrame(db, DbWriteRedrive(db, key, event))
  {
  }

  lemma RedriveKeepsQueues(db: Db, key: (Queue, Id), event: Id)
    requires DbInv(db) && event !in db.used && HasReferences(db, key)
    ensures QueuesMatch(DbWriteRedrive(db, key, event)) && PublishedDelivered(DbWriteRedrive(db, key, event))
  {
    NewEventKeepsQueues(db, DbWriteRedrive(db, key, event), event);
  }

  lemma RedriveKeepsDb(s: State, key: (Queue, Id), event: Id)
    requires DbInv(s.db) && event !in s.db.used && SafeToRedrive(s, key)
    ensures DbInv(DbWriteRedrive(s.db, key, event))
  {
    RedriveKeepsEvents(s.db, key, event);
    RedriveKeepsChains(s.db, key, event);
    RedriveKeepsLetters(s, key, event);
    RedriveKeepsQueues(s.db, key, event);
  }

  /** A redrive that is safe keeps everything, whoever captured the letter. */
  lemma SafeRedriveKeepsInv(s: State, key: (Queue, Id), event: Id)
    requires Inv(s) && event !in s.db.used && SafeToRedrive(s, key)
    ensures Inv(s.(db := DbWriteRedrive(s.db, key, event)))
  {
    var s' := s.(db := DbWriteRedrive(s.db, key, event));
    RedriveKeepsDb(s, key, event);
    RedriveFrame(s.db, key, event);
    DispatchesStay(s, s');
    RedriveKeepsWorkers(s, key, event);
  }

  /** And one of a worker's letters always is, as long as it is open. */
  lemma WorkerLetterSafe(s: State, key: (Queue, Id))
    requires Inv(s) && CanRedrive(s.db, key) && key.0.Worker?
    ensures SafeToRedrive(s, key)
  {
    assert LetterOk(s.db, key) && Redrivable(s.db, key);
    NewestIfUnfinished(s.db, s.db.deadLetters[key].exec.value);
  }

  lemma RedriveKeepsInv(s: State, key: (Queue, Id), event: Id)
    requires Inv(s)
    ensures Inv(StepRedrive(s, key, event))
  {
    if event !in s.db.used && CanRedrive(s.db, key) {
      if key.0.Worker? {
        WorkerLetterSafe(s, key);
      }
      if SafeToRedrive(s, key) {
        SafeRedriveKeepsInv(s, key, event);
      }
    }
  }

  lemma RedriveLateKeepsInv(s: State, key: (Queue, Id), event: Id)
    requires Inv(s)
    ensures Inv(StepRedriveLate(s, key, event))
  {
    if event !in s.db.used && SafeToRedrive(s, key) {
      SafeRedriveKeepsInv(s, key, event);
    }
  }

  lemma RedriveKeepsWorkers(s: State, key: (Queue, Id), event: Id)
    requires WorkersExclusive(s) && event !in s.db.used && SafeToRedrive(s, key)
    ensures WorkersExclusive(s.(db := DbWriteRedrive(s.db, key, event)))
  {
    var db' := DbWriteRedrive(s.db, key, event);
    assert forall k | Redrivable(db', k) :: Redrivable(s.db, k) && db'.deadLetters[k].job == s.db.deadLetters[k].job;
    OthersStayExclusive(s, s.db.deadLetters[key].exec.value, db');
  }

  lemma OthersStayExclusive(s: State, exec: Id, db': Db)
    requires WorkersExclusive(s) && forall w | w in s.workers :: s.workers[w].job.exec != exec
    requires s.db.used <= db'.used && db'.stages.Keys == s.db.stages.Keys
    requires forall x | x in db'.stages && x != exec :: db'.stages[x] == s.db.stages[x]
    requires forall k | Redrivable(db', k) :: Redrivable(s.db, k) && db'.deadLetters[k].job == s.db.deadLetters[k].job
    ensures WorkersExclusive(s.(db := db'))
  {
    forall w | w in s.workers ensures WorkerOk(db', s.workers[w]) {
      assert WorkerOk(s.db, s.workers[w]);
    }
  }

  // ----- starting and deleting runs

  lemma StartKeepsDb(db: Db, kind: EventType, stage: Stage, run: Id, exec: Id, event: Id)
    requires DbInv(db) && Fresh(db, run, exec, event) && EventQueue(kind) == Some(stage)
    ensures DbInv(DbStart(db, kind, stage, run, exec, event))
  {
    var db' := DbStart(db, kind, stage, run, exec, event);
    StartKeepsChains(db, kind, stage, run, exec, event);
    StartKeepsEvents(db, kind, stage, run, exec, event);
    NewEventKeepsQueues(db, db', event);
    NewRowKeepsLetters(db, db', exec);
  }

  lemma StartKeepsChains(db: Db, kind: EventType, stage: Stage, run: Id, exec: Id, event: Id)
    requires IdsUsed(db) && Chains(db) && Fresh(db, run, exec, event)
    ensures Chains(DbStart(db, kind, stage, run, exec, event))
  {
    var db' := DbStart(db, kind, stage, run, exec, event);
    forall r | r in db'.runs ensures ChainConsecutive(db', r) {
      assert r != run ==> ChainConsecutive(db, r);
    }
  }

  lemma StartKeepsEvents(db: Db, kind: EventType, stage: Stage, run: Id, exec: Id, event: Id)
    requires IdsUsed(db) && EventsRouted(db) && RowsAnnounced(db)
    requires Fresh(db, run, exec, event) && EventQueue(kind) == Some(stage)
    ensures var db' := DbStart(db, kind, stage, run, exec, event); IdsUsed(db') && EventsRouted(db') && RowsAnnounced(db')
  {
  }

  lemma StartKeepsWorkers(s: State, kind: EventType, stage: Stage, run: Id, exec: Id, event: Id)
    requires WorkersExclusive(s) && Fresh(s.db, run, exec, event)
    ensures WorkersExclusive(s.(db := DbStart(s.db, kind, stage, run, exec, event)))
  {
    var db' := DbStart(s.db, kind, stage, run, exec, event);
    forall w | w in s.workers ensures WorkerOk(db', s.workers[w]) {
      assert WorkerOk(s.db, s.workers[w]);
    }
    assert forall k | Redrivable(db', k) :: Redrivable(s.db, k);
  }

  lemma StartKeepsInv(s: State, kind: EventType, stage: Stage, run: Id, exec: Id, event: Id)
    requires Inv(s) && Fresh(s.db, run, exec, event) && EventQueue(kind) == Some(stage)
    ensures Inv(s.(db := DbStart(s.db, kind, stage, run, exec, event)))
  {
    StartKeepsDb(s.db, kind, stage, run, exec, event);
    DispatchesStay(s, s.(db := DbStart(s.db, kind, stage, run, exec, event)));
    StartKeepsWorkers(s, kind, stage, run, exec, event);
  }

  lemma UploadKeepsInv(s: State, kind: EventType, run: Id, exec: Id, event: Id)
    requires Inv(s)
    ensures Inv(StepUpload(s, kind, run, exec, event))
  {
    if (kind == VideoUploadedV1 || kind == VideoUploadedV2) && Fresh(s.db, run, exec, event) {
      StartKeepsInv(s, kind, Ingestion, run, exec, event);
    }
  }

  lemma RequestRenderKeepsInv(s: State, run: Id, exec: Id, event: Id)
    requires Inv(s)
    ensures Inv(StepRequestRender(s, run, exec, event))
  {
    if Fresh(s.db, run, exec, event) {
      StartKeepsInv(s, ClipRenderRequested, Rendering, run, exec, event);
    }
  }

  lemma DeleteKeepsDb(db: Db, run: Id)
    requires DbInv(db)
    ensures DbInv(DbDeleteRun(db, run))
  {
    var db' := DbDeleteRun(db, run);
    DeleteKeepsChains(db, run);
    DeleteKeepsLetters(db, run);
    DeleteKeepsEvents(db, run);
    QueuesStay(db, db');
    forall e | e in db'.events && db'.events[e].published ensures Delivered(db', e) {
      assert Delivered(db, e);
    }
  }

  /** A stage that stays belongs to another run, and so does its event. */
  lemma DeleteKeepsEvents(db: Db, run: Id)
    requires EventsRouted(db) && RowsAnnounced(db)
    ensures EventsRouted(DbDeleteRun(db, run)) && RowsAnnounced(DbDeleteRun(db, run))
  {
    var db' := DbDeleteRun(db, run);
    forall x | x in db'.stages ensures db'.stages[x].jobId in db'.events && db'.events[db'.stages[x].jobId].job.exec == x {
      assert JobFits(db, db.events[db.stages[x].jobId].job);
    }
    forall e | e in db'.events ensures JobFits(db', db'.events[e].job) {
      assert JobFits(db, db.events[e].job);
    }
  }

  lemma DeleteKeepsChains(db: Db, run: Id)
    requires Chains(db)
    ensures Chains(DbDeleteRun(db, run))
  {
    var db' := DbDeleteRun(db, run);
    forall r | r in db'.runs ensures ChainConsecutive(db', r) {
      assert ChainConsecutive(db, r);
    }
  }

  lemma DeleteKeepsLetters(db: Db, run: Id)
    requires LettersOk(db) && LettersExclusive(db)
    ensures LettersOk(DbDeleteRun(db, run)) && LettersExclusive(DbDeleteRun(db, run))
  {
    var db' := DbDeleteRun(db, run);
    forall k | k in db'.deadLetters ensures LetterOk(db', k) {
      assert LetterOk(db, k);
    }
    assert forall k | Redrivable(db', k) :: Redrivable(db, k) && db'.deadLetters[k].job == db.deadLetters[k].job;
  }

  lemma DeleteKeepsWorkers(s: State, run: Id)
    requires WorkersExclusive(s)
    ensures WorkersExclusive(s.(db := DbDeleteRun(s.db, run)))
  {
    var db' := DbDeleteRun(s.db, run);
    forall w | w in s.workers ensures WorkerOk(db', s.workers[w]) {
      assert WorkerOk(s.db, s.workers[w]);
    }
    assert forall k | Redrivable(db', k) :: Redrivable(s.db, k) && db'.deadLetters[k].job == s.db.deadLetters[k].job;
  }

  lemma DeleteFrame(db: Db, run: Id)
    ensures DispatchFrame(db, DbDeleteRun(db, run))
  {
  }

  lemma DeleteKeepsInv(s: State, run: Id)
    requires Inv(s)
    ensures Inv(s.(db := DbDeleteRun(s.db, run)))
  {
    DeleteKeepsDb(s.db, run);
    DeleteFrame(s.db, run);
    DispatchesStay(s, s.(db := DbDeleteRun(s.db, run)));
    DeleteKeepsWorkers(s, run);
  }

  // ----- a relay's steps

  lemma SameShapeKeepsInv(s: State, s': State)
    requires Inv(s) && SameShape(s.db, s'.db) && s'.workers == s.workers
    requires forall d | d in s'.dispatches :: DispatchOk(s.db, s'.dispatches[d])
    ensures Inv(s')
  {
    SameShapeKeepsDb(s.db, s'.db);
    WorkersStay(s, s');
    forall d | d in s'.dispatches ensures DispatchOk(s'.db, s'.dispatches[d]) {
      assert DispatchOk(s.db, s'.dispatches[d]);
    }
  }

  lemma CheckKeepsInv(s: State, d: Id)
    requires Inv(s)
    ensures Inv(StepCheck(s, d))
  {
    var s' := StepCheck(s, d);
    if s' != s {
      assert DispatchOk(s.db, s.dispatches[d]);
      StaleMeansGone(s.db, s.dispatches[d].job);
      forall b | b in s'.dispatches ensures DispatchOk(s.db, s'.dispatches[b]) {
        assert DispatchOk(s.db, s.dispatches[b]);
      }
      SameShapeKeepsInv(s, s');
    }
  }

  /** A run and its rows go together, so a missing reference means the row is gone. */
  lemma StaleMeansGone(db: Db, job: Job)
    requires Chains(db) && JobFits(db, job)
    ensures !ReferencesExist(db, job) ==> job.exec !in db.stages
  {
  }

  lemma EnqueueKeepsInv(s: State, d: Id)
    requires Inv(s)
    ensures Inv(StepEnqueue(s, d))
  {
    var s' := StepEnqueue(s, d);
    if s' != s {
      assert DispatchOk(s.db, s.dispatches[d]);
      EnqueueKeepsDb(s.db, s.dispatches[d].job);
      WorkersStay(s, s');
      forall b | b in s'.dispatches ensures DispatchOk(s'.db, s'.dispatches[b]) {
        assert DispatchOk(s.db, s.dispatches[b]);
      }
    }
  }

  lemma EnqueueKeepsDb(db: Db, job: Job)
    requires DbInv(db) && Announced(db, job)
    ensures DbInv(DbEnqueue(db, job.stage, job))
  {
    var db' := DbEnqueue(db, job.stage, job);
    SameRowsKeepChains(db, db');
    SameLettersKept(db, db');
    forall e | e in db'.events && db'.events[e].published ensures Delivered(db', e) {
      assert Delivered(db, e);
    }
    forall q, j | (q, j) in db'.queued ensures q == j.stage && Announced(db', j) {
      assert Announced(db, j);
    }
  }

  lemma PublishMarkKeepsEvents(db: Db, event: Id)
    requires IdsUsed(db) && EventsRouted(db) && RowsAnnounced(db) && QueuesMatch(db) && PublishedDelivered(db)
    requires event in db.events && Delivered(db, event)
    ensures var db' := DbDiscard(db, event);
      IdsUsed(db') && EventsRouted(db') && RowsAnnounced(db') && QueuesMatch(db') && PublishedDelivered(db')
  {
    var db' := DbDiscard(db, event);
    forall e | e in db'.events && db'.events[e].published ensures Delivered(db', e) {
      assert e != event ==> Delivered(db, e);
    }
    QueuesStay(db, db');
  }

  lemma PublishMarkKeepsDb(db: Db, event: Id)
    requires DbInv(db) && event in db.events && Delivered(db, event)
    ensures DbInv(DbDiscard(db, event))
  {
    var db' := DbDiscard(db, event);
    PublishMarkKeepsEvents(db, event);
    SameRowsKeepChains(db, db');
    SameLettersKept(db, db');
  }

  /** The row a published event hands over, marked QUEUED if it was still PENDING. */
  function MarkQueued(db: Db, exec: Id): Db {
    if exec in db.stages && db.stages[exec].status == Pending then SetStatus(db, exec, Queued) else db
  }

  lemma PublishShape(db: Db, event: Id, job: Job)
    requires event in db.events && job.run in db.runs
    ensures SameShape(DbDiscard(MarkQueued(db, job.exec), event), DbPublish(db, event, job))
  {
  }

  lemma PublishKeepsDb(db: Db, event: Id, job: Job)
    requires DbInv(db) && event in db.events && job == db.events[event].job && (job.stage, job) in db.queued
    ensures DbInv(DbPublish(db, event, job))
  {
    if job.run in db.runs {
      var marked := MarkQueued(db, job.exec);
      if marked != db { MarkKeepsDb(db, job.exec, Queued); }
      assert Delivered(marked, event);
      PublishMarkKeepsDb(marked, event);
      PublishShape(db, event, job);
      SameShapeKeepsDb(DbDiscard(marked, event), DbPublish(db, event, job));
    }
  }

  lemma PublishKeepsInv(s: State, d: Id)
    requires Inv(s)
    ensures Inv(StepPublish(s, d))
  {
    if StepPublish(s, d) != s {
      PublishOne(s, d, s.dispatches[d]);
    }
  }

  lemma PublishOne(s: State, d: Id, x: Dispatch)
    requires Inv(s) && Phase(s, d, x) && x.phase == Enqueued && x.event in s.db.events && x.job.run in s.db.runs
    ensures Inv(State(DbPublish(s.db, x.event, x.job), s.workers, s.dispatches - {d}))
  {
    assert DispatchOk(s.db, x);
    PublishFrame(s.db, x.event, x.job);
    PublishDisturbsNobody(s, x.event, x.job);
    DispatchesStay(s, State(DbPublish(s.db, x.event, x.job), s.workers, s.dispatches - {d}));
    PublishKeepsDb(s.db, x.event, x.job);
  }

  lemma PublishFrame(db: Db, event: Id, job: Job)
    ensures DispatchFrame(db, DbPublish(db, event, job))
  {
  }

  lemma PublishDisturbsNobody(s: State, event: Id, job: Job)
    requires WorkersExclusive(s)
    ensures WorkersExclusive(State(DbPublish(s.db, event, job), s.workers, s.dispatches))
  {
    var db' := DbPublish(s.db, event, job);
    forall w | w in s.workers ensures WorkerOk(db', s.workers[w]) {
      assert WorkerOk(s.db, s.workers[w]);
    }
    assert forall k | Redrivable(db', k) :: Redrivable(s.db, k);
  }

  lemma DiscardKeepsInv(s: State, d: Id)
    requires Inv(s)
    ensures Inv(StepDiscard(s, d))
  {
    var s' := StepDiscard(s, d);
    if s' != s {
      assert DispatchOk(s.db, s.dispatches[d]);
      if s.dispatches[d].event in s.db.events {
        PublishMarkKeepsDb(s.db, s.dispatches[d].event);
      }
      DispatchesStay(s, s');
      UntouchedWorkersStay(s, s');
    }
  }

  lemma GiveUpShape(db: Db, event: Id, attempts: nat)
    ensures SameShape(DbDiscard(db, event), DbGiveUp(db, event, attempts))
  {
  }

  lemma GiveUpKeepsDb(db: Db, event: Id, attempts: nat)
    requires DbInv(db) && (event in db.events ==> Delivered(db, event))
    ensures DbInv(DbGiveUp(db, event, attempts))
  {
    if event in db.events {
      PublishMarkKeepsDb(db, event);
    }
    GiveUpShape(db, event, attempts);
    SameShapeKeepsDb(DbDiscard(db, event), DbGiveUp(db, event, attempts));
  }

  predicate Phase(s: State, d: Id, x: Dispatch) {
    d in s.dispatches && x == s.dispatches[d]
  }

  lemma GiveUpKeepsRest(s: State, d: Id, x: Dispatch)
    requires WorkersExclusive(s) && DispatchesOk(s) && Phase(s, d, x) && x.phase == Captured
    ensures WorkersExclusive(StepGiveUp(s, d)) && DispatchesOk(StepGiveUp(s, d))
    ensures x.event in s.db.events ==> Delivered(s.db, x.event)
  {
    var s' := StepGiveUp(s, d);
    assert DispatchOk(s.db, x);
    UntouchedWorkersStay(s, s');
    forall b | b in s'.dispatches ensures DispatchOk(s'.db, s'.dispatches[b]) {
      assert DispatchOk(s.db, s.dispatches[b]);
    }
  }

  lemma GiveUpEffect(s: State, d: Id, x: Dispatch)
    requires Phase(s, d, x) && x.phase == Captured
    ensures StepGiveUp(s, d) == State(DbGiveUp(s.db, x.event, x.attempts + 1), s.workers, s.dispatches - {d})
  {
  }

  lemma GiveUpOne(s: State, d: Id, x: Dispatch)
    requires Inv(s) && Phase(s, d, x) && x.phase == Captured
    ensures Inv(StepGiveUp(s, d))
  {
    GiveUpEffect(s, d, x);
    GiveUpKeepsRest(s, d, x);
    GiveUpKeepsDb(s.db, x.event, x.attempts + 1);
  }

  lemma GiveUpKeepsInv(s: State, d: Id)
    requires Inv(s)
    ensures Inv(StepGiveUp(s, d))
  {
    if d in s.dispatches && s.dispatches[d].phase == Captured {
      assert DispatchOk(s.db, s.dispatches[d]);
      GiveUpOne(s, d, s.dispatches[d]);
    }
  }

  lemma UntouchedWorkersStay(s: State, s': State)
    requires WorkersExclusive(s) && s'.workers == s.workers
    requires s'.db.stages == s.db.stages && s'.db.deadLetters == s.db.deadLetters && s'.db.used == s.db.used
    ensures WorkersExclusive(s')
  {
    forall w | w in s'.workers ensures WorkerOk(s'.db, s'.workers[w]) {
      assert WorkerOk(s.db, s.workers[w]);
    }
    assert forall k | Redrivable(s'.db, k) :: Redrivable(s.db, k);
  }

  lemma DispatchFailsKeepsInv(s: State, d: Id)
    requires Inv(s)
    ensures Inv(StepDispatchFails(s, d))
  {
    var s' := StepDispatchFails(s, d);
    if s' != s {
      if s.dispatches[d].attempts + 1 >= 5 {
        CaptureOne(s, d, s.dispatches[d], s');
      } else {
        ReleaseOne(s, d, s.dispatches[d], s');
      }
    }
  }

  predicate Dispatching(s: State, d: Id, x: Dispatch) {
    Phase(s, d, x) && x.phase != Stale && x.phase != Captured
  }

  lemma CaptureOne(s: State, d: Id, x: Dispatch, s': State)
    requires Inv(s) && Dispatching(s, d, x) && x.attempts + 1 >= 5
    requires s' == StepDispatchFails(s, d)
    requires s'.db == DbCapture(s.db, Outbox, x.event, x.job, x.attempts + 1)
    ensures Inv(s')
  {
    assert DispatchOk(s.db, x);
    DispatchFailsKeepsRest(s, d, x);
    RelayCaptureKeepsDb(s.db, x.event, x.job, x.attempts + 1, s'.db);
  }

  lemma ReleaseOne(s: State, d: Id, x: Dispatch, s': State)
    requires Inv(s) && Dispatching(s, d, x) && x.attempts + 1 < 5
    requires s' == StepDispatchFails(s, d)
    requires s'.db == DbRelease(s.db, x.event, x.attempts + 1)
    ensures Inv(s')
  {
    DispatchFailsKeepsRest(s, d, x);
    ReleaseKeepsDb(s.db, x.event, x.attempts + 1, s'.db);
  }

  lemma RelayCaptureKeepsDb(db: Db, event: Id, job: Job, attempts: nat, db': Db)
    requires DbInv(db) && JobFits(db, job)
    requires db' == DbCapture(db, Outbox, event, job, attempts)
    ensures DbInv(db')
  {
    CaptureKeepsDb(db, Outbox, event, job, attempts);
  }

  lemma ReleaseKeepsDb(db: Db, event: Id, attempts: nat, db': Db)
    requires DbInv(db) && db' == DbRelease(db, event, attempts)
    ensures DbInv(db')
  {
    ReleaseShape(db, event, attempts);
    SameShapeKeepsDb(db, db');
  }

  lemma DispatchFailsKeepsRest(s: State, d: Id, x: Dispatch)
    requires WorkersExclusive(s) && DispatchesOk(s) && Dispatching(s, d, x)
    ensures WorkersExclusive(StepDispatchFails(s, d)) && DispatchesOk(StepDispatchFails(s, d))
  {
    if s.dispatches[d].attempts + 1 >= 5 {
      RelayCaptureKeepsRest(s, d);
    } else {
      var s' := StepDispatchFails(s, d);
      UntouchedWorkersStay(s, s');
      forall b | b in s'.dispatches ensures DispatchOk(s'.db, s'.dispatches[b]) {
        assert DispatchOk(s.db, s.dispatches[b]);
      }
    }
  }

  lemma ReleaseShape(db: Db, event: Id, attempts: nat)
    ensures SameShape(db, DbRelease(db, event, attempts))
  {
  }

  lemma RelayCaptureKeepsRest(s: State, d: Id)
    requires WorkersExclusive(s) && DispatchesOk(s) && d in s.dispatches
    requires s.dispatches[d].phase != Stale && s.dispatches[d].attempts + 1 >= 5
    ensures WorkersExclusive(StepDispatchFails(s, d)) && DispatchesOk(StepDispatchFails(s, d))
  {
    var s' := StepDispatchFails(s, d);
    assert forall k | Redrivable(s'.db, k) :: Redrivable(s.db, k) && s'.db.deadLetters[k] == s.db.deadLetters[k];
    forall w | w in s'.workers ensures WorkerOk(s'.db, s'.workers[w]) {
      assert WorkerOk(s.db, s.workers[w]);
    }
    forall b | b in s'.dispatches ensures DispatchOk(s'.db, s'.dispatches[b]) {
      assert DispatchOk(s.db, s.dispatches[b]);
    }
  }

  lemma ClaimKeepsInv(s: State, d: Id, event: Id)
    requires Inv(s)
    ensures Inv(StepClaim(s, d, event))
  {
    var s' := StepClaim(s, d, event);
    if s' != s {
      forall b | b in s'.dispatches ensures DispatchOk(s.db, s'.dispatches[b]) {
        assert b != d ==> DispatchOk(s.db, s.dispatches[b]);
      }
      SameShapeKeepsInv(s, s');
    }
  }

  lemma LockExpiresKeepsInv(s: State, event: Id)
    requires Inv(s)
    ensures Inv(s.(db := DbExpireLock(s.db, event)))
  {
    SameShapeKeepsInv(s, s.(db := DbExpireLock(s.db, event)));
  }

  lemma StoppingKeepsInv(s: State, w: Id)
    requires Inv(s)
    ensures Inv(s.(workers := s.workers - {w})) && Inv(s.(dispatches := s.dispatches - {w}))
  {
    WorkersStay(s, s.(workers := s.workers - {w}));
    DispatchesStay(s, s.(dispatches := s.dispatches - {w}));
  }

  // ----- every step, every run

  predicate WorkerAction(a: Action) {
    a.Begin? || a.Complete? || a.Retry? || a.Fail? || a.Capture? || a.WorkerStops?
  }

  predicate RelayAction(a: Action) {
    a.Claim? || a.LockExpires? || a.CheckReferences? || a.Enqueue? || a.Publish? || a.Discard?
    || a.DispatchFails? || a.GiveUp? || a.RelayStops?
  }

  lemma WorkerActionKeepsInv(s: State, a: Action, autoRender: bool)
    requires Inv(s) && WorkerAction(a)
    ensures Inv(Apply(s, a, autoRender))
  {
    if a.Begin? {
      BeginKeepsInv(s, a.w, a.queue, a.job);
    } else if a.Complete? {
      CompleteKeepsInv(s, a.w, autoRender, a.exec, a.event);
    } else {
      match a
      case Retry(w) => RetryKeepsInv(s, w);
      case Fail(w, capture) => FailKeepsInv(s, w, capture);
      case Capture(w, attempts) => CaptureKeepsInv(s, w, attempts);
      case WorkerStops(w) => StoppingKeepsInv(s, w);
    }
  }

  lemma RelayActionKeepsInv(s: State, a: Action, autoRender: bool)
    requires Inv(s) && RelayAction(a)
    ensures Inv(Apply(s, a, autoRender))
  {
    if a.Publish? || a.Discard? || a.DispatchFails? || a.GiveUp? || a.RelayStops? {
      DispatchEndKeepsInv(s, a, autoRender);
    } else {
      match a
      case Claim(d, event) => ClaimKeepsInv(s, d, event);
      case LockExpires(event) => LockExpiresKeepsInv(s, event);
      case CheckReferences(d) => CheckKeepsInv(s, d);
      case Enqueue(d) => EnqueueKeepsInv(s, d);
    }
  }

  lemma DispatchEndKeepsInv(s: State, a: Action, autoRender: bool)
    requires Inv(s) && (a.Publish? || a.Discard? || a.DispatchFails? || a.GiveUp? || a.RelayStops?)
    ensures Inv(Apply(s, a, autoRender))
  {
    match a
    case Publish(d) => PublishKeepsInv(s, d);
    case Discard(d) => DiscardKeepsInv(s, d);
    case DispatchFails(d) => DispatchFailsKeepsInv(s, d);
    case GiveUp(d) => GiveUpKeepsInv(s, d);
    case RelayStops(d) => StoppingKeepsInv(s, d);
  }

  /** The inductive step: no action of anybody breaks the invariant. */
  lemma ApplyKeepsInv(s: State, a: Action, autoRender: bool)
    requires Inv(s)
    ensures Inv(Apply(s, a, autoRender))
  {
    if WorkerAction(a) {
      WorkerActionKeepsInv(s, a, autoRender);
    } else if RelayAction(a) {
      RelayActionKeepsInv(s, a, autoRender);
    } else {
      match a
      case Upload(kind, run, exec, event) => UploadKeepsInv(s, kind, run, exec, event);
      case RequestRender(run, exec, event) => RequestRenderKeepsInv(s, run, exec, event);
      case DeleteRun(run) => DeleteKeepsInv(s, run);
      case Redrive(key, event) => RedriveKeepsInv(s, key, event);
      case RedriveLate(key, event) => RedriveLateKeepsInv(s, key, event);
    }
  }

  lemma {:induction false} RunKeepsInv(s: State, actions: seq<Action>, autoRender: bool)
    requires Inv(s)
    ensures Inv(Run(s, actions, autoRender))
    decreases |actions|
  {
    if actions != [] {
      ApplyKeepsInv(s, actions[0], autoRender);
      RunKeepsInv(Apply(s, actions[0], autoRender), actions[1..], autoRender);
    }
  }

  /** Whatever happens, in whatever order, from an empty database. */
  lemma EveryRunSafe(actions: seq<Action>, autoRender: bool)
    ensures Inv(Run(Init, actions, autoRender))
  {
    RunKeepsInv(Init, actions, autoRender);
  }
}
