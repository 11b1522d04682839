/** Where runs end: in the stages after which nothing is to follow, and nowhere else. */
module PipelineEndings {
  import opened Common
  import opened PipelineDatabase
  import opened PipelineProtocol
  import opened PipelineSafety
  import opened PipelineTheorems

  /** The exports are the end, and so is the composition unless rendering starts by itself. */
  predicate LastStage(stage: Stage, autoRender: bool) {
    stage == Exports || (stage == Composition && !autoRender)
  }

  /** A completion ends the run in just these stages; in any other it starts the stage after it. */
  lemma CompletionEndsIff(db: Db, job: Job, autoRender: bool, exec: Id, event: Id)
    requires job.exec in db.stages && job.run in db.runs && db.stages[job.exec].status == Processing
    ensures var outcome := CompleteOutcome(db, job, autoRender, exec, event);
      && (outcome.Finished? <==> job.stage == Exports || (job.stage == Composition && !autoRender))
      && (!outcome.Finished? ==>
            && outcome.Advanced? && outcome.next == Job(event, job.run, exec, outcome.next.stage)
            && Index(outcome.next.stage) == Index(job.stage) + 1)
  {
    CompletedEventRoutes(job.stage);
  }

  /** The rows a new run begins with. */
  lemma StartEffect(db: Db, kind: EventType, stage: Stage, run: Id, exec: Id, event: Id)
    requires IdsUsed(db) && Fresh(db, run, exec, event)
    ensures var db' := DbStart(db, kind, stage, run, exec, event);
      && db'.runs == db.runs[run := RunRow([exec], RunPending, Some(stage))]
      && db'.stages == db.stages[exec := StageRow(run, stage, Pending, event, 0)]
      && db'.events == db.events[event := Event(kind, Job(event, run, exec, stage), false, None, 0)]
      && db'.deadLetters == db.deadLetters && db'.queued == db.queued
  {
  }

  /** A redrive puts the stage back under a new event, which nobody has locked or tried. */
  lemma RedriveEffect(db: Db, key: (Queue, Id), event: Id)
    requires HasReferences(db, key) && event !in db.used
    ensures var letter, db' := db.deadLetters[key], DbWriteRedrive(db, key, event);
      && db'.stages == db.stages[letter.exec.value := db.stages[letter.exec.value].(status := Pending, jobId := event)]
      && db'.runs == db.runs[letter.run.value := db.runs[letter.run.value].(status := RunRunning)]
      && db'.deadLetters == db.deadLetters[key := letter.(status := Redriven)]
      && event in db'.events && db'.events == db.events[event := db'.events[event]]
      && db'.events[event] == Event(db'.events[event].kind, letter.job.(eventId := event), false, None, 0)
      && EventQueue(db'.events[event].kind) == Some(letter.job.stage)
  {
    RedriveRoutes(db.deadLetters[key].job.stage);
  }

  /** What a worker's claim, its retry and its failure write. */
  lemma WorkerEffects(db: Db, job: Job, deadLettered: bool)
    requires job.exec in db.stages && job.run in db.runs
    ensures var row, run := db.stages[job.exec], db.runs[job.run];
      && (row.status in {Pending, Queued, Retrying} ==>
            && DbBegin(db, job).stages[job.exec] == row.(status := Processing, attempts := row.attempts + 1)
            && DbBegin(db, job).runs[job.run] == run.(status := RunRunning, current := Some(job.stage)))
      && (row.status !in {Pending, Queued, Retrying} ==> DbBegin(db, job) == db)
      && DbRetry(db, job) == db.(stages := db.stages[job.exec := row.(status := Retrying)])
      && DbFail(db, job, deadLettered).stages[job.exec] == row.(status := if deadLettered then DeadLettered else Failed)
      && DbFail(db, job, deadLettered).runs[job.run] == run.(status := RunFailed)
  {
  }

  /** What a relay writes to its event, and to the stage when it is published. */
  lemma RelayEffects(db: Db, event: Id, job: Job, relay: Id, attempts: nat)
    requires event in db.events && job.run in db.runs
    ensures var row := db.events[event];
      && (!row.published && row.lockedBy == None ==> DbClaim(db, event, relay).events[event] == row.(lockedBy := Some(relay)))
      && DbExpireLock(db, event).events[event] == row.(lockedBy := None)
      && DbDiscard(db, event).events[event] == row.(published := true, lockedBy := None)
      && DbRelease(db, event, attempts).events[event] == row.(attempts := attempts, lockedBy := None)
      && DbGiveUp(db, event, attempts).events[event] == row.(attempts := attempts, published := true, lockedBy := None)
      && DbPublish(db, event, job).events[event] == row.(published := true, lockedBy := None)
      && DbPublish(db, event, job).runs[job.run] == db.runs[job.run].(status := RunRunning, current := Some(job.stage))
      && (job.exec in db.stages ==>
            var stage := db.stages[job.exec];
            DbPublish(db, event, job).stages[job.exec] == stage.(status := if stage.status == Pending then Queued else stage.status))
  {
  }

  /** Deleting a run takes its stages and events away, and the references of its dead letters. */
  lemma DeleteEffect(db: Db, run: Id)
    ensures var db' := DbDeleteRun(db, run);
      && (forall r :: r in db'.runs <==> r in db.runs && r != run)
      && (forall r | r in db'.runs :: db'.runs[r] == db.runs[r])
      && (forall x :: x in db'.stages <==> x in db.stages && db.stages[x].run != run)
      && (forall x | x in db'.stages :: db'.stages[x] == db.stages[x])
      && (forall e :: e in db'.events <==> e in db.events && db.events[e].job.run != run)
      && (forall e | e in db'.events :: db'.events[e] == db.events[e])
      && db'.queued == db.queued && db'.used == db.used
      && db'.deadLetters.Keys == db.deadLetters.Keys
      && (forall k | k in db.deadLetters ::
            var letter, letter' := db.deadLetters[k], db'.deadLetters[k];
            && letter'.job == letter.job && letter'.status == letter.status && letter'.attempts == letter.attempts
            && letter'.run == (if letter.run == Some(run) then None else letter.run)
            && (letter.exec.Some? && letter.exec.value in db.stages && db.stages[letter.exec.value].run == run ==> letter'.exec == None))
  {
  }

  /** The rows a completion leaves. */
  lemma CompletionEffect(db: Db, job: Job, autoRender: bool, exec: Id, event: Id)
    requires IdsUsed(db) && job.exec in db.stages && job.run in db.runs && db.stages[job.exec].status == Processing
    requires exec !in db.used && event !in db.used && exec != event
    ensures var db' := DbComplete(db, job, autoRender, exec, event);
      && db'.stages[job.exec] == db.stages[job.exec].(status := Succeeded)
      && (forall x | x in db.stages && x != job.exec :: x in db'.stages && db'.stages[x] == db.stages[x])
      && (if LastStage(job.stage, autoRender) then
            && db'.stages.Keys == db.stages.Keys && db'.events == db.events
            && db'.runs[job.run] == db.runs[job.run].(status := RunSucceeded, current := None)
          else
            && db'.stages.Keys == db.stages.Keys + {exec} && event in db'.events
            && Follows(db'.stages[exec], db'.events[event], job, exec, event)
            && db'.runs[job.run] == db.runs[job.run].(chain := db.runs[job.run].chain + [exec], current := Some(db'.stages[exec].stage)))
  {
    CompletionEndsIff(db, job, autoRender, exec, event);
    CompletedEventRoutes(job.stage);
  }

  /** The row of the stage after the job's, and the event that hands it over. */
  predicate Follows(row: StageRow, announced: Event, job: Job, exec: Id, event: Id) {
    && Index(row.stage) == Index(job.stage) + 1
    && row == StageRow(job.run, row.stage, Pending, event, 0)
    && announced == Event(announced.kind, Job(event, job.run, exec, row.stage), false, None, 0)
    && EventQueue(announced.kind) == Some(row.stage)
  }

  /** Nothing follows a last stage, and a run that has finished its newest stage is at one. */
  ghost predicate EndsWell(db: Db, run: Id, autoRender: bool)
    requires run in db.runs
  {
    var chain := db.runs[run].chain;
    forall i | 0 <= i < |chain| && chain[i] in db.stages ::
      var row := db.stages[chain[i]];
      if i < |chain| - 1 then !LastStage(row.stage, autoRender)
      else row.status == Succeeded ==> LastStage(row.stage, autoRender)
  }

  ghost predicate AllEndWell(db: Db, autoRender: bool) {
    forall r | r in db.runs :: EndsWell(db, r, autoRender)
  }

  /** Chains and stages stay as they are, and nothing new has succeeded. */
  ghost predicate NoNewSuccess(db: Db, db': Db) {
    && (forall r | r in db'.runs :: r in db.runs && db'.runs[r].chain == db.runs[r].chain)
    && (forall x | x in db'.stages ::
          && x in db.stages && db'.stages[x].stage == db.stages[x].stage
          && (db'.stages[x].status == Succeeded ==> db.stages[x].status == Succeeded))
  }

  lemma NoNewSuccessKeepsEnds(db: Db, db': Db, autoRender: bool)
    requires AllEndWell(db, autoRender) && NoNewSuccess(db, db')
    ensures AllEndWell(db', autoRender)
  {
    forall r | r in db'.runs ensures EndsWell(db', r, autoRender) {
      assert EndsWell(db, r, autoRender);
    }
  }

  lemma StartKeepsEnds(db: Db, kind: EventType, stage: Stage, run: Id, exec: Id, event: Id, autoRender: bool)
    requires DbInv(db) && AllEndWell(db, autoRender) && Fresh(db, run, exec, event)
    ensures AllEndWell(DbStart(db, kind, stage, run, exec, event), autoRender)
  {
    var db' := DbStart(db, kind, stage, run, exec, event);
    forall r | r in db'.runs ensures EndsWell(db', r, autoRender) {
      if r != run {
        assert EndsWell(db, r, autoRender) && ChainConsecutive(db, r);
      }
    }
  }

  /** The completed stage is the newest of its run. */
  ghost predicate Completes(db: Db, job: Job) {
    && Chains(db) && JobFits(db, job) && job.exec in db.stages && db.stages[job.exec].status == Processing
    && job.run in db.runs && Newest(db, job.exec)
  }

  lemma FinishKeepsEnds(db: Db, job: Job, autoRender: bool, db': Db)
    requires Completes(db, job) && AllEndWell(db, autoRender) && LastStage(job.stage, autoRender)
    requires db'.runs.Keys == db.runs.Keys && (forall r | r in db.runs :: db'.runs[r].chain == db.runs[r].chain)
    requires db'.stages == db.stages[job.exec := db.stages[job.exec].(status := Succeeded)]
    ensures AllEndWell(db', autoRender)
  {
    forall r | r in db'.runs ensures EndsWell(db', r, autoRender) {
      assert EndsWell(db, r, autoRender) && ChainConsecutive(db, r);
    }
  }

  lemma AdvanceKeepsEnds(db: Db, job: Job, next: Stage, autoRender: bool, exec: Id, event: Id, db': Db)
    requires Completes(db, job) && IdsUsed(db) && AllEndWell(db, autoRender) && !LastStage(job.stage, autoRender) && exec !in db.used
    requires db'.runs.Keys == db.runs.Keys && (forall r | r in db.runs && r != job.run :: db'.runs[r].chain == db.runs[r].chain)
    requires db'.runs[job.run].chain == db.runs[job.run].chain + [exec]
    requires db'.stages == db.stages[job.exec := db.stages[job.exec].(status := Succeeded)][exec := StageRow(job.run, next, Pending, event, 0)]
    ensures AllEndWell(db', autoRender)
  {
    forall r | r in db'.runs ensures EndsWell(db', r, autoRender) {
      assert EndsWell(db, r, autoRender) && ChainConsecutive(db, r);
      if r != job.run {
        OtherRunKept(db, job.exec, exec, r, autoRender, db');
      } else {
        DistinctInChain(db, r, job.exec);
        GrownRunKept(db, job.exec, exec, r, autoRender, db');
      }
    }
  }

  lemma OtherRunKept(db: Db, done: Id, exec: Id, r: Id, autoRender: bool, db': Db)
    requires r in db.runs && r in db'.runs && EndsWell(db, r, autoRender) && ChainConsecutive(db, r)
    requires done in db.stages && db.stages[done].run != r && exec !in db.stages && db'.runs[r].chain == db.runs[r].chain
    requires forall x | x in db.stages && x != done :: x in db'.stages && db'.stages[x] == db.stages[x]
    ensures EndsWell(db', r, autoRender)
  {
  }

  lemma GrownRunKept(db: Db, done: Id, exec: Id, r: Id, autoRender: bool, db': Db)
    requires r in db.runs && r in db'.runs && EndsWell(db, r, autoRender) && ChainConsecutive(db, r)
    requires exec !in db.stages && db'.runs[r].chain == db.runs[r].chain + [exec]
    requires Newest(db, done) && db.stages[done].run == r && !LastStage(db.stages[done].stage, autoRender)
    requires forall i | 0 <= i < |db.runs[r].chain| - 1 :: db.runs[r].chain[i] != done
    requires forall x | x in db.stages :: x in db'.stages && db'.stages[x].stage == db.stages[x].stage
    requires exec in db'.stages && db'.stages[exec].status != Succeeded
    ensures EndsWell(db', r, autoRender)
  {
  }

  lemma CompleteKeepsEnds(s: State, w: Id, autoRender: bool, exec: Id, event: Id)
    requires Inv(s) && AllEndWell(s.db, autoRender)
    ensures AllEndWell(StepComplete(s, w, autoRender, exec, event).db, autoRender)
  {
    var s' := StepComplete(s, w, autoRender, exec, event);
    if s' != s {
      var job := s.workers[w].job;
      assert WorkerOk(s.db, s.workers[w]);
      NewestIfUnfinished(s.db, job.exec);
      CompletionEndsIff(s.db, job, autoRender, exec, event);
      var outcome := CompleteOutcome(s.db, job, autoRender, exec, event);
      if outcome.Finished? {
        FinishKeepsEnds(s.db, job, autoRender, s'.db);
      } else {
        AdvanceKeepsEnds(s.db, job, outcome.next.stage, autoRender, exec, event, s'.db);
      }
    }
  }

  lemma StatusKeeps(db: Db, exec: Id, status: StageStatus)
    requires exec in db.stages && status != Succeeded
    ensures NoNewSuccess(db, SetStatus(db, exec, status))
  {
  }

  lemma WorkerStepNoSuccess(s: State, a: Action, autoRender: bool)
    requires a.Begin? || a.Retry? || a.Fail? || a.Capture? || a.WorkerStops?
    ensures NoNewSuccess(s.db, Apply(s, a, autoRender).db)
  {
  }

  lemma RelayStepNoSuccess(s: State, a: Action, autoRender: bool)
    requires a.Claim? || a.LockExpires? || a.CheckReferences? || a.Enqueue? || a.Discard? || a.DispatchFails? || a.GiveUp? || a.RelayStops?
    ensures NoNewSuccess(s.db, Apply(s, a, autoRender).db)
  {
  }

  lemma PublishNoSuccess(s: State, d: Id)
    ensures NoNewSuccess(s.db, StepPublish(s, d).db)
  {
  }

  lemma RedriveNoSuccess(db: Db, key: (Queue, Id), event: Id)
    requires event !in db.used
    ensures NoNewSuccess(db, DbWriteRedrive(db, key, event))
  {
  }

  lemma DeleteNoSuccess(db: Db, run: Id)
    ensures NoNewSuccess(db, DbDeleteRun(db, run))
  {
  }

  lemma StepKeepsEnds(s: State, a: Action, autoRender: bool)
    requires Inv(s) && AllEndWell(s.db, autoRender)
    ensures AllEndWell(Apply(s, a, autoRender).db, autoRender)
  {
    match a
    case Upload(kind, run, exec, event) =>
      if Fresh(s.db, run, exec, event) { StartKeepsEnds(s.db, kind, Ingestion, run, exec, event, autoRender); }
    case RequestRender(run, exec, event) =>
      if Fresh(s.db, run, exec, event) { StartKeepsEnds(s.db, ClipRenderRequested, Rendering, run, exec, event, autoRender); }
    case Complete(w, exec, event) => CompleteKeepsEnds(s, w, autoRender, exec, event);
    case _ => OtherStepKeepsEnds(s, a, autoRender);
  }

  lemma OtherStepKeepsEnds(s: State, a: Action, autoRender: bool)
    requires AllEndWell(s.db, autoRender) && !a.Upload? && !a.RequestRender? && !a.Complete?
    ensures AllEndWell(Apply(s, a, autoRender).db, autoRender)
  {
    var s' := Apply(s, a, autoRender);
    if s'.db != s.db {
      if a.Publish? {
        PublishNoSuccess(s, a.d);
      } else if a.DeleteRun? {
        DeleteNoSuccess(s.db, a.run);
      } else if a.Redrive? || a.RedriveLate? {
        RedriveNoSuccess(s.db, a.key, a.event);
      } else if a.Begin? || a.Retry? || a.Fail? || a.Capture? || a.WorkerStops? {
        WorkerStepNoSuccess(s, a, autoRender);
      } else {
        RelayStepNoSuccess(s, a, autoRender);
      }
      NoNewSuccessKeepsEnds(s.db, s'.db, autoRender);
    }
  }

  lemma {:induction false} RunKeepsEnds(s: State, actions: seq<Action>, autoRender: bool)
    requires Inv(s) && AllEndWell(s.db, autoRender)
    ensures AllEndWell(Run(s, actions, autoRender).db, autoRender)
    decreases |actions|
  {
    if actions != [] {
      StepKeepsEnds(s, actions[0], autoRender);
      ApplyKeepsInv(s, actions[0], autoRender);
      RunKeepsEnds(Apply(s, actions[0], autoRender), actions[1..], autoRender);
    }
  }

  lemma ReachableEnds(s: State, autoRender: bool)
    requires Reachable(s, autoRender)
    ensures Inv(s) && AllEndWell(s.db, autoRender)
  {
    var actions :| Run(Init, actions, autoRender) == s;
    EveryRunSafe([], autoRender);
    EveryRunSafe(actions, autoRender);
    RunKeepsEnds(Init, actions, autoRender);
  }

  /** A run is never left between two stages: when its newest execution has succeeded, that was
      the exports, or the composition of a pipeline that does not render by itself; and what has
      a successor was neither. */
  lemma RunsEndWhereTheyShould(s: State, x: Id, autoRender: bool)
    requires Reachable(s, autoRender) && x in s.db.stages && s.db.stages[x].status == Succeeded
    ensures Newest(s.db, x) <==> s.db.stages[x].stage == Exports || (s.db.stages[x].stage == Composition && !autoRender)
  {
    ReachableEnds(s, autoRender);
    assert s.db.stages[x].run in s.db.runs;
    EndOfChain(s.db, s.db.stages[x].run, x, autoRender);
  }

  lemma EndOfChain(db: Db, run: Id, x: Id, autoRender: bool)
    requires run in db.runs && EndsWell(db, run, autoRender) && ChainConsecutive(db, run)
    requires x in db.runs[run].chain && db.stages[x].status == Succeeded
    ensures Newest(db, x) <==> LastStage(db.stages[x].stage, autoRender)
  {
    var chain := db.runs[run].chain;
    var i :| 0 <= i < |chain| && chain[i] == x;
    if Newest(db, x) {
      DistinctInChain(db, run, x);
      assert i == |chain| - 1;
    }
  }

  ghost predicate BeganWith(db: Db, run: Id, stage: Stage) {
    && run in db.runs && db.runs[run].chain != []
    && db.runs[run].chain[0] in db.stages && db.stages[db.runs[run].chain[0]].stage == stage
  }

  /** Without automatic rendering, a run that began with an upload never gets past the composition. */
  lemma UploadsStopAtComposition(s: State, x: Id)
    requires Reachable(s, false) && x in s.db.stages && BeganWith(s.db, s.db.stages[x].run, Ingestion)
    ensures Index(s.db.stages[x].stage) <= Index(Composition)
  {
    ReachableEnds(s, false);
    var run := s.db.stages[x].run;
    assert EndsWell(s.db, run, false) && ChainConsecutive(s.db, run);
    var chain := s.db.runs[run].chain;
    var i :| 0 <= i < |chain| && chain[i] == x;
    if |chain| > Index(Composition) {
      OnlyAt(s.db.stages[chain[Index(Composition)]].stage);
    }
  }

  lemma OnlyAt(stage: Stage)
    ensures Index(stage) == Index(Composition) ==> stage == Composition
  {
    assert PIPELINE_STAGES[Index(stage)] == stage;
  }
}
