/** The services as they are written: one object whose tables the methods update in place.
    Each method is shown to do what its database step says, and each whole worker or relay
    body to be a path of the protocol. */
module PipelineServices {
  import opened Common
  import opened PipelineDatabase
  import opened PipelineProtocol
  import PipelineSafety

  /** How `processor(job)` ends. */
  datatype ProcessorResult = Processed | Raised(unrecoverable: bool, userActionable: bool)

  class PipelineStore {
    var runs: map<Id, RunRow>
    var stages: map<Id, StageRow>
    var events: map<Id, Event>
    var deadLetters: map<(Queue, Id), DeadLetter>
    var queued: set<(Stage, Job)>
    var used: set<Id>
    const autoRender: bool

    ghost function Rows(): Db
      reads this
    {
      Db(runs, stages, events, deadLetters, queued, used)
    }

    constructor (autoRender: bool)
      ensures Rows() == EmptyDb && this.autoRender == autoRender
    {
      runs, stages, events, deadLetters, queued, used := map[], map[], map[], map[], {}, {};
      this.autoRender := autoRender;
    }

    // ----- PipelineOrchestratorService

    method Begin(job: Job) returns (r: BeginResult)
      modifies this`stages, this`runs
      ensures r == BeginOutcome(old(Rows()), job)
      ensures Rows() == DbBegin(old(Rows()), job)
      ensures r == NotFound <==> job.exec !in old(stages)
      ensures r == AlreadyCompleted <==> job.exec in old(stages) && old(stages)[job.exec].status == Succeeded
      ensures r == Started <==> job.exec in old(stages) && old(stages)[job.exec].status in {Pending, Queued, Retrying}
      ensures r == Started ==>
        && stages[job.exec].status == Processing && stages[job.exec].attempts == old(stages)[job.exec].attempts + 1
        && (job.run in runs ==> runs[job.run].status == RunRunning && runs[job.run].current == Some(job.stage))
      ensures r != Started ==> Rows() == old(Rows())
    {
      if job.exec !in stages { return NotFound; }
      var row := stages[job.exec];
      if row.status == Succeeded { return AlreadyCompleted; }
      if row.status != Pending && row.status != Queued && row.status != Retrying { return Conflict; }
      stages := stages[job.exec := row.(status := Processing, attempts := row.attempts + 1)];
      if job.run in runs {
        runs := runs[job.run := runs[job.run].(status := RunRunning, current := Some(job.stage))];
      }
      return Started;
    }

    method Complete(job: Job, exec: Id, event: Id) returns (r: CompleteResult)
      requires exec !in used && event !in used && exec != event
      modifies this`stages, this`runs, this`events, this`used
      ensures r == CompleteOutcome(old(Rows()), job, autoRender, exec, event)
      ensures Rows() == DbComplete(old(Rows()), job, autoRender, exec, event)
      ensures r.CompleteConflict? || r.AlreadySucceeded? <==>
        job.exec !in old(stages) || job.run !in old(runs) || old(stages)[job.exec].status != Processing
      ensures r.CompleteConflict? || r.AlreadySucceeded? ==> Rows() == old(Rows())
      ensures r.AlreadySucceeded? <==> job.exec in old(stages) && job.run in old(runs) && old(stages)[job.exec].status == Succeeded
      ensures r.Finished? || r.Advanced? ==> (r.Finished? <==> job.stage == Exports || (job.stage == Composition && !autoRender))
      ensures r.Finished? || (r.Advanced? && exec !in old(stages)) ==> stages[job.exec].status == Succeeded
    {
      if job.exec !in stages || job.run !in runs { return CompleteConflict; }
      if stages[job.exec].status != Processing {
        return if stages[job.exec].status == Succeeded then AlreadySucceeded else CompleteConflict;
      }
      var following := if job.stage == Composition && !autoRender then None else NextStage(job.stage);
      stages := stages[job.exec := stages[job.exec].(status := Succeeded)];
      if following.None? {
        runs := runs[job.run := runs[job.run].(status := RunSucceeded, current := None)];
        return Finished;
      }
      var next := Job(event, job.run, exec, following.value);
      stages := stages[exec := StageRow(job.run, next.stage, Pending, event, 0)];
      events := events[event := Event(CompletedEventType(job.stage), next, false, None, 0)];
      runs := runs[job.run := runs[job.run].(chain := runs[job.run].chain + [exec], current := Some(next.stage))];
      used := used + {exec, event};
      return Advanced(next);
    }

    /** False when the row is gone and the update throws. */
    method Retry(job: Job) returns (ok: bool)
      modifies this`stages
      ensures Rows() == DbRetry(old(Rows()), job)
      ensures ok == (job.exec in old(stages))
      ensures ok ==> stages[job.exec] == old(stages)[job.exec].(status := Retrying)
    {
      if job.exec !in stages { return false; }
      stages := stages[job.exec := stages[job.exec].(status := Retrying)];
      return true;
    }

    method Fail(job: Job, deadLettered: bool) returns (ok: bool)
      modifies this`stages, this`runs
      ensures Rows() == DbFail(old(Rows()), job, deadLettered)
      ensures ok == (job.exec in old(stages) && job.run in old(runs))
      ensures ok ==>
        && runs[job.run].status == RunFailed
        && stages[job.exec] == old(stages)[job.exec].(status := if deadLettered then DeadLettered else Failed)
      ensures !ok ==> Rows() == old(Rows())
    {
      if job.exec !in stages || job.run !in runs { return false; }
      stages := stages[job.exec := stages[job.exec].(status := if deadLettered then DeadLettered else Failed)];
      runs := runs[job.run := runs[job.run].(status := RunFailed)];
      return true;
    }

    // ----- DeadLetterService

    method Capture(queue: Queue, jobId: Id, job: Job, attempts: nat)
      modifies this`deadLetters
      ensures Rows() == DbCapture(old(Rows()), queue, jobId, job, attempts)
      ensures (queue, jobId) in deadLetters && deadLetters[(queue, jobId)].attempts == attempts
      ensures (queue, jobId) in old(deadLetters) ==>
        deadLetters[(queue, jobId)] == old(deadLetters)[(queue, jobId)].(attempts := attempts)
      ensures (queue, jobId) !in old(deadLetters) ==>
        var letter := deadLetters[(queue, jobId)];
        && letter.status == Open && letter.job == job
        && (letter.run == if job.run in runs then Some(job.run) else None)
        && (letter.exec == if job.exec in stages then Some(job.exec) else None)
    {
      var key := (queue, jobId);
      if key in deadLetters {
        deadLetters := deadLetters[key := deadLetters[key].(attempts := attempts)];
      } else {
        var run := if job.run in runs then Some(job.run) else None;
        var exec := if job.exec in stages then Some(job.exec) else None;
        deadLetters := deadLetters[key := DeadLetter(job, run, exec, attempts, Open)];
      }
    }

    /** False where the source raises a not-found or conflict error. */
    method Redrive(key: (Queue, Id), event: Id) returns (ok: bool)
      requires event !in used
      modifies this
      ensures ok == CanRedrive(old(Rows()), key)
      ensures Rows() == DbRedrive(old(Rows()), key, event)
      ensures ok ==> old(deadLetters)[key].status == Open && old(deadLetters)[key].exec.Some? && old(deadLetters)[key].run.Some?
      ensures ok ==>
        var exec, run := old(deadLetters)[key].exec.value, old(deadLetters)[key].run.value;
        && deadLetters[key].status == Redriven && runs[run].status == RunRunning
        && stages[exec] == old(stages)[exec].(status := Pending, jobId := event)
        && events[event].job == old(deadLetters)[key].job.(eventId := event)
        && !events[event].published && events[event].attempts == 0
        && EventQueue(events[event].kind) == Some(old(deadLetters)[key].job.stage)
      ensures !ok ==> Rows() == old(Rows())
    {
      if key !in deadLetters { return false; }
      var letter := deadLetters[key];
      if letter.status != Open || letter.exec.None? || letter.run.None? { return false; }
      if letter.exec.value !in stages || letter.run.value !in runs { return false; }
      var job := letter.job.(eventId := event);
      var stageIndex := Index(job.stage);
      var eventType :=
        if job.stage == Rendering then ClipRenderRequested
        else if stageIndex > 0 then StageCompleted(PIPELINE_STAGES[stageIndex - 1])
        else VideoUploadedV1;
      deadLetters := deadLetters[key := letter.(status := Redriven)];
      stages := stages[letter.exec.value := stages[letter.exec.value].(status := Pending, jobId := event)];
      runs := runs[letter.run.value := runs[letter.run.value].(status := RunRunning)];
      events := events[event := Event(eventType, job, false, None, 0)];
      used := used + {event};
      PipelineSafety.RedriveRoutes(job.stage);
      return true;
    }

    // ----- StageWorkerFactory: one delivery of a job, undisturbed

    /** The catch block. `path` lists the protocol steps taken. */
    method HandleError(w: Id, job: Job, attemptsMade: nat, maxAttempts: nat, unrecoverable: bool, userActionable: bool)
      returns (thrown: bool, ghost path: seq<Action>)
      modifies this
      ensures Run(State(old(Rows()), map[w := Holding(job)], map[]), path, autoRender) == State(Rows(), map[], map[])
      ensures Rows() == AfterError(old(Rows()), job, attemptsMade + 1, Terminal(unrecoverable, attemptsMade, maxAttempts), !userActionable)
      ensures !thrown <==> (unrecoverable || attemptsMade + 1 >= maxAttempts) && userActionable && ReferencesExist(old(Rows()), job)
    {
      thrown := true;
      if unrecoverable || attemptsMade + 1 >= maxAttempts {
        var captureDeadLetter := !userActionable;
        var failed := Fail(job, captureDeadLetter);
        if !failed {
          path := [Action.Fail(w, captureDeadLetter)];
          return;
        }
        path := [Action.Fail(w, captureDeadLetter), Action.Capture(w, attemptsMade + 1)];
        FailThenCapture(old(Rows()), w, job, captureDeadLetter, attemptsMade + 1, autoRender);
        if captureDeadLetter {
          Capture(Worker(job.stage), job.eventId, job, attemptsMade + 1);
        } else {
          thrown := false;
        }
      } else {
        var _ := Retry(job);
        path := [Action.Retry(w)];
      }
    }

    /** The try block and its catch, after the claim. */
    method Work(w: Id, job: Job, attemptsMade: nat, maxAttempts: nat, result: ProcessorResult, exec: Id, event: Id)
      returns (thrown: bool, ghost path: seq<Action>)
      requires job.exec in stages && stages[job.exec].status == Processing && job.run in runs
      requires exec !in used && event !in used && exec != event
      modifies this
      ensures Run(State(old(Rows()), map[w := Holding(job)], map[]), path, autoRender) == State(Rows(), map[], map[])
      ensures Rows() == AfterWork(old(Rows()), job, attemptsMade, maxAttempts, result, autoRender, exec, event)
      ensures !thrown <==>
        result.Processed? || (result.userActionable && (result.unrecoverable || attemptsMade + 1 >= maxAttempts))
      ensures result.Processed? && exec !in old(stages) ==> stages[job.exec].status == Succeeded
      ensures result.Raised? && !result.unrecoverable && attemptsMade + 1 < maxAttempts ==>
        stages[job.exec].status == Retrying && runs == old(runs)
      ensures result.Raised? && (result.unrecoverable || attemptsMade + 1 >= maxAttempts) ==>
        && stages[job.exec].status == (if result.userActionable then Failed else DeadLettered)
        && runs[job.run].status == RunFailed
      ensures result.Raised? && !result.userActionable && (result.unrecoverable || attemptsMade + 1 >= maxAttempts) ==>
        (Worker(job.stage), job.eventId) in deadLetters && deadLetters[(Worker(job.stage), job.eventId)].attempts == attemptsMade + 1
    {
      match result {
        case Processed =>
          // a conflict would go to the catch block, but a PROCESSING stage has none
          var _ := Complete(job, exec, event);
          thrown, path := false, [Action.Complete(w, exec, event)];
          assert path[1..] == [];
          assert map[w := Holding(job)] - {w} == map[];
        case Raised(unrecoverable, userActionable) =>
          thrown, path := HandleError(w, job, attemptsMade, maxAttempts, unrecoverable, userActionable);
      }
    }

    method Deliver(w: Id, queue: Stage, job: Job, attemptsMade: nat, maxAttempts: nat, result: ProcessorResult,
        exec: Id, event: Id)
      returns (thrown: bool, ghost path: seq<Action>)
      requires (queue, job) in queued
      requires exec !in used && event !in used && exec != event
      modifies this
      ensures Run(State(old(Rows()), map[], map[]), path, autoRender) == State(Rows(), map[], map[])
      ensures job.stage != queue || BeginOutcome(old(Rows()), job) != Started ==> Rows() == old(Rows())
      ensures job.stage == queue && BeginOutcome(old(Rows()), job) == Started && job.run in old(runs) ==>
        Rows() == AfterWork(DbBegin(old(Rows()), job), job, attemptsMade, maxAttempts, result, autoRender, exec, event)
      ensures !thrown <==>
        && job.stage == queue && job.exec in old(stages)
        && (|| old(stages)[job.exec].status == Succeeded
            || (&& old(stages)[job.exec].status in {Pending, Queued, Retrying} && job.run in old(runs)
                && (result.Processed? || (result.userActionable && (result.unrecoverable || attemptsMade + 1 >= maxAttempts)))))
    {
      thrown, path := true, [];
      if job.stage != queue { return; }
      var claimed := Begin(job);
      if claimed == NotFound || claimed == Conflict { return; }
      if claimed == AlreadyCompleted { return false, []; }
      ghost var rest;
      if job.run in runs {
        thrown, rest := Work(w, job, attemptsMade, maxAttempts, result, exec, event);
      } else {
        // the run update inside `begin` throws
        rest := [Action.WorkerStops(w)];
        StopsAtOnce(Rows(), w, job, autoRender);
      }
      path := [Action.Begin(w, queue, job)] + rest;
      ClaimThen(old(Rows()), w, queue, job, rest, autoRender);
    }
  }

  lemma StopsAtOnce(db: Db, w: Id, job: Job, autoRender: bool)
    ensures Run(State(db, map[w := Holding(job)], map[]), [Action.WorkerStops(w)], autoRender) == State(db, map[], map[])
  {
    assert map[w := Holding(job)] - {w} == map[];
    assert [Action.WorkerStops(w)][1..] == [];
  }

  lemma {:induction false} ClaimThen(db: Db, w: Id, queue: Stage, job: Job, rest: seq<Action>, autoRender: bool)
    requires (queue, job) in db.queued && job.stage == queue && BeginOutcome(db, job) == Started
    ensures Run(State(db, map[], map[]), [Action.Begin(w, queue, job)] + rest, autoRender)
      == Run(State(DbBegin(db, job), map[w := Holding(job)], map[]), rest, autoRender)
  {
    assert ([Action.Begin(w, queue, job)] + rest)[1..] == rest;
  }

  predicate Terminal(unrecoverable: bool, attemptsMade: nat, maxAttempts: nat) {
    unrecoverable || attemptsMade + 1 >= maxAttempts
  }

  /** A user's own mistake fails the run for good; any other final error also leaves a dead letter. */
  function AfterError(db: Db, job: Job, attempts: nat, terminal: bool, captured: bool): Db {
    if !terminal then DbRetry(db, job)
    else if captured && ReferencesExist(db, job) then
      DbCapture(DbFail(db, job, true), Worker(job.stage), job.eventId, job, attempts)
    else DbFail(db, job, captured)
  }

  function AfterWork(db: Db, job: Job, attemptsMade: nat, maxAttempts: nat, result: ProcessorResult,
      autoRender: bool, exec: Id, event: Id): Db
    requires exec !in db.used && event !in db.used && exec != event
  {
    match result
    case Processed => DbComplete(db, job, autoRender, exec, event)
    case Raised(unrecoverable, userActionable) =>
      AfterError(db, job, attemptsMade + 1, Terminal(unrecoverable, attemptsMade, maxAttempts), !userActionable)
  }

  lemma FailThenCapture(db: Db, w: Id, job: Job, capture: bool, attempts: nat, autoRender: bool)
    requires ReferencesExist(db, job)
    ensures Run(State(db, map[w := Holding(job)], map[]), [Action.Fail(w, capture), Action.Capture(w, attempts)], autoRender)
      == State(if capture then DbCapture(DbFail(db, job, true), Worker(job.stage), job.eventId, job, attempts)
               else DbFail(db, job, false), map[], map[])
  {
    var s := State(db, map[w := Holding(job)], map[]);
    var s' := State(DbFail(db, job, capture), map[w := Failing(job, capture)], map[]);
    assert StepFail(s, w, capture) == s';
    assert s'.workers - {w} == map[];
    assert [Action.Fail(w, capture), Action.Capture(w, attempts)][1..] == [Action.Capture(w, attempts)];
    assert [Action.Capture(w, attempts)][1..] == [];
    assert Run(s', [Action.Capture(w, attempts)], autoRender) == Apply(s', Action.Capture(w, attempts), autoRender);
  }
}
