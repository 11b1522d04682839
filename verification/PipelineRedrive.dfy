/** Redriving any open dead letter, also one the relay captured after five failed dispatches:
    exactly when it is safe, and executions in which it is not. */
module PipelineRedrive {
  import opened Common
  import opened PipelineDatabase
  import opened PipelineProtocol
  import opened PipelineSafety
  import opened PipelineTheorems

  /** The transaction of a redrive, whatever became of its letter since the check, keeps the
      invariant if and only if its stage is the newest of its run, nobody works on it, and no
      other letter of a worker for it is open. All of this can be looked up before the call. */
  lemma RedriveSafeIff(s: State, key: (Queue, Id), event: Id)
    requires Inv(s) && HasReferences(s.db, key) && event !in s.db.used
    ensures Inv(s.(db := DbWriteRedrive(s.db, key, event))) <==> SafeToRedrive(s, key)
  {
    if SafeToRedrive(s, key) {
      SafeRedriveKeepsInv(s, key, event);
    } else {
      UnsafeRedriveBreaksInv(s, key, event);
    }
  }

  lemma UnsafeRedriveBreaksInv(s: State, key: (Queue, Id), event: Id)
    requires HasReferences(s.db, key) && event !in s.db.used && !SafeToRedrive(s, key)
    ensures !Inv(s.(db := DbWriteRedrive(s.db, key, event)))
  {
    var db' := DbWriteRedrive(s.db, key, event);
    var exec := s.db.deadLetters[key].exec.value;
    if !Newest(s.db, exec) {
      OlderCannotRedrive(s.db, key, event);
    } else if w :| w in s.workers && s.workers[w].job.exec == exec {
      PendingHasNoWorker(s.(db := db'), w);
    } else {
      var k :| k in s.db.deadLetters && Redrivable(s.db, k) && k != key && s.db.deadLetters[k].job.exec == exec;
      PendingHasNoLetter(db', exec, k);
    }
  }

  lemma OlderCannotRedrive(db: Db, key: (Queue, Id), event: Id)
    requires HasReferences(db, key) && event !in db.used && !Newest(db, db.deadLetters[key].exec.value)
    ensures !Chains(DbWriteRedrive(db, key, event))
  {
    var exec := db.deadLetters[key].exec.value;
    var db' := DbWriteRedrive(db, key, event);
    assert db'.stages[exec].run == db.stages[exec].run && db'.runs.Keys == db.runs.Keys;
    assert db.stages[exec].run in db.runs ==> db'.runs[db.stages[exec].run].chain == db.runs[db.stages[exec].run].chain;
    OlderMustSucceed(db', exec);
  }

  lemma OlderMustSucceed(db: Db, exec: Id)
    requires exec in db.stages && db.stages[exec].status == Pending && !Newest(db, exec)
    ensures !Chains(db)
  {
    if Chains(db) {
      NewestIfUnfinished(db, exec);
    }
  }

  lemma PendingHasNoWorker(s: State, w: Id)
    requires w in s.workers && s.workers[w].job.exec in s.db.stages
    requires s.db.stages[s.workers[w].job.exec].status == Pending
    ensures !WorkersExclusive(s)
  {
    assert !WorkerOk(s.db, s.workers[w]);
  }

  lemma PendingHasNoLetter(db: Db, exec: Id, k: (Queue, Id))
    requires exec in db.stages && db.stages[exec].status == Pending
    requires Redrivable(db, k) && db.deadLetters[k].job.exec == exec
    ensures !LettersOk(db)
  {
    assert !LetterOk(db, k);
  }

  /** What happens when two open letters for one stage are redriven one after the other: the
      stage is claimed twice, and neither claim has ended. */
  lemma TwoLettersTwoWorkers(db: Db, key: (Queue, Id), k: (Queue, Id), first: Id, second: Id)
    requires CanRedrive(db, key) && CanRedrive(db, k) && k != key
    requires db.deadLetters[key].exec == db.deadLetters[k].exec
    requires db.deadLetters[key].job.exec == db.deadLetters[k].job.exec == db.deadLetters[k].exec.value
    requires first !in db.used && second !in db.used && first != second
    ensures var job, job' := db.deadLetters[key].job.(eventId := first), db.deadLetters[k].job.(eventId := second);
      var redriven := DbRedrive(db, key, first);
      var claimed := DbBegin(redriven, job);
      && BeginOutcome(redriven, job) == Started
      && CanRedrive(claimed, k)
      && BeginOutcome(DbRedrive(claimed, k, second), job') == Started
      && job'.exec == job.exec
  {
    var job := db.deadLetters[key].job.(eventId := first);
    var redriven := DbRedrive(db, key, first);
    assert redriven.stages[job.exec].status == Pending;
    var claimed := DbBegin(redriven, job);
    assert claimed.deadLetters[k] == db.deadLetters[k] && claimed.used == db.used + {first};
    assert CanRedrive(claimed, k);
    assert DbRedrive(claimed, k, second).stages[job.exec].status == Pending;
  }

  /** Two operators who both found one letter open do the same to each other: the second
      transaction does not look at the status, and takes the stage away from its worker. */
  lemma RacingRedrivesTwoWorkers(db: Db, key: (Queue, Id), first: Id, second: Id)
    requires CanRedrive(db, key) && db.deadLetters[key].job.exec == db.deadLetters[key].exec.value
    requires first !in db.used && second !in db.used && first != second
    ensures var job, job' := db.deadLetters[key].job.(eventId := first), db.deadLetters[key].job.(eventId := second);
      var claimed := DbBegin(DbRedrive(db, key, first), job);
      && BeginOutcome(DbRedrive(db, key, first), job) == Started
      && BeginOutcome(DbWriteRedrive(claimed, key, second), job') == Started
      && job'.exec == job.exec
  {
    var job := db.deadLetters[key].job.(eventId := first);
    var redriven := DbRedrive(db, key, first);
    assert redriven.stages[job.exec].status == Pending;
    var claimed := DbBegin(redriven, job);
    assert claimed.used == db.used + {first} && HasReferences(claimed, key);
    assert DbWriteRedrive(claimed, key, second).stages[job.exec].status == Pending;
  }

  // ----- an execution in which the relay's dead letter is not safe to redrive

  const FIRST := Job(3, 1, 2, Ingestion)
  const LETTER: (Queue, Id) := (Outbox, 3)

  /** The upload's job is in its queue, but marking the event published failed `n` times. */
  ghost predicate FailedTimes(s: State, n: nat) {
    && s.dispatches == map[] && s.workers == map[]
    && s.db.events == map[3 := Event(VideoUploadedV2, FIRST, false, None, n)]
    && s.db.stages == map[2 := StageRow(1, Ingestion, Pending, 3, 0)]
    && s.db.runs.Keys == {1} && s.db.runs[1].chain == [2]
    && s.db.deadLetters == map[] && s.db.queued == {(Ingestion, FIRST)} && s.db.used == {1, 2, 3}
  }

  lemma UploadClaimed(autoRender: bool) returns (s: State)
    ensures Reachable(s, autoRender)
    ensures s.workers == map[] && s.dispatches == map[10 := Dispatch(3, VideoUploadedV2, FIRST, 0, Claimed)]
    ensures s.db == Db(map[1 := RunRow([2], RunPending, Some(Ingestion))],
                       map[2 := StageRow(1, Ingestion, Pending, 3, 0)],
                       map[3 := Event(VideoUploadedV2, FIRST, false, Some(10), 0)], map[], {}, {1, 2, 3})
  {
    assert Run(Init, [], autoRender) == Init;
    ReachableStep(Init, Upload(VideoUploadedV2, 1, 2, 3), autoRender);
    var t := Apply(Init, Upload(VideoUploadedV2, 1, 2, 3), autoRender);
    ReachableStep(t, Claim(10, 3), autoRender);
    s := Apply(t, Claim(10, 3), autoRender);
    assert s.db.events[3] == Event(VideoUploadedV2, FIRST, false, Some(10), 0);
  }

  lemma FirstFailure(autoRender: bool) returns (s: State)
    ensures Reachable(s, autoRender) && FailedTimes(s, 1)
  {
    s := UploadClaimed(autoRender);
    ReachableStep(s, CheckReferences(10), autoRender);
    s := Apply(s, CheckReferences(10), autoRender);
    assert s.dispatches[10] == Dispatch(3, VideoUploadedV2, FIRST, 0, Checked);
    ReachableStep(s, Enqueue(10), autoRender);
    s := Apply(s, Enqueue(10), autoRender);
    ReachableStep(s, DispatchFails(10), autoRender);
    s := Apply(s, DispatchFails(10), autoRender);
    assert s.db.events[3] == Event(VideoUploadedV2, FIRST, false, None, 1);
    assert s.db.queued == {(Ingestion, FIRST)};
  }

  lemma AnotherFailure(s: State, n: nat, autoRender: bool) returns (s': State)
    requires Reachable(s, autoRender) && FailedTimes(s, n) && n + 1 < 5
    ensures Reachable(s', autoRender) && FailedTimes(s', n + 1)
  {
    ReachableStep(s, Claim(10, 3), autoRender);
    var t := Apply(s, Claim(10, 3), autoRender);
    assert t.dispatches[10] == Dispatch(3, VideoUploadedV2, FIRST, n, Claimed);
    ReachableStep(t, DispatchFails(10), autoRender);
    s' := Apply(t, DispatchFails(10), autoRender);
    assert s'.db.events[3] == Event(VideoUploadedV2, FIRST, false, None, n + 1);
  }

  lemma FifthFailure(s: State, autoRender: bool) returns (s': State)
    requires Reachable(s, autoRender) && FailedTimes(s, 4)
    ensures Reachable(s', autoRender) && s'.workers == map[]
    ensures s'.db.stages == s.db.stages && s'.db.queued == s.db.queued && s'.db.runs == s.db.runs && s'.db.used == s.db.used
    ensures s'.db.deadLetters == map[LETTER := DeadLetter(FIRST, Some(1), Some(2), 5, Open)]
  {
    ReachableStep(s, Claim(10, 3), autoRender);
    var t := Apply(s, Claim(10, 3), autoRender);
    assert t.dispatches[10] == Dispatch(3, VideoUploadedV2, FIRST, 4, Claimed);
    ReachableStep(t, DispatchFails(10), autoRender);
    s' := Apply(t, DispatchFails(10), autoRender);
  }

  /** Five failed dispatches, although the job is in its queue. */
  lemma RelayGaveUp(autoRender: bool) returns (s: State)
    ensures Reachable(s, autoRender) && s.workers == map[]
    ensures s.db.stages == map[2 := StageRow(1, Ingestion, Pending, 3, 0)] && s.db.queued == {(Ingestion, FIRST)}
    ensures s.db.runs.Keys == {1} && s.db.runs[1].chain == [2] && s.db.used == {1, 2, 3}
    ensures s.db.deadLetters == map[LETTER := DeadLetter(FIRST, Some(1), Some(2), 5, Open)]
  {
    s := FirstFailure(autoRender);
    s := AnotherFailure(s, 1, autoRender);
    s := AnotherFailure(s, 2, autoRender);
    s := AnotherFailure(s, 3, autoRender);
    s := FifthFailure(s, autoRender);
  }

  /** The job was delivered all the same: its stage succeeded, then an operator redrives the
      relay's dead letter and the finished stage is PENDING again behind its successor. */
  lemma RelayLetterCanBreakChain(autoRender: bool) returns (s: State)
    ensures Reachable(s, autoRender) && CanRedrive(s.db, LETTER) && 6 !in s.db.used
    ensures 2 in s.db.stages && s.db.stages[2].status == Succeeded && !SafeToRedrive(s, LETTER)
    ensures !Chains(DbRedrive(s.db, LETTER, 6))
  {
    s := RelayGaveUp(autoRender);
    s := WorkerFinishesFirst(s, autoRender);
    assert !Newest(s.db, 2);
    OlderCannotRedrive(s.db, LETTER, 6);
  }

  const WORKER_LETTER: (Queue, Id) := (Worker(Ingestion), 3)

  /** Or the worker failed for good: its own letter is open beside the relay's. The stage is the
      newest and nobody has it, yet redriving the relay's letter is not safe. */
  lemma BothCanHoldLetters(autoRender: bool) returns (s: State)
    ensures Reachable(s, autoRender) && CanRedrive(s.db, LETTER) && CanRedrive(s.db, WORKER_LETTER)
    ensures Newest(s.db, 2) && s.workers == map[] && s.db.used == {1, 2, 3}
    ensures !SafeToRedrive(s, LETTER) && !Inv(s.(db := DbRedrive(s.db, LETTER, 6)))
  {
    s := RelayGaveUp(autoRender);
    s := WorkerFailsForGood(s, autoRender);
    assert Redrivable(s.db, WORKER_LETTER);
    UnsafeRedriveBreaksInv(s, LETTER, 6);
  }

  lemma WorkerFailsForGood(s: State, autoRender: bool) returns (s': State)
    requires Reachable(s, autoRender) && s.workers == map[]
    requires s.db.stages == map[2 := StageRow(1, Ingestion, Pending, 3, 0)] && s.db.queued == {(Ingestion, FIRST)}
    requires s.db.runs.Keys == {1} && s.db.runs[1].chain == [2] && s.db.used == {1, 2, 3}
    requires s.db.deadLetters == map[LETTER := DeadLetter(FIRST, Some(1), Some(2), 5, Open)]
    ensures Reachable(s', autoRender) && s'.workers == map[] && s'.db.used == {1, 2, 3}
    ensures s'.db.stages == map[2 := StageRow(1, Ingestion, DeadLettered, 3, 1)]
    ensures s'.db.runs.Keys == {1} && s'.db.runs[1].chain == [2]
    ensures s'.db.deadLetters == map[LETTER := DeadLetter(FIRST, Some(1), Some(2), 5, Open),
                                     WORKER_LETTER := DeadLetter(FIRST, Some(1), Some(2), 1, Open)]
  {
    var t := WorkerClaimsFirst(s, autoRender);
    ReachableStep(t, Fail(20, true), autoRender);
    var u := Apply(t, Fail(20, true), autoRender);
    assert u.workers == map[20 := Failing(FIRST, true)];
    ReachableStep(u, Capture(20, 1), autoRender);
    s' := Apply(u, Capture(20, 1), autoRender);
    assert s'.workers == map[];
  }

  lemma WorkerClaimsFirst(s: State, autoRender: bool) returns (s': State)
    requires Reachable(s, autoRender) && s.workers == map[]
    requires s.db.stages == map[2 := StageRow(1, Ingestion, Pending, 3, 0)] && s.db.queued == {(Ingestion, FIRST)}
    requires s.db.runs.Keys == {1} && s.db.runs[1].chain == [2]
    ensures Reachable(s', autoRender) && s'.workers == map[20 := Holding(FIRST)]
    ensures s'.db.stages == map[2 := StageRow(1, Ingestion, Processing, 3, 1)]
    ensures s'.db.runs.Keys == {1} && s'.db.runs[1].chain == [2]
    ensures s'.db.used == s.db.used && s'.db.deadLetters == s.db.deadLetters
  {
    ReachableStep(s, Begin(20, Ingestion, FIRST), autoRender);
    s' := Apply(s, Begin(20, Ingestion, FIRST), autoRender);
  }

  lemma WorkerFinishesFirst(s: State, autoRender: bool) returns (s': State)
    requires Reachable(s, autoRender) && s.workers == map[]
    requires s.db.stages == map[2 := StageRow(1, Ingestion, Pending, 3, 0)] && s.db.queued == {(Ingestion, FIRST)}
    requires s.db.runs.Keys == {1} && s.db.runs[1].chain == [2] && s.db.used == {1, 2, 3}
    requires s.db.deadLetters == map[LETTER := DeadLetter(FIRST, Some(1), Some(2), 5, Open)]
    ensures Reachable(s', autoRender) && CanRedrive(s'.db, LETTER) && 6 !in s'.db.used
    ensures 2 in s'.db.stages && s'.db.stages[2].status == Succeeded && s'.db.stages[2].run == 1
    ensures 1 in s'.db.runs && s'.db.runs[1].chain == [2, 4]
    ensures s'.db.deadLetters == s.db.deadLetters
  {
    var t := WorkerClaimsFirst(s, autoRender);
    ReachableStep(t, Complete(20, 4, 5), autoRender);
    s' := Apply(t, Complete(20, 4, 5), autoRender);
    assert s'.db == DbComplete(t.db, FIRST, autoRender, 4, 5);
    CompletesFirst(t.db, autoRender);
  }

  lemma CompletesFirst(db: Db, autoRender: bool)
    requires db.stages == map[2 := StageRow(1, Ingestion, Processing, 3, 1)] && db.used == {1, 2, 3}
    requires db.runs.Keys == {1} && db.runs[1].chain == [2]
    ensures var db' := DbComplete(db, FIRST, autoRender, 4, 5);
      && db'.used == {1, 2, 3, 4, 5} && db'.deadLetters == db.deadLetters
      && 2 in db'.stages && db'.stages[2].status == Succeeded && db'.stages[2].run == 1
      && 1 in db'.runs && db'.runs[1].chain == [2, 4]
  {
  }
}
