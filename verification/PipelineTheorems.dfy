/** What the protocol guarantees in every reachable state, in the terms of its users. */
module PipelineTheorems {
  import opened Common
  import opened PipelineDatabase
  import opened PipelineProtocol
  import opened PipelineSafety

  ghost predicate Reachable(s: State, autoRender: bool) {
    exists actions :: Run(Init, actions, autoRender) == s
  }

  lemma ReachableInv(s: State, autoRender: bool)
    requires Reachable(s, autoRender)
    ensures Inv(s)
  {
    var actions :| Run(Init, actions, autoRender) == s;
    EveryRunSafe(actions, autoRender);
  }

  lemma {:induction false} RunAppend(s: State, actions: seq<Action>, a: Action, autoRender: bool)
    ensures Run(s, actions + [a], autoRender) == Apply(Run(s, actions, autoRender), a, autoRender)
    decreases |actions|
  {
    if actions == [] {
      assert [a][1..] == [];
    } else {
      assert (actions + [a])[1..] == actions[1..] + [a];
      RunAppend(Apply(s, actions[0], autoRender), actions[1..], a, autoRender);
    }
  }

  lemma ReachableStep(s: State, a: Action, autoRender: bool)
    requires Reachable(s, autoRender)
    ensures Reachable(Apply(s, a, autoRender), autoRender)
  {
    var actions :| Run(Init, actions, autoRender) == s;
    RunAppend(Init, actions, a, autoRender);
  }

  /** The executions of a run are consecutive pipeline stages in creation order, and only the
      newest may be unfinished. */
  lemma ChainTheorem(s: State, run: Id, autoRender: bool)
    requires Reachable(s, autoRender) && run in s.db.runs
    ensures var chain := s.db.runs[run].chain;
      && chain != [] && (forall i | 0 <= i < |chain| :: chain[i] in s.db.stages && s.db.stages[chain[i]].run == run)
      && (forall i | 0 <= i < |chain| - 1 ::
            NextStage(s.db.stages[chain[i]].stage) == Some(s.db.stages[chain[i + 1]].stage) &&
            s.db.stages[chain[i]].status == Succeeded)
  {
    ReachableInv(s, autoRender);
    assert ChainConsecutive(s.db, run);
    var chain := s.db.runs[run].chain;
    forall i | 0 <= i < |chain| - 1
      ensures NextStage(s.db.stages[chain[i]].stage) == Some(s.db.stages[chain[i + 1]].stage)
    {
      IndexNext(s.db.stages[chain[i]].stage, s.db.stages[chain[i + 1]].stage);
    }
  }

  lemma IndexNext(a: Stage, b: Stage)
    requires Index(b) == Index(a) + 1
    ensures NextStage(a) == Some(b)
  {
    assert PIPELINE_STAGES[Index(b)] == b;
  }

  /** No run ever has two executions of one stage, so no execution has two successors and the
      unique index on (run, stage) never rejects a hand-off. */
  lemma OneExecutionPerStage(s: State, x: Id, y: Id, autoRender: bool)
    requires Reachable(s, autoRender) && x in s.db.stages && y in s.db.stages
    requires s.db.stages[x].run == s.db.stages[y].run && s.db.stages[x].stage == s.db.stages[y].stage
    ensures x == y
  {
    ReachableInv(s, autoRender);
    var run := s.db.stages[x].run;
    assert ChainConsecutive(s.db, run);
    var chain := s.db.runs[run].chain;
    SamePlaceInChain(s.db, run, x, y);
  }

  lemma SamePlaceInChain(db: Db, run: Id, x: Id, y: Id)
    requires run in db.runs && ChainConsecutive(db, run) && x in db.runs[run].chain && y in db.runs[run].chain
    requires db.stages[x].stage == db.stages[y].stage
    ensures x == y
  {
    var chain := db.runs[run].chain;
    var i :| 0 <= i < |chain| && chain[i] == x;
    var j :| 0 <= j < |chain| && chain[j] == y;
    assert Index(db.stages[chain[i]].stage) == Index(db.stages[chain[0]].stage) + i;
    assert Index(db.stages[chain[j]].stage) == Index(db.stages[chain[0]].stage) + j;
  }

  /** A stage with a worker is PROCESSING, and the worker is alone, in its stage and in its run. */
  lemma OneWorkerPerRun(s: State, v: Id, w: Id, autoRender: bool)
    requires Reachable(s, autoRender) && v in s.workers && w in s.workers
    requires s.workers[v].job.exec in s.db.stages && s.workers[w].job.exec in s.db.stages
    requires s.workers[v].job.run == s.workers[w].job.run
    ensures v == w
    ensures s.workers[v].Holding? ==> s.db.stages[s.workers[v].job.exec].status == Processing
  {
    assert Chains(s.db) && WorkersExclusive(s) by { ReachableInv(s, autoRender); }
    WorkerHasNewest(s, v);
    WorkerHasNewest(s, w);
    assert s.workers[v].job.exec == s.workers[w].job.exec;
  }

  lemma WorkerHasNewest(s: State, w: Id)
    requires Chains(s.db) && WorkersExclusive(s) && w in s.workers && s.workers[w].job.exec in s.db.stages
    ensures var job := s.workers[w].job;
      && job.run in s.db.runs && s.db.runs[job.run].chain != []
      && s.db.runs[job.run].chain[|s.db.runs[job.run].chain| - 1] == job.exec
      && (s.workers[w].Holding? ==> s.db.stages[job.exec].status == Processing)
  {
    assert WorkerOk(s.db, s.workers[w]);
    NewestIfUnfinished(s.db, s.workers[w].job.exec);
  }

  /** Every hand-off is accounted for: the event behind a stage still waits for a relay, or its
      job has been added to the queue of that very stage, or an operator has it as a dead letter. */
  lemma HandOffAccounted(s: State, x: Id, autoRender: bool)
    requires Reachable(s, autoRender) && x in s.db.stages
    ensures var e := s.db.stages[x].jobId;
      && e in s.db.events && s.db.events[e].job.exec == x && s.db.events[e].job.stage == s.db.stages[x].stage
      && (!s.db.events[e].published || (s.db.stages[x].stage, s.db.events[e].job) in s.db.queued
          || (Outbox, e) in s.db.deadLetters)
  {
    ReachableInv(s, autoRender);
    var e := s.db.stages[x].jobId;
    assert JobFits(s.db, s.db.events[e].job);
    assert s.db.events[e].published ==> Delivered(s.db, e);
  }

  /** Neither mismatch error can be raised: routes agree with payloads, queues with jobs. */
  lemma MismatchUnreachable(s: State, autoRender: bool)
    requires Reachable(s, autoRender)
    ensures forall e | e in s.db.events :: EventQueue(s.db.events[e].kind) == Some(s.db.events[e].job.stage)
    ensures forall d | d in s.dispatches :: EventQueue(s.dispatches[d].kind) == Some(s.dispatches[d].job.stage)
    ensures forall q, j | (q, j) in s.db.queued :: q == j.stage
  {
    ReachableInv(s, autoRender);
    forall d | d in s.dispatches ensures EventQueue(s.dispatches[d].kind) == Some(s.dispatches[d].job.stage) {
      assert DispatchOk(s.db, s.dispatches[d]);
    }
  }

  /** The worker that holds a stage can always complete it: `Only a processing stage can be
      completed` is never thrown at it while its run exists. */
  lemma HolderCompletes(s: State, w: Id, exec: Id, event: Id, autoRender: bool)
    requires Reachable(s, autoRender) && w in s.workers && s.workers[w].Holding?
    requires s.workers[w].job.exec in s.db.stages
    ensures var outcome := CompleteOutcome(s.db, s.workers[w].job, autoRender, exec, event);
      outcome.Finished? || outcome.Advanced?
  {
    ReachableInv(s, autoRender);
    assert WorkerOk(s.db, s.workers[w]);
  }

  // ----- history

  /** Chains only grow, what is deleted never comes back, and success is undone only by redriving
      the stage, which announces it under a new event. */
  ghost predicate History(db: Db, db': Db) {
    && (forall x | x in db.stages && x in db'.stages :: RowHistory(db, db.stages[x], db'.stages[x]))
    && (forall r | r in db.runs && r in db'.runs :: db.runs[r].chain <= db'.runs[r].chain)
    && (forall i | i in db.used ::
          i in db'.used && (i !in db.runs ==> i !in db'.runs) && (i !in db.stages ==> i !in db'.stages))
  }

  ghost predicate RowHistory(db: Db, row: StageRow, row': StageRow) {
    if row'.jobId == row.jobId then row.status == Succeeded ==> row'.status == Succeeded
    else row'.jobId !in db.used
  }

  lemma BeginHistory(db: Db, job: Job)
    ensures History(db, DbBegin(db, job))
  {
  }

  lemma CompleteHistory(db: Db, job: Job, autoRender: bool, exec: Id, event: Id)
    requires IdsUsed(db) && exec !in db.used && event !in db.used && exec != event
    ensures History(db, DbComplete(db, job, autoRender, exec, event))
  {
  }

  lemma RetryHistory(db: Db, job: Job)
    requires job.exec in db.stages ==> db.stages[job.exec].status != Succeeded
    ensures History(db, DbRetry(db, job))
  {
  }

  lemma FailHistory(db: Db, job: Job, capture: bool)
    requires job.exec in db.stages ==> db.stages[job.exec].status != Succeeded
    ensures History(db, DbFail(db, job, capture))
  {
  }

  lemma PublishHistory(db: Db, event: Id, job: Job)
    ensures History(db, DbPublish(db, event, job))
  {
  }

  lemma RedriveHistory(db: Db, key: (Queue, Id), event: Id)
    requires event !in db.used && forall x | x in db.stages :: db.stages[x].jobId in db.used
    ensures History(db, DbWriteRedrive(db, key, event))
  {
  }

  lemma HeldNotSucceeded(s: State, w: Id)
    requires WorkersExclusive(s) && w in s.workers && s.workers[w].job.exec in s.db.stages
    ensures s.db.stages[s.workers[w].job.exec].status != Succeeded
  {
    assert WorkerOk(s.db, s.workers[w]);
  }

  lemma WorkerActionKeepsHistory(s: State, a: Action, autoRender: bool)
    requires IdsUsed(s.db) && WorkersExclusive(s) && WorkerAction(a)
    ensures History(s.db, Apply(s, a, autoRender).db)
  {
    if !a.Begin? && a.w in s.workers {
      if s.workers[a.w].job.exec in s.db.stages { HeldNotSucceeded(s, a.w); }
      if a.Retry? { RetryHistory(s.db, s.workers[a.w].job); }
      if a.Fail? { FailHistory(s.db, s.workers[a.w].job, a.capture); }
      if a.Complete? && FreshPair(s.db, a.exec, a.event) {
        CompleteHistory(s.db, s.workers[a.w].job, autoRender, a.exec, a.event);
      }
    }
    if a.Begin? { BeginHistory(s.db, a.job); }
  }

  predicate FreshPair(db: Db, exec: Id, event: Id) {
    exec !in db.used && event !in db.used && exec != event
  }

  lemma PublishActionHistory(s: State, d: Id)
    ensures History(s.db, StepPublish(s, d).db)
  {
    if d in s.dispatches {
      PublishHistory(s.db, s.dispatches[d].event, s.dispatches[d].job);
    }
  }

  lemma RedriveStepHistory(s: State, key: (Queue, Id), event: Id)
    requires IdsUsed(s.db) && RowsAnnounced(s.db)
    ensures History(s.db, StepRedrive(s, key, event).db) && History(s.db, StepRedriveLate(s, key, event).db)
  {
    SameHistory(s.db);
    if event !in s.db.used { RedriveHistory(s.db, key, event); }
    assert StepRedrive(s, key, event).db == s.db || (event !in s.db.used && StepRedrive(s, key, event).db == DbWriteRedrive(s.db, key, event));
  }

  lemma SameHistory(db: Db)
    requires IdsUsed(db)
    ensures History(db, db)
  {
  }

  lemma ApplyKeepsHistory(s: State, a: Action, autoRender: bool)
    requires IdsUsed(s.db) && RowsAnnounced(s.db) && WorkersExclusive(s)
    ensures History(s.db, Apply(s, a, autoRender).db)
  {
    if WorkerAction(a) {
      WorkerActionKeepsHistory(s, a, autoRender);
    } else if a.Publish? {
      PublishActionHistory(s, a.d);
    } else if a.Redrive? || a.RedriveLate? {
      RedriveStepHistory(s, a.key, a.event);
    } else {
      OtherActionHistory(s, a, autoRender);
    }
  }

  lemma OtherActionHistory(s: State, a: Action, autoRender: bool)
    requires IdsUsed(s.db) && !WorkerAction(a) && !a.Publish? && !a.Redrive? && !a.RedriveLate?
    ensures History(s.db, Apply(s, a, autoRender).db)
  {
  }

  /** Over any stretch of any execution: what has succeeded stays so unless it is redriven,
      chains are prefixes, deleted rows stay deleted. */
  lemma {:induction false} RunKeepsHistory(s: State, actions: seq<Action>, autoRender: bool)
    requires Inv(s)
    ensures History(s.db, Run(s, actions, autoRender).db)
    decreases |actions|
  {
    if actions != [] {
      var s1 := Apply(s, actions[0], autoRender);
      ApplyKeepsInv(s, actions[0], autoRender);
      ApplyKeepsHistory(s, actions[0], autoRender);
      RunKeepsHistory(s1, actions[1..], autoRender);
      HistoryComposes(s.db, s1.db, Run(s1, actions[1..], autoRender).db);
    }
  }

  lemma HistoryComposes(a: Db, b: Db, c: Db)
    requires IdsUsed(a) && RowsAnnounced(a) && History(a, b) && History(b, c)
    ensures History(a, c)
  {
    assert forall r | r in a.runs && r in c.runs :: r in b.runs;
    forall x | x in a.stages && x in c.stages ensures RowHistory(a, a.stages[x], c.stages[x]) {
      assert RowHistory(a, a.stages[x], b.stages[x]) && RowHistory(b, b.stages[x], c.stages[x]);
    }
  }

  /** Letters of workers are for stages that have failed, so redriving them undoes no success. */
  lemma StepKeepsSuccess(s: State, a: Action, autoRender: bool, x: Id)
    requires Inv(s) && !a.RedriveLate? && (a.Redrive? ==> a.key.0.Worker?)
    requires x in s.db.stages && s.db.stages[x].status == Succeeded
    ensures var db' := Apply(s, a, autoRender).db; x in db'.stages ==> db'.stages[x].status == Succeeded
  {
    if a.Redrive? {
      if CanRedrive(s.db, a.key) { assert LetterOk(s.db, a.key); }
    } else {
      ApplyKeepsHistory(s, a, autoRender);
      OnlyRedriveRenames(s, a, autoRender, x);
    }
  }

  lemma OnlyRedriveRenames(s: State, a: Action, autoRender: bool, x: Id)
    requires IdsUsed(s.db) && !a.Redrive? && !a.RedriveLate? && x in s.db.stages
    ensures var db' := Apply(s, a, autoRender).db; x in db'.stages ==> db'.stages[x].jobId == s.db.stages[x].jobId
  {
  }

  /** While no relay's letter is redriven, and none twice, success is final. */
  lemma {:induction false} SuccessIsFinal(s: State, actions: seq<Action>, autoRender: bool, x: Id)
    requires Inv(s) && forall a | a in actions :: !a.RedriveLate? && (a.Redrive? ==> a.key.0.Worker?)
    requires x in s.db.stages && s.db.stages[x].status == Succeeded
    ensures var db' := Run(s, actions, autoRender).db; x in db'.stages ==> db'.stages[x].status == Succeeded
    decreases |actions|
  {
    if actions != [] {
      var s1 := Apply(s, actions[0], autoRender);
      StepKeepsSuccess(s, actions[0], autoRender, x);
      ApplyKeepsInv(s, actions[0], autoRender);
      if x in s1.db.stages {
        SuccessIsFinal(s1, actions[1..], autoRender, x);
      } else {
        RunKeepsHistory(s1, actions[1..], autoRender);
        UsedGrows(s, actions[0], autoRender, x);
      }
    }
  }

  lemma UsedGrows(s: State, a: Action, autoRender: bool, x: Id)
    requires Inv(s) && x in s.db.stages
    ensures x in Apply(s, a, autoRender).db.used
  {
    ApplyKeepsHistory(s, a, autoRender);
  }
}
