/** The outbox relay as it is written: claim a batch, dispatch one event after the other.
    A dispatch that nobody disturbs is a path of the protocol. */
module PipelineRelay {
  import opened Common
  import opened PipelineDatabase
  import opened PipelineProtocol
  import opened PipelineServices

  const MAX_DISPATCH_ATTEMPTS: nat := 5

  /** Which call in the catch block throws, if one does; the exception leaves the dispatch. */
  datatype CatchBlock = Completes | CaptureThrows | UpdateThrows

  /** Which of the remote calls of one dispatch throw. */
  datatype Faults = Faults(addFails: bool, publishFails: bool, handling: CatchBlock)

  /** The catch block of a dispatch. */
  function AfterFailure(db: Db, event: Id, attempts: nat, handling: CatchBlock): Db
    requires event in db.events
  {
    if attempts >= MAX_DISPATCH_ATTEMPTS then
      if handling.CaptureThrows? then db
      else
        var captured := DbCapture(db, Outbox, event, db.events[event].job, attempts);
        if handling.UpdateThrows? then captured else DbGiveUp(captured, event, attempts)
    else if handling.UpdateThrows? then db
    else DbRelease(db, event, attempts)
  }

  predicate FailureThrows(attempts: nat, handling: CatchBlock) {
    handling.UpdateThrows? || (handling.CaptureThrows? && attempts >= MAX_DISPATCH_ATTEMPTS)
  }

  function AfterDispatch(db: Db, event: Id, attempts: nat, faults: Faults): Db
    requires event in db.events
  {
    var job := db.events[event].job;
    if EventQueue(db.events[event].kind) != Some(job.stage) then AfterFailure(db, event, attempts + 1, faults.handling)
    else if !ReferencesExist(db, job) then if faults.handling.UpdateThrows? then db else DbDiscard(db, event)
    else if faults.addFails then AfterFailure(db, event, attempts + 1, faults.handling)
    else
      var added := DbEnqueue(db, job.stage, job);
      if faults.publishFails then AfterFailure(added, event, attempts + 1, faults.handling)
      else DbPublish(added, event, job)
  }

  /** Whether an exception leaves the dispatch: the catch block was entered, and failed itself. */
  predicate DispatchThrows(db: Db, event: Id, attempts: nat, faults: Faults)
    requires event in db.events
  {
    var job := db.events[event].job;
    if EventQueue(db.events[event].kind) != Some(job.stage) then FailureThrows(attempts + 1, faults.handling)
    else if !ReferencesExist(db, job) then faults.handling.UpdateThrows?
    else (faults.addFails || faults.publishFails) && FailureThrows(attempts + 1, faults.handling)
  }

  /** What a dispatch does to its event and leaves of the others: the lock is gone, and it is
      published only with its job queued, captured for an operator, or without a stage to run. */
  ghost predicate Resolved(db: Db, event: Id, attempts: nat, db': Db)
    requires event in db.events
  {
    var job := db.events[event].job;
    && db'.events.Keys == db.events.Keys
    && (forall e | e in db.events && e != event :: db'.events[e] == db.events[e])
    && db'.events[event].lockedBy.None? && db'.events[event].job == job
    && (db'.events[event].published && !db.events[event].published ==>
          (job.stage, job) in db'.queued || (Outbox, event) in db'.deadLetters || !ReferencesExist(db', job))
    && (!db'.events[event].published ==> attempts + 1 < MAX_DISPATCH_ATTEMPTS && db'.events[event].attempts == attempts + 1)
  }

  lemma FailureResolves(db: Db, event: Id, attempts: nat, handling: CatchBlock)
    requires event in db.events
    ensures
      var db' := AfterFailure(db, event, attempts + 1, handling);
      if FailureThrows(attempts + 1, handling) then db'.events == db.events else Resolved(db, event, attempts, db')
  {
  }

  /** A dispatch that throws leaves every event as it found it, the lock on its own included. */
  lemma DispatchOutcome(db: Db, event: Id, attempts: nat, faults: Faults)
    requires event in db.events
    ensures
      var db' := AfterDispatch(db, event, attempts, faults);
      if DispatchThrows(db, event, attempts, faults) then db'.events == db.events else Resolved(db, event, attempts, db')
  {
    var job := db.events[event].job;
    FailureResolves(db, event, attempts, faults.handling);
    FailureResolves(DbEnqueue(db, job.stage, job), event, attempts, faults.handling);
  }

  function FailurePath(d: Id, attempts: nat, handling: CatchBlock): seq<Action> {
    if attempts >= MAX_DISPATCH_ATTEMPTS then
      if handling.CaptureThrows? then [RelayStops(d)]
      else if handling.UpdateThrows? then [DispatchFails(d)] + [RelayStops(d)]
      else [DispatchFails(d)] + [GiveUp(d)]
    else if handling.UpdateThrows? then [RelayStops(d)]
    else [DispatchFails(d)]
  }

  /** The relay is still at work on an event it claimed. */
  predicate AtWork(db: Db, x: Dispatch) {
    && x.event in db.events && x.kind == db.events[x.event].kind && x.job == db.events[x.event].job
    && x.phase != Stale && x.phase != Captured
  }

  lemma StopIsPath(db: Db, d: Id, x: Dispatch, autoRender: bool)
    ensures Run(State(db, map[], map[d := x]), [RelayStops(d)], autoRender) == State(db, map[], map[])
  {
    assert map[d := x] - {d} == map[];
    assert [RelayStops(d)][1..] == [];
  }

  lemma FailureIsPath(db: Db, d: Id, x: Dispatch, handling: CatchBlock, autoRender: bool)
    requires AtWork(db, x)
    ensures Run(State(db, map[], map[d := x]), FailurePath(d, x.attempts + 1, handling), autoRender)
      == State(AfterFailure(db, x.event, x.attempts + 1, handling), map[], map[])
  {
    var s := State(db, map[], map[d := x]);
    StopIsPath(db, d, x, autoRender);
    if x.attempts + 1 >= MAX_DISPATCH_ATTEMPTS {
      if !handling.CaptureThrows? { GiveUpIsPath(db, d, x, handling, autoRender); }
    } else {
      assert s.dispatches - {d} == map[];
      assert [DispatchFails(d)][1..] == [];
    }
  }

  lemma GiveUpIsPath(db: Db, d: Id, x: Dispatch, handling: CatchBlock, autoRender: bool)
    requires AtWork(db, x) && x.attempts + 1 >= MAX_DISPATCH_ATTEMPTS && !handling.CaptureThrows?
    ensures Run(State(db, map[], map[d := x]), FailurePath(d, x.attempts + 1, handling), autoRender)
      == State(AfterFailure(db, x.event, x.attempts + 1, handling), map[], map[])
  {
    var s := State(db, map[], map[d := x]);
    var captured := DbCapture(db, Outbox, x.event, x.job, x.attempts + 1);
    var s' := State(captured, map[], map[d := x.(phase := DispatchPhase.Captured)]);
    assert StepDispatchFails(s, d) == s';
    assert s'.dispatches - {d} == map[];
    var last := if handling.UpdateThrows? then RelayStops(d) else GiveUp(d);
    ThenRun(s, DispatchFails(d), [last], autoRender);
    assert [last][1..] == [];
  }

  lemma {:induction false} ThenRun(s: State, a: Action, rest: seq<Action>, autoRender: bool)
    ensures Run(s, [a] + rest, autoRender) == Run(Apply(s, a, autoRender), rest, autoRender)
  {
    assert ([a] + rest)[1..] == rest;
  }

  /** One attempt further: published for good, or counted and left for later. */
  predicate Handled(before: Event, after: Event) {
    && after.job == before.job && after.lockedBy.None?
    && (after.published || after.attempts == before.attempts + 1)
  }

  class OutboxRelay {
    const store: PipelineStore
    const id: Id
    const batchSize: nat
    var dispatching: bool

    constructor (store: PipelineStore, id: Id, batchSize: nat)
      ensures this.store == store && this.id == id && this.batchSize == batchSize && !dispatching
    {
      this.store, this.id, this.batchSize, dispatching := store, id, batchSize, false;
    }

    /** One statement in the source: `available` lists the unpublished events whose time has
        come, oldest first; rows another relay holds are skipped. */
    method ClaimBatch(available: seq<Id>) returns (claimed: seq<Id>)
      modifies store`events
      ensures |claimed| <= batchSize
      ensures forall i, j | 0 <= i < j < |claimed| :: claimed[i] != claimed[j]
      ensures forall e | e in claimed :: e in available && CanClaim(old(store.Rows()), e)
      ensures |claimed| < batchSize ==> forall e | e in available && CanClaim(old(store.Rows()), e) :: e in claimed
      ensures exists n: nat | n <= |available| ::
        forall e :: e in claimed <==> e in available[..n] && CanClaim(old(store.Rows()), e)
      ensures store.events == map e | e in old(store.events) ::
        if e in claimed then old(store.events)[e].(lockedBy := Some(id)) else old(store.events)[e]
    {
      claimed := [];
      var i := 0;
      while i < |available| && |claimed| < batchSize
        invariant 0 <= i <= |available| && |claimed| <= batchSize
        invariant forall i, j | 0 <= i < j < |claimed| :: claimed[i] != claimed[j]
        invariant forall e | e in claimed :: e in available && CanClaim(old(store.Rows()), e)
        invariant forall e | e in available[..i] && CanClaim(old(store.Rows()), e) :: e in claimed
        invariant forall e | e in claimed :: e in available[..i]
        invariant store.events.Keys == old(store.events).Keys
        invariant forall e | e in store.events :: 
          store.events[e] == (if e in claimed then old(store.events)[e].(lockedBy := Some(id)) else old(store.events)[e])
      {
        var e := available[i];
        assert available[..i + 1] == available[..i] + [e];
        if e in store.events && !store.events[e].published && store.events[e].lockedBy.None? {
          assert e !in claimed;
          store.events := store.events[e := store.events[e].(lockedBy := Some(id))];
          claimed := claimed + [e];
        }
        i := i + 1;
      }
      assert forall e :: e in claimed <==> e in available[..i] && CanClaim(old(store.Rows()), e);
    }

    /** The catch block. */
    method HandleFailure(event: Id, attempts: nat, handling: CatchBlock) returns (thrown: bool)
      requires event in store.events
      modifies store
      ensures store.Rows() == AfterFailure(old(store.Rows()), event, attempts, handling)
      ensures thrown == FailureThrows(attempts, handling)
    {
      var row := store.events[event];
      if attempts >= MAX_DISPATCH_ATTEMPTS {
        if handling.CaptureThrows? { return true; }
        store.Capture(Outbox, event, row.job, attempts);
        if handling.UpdateThrows? { return true; }
        store.events := store.events[event := row.(attempts := attempts, published := true, lockedBy := None)];
      } else {
        if handling.UpdateThrows? { return true; }
        store.events := store.events[event := row.(attempts := attempts, lockedBy := None)];
      }
      thrown := false;
    }

    method DispatchOne(event: Id, attempts: nat, faults: Faults) returns (thrown: bool)
      requires event in store.events
      modifies store
      ensures store.Rows() == AfterDispatch(old(store.Rows()), event, attempts, faults)
      ensures thrown == DispatchThrows(old(store.Rows()), event, attempts, faults)
      ensures var job := old(store.events)[event].job;
        if EventQueue(old(store.events)[event].kind) == Some(job.stage)
           && job.run in old(store.runs) && job.exec in old(store.stages) && !faults.addFails
        then store.queued == old(store.queued) + {(job.stage, job)} && (!faults.publishFails ==> store.events[event].published)
        else store.queued == old(store.queued)
    {
      thrown := false;
      var row := store.events[event];
      var job := row.job;
      var queueName := EventQueue(row.kind);
      if queueName != Some(job.stage) {
        thrown := HandleFailure(event, attempts + 1, faults.handling);
      } else if job.run !in store.runs || job.exec !in store.stages {
        if faults.handling.UpdateThrows? { return true; }
        store.events := store.events[event := row.(published := true, lockedBy := None)];
      } else if faults.addFails {
        thrown := HandleFailure(event, attempts + 1, faults.handling);
      } else {
        store.queued := store.queued + {(job.stage, job)};
        if faults.publishFails {
          thrown := HandleFailure(event, attempts + 1, faults.handling);
        } else {
          MarkPublished(event);
        }
      }
    }

    /** The transaction that ends a successful dispatch. */
    method MarkPublished(event: Id)
      requires event in store.events && ReferencesExist(store.Rows(), store.events[event].job)
      modifies store
      ensures store.Rows() == DbPublish(old(store.Rows()), event, old(store.events)[event].job)
      ensures store.events[event] == old(store.events)[event].(published := true, lockedBy := None)
      ensures var job := old(store.events)[event].job; var row := old(store.stages)[job.exec];
        && store.stages[job.exec] == row.(status := if row.status == Pending then Queued else row.status)
        && store.runs[job.run].status == RunRunning && store.runs[job.run].current == Some(job.stage)
    {
      var job := store.events[event].job;
      store.events := store.events[event := store.events[event].(published := true, lockedBy := None)];
      if store.stages[job.exec].status == Pending {
        store.stages := store.stages[job.exec := store.stages[job.exec].(status := Queued)];
      }
      store.runs := store.runs[job.run := store.runs[job.run].(status := RunRunning, current := Some(job.stage))];
    }

    /** One turn of the batch loop, seen from the other events. */
    method DispatchNext(event: Id, faults: Faults) returns (thrown: bool)
      requires event in store.events
      modifies store
      ensures store.events.Keys == old(store.events).Keys
      ensures forall e | e in store.events && e != event :: store.events[e] == old(store.events)[e]
      ensures thrown == DispatchThrows(old(store.Rows()), event, old(store.events)[event].attempts, faults)
      ensures if thrown then store.events[event] == old(store.events)[event]
        else Handled(old(store.events)[event], store.events[event])
    {
      var attempts := store.events[event].attempts;
      DispatchOutcome(store.Rows(), event, attempts, faults);
      thrown := DispatchOne(event, attempts, faults);
    }

    /** Every event the batch claims gets one attempt and is unlocked again; when the batch is
        not full, that is every available one. No other event changes. An exception from a catch
        block ends the batch: no count is returned, and the events claimed from there on stay
        locked by this relay, untried, while the relay itself is free for its next batch. */
    method DispatchBatch(available: seq<Id>, faults: Id -> Faults)
        returns (count: Option<nat>, ghost claimed: seq<Id>, ghost done: nat)
      modifies this, store
      ensures old(dispatching) ==> count == Some(0) && claimed == [] && store.Rows() == old(store.Rows()) && dispatching
      ensures !old(dispatching) ==> !dispatching
      ensures store.events.Keys == old(store.events).Keys
      ensures done <= |claimed| <= batchSize
      ensures count == if done == |claimed| then Some(|claimed|) else None
      ensures forall k | 0 <= k < |claimed| ::
        claimed[k] in available && claimed[k] in store.events && CanClaim(old(store.Rows()), claimed[k])
      ensures forall k | 0 <= k < done :: Handled(old(store.events)[claimed[k]], store.events[claimed[k]])
      ensures forall k | done <= k < |claimed| ::
        store.events[claimed[k]] == old(store.events)[claimed[k]].(lockedBy := Some(id))
      ensures forall e | e in store.events && e !in claimed :: store.events[e] == old(store.events)[e]
      ensures !old(dispatching) && |claimed| < batchSize ==>
        forall e | e in available && CanClaim(old(store.Rows()), e) :: e in claimed
    {
      if dispatching { return Some(0), [], 0; }
      dispatching := true;
      ghost var start := store.events;
      var events := ClaimBatch(available);
      claimed := events;
      ghost var locked := store.events;
      var thrown;
      done, thrown := DispatchAll(events, faults);
      count := if thrown then None else Some(|events|);
      dispatching := false;
      forall k | 0 <= k < done ensures Handled(start[events[k]], store.events[events[k]]) {
        assert Handled(locked[events[k]], store.events[events[k]]);
      }
    }

    /** The loop over the claimed events; it stops at the first exception. */
    method DispatchAll(events: seq<Id>, faults: Id -> Faults) returns (ghost done: nat, thrown: bool)
      requires forall e | e in events :: e in store.events
      requires forall i, j | 0 <= i < j < |events| :: events[i] != events[j]
      modifies store
      ensures store.events.Keys == old(store.events).Keys
      ensures done <= |events| && thrown == (done < |events|)
      ensures forall k | 0 <= k < done :: Handled(old(store.events)[events[k]], store.events[events[k]])
      ensures forall k | done <= k < |events| :: store.events[events[k]] == old(store.events)[events[k]]
      ensures forall e | e in store.events && e !in events :: store.events[e] == old(store.events)[e]
    {
      var i := 0;
      while i < |events|
        invariant 0 <= i <= |events|
        invariant store.events.Keys == old(store.events).Keys
        invariant forall k | 0 <= k < i :: Handled(old(store.events)[events[k]], store.events[events[k]])
        invariant forall k | i <= k < |events| :: store.events[events[k]] == old(store.events)[events[k]]
        invariant forall e | e in store.events && e !in events :: store.events[e] == old(store.events)[e]
      {
        thrown := DispatchNext(events[i], faults(events[i]));
        if thrown { return i, true; }
        i := i + 1;
      }
      return i, false;
    }
  }

  /** The claim of an event as the relay carries it. */
  function Taken(db: Db, event: Id, attempts: nat, phase: DispatchPhase): Dispatch
    requires event in db.events
  {
    Dispatch(event, db.events[event].kind, db.events[event].job, attempts, phase)
  }

  function Dispatching(db: Db, d: Id, x: Dispatch): State {
    State(db, map[], map[d := x])
  }

  function StaleEnd(d: Id, handling: CatchBlock): Action {
    if handling.UpdateThrows? then RelayStops(d) else Discard(d)
  }

  lemma StalePath(db: Db, d: Id, event: Id, attempts: nat, handling: CatchBlock, autoRender: bool)
    requires event in db.events && EventQueue(db.events[event].kind) == Some(db.events[event].job.stage)
    requires !ReferencesExist(db, db.events[event].job)
    ensures Run(Dispatching(db, d, Taken(db, event, attempts, Claimed)), [CheckReferences(d)] + [StaleEnd(d, handling)], autoRender)
      == State(if handling.UpdateThrows? then db else DbDiscard(db, event), map[], map[])
  {
    var s := Dispatching(db, d, Taken(db, event, attempts, Claimed));
    var s' := Dispatching(db, d, Taken(db, event, attempts, Stale));
    assert StepCheck(s, d) == s';
    ThenRun(s, CheckReferences(d), [StaleEnd(d, handling)], autoRender);
    assert s'.dispatches - {d} == map[];
    assert [StaleEnd(d, handling)][1..] == [];
  }

  lemma CheckedThen(db: Db, d: Id, event: Id, attempts: nat, rest: seq<Action>, autoRender: bool)
    requires event in db.events && EventQueue(db.events[event].kind) == Some(db.events[event].job.stage)
    requires ReferencesExist(db, db.events[event].job)
    ensures Run(Dispatching(db, d, Taken(db, event, attempts, Claimed)), [CheckReferences(d)] + rest, autoRender)
      == Run(Dispatching(db, d, Taken(db, event, attempts, Checked)), rest, autoRender)
  {
    var s := Dispatching(db, d, Taken(db, event, attempts, Claimed));
    assert StepCheck(s, d) == Dispatching(db, d, Taken(db, event, attempts, Checked));
    ThenRun(s, CheckReferences(d), rest, autoRender);
  }

  lemma EnqueuedThen(db: Db, d: Id, event: Id, attempts: nat, rest: seq<Action>, autoRender: bool)
    requires event in db.events
    ensures
      var job := db.events[event].job;
      Run(Dispatching(db, d, Taken(db, event, attempts, Checked)), [Enqueue(d)] + rest, autoRender)
      == Run(Dispatching(DbEnqueue(db, job.stage, job), d, Taken(db, event, attempts, Enqueued)), rest, autoRender)
  {
    var x := Taken(db, event, attempts, Enqueued);
    var s := Dispatching(db, d, Taken(db, event, attempts, Checked));
    assert s.dispatches[d := x] == map[d := x];
    ThenRun(s, Enqueue(d), rest, autoRender);
  }

  lemma PublishPath(db: Db, d: Id, event: Id, attempts: nat, autoRender: bool)
    requires event in db.events && db.events[event].job.run in db.runs
    ensures Run(Dispatching(db, d, Taken(db, event, attempts, Enqueued)), [Publish(d)], autoRender)
      == State(DbPublish(db, event, db.events[event].job), map[], map[])
  {
    var s := Dispatching(db, d, Taken(db, event, attempts, Enqueued));
    assert s.dispatches - {d} == map[];
    assert [Publish(d)][1..] == [];
  }

  /** The steps after the references were found. */
  function AddPath(d: Id, attempts: nat, faults: Faults): seq<Action> {
    if faults.addFails then FailurePath(d, attempts + 1, faults.handling)
    else [Enqueue(d)] + PublishEnd(d, attempts, faults)
  }

  function PublishEnd(d: Id, attempts: nat, faults: Faults): seq<Action> {
    if faults.publishFails then FailurePath(d, attempts + 1, faults.handling) else [Publish(d)]
  }

  /** The protocol steps of one undisturbed dispatch. */
  function DispatchPath(db: Db, d: Id, event: Id, attempts: nat, faults: Faults): seq<Action>
    requires event in db.events
  {
    var job := db.events[event].job;
    if EventQueue(db.events[event].kind) != Some(job.stage) then FailurePath(d, attempts + 1, faults.handling)
    else if !ReferencesExist(db, job) then [CheckReferences(d)] + [StaleEnd(d, faults.handling)]
    else [CheckReferences(d)] + AddPath(d, attempts, faults)
  }

  /** What `DispatchOne` does to the rows is what those steps do, its exceptions included. */
  lemma DispatchIsPath(db: Db, d: Id, event: Id, attempts: nat, faults: Faults, autoRender: bool)
    requires event in db.events
    ensures Run(Dispatching(db, d, Taken(db, event, attempts, Claimed)),
                DispatchPath(db, d, event, attempts, faults), autoRender)
      == State(AfterDispatch(db, event, attempts, faults), map[], map[])
  {
    var job := db.events[event].job;
    if EventQueue(db.events[event].kind) != Some(job.stage) {
      FailureIsPath(db, d, Taken(db, event, attempts, Claimed), faults.handling, autoRender);
    } else if !ReferencesExist(db, job) {
      StalePath(db, d, event, attempts, faults.handling, autoRender);
    } else {
      CheckedThen(db, d, event, attempts, AddPath(d, attempts, faults), autoRender);
      AddIsPath(db, d, event, attempts, faults, autoRender);
    }
  }

  lemma AddIsPath(db: Db, d: Id, event: Id, attempts: nat, faults: Faults, autoRender: bool)
    requires event in db.events && EventQueue(db.events[event].kind) == Some(db.events[event].job.stage)
    requires ReferencesExist(db, db.events[event].job)
    ensures Run(Dispatching(db, d, Taken(db, event, attempts, Checked)), AddPath(d, attempts, faults), autoRender)
      == State(AfterDispatch(db, event, attempts, faults), map[], map[])
  {
    if faults.addFails {
      FailureIsPath(db, d, Taken(db, event, attempts, Checked), faults.handling, autoRender);
    } else {
      EnqueuedThen(db, d, event, attempts, PublishEnd(d, attempts, faults), autoRender);
      PublishEndIsPath(DbEnqueue(db, db.events[event].job.stage, db.events[event].job), d, event, attempts, faults, autoRender);
    }
  }

  lemma PublishEndIsPath(added: Db, d: Id, event: Id, attempts: nat, faults: Faults, autoRender: bool)
    requires event in added.events && added.events[event].job.run in added.runs
    ensures Run(Dispatching(added, d, Taken(added, event, attempts, Enqueued)), PublishEnd(d, attempts, faults), autoRender)
      == State(if faults.publishFails then AfterFailure(added, event, attempts + 1, faults.handling)
               else DbPublish(added, event, added.events[event].job), map[], map[])
  {
    if faults.publishFails {
      FailureIsPath(added, d, Taken(added, event, attempts, Enqueued), faults.handling, autoRender);
    } else {
      PublishPath(added, d, event, attempts, autoRender);
    }
  }
}
