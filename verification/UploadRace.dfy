/** Direct uploads under concurrent confirms, aborts and cleanup passes. Every call reads the
    attempt first and acts later, each database call or transaction being one step. */
module UploadRace {
  type Id = nat

  datatype AttemptStatus = Started | Completed | AttemptFailed

  datatype Code = NoCode | StoragePending | SessionExpired | UploadAborted | MetadataMismatch

  datatype Attempt = Attempt(video: Id, status: AttemptStatus, code: Code)

  datatype VideoStatus = Uploading | Uploaded | VideoFailed | Processed

  /** `runs` counts the ingestion runs the video has started. */
  datatype Video = Video(status: VideoStatus, runs: nat)

  /** `claimed` remembers the attempts a cleanup pass has claimed. */
  datatype Tables = Tables(videos: map<Id, Video>, attempts: map<Id, Attempt>, claimed: set<Id>)

  /** A call that has read its attempt and is about to act on what it read. */
  datatype Call = Confirming(attempt: Id) | Aborting(attempt: Id) | Claiming(attempt: Id) | Cleaning(attempt: Id)

  datatype State = State(tables: Tables, calls: map<Id, Call>)

  const Init := State(Tables(map[], map[], {}), map[])

  datatype Action =
    | Create(video: Id, attempt: Id)
    | ReadForConfirm(c: Id, attempt: Id)
    | MarkUploaded(c: Id)
    | Mismatch(c: Id)
    | ReadForAbort(c: Id, attempt: Id)
    | FailAborted(c: Id)
    | ReadForCleanup(c: Id, attempt: Id)
    | Claim(c: Id)
    | Cleaned(c: Id)
    | Stop(c: Id)
    | PipelineMoves(video: Id)

  // ----- the transactions

  function TxCreate(t: Tables, video: Id, attempt: Id): Tables {
    if video in t.videos || attempt in t.attempts then t
    else t.(videos := t.videos[video := Video(Uploading, 0)], attempts := t.attempts[attempt := Attempt(video, Started, NoCode)])
  }

  /** The guarded update of the video decides; the attempt is completed with it, and the run,
      its first stage and its event are created. */
  function TxMarkUploaded(t: Tables, attempt: Id): Tables {
    if attempt !in t.attempts || t.attempts[attempt].video !in t.videos then t
    else
      var row := t.attempts[attempt];
      var video := t.videos[row.video];
      if video.status != Uploading then t
      else t.(videos := t.videos[row.video := Video(Uploaded, video.runs + 1)],
              attempts := t.attempts[attempt := row.(status := Completed)])
  }

  /** Not guarded by any status. */
  function TxFail(t: Tables, attempt: Id, code: Code): Tables {
    if attempt !in t.attempts || t.attempts[attempt].video !in t.videos then t
    else
      var row := t.attempts[attempt];
      t.(videos := t.videos[row.video := t.videos[row.video].(status := VideoFailed)],
         attempts := t.attempts[attempt := row.(status := AttemptFailed, code := code)])
  }

  predicate CanClaim(t: Tables, attempt: Id) {
    attempt in t.attempts && t.attempts[attempt].status == Started && t.attempts[attempt].video in t.videos
  }

  function TxClaim(t: Tables, attempt: Id): Tables {
    if !CanClaim(t, attempt) then t
    else
      var row := t.attempts[attempt];
      var video := t.videos[row.video];
      Tables(if video.status == Uploading then t.videos[row.video := video.(status := VideoFailed)] else t.videos,
             t.attempts[attempt := row.(status := AttemptFailed, code := StoragePending)],
             t.claimed + {attempt})
  }

  predicate Pending(t: Tables, attempt: Id) {
    attempt in t.attempts && t.attempts[attempt].status == AttemptFailed && t.attempts[attempt].code == StoragePending
  }

  function TxCleaned(t: Tables, attempt: Id): Tables {
    if !Pending(t, attempt) then t
    else t.(attempts := t.attempts[attempt := t.attempts[attempt].(code := SessionExpired)])
  }

  function TxPipeline(t: Tables, video: Id): Tables {
    if video !in t.videos || t.videos[video].status == Uploading then t
    else t.(videos := t.videos[video := t.videos[video].(status := Processed)])
  }

  // ----- the steps

  function Begin(s: State, c: Id, call: Call): State {
    if c in s.calls then s else s.(calls := s.calls[c := call])
  }

  function End(s: State, c: Id, t: Tables): State {
    State(t, s.calls - {c})
  }

  function Apply(s: State, a: Action): State {
    match a
    case Create(video, attempt) => s.(tables := TxCreate(s.tables, video, attempt))
    case ReadForConfirm(c, attempt) =>
      if attempt in s.tables.attempts && s.tables.attempts[attempt].status == Started then Begin(s, c, Confirming(attempt)) else s
    case MarkUploaded(c) =>
      if c in s.calls && s.calls[c].Confirming? then End(s, c, TxMarkUploaded(s.tables, s.calls[c].attempt)) else s
    case Mismatch(c) =>
      if c in s.calls && s.calls[c].Confirming? then End(s, c, TxFail(s.tables, s.calls[c].attempt, MetadataMismatch)) else s
    case ReadForAbort(c, attempt) =>
      if attempt in s.tables.attempts && s.tables.attempts[attempt].status != Completed then Begin(s, c, Aborting(attempt)) else s
    case FailAborted(c) =>
      if c in s.calls && s.calls[c].Aborting? then End(s, c, TxFail(s.tables, s.calls[c].attempt, UploadAborted)) else s
    case ReadForCleanup(c, attempt) =>
      if CanClaim(s.tables, attempt) then Begin(s, c, Claiming(attempt))
      else if Pending(s.tables, attempt) then Begin(s, c, Cleaning(attempt))
      else s
    case Claim(c) =>
      if c in s.calls && s.calls[c].Claiming? then
        var attempt := s.calls[c].attempt;
        if CanClaim(s.tables, attempt) then State(TxClaim(s.tables, attempt), s.calls[c := Cleaning(attempt)])
        else End(s, c, s.tables)
      else s
    case Cleaned(c) =>
      if c in s.calls && s.calls[c].Cleaning? then End(s, c, TxCleaned(s.tables, s.calls[c].attempt)) else s
    case Stop(c) => End(s, c, s.tables)
    case PipelineMoves(video) => s.(tables := TxPipeline(s.tables, video))
  }

  function Run(s: State, actions: seq<Action>): State
    decreases |actions|
  {
    if actions == [] then s else Run(Apply(s, actions[0]), actions[1..])
  }

  // ----- the invariant

  ghost predicate AttemptsOk(t: Tables) {
    && (forall a | a in t.attempts :: t.attempts[a].video in t.videos)
    && (forall a, b | a in t.attempts && b in t.attempts && t.attempts[a].video == t.attempts[b].video :: a == b)
  }

  /** A run starts only from UPLOADING, and nothing leads back there. */
  ghost predicate VideosOk(t: Tables) {
    && (forall v | v in t.videos :: t.videos[v].runs <= 1 && (t.videos[v].status == Uploading ==> t.videos[v].runs == 0))
    && (forall a | a in t.attempts && t.attempts[a].video in t.videos ::
          var video := t.videos[t.attempts[a].video];
          && (t.attempts[a].status == Started ==> video.runs == 0)
          && (t.attempts[a].status != Started ==> video.status != Uploading))
    && (forall a | a in t.claimed ::
          && a in t.attempts && t.attempts[a].video in t.videos && t.attempts[a].status != Started
          && t.videos[t.attempts[a].video].runs == 0)
  }

  ghost predicate Inv(t: Tables) {
    AttemptsOk(t) && VideosOk(t)
  }

  lemma CreateKeepsInv(t: Tables, video: Id, attempt: Id)
    requires Inv(t)
    ensures Inv(TxCreate(t, video, attempt))
  {
  }

  lemma FailKeepsInv(t: Tables, attempt: Id, code: Code)
    requires Inv(t)
    ensures Inv(TxFail(t, attempt, code))
  {
  }

  lemma CleanedKeepsInv(t: Tables, attempt: Id)
    requires Inv(t)
    ensures Inv(TxCleaned(t, attempt))
  {
  }

  lemma PipelineKeepsInv(t: Tables, video: Id)
    requires Inv(t)
    ensures Inv(TxPipeline(t, video))
  {
  }

  lemma MarkUploadedKeepsInv(t: Tables, attempt: Id)
    requires Inv(t)
    ensures Inv(TxMarkUploaded(t, attempt))
  {
  }

  lemma ClaimKeepsInv(t: Tables, attempt: Id)
    requires Inv(t)
    ensures Inv(TxClaim(t, attempt))
  {
  }

  lemma ApplyKeepsInv(s: State, a: Action)
    requires Inv(s.tables)
    ensures Inv(Apply(s, a).tables)
  {
    match a {
      case Create(video, attempt) => CreateKeepsInv(s.tables, video, attempt);
      case MarkUploaded(c) => if c in s.calls { MarkUploadedKeepsInv(s.tables, s.calls[c].attempt); }
      case Mismatch(c) => if c in s.calls { FailKeepsInv(s.tables, s.calls[c].attempt, MetadataMismatch); }
      case FailAborted(c) => if c in s.calls { FailKeepsInv(s.tables, s.calls[c].attempt, UploadAborted); }
      case Claim(c) => if c in s.calls { ClaimKeepsInv(s.tables, s.calls[c].attempt); }
      case Cleaned(c) => if c in s.calls { CleanedKeepsInv(s.tables, s.calls[c].attempt); }
      case PipelineMoves(video) => PipelineKeepsInv(s.tables, video);
      case _ =>
    }
  }

  lemma {:induction false} RunKeepsInv(s: State, actions: seq<Action>)
    requires Inv(s.tables)
    ensures Inv(Run(s, actions).tables)
    decreases |actions|
  {
    if actions != [] {
      ApplyKeepsInv(s, actions[0]);
      RunKeepsInv(Apply(s, actions[0]), actions[1..]);
    }
  }

  /** Over every execution: at most one run per video, and none at all, before or after, for an
      attempt that a cleanup pass has claimed. */
  lemma OneRunPerUpload(actions: seq<Action>)
    ensures var t := Run(Init, actions).tables;
      && (forall v | v in t.videos :: t.videos[v].runs <= 1)
      && (forall a | a in t.claimed :: a in t.attempts && t.attempts[a].video in t.videos && t.videos[t.attempts[a].video].runs == 0)
  {
    RunKeepsInv(Init, actions);
  }

  lemma ClaimedGrows(s: State, a: Action)
    ensures s.tables.claimed <= Apply(s, a).tables.claimed
  {
  }

  lemma {:induction false} ClaimIsForEver(s: State, actions: seq<Action>)
    ensures s.tables.claimed <= Run(s, actions).tables.claimed
    decreases |actions|
  {
    if actions != [] {
      ClaimedGrows(s, actions[0]);
      ClaimIsForEver(Apply(s, actions[0]), actions[1..]);
    }
  }

  // ----- a completed upload that fails afterwards

  predicate IsCompleted(t: Tables, attempt: Id) {
    attempt in t.attempts && t.attempts[attempt].status == Completed
  }

  /** No abort and no other confirm read the attempt before it was completed and is still to act. */
  ghost predicate Undisputed(s: State, attempt: Id) {
    forall c | c in s.calls && s.calls[c].attempt == attempt :: !s.calls[c].Aborting? && !s.calls[c].Confirming?
  }

  lemma StepKeepsCompleted(s: State, a: Action, attempt: Id)
    requires IsCompleted(s.tables, attempt) && Undisputed(s, attempt)
    ensures IsCompleted(Apply(s, a).tables, attempt) && Undisputed(Apply(s, a), attempt)
  {
  }

  lemma {:induction false} RunKeepsCompleted(s: State, actions: seq<Action>, attempt: Id)
    requires IsCompleted(s.tables, attempt) && Undisputed(s, attempt)
    ensures IsCompleted(Run(s, actions).tables, attempt)
    decreases |actions|
  {
    if actions != [] {
      StepKeepsCompleted(s, actions[0], attempt);
      RunKeepsCompleted(Apply(s, actions[0]), actions[1..], attempt);
    }
  }

  /** A completed attempt stays completed whatever happens exactly when no call that read it
      earlier is still under way: `failAttempt` does not look at the status again. */
  lemma CompletedIsFinalIff(s: State, attempt: Id)
    requires Inv(s.tables) && IsCompleted(s.tables, attempt)
    ensures (forall actions :: IsCompleted(Run(s, actions).tables, attempt)) <==> Undisputed(s, attempt)
  {
    if Undisputed(s, attempt) {
      forall actions ensures IsCompleted(Run(s, actions).tables, attempt) {
        RunKeepsCompleted(s, actions, attempt);
      }
    } else {
      var a := DisputedCanFail(s, attempt);
      assert exists actions :: !IsCompleted(Run(s, actions).tables, attempt) by {
        assert !IsCompleted(Run(s, [a]).tables, attempt);
      }
    }
  }

  lemma DisputedCanFail(s: State, attempt: Id) returns (a: Action)
    requires Inv(s.tables) && IsCompleted(s.tables, attempt) && !Undisputed(s, attempt)
    ensures !IsCompleted(Run(s, [a]).tables, attempt)
  {
    var c :| c in s.calls && s.calls[c].attempt == attempt && (s.calls[c].Aborting? || s.calls[c].Confirming?);
    a := if s.calls[c].Aborting? then FailAborted(c) else Mismatch(c);
    assert [a][1..] == [];
    assert Run(s, [a]) == Run(Apply(s, a), []);
  }

  /** Such an execution: the abort read STARTED, the confirm completed the upload and started
      its run, and then the abort failed both the attempt and the video. */
  lemma StaleAbortFailsStartedUpload()
    ensures var t := Run(Init, [Create(1, 2), ReadForAbort(3, 2), ReadForConfirm(4, 2), MarkUploaded(4), FailAborted(3)]).tables;
      2 in t.attempts && t.attempts[2].status == AttemptFailed && 1 in t.videos && t.videos[1] == Video(VideoFailed, 1)
  {
    var actions := [Create(1, 2), ReadForAbort(3, 2), ReadForConfirm(4, 2), MarkUploaded(4), FailAborted(3)];
    var s1 := Apply(Init, actions[0]);
    var s2 := Apply(s1, actions[1]);
    var s3 := Apply(s2, actions[2]);
    var s4 := Apply(s3, actions[3]);
    var s5 := Apply(s4, actions[4]);
    assert actions[1..][1..] == actions[2..] && actions[2..][1..] == actions[3..] && actions[3..][1..] == actions[4..];
    assert actions[4..][1..] == [];
    assert Run(s4, actions[4..]) == s5;
    assert Run(s2, actions[2..]) == Run(s3, actions[3..]) == s5;
    assert Run(Init, actions) == Run(s1, actions[1..]) == s5;
  }

  // ----- whole calls that nothing interrupts

  lemma RunTwo(s: State, a: Action, b: Action)
    ensures Run(s, [a, b]) == Apply(Apply(s, a), b)
  {
    var s' := Apply(s, a);
    assert [a, b][1..] == [b] && [b][1..] == [];
    assert Run(s', [b]) == Run(Apply(s', b), []);
  }

  /** A confirm, with its metadata in order or not, of a started attempt, and of any other. */
  lemma ConfirmIsPath(t: Tables, c: Id, attempt: Id, matches: bool)
    ensures Run(State(t, map[]), [ReadForConfirm(c, attempt), if matches then MarkUploaded(c) else Mismatch(c)]) ==
      State(if attempt !in t.attempts || t.attempts[attempt].status != Started then t
            else if matches then TxMarkUploaded(t, attempt) else TxFail(t, attempt, MetadataMismatch), map[])
  {
    RunTwo(State(t, map[]), ReadForConfirm(c, attempt), if matches then MarkUploaded(c) else Mismatch(c));
    var s' := Apply(State(t, map[]), ReadForConfirm(c, attempt));
    assert s'.calls - {c} == map[];
  }

  /** An abort of any attempt that is not completed. */
  lemma AbortIsPath(t: Tables, c: Id, attempt: Id)
    ensures Run(State(t, map[]), [ReadForAbort(c, attempt), FailAborted(c)]) ==
      State(if attempt !in t.attempts || t.attempts[attempt].status == Completed then t
            else TxFail(t, attempt, UploadAborted), map[])
  {
    RunTwo(State(t, map[]), ReadForAbort(c, attempt), FailAborted(c));
    var s' := Apply(State(t, map[]), ReadForAbort(c, attempt));
    assert s'.calls - {c} == map[];
  }

  /** A cleanup of a started attempt claims it before the storage is asked, and one of a pending
      attempt goes straight there. */
  lemma CleanupIsPath(t: Tables, c: Id, attempt: Id)
    requires attempt in t.attempts && t.attempts[attempt].video in t.videos
    ensures t.attempts[attempt].status == Started ==>
      Run(State(t, map[]), [ReadForCleanup(c, attempt), Claim(c)]) == State(TxClaim(t, attempt), map[c := Cleaning(attempt)])
    ensures t.attempts[attempt].status == AttemptFailed && t.attempts[attempt].code == StoragePending ==>
      Run(State(t, map[]), [ReadForCleanup(c, attempt), Cleaned(c)]) == State(TxCleaned(t, attempt), map[])
  {
    RunTwo(State(t, map[]), ReadForCleanup(c, attempt), Claim(c));
    RunTwo(State(t, map[]), ReadForCleanup(c, attempt), Cleaned(c));
    var s' := Apply(State(t, map[]), ReadForCleanup(c, attempt));
    assert s'.calls - {c} == map[] && map[c := Claiming(attempt)][c := Cleaning(attempt)] == map[c := Cleaning(attempt)];
  }

  /** What the transactions write. */
  lemma TransactionsWrite(t: Tables, attempt: Id, code: Code)
    requires attempt in t.attempts && t.attempts[attempt].video in t.videos
    ensures var row := t.attempts[attempt]; var video := t.videos[row.video];
      && (video.status == Uploading ==>
            var t' := TxMarkUploaded(t, attempt);
            t'.attempts[attempt] == Attempt(row.video, Completed, row.code) && t'.videos[row.video] == Video(Uploaded, video.runs + 1))
      && (video.status != Uploading ==> TxMarkUploaded(t, attempt) == t)
      && (var t' := TxFail(t, attempt, code);
          t'.attempts[attempt] == Attempt(row.video, AttemptFailed, code) && t'.videos[row.video] == Video(VideoFailed, video.runs))
      && (row.status == Started ==>
            var t' := TxClaim(t, attempt);
            && t'.attempts[attempt] == Attempt(row.video, AttemptFailed, StoragePending)
            && t'.videos[row.video] == Video(if video.status == Uploading then VideoFailed else video.status, video.runs))
      && (row.status == AttemptFailed && row.code == StoragePending ==>
            TxCleaned(t, attempt).attempts[attempt] == Attempt(row.video, AttemptFailed, SessionExpired))
  {
  }

  // ----- the services

  class UploadServices {
    var videos: map<Id, Video>
    var attempts: map<Id, Attempt>
    ghost var claimed: set<Id>
    var running: bool

    ghost function Rows(): Tables
      reads this
    {
      Tables(videos, attempts, claimed)
    }

    constructor ()
      ensures Rows() == Init.tables && !running
    {
      videos, attempts, claimed, running := map[], map[], {}, false;
    }

    method MarkUploaded(attempt: Id) returns (ok: bool)
      modifies this`videos, this`attempts
      ensures Rows() == TxMarkUploaded(old(Rows()), attempt)
      ensures ok <==> Rows() != old(Rows())
    {
      if attempt !in attempts || attempts[attempt].video !in videos { return false; }
      var row := attempts[attempt];
      if videos[row.video].status != Uploading { return false; }
      videos := videos[row.video := Video(Uploaded, videos[row.video].runs + 1)];
      attempts := attempts[attempt := row.(status := Completed)];
      assert videos[row.video] != old(videos)[row.video];
      return true;
    }

    method FailAttempt(attempt: Id, code: Code)
      modifies this`videos, this`attempts
      ensures Rows() == TxFail(old(Rows()), attempt, code)
    {
      if attempt !in attempts || attempts[attempt].video !in videos { return; }
      var row := attempts[attempt];
      attempts := attempts[attempt := row.(status := AttemptFailed, code := code)];
      videos := videos[row.video := videos[row.video].(status := VideoFailed)];
    }

    /** A confirm that nothing interrupts; `matches` says whether the stored object has the
        announced size and type. False where the source throws. */
    method Confirm(attempt: Id, partsOk: bool, matches: bool) returns (ok: bool)
      modifies this`videos, this`attempts
      ensures attempt !in old(attempts) || old(attempts)[attempt].status != Started || !partsOk ==> Rows() == old(Rows())
      ensures attempt in old(attempts) && old(attempts)[attempt].status == Started && partsOk ==>
        Rows() == if matches then TxMarkUploaded(old(Rows()), attempt) else TxFail(old(Rows()), attempt, MetadataMismatch)
      ensures ok <==>
        && attempt in old(attempts)
        && (|| old(attempts)[attempt].status == Completed
            || (&& old(attempts)[attempt].status == Started && partsOk && matches
                && old(attempts)[attempt].video in old(videos) && old(videos)[old(attempts)[attempt].video].status == Uploading))
      ensures ok <==> IsCompleted(Rows(), attempt)
    {
      if attempt !in attempts { return false; }
      if attempts[attempt].status == Completed { return true; }
      if attempts[attempt].status != Started || !partsOk { return false; }
      if !matches {
        FailAttempt(attempt, MetadataMismatch);
        return false;
      }
      ok := MarkUploaded(attempt);
    }

    method Abort(attempt: Id) returns (ok: bool)
      modifies this`videos, this`attempts
      ensures ok <==> attempt in old(attempts) && old(attempts)[attempt].status != Completed
      ensures Rows() == if ok then TxFail(old(Rows()), attempt, UploadAborted) else old(Rows())
    {
      if attempt !in attempts || attempts[attempt].status == Completed { return false; }
      FailAttempt(attempt, UploadAborted);
      return true;
    }

    method ClaimAttempt(attempt: Id) returns (ok: bool)
      modifies this`videos, this`attempts, this`claimed
      ensures Rows() == TxClaim(old(Rows()), attempt)
      ensures ok == CanClaim(old(Rows()), attempt)
    {
      if attempt !in attempts || attempts[attempt].status != Started || attempts[attempt].video !in videos { return false; }
      var row := attempts[attempt];
      attempts := attempts[attempt := row.(status := AttemptFailed, code := StoragePending)];
      if videos[row.video].status == Uploading {
        videos := videos[row.video := videos[row.video].(status := VideoFailed)];
      }
      claimed := claimed + {attempt};
      return true;
    }

    /** One pass over the attempts the query returned; `abortOk` says for which of them the
        storage gave up the upload, or no longer knew it. */
    method CleanupOnce(found: seq<Id>, abortOk: Id -> bool) returns (cleaned: nat)
      requires Inv(Rows()) && forall i, j | 0 <= i < j < |found| :: found[i] != found[j]
      modifies this
      ensures Inv(Rows())
      ensures old(running) ==> cleaned == 0 && Rows() == old(Rows()) && running
      ensures !old(running) ==> !running && CleanedUp(old(Rows()), found, abortOk, Rows())
      ensures !old(running) ==> cleaned == |Abandoned(old(Rows()), found, abortOk)|
    {
      if running { return 0; }
      running := true;
      cleaned := CleanFound(found, abortOk);
      running := false;
    }

    method CleanFound(found: seq<Id>, abortOk: Id -> bool) returns (cleaned: nat)
      requires Inv(Rows()) && forall i, j | 0 <= i < j < |found| :: found[i] != found[j]
      modifies this`videos, this`attempts, this`claimed
      ensures Inv(Rows()) && CleanedUp(old(Rows()), found, abortOk, Rows())
      ensures cleaned == |Abandoned(old(Rows()), found, abortOk)|
    {
      cleaned := 0;
      ghost var start := Rows();
      var i := 0;
      while i < |found|
        invariant 0 <= i <= |found| && Inv(Rows())
        invariant CleanedUp(start, found[..i], abortOk, Rows())
        invariant cleaned == |Abandoned(start, found[..i], abortOk)|
      {
        ghost var before := Rows();
        var ok := CleanOne(found[i], abortOk(found[i]));
        assert found[..i + 1] == found[..i] + [found[i]];
        OneMoreCleaned(start, found[..i], found[i], abortOk, before, Rows());
        if ok { cleaned := cleaned + 1; }
        i := i + 1;
      }
      assert found[..i] == found;
    }

    /** The body of the loop over the attempts. */
    method CleanOne(attempt: Id, abortOk: bool) returns (cleaned: bool)
      requires Inv(Rows())
      modifies this`videos, this`attempts, this`claimed
      ensures Inv(Rows()) && old(claimed) <= claimed && attempts.Keys == old(attempts).Keys
      ensures forall a | a in attempts && a != attempt :: attempts[a] == old(attempts)[a]
      ensures attempt in attempts ==> attempts[attempt] == AfterCleanup(old(attempts)[attempt], abortOk)
      ensures CanClaim(old(Rows()), attempt) ==> attempt in claimed
      ensures cleaned <==> attempt in attempts && Cleanable(old(attempts)[attempt]) && abortOk
    {
      ClaimKeepsInv(Rows(), attempt);
      ClaimEffect(Rows(), attempt);
      var claimedNow := ClaimAttempt(attempt);
      cleaned := false;
      if claimedNow || IsPending(attempt) {
        if abortOk {
          CleanedEffect(Rows(), attempt);
          MarkCleaned(attempt);
          cleaned := true;
        }
      }
    }

    predicate IsPending(attempt: Id)
      reads this
    {
      attempt in attempts && attempts[attempt].status == AttemptFailed && attempts[attempt].code == StoragePending
    }

    method MarkCleaned(attempt: Id)
      requires Inv(Rows()) && Pending(Rows(), attempt)
      modifies this`attempts
      ensures Rows() == TxCleaned(old(Rows()), attempt) && Inv(Rows())
    {
      CleanedKeepsInv(Rows(), attempt);
      attempts := attempts[attempt := attempts[attempt].(code := SessionExpired)];
    }
  }

  /** Still started, or claimed earlier with the storage not yet given up. */
  predicate Cleanable(attempt: Attempt) {
    attempt.status == Started || (attempt.status == AttemptFailed && attempt.code == StoragePending)
  }

  function AfterCleanup(attempt: Attempt, abortOk: bool): Attempt {
    if !Cleanable(attempt) then attempt
    else attempt.(status := AttemptFailed, code := if abortOk then SessionExpired else StoragePending)
  }

  lemma ClaimEffect(t: Tables, attempt: Id)
    requires AttemptsOk(t)
    ensures var t' := TxClaim(t, attempt);
      && t'.attempts.Keys == t.attempts.Keys && t.claimed <= t'.claimed
      && (forall a | a in t.attempts && a != attempt :: t'.attempts[a] == t.attempts[a])
      && (attempt in t.attempts ==> t'.attempts[attempt] == AfterCleanup(t.attempts[attempt], false))
      && (Pending(t', attempt) <==> attempt in t.attempts && Cleanable(t.attempts[attempt]))
      && (CanClaim(t, attempt) ==> attempt in t'.claimed)
  {
  }

  lemma CleanedEffect(t: Tables, attempt: Id)
    requires Pending(t, attempt)
    ensures var t' := TxCleaned(t, attempt);
      && t'.attempts.Keys == t.attempts.Keys && t'.claimed == t.claimed
      && (forall a | a in t.attempts && a != attempt :: t'.attempts[a] == t.attempts[a])
      && t'.attempts[attempt] == t.attempts[attempt].(code := SessionExpired)
  {
  }

  /** Exactly the attempts that were found change, each as its storage allows, and whatever was
      found started is claimed. */
  ghost predicate CleanedUp(before: Tables, found: seq<Id>, abortOk: Id -> bool, after: Tables) {
    && after.attempts.Keys == before.attempts.Keys
    && (forall a | a in after.attempts ::
          after.attempts[a] == if a in found then AfterCleanup(before.attempts[a], abortOk(a)) else before.attempts[a])
    && (forall a | a in found && a in before.attempts && before.attempts[a].status == Started :: a in after.claimed)
  }

  /** The attempts whose storage a pass gives up. */
  ghost function Abandoned(t: Tables, found: seq<Id>, abortOk: Id -> bool): set<Id> {
    set a | a in found && a in t.attempts && Cleanable(t.attempts[a]) && abortOk(a)
  }

  lemma OneMoreCleaned(start: Tables, done: seq<Id>, attempt: Id, abortOk: Id -> bool, before: Tables, after: Tables)
    requires CleanedUp(start, done, abortOk, before) && attempt !in done && AttemptsOk(before)
    requires before.claimed <= after.claimed && after.attempts.Keys == before.attempts.Keys
    requires forall a | a in after.attempts && a != attempt :: after.attempts[a] == before.attempts[a]
    requires attempt in after.attempts ==> after.attempts[attempt] == AfterCleanup(before.attempts[attempt], abortOk(attempt))
    requires CanClaim(before, attempt) ==> attempt in after.claimed
    ensures CleanedUp(start, done + [attempt], abortOk, after)
    ensures |Abandoned(start, done + [attempt], abortOk)| == |Abandoned(start, done, abortOk)|
      + if attempt in before.attempts && Cleanable(before.attempts[attempt]) && abortOk(attempt) then 1 else 0
  {
    var more, fewer := Abandoned(start, done + [attempt], abortOk), Abandoned(start, done, abortOk);
    if attempt in before.attempts && Cleanable(before.attempts[attempt]) && abortOk(attempt) {
      assert more == fewer + {attempt};
    } else {
      assert more == fewer;
    }
  }
}
