/** Admissions, commits and refunds as they really happen: two database calls for the first,
    three for the others, interleaved in any way. For each of the two promises made over runs,
    that a reservation is settled one way only and that the limit is kept, there is a theorem
    that says exactly from which states on it can be relied upon. */
module UsageSettlement {
  import opened Common
  import opened UsageLedger

  /** A transition under way: past the check of the opposite row, or past the reservation too. */
  datatype Call = Checked(key: Key, state: Settlement) | Found(key: Key, state: Settlement, quantity: real)

  /** An admission is under way when its check has passed and its reservation is still to come. */
  datatype State = State(ledger: Ledger, calls: map<Id, Call>, admissions: map<Id, Key>)

  datatype Action =
    | Check(w: Id, key: Key)                        // the limit check
    | Reserve(w: Id)                                // upserts the reservation
    | TopUp(minutes: real)
    | Start(w: Id, key: Key, state: Settlement)     // looks for the opposite row
    | Look(w: Id)                                   // looks for the reservation
    | Write(w: Id)                                  // upserts the row
    | Stop(w: Id)                                   // a crash or a lost connection

  /** Durations, the plan's minutes and its longest video. */
  datatype Plan = Plan(durations: map<Id, nat>, minutesPerMonth: real, maximumSeconds: real)

  ghost function Apply(s: State, a: Action, plan: Plan): State {
    match a
    case Check(w, key) => CheckLimit(s, w, key, plan)
    case Reserve(w) => ReserveRow(s, w, plan)
    case TopUp(minutes) => if minutes >= 0.0 then s.(ledger := s.ledger.(topUps := s.ledger.topUps + minutes)) else s
    case Start(w, key, state) => StartCall(s, w, key, state)
    case Look(w) => LookUp(s, w)
    case Write(w) => WriteRow(s, w)
    case Stop(w) => s.(calls := s.calls - {w}, admissions := s.admissions - {w})
  }

  ghost predicate Passes(s: State, key: Key, plan: Plan) {
    Admits(SnapshotOf(s.ledger, plan.minutesPerMonth), DurationOf(plan.durations, key.video), plan.maximumSeconds,
           key in s.ledger.reserved)
  }

  ghost function CheckLimit(s: State, w: Id, key: Key, plan: Plan): State {
    if w in s.admissions || !Passes(s, key, plan) then s else s.(admissions := s.admissions[w := key])
  }

  function ReserveRow(s: State, w: Id, plan: Plan): State {
    if w !in s.admissions then s
    else s.(ledger := LedgerReserve(s.ledger, s.admissions[w], plan.durations), admissions := s.admissions - {w})
  }

  function StartCall(s: State, w: Id, key: Key, state: Settlement): State {
    if w in s.calls || key in Rows(s.ledger, Opposite(state)) then s else s.(calls := s.calls[w := Checked(key, state)])
  }

  function LookUp(s: State, w: Id): State {
    if w !in s.calls || !s.calls[w].Checked? then s
    else
      var call := s.calls[w];
      if call.key !in s.ledger.reserved then s.(calls := s.calls - {w})
      else s.(calls := s.calls[w := Found(call.key, call.state, s.ledger.reserved[call.key])])
  }

  function WriteRow(s: State, w: Id): State {
    if w !in s.calls || !s.calls[w].Found? then s
    else
      var call := s.calls[w];
      s.(ledger := LedgerSettle(s.ledger, call.key, call.state, call.quantity), calls := s.calls - {w})
  }

  ghost function Run(s: State, actions: seq<Action>, plan: Plan): State
    decreases |actions|
  {
    if actions == [] then s else Run(Apply(s, actions[0], plan), actions[1..], plan)
  }

  const Init := State(EmptyLedger, map[], map[])

  lemma {:induction false} RunTwo(s: State, a: Action, b: Action, plan: Plan)
    ensures Run(s, [a, b], plan) == Apply(Apply(s, a, plan), b, plan)
  {
    assert [a, b][1..] == [b] && [b][1..] == [];
    var s' := Apply(s, a, plan);
    assert Run(s', [b], plan) == Run(Apply(s', b, plan), [], plan);
  }

  lemma {:induction false} RunOn(s: State, first: seq<Action>, rest: seq<Action>, plan: Plan)
    ensures Run(s, first + rest, plan) == Run(Run(s, first, plan), rest, plan)
    decreases |first|
  {
    if first == [] {
      assert first + rest == rest;
    } else {
      RunOn(Apply(s, first[0], plan), first[1..], rest, plan);
      assert (first + rest)[1..] == first[1..] + rest;
    }
  }

  // ----- one way only

  predicate InFlight(s: State, key: Key, state: Settlement) {
    exists w :: w in s.calls && s.calls[w].key == key && s.calls[w].state == state
  }

  /** No row of both kinds. */
  predicate OneWay(l: Ledger, key: Key) {
    key !in l.committed || key !in l.refunded
  }

  /** Two opposite calls, or one call after the opposite row was written. */
  predicate Clash(s: State, key: Key) {
    || (InFlight(s, key, Committed) && (InFlight(s, key, Refunded) || key in s.ledger.refunded))
    || (InFlight(s, key, Refunded) && key in s.ledger.committed)
  }

  /** A new call on `key` waits until no opposite one is in flight, as calls made by the one
      worker of a run do. */
  predicate Orderly(s: State, a: Action, key: Key) {
    a.Start? && a.key == key ==> !InFlight(s, key, Opposite(a.state))
  }

  ghost predicate OrderlyRun(s: State, actions: seq<Action>, key: Key, plan: Plan)
    decreases |actions|
  {
    actions == [] || (Orderly(s, actions[0], key) && OrderlyRun(Apply(s, actions[0], plan), actions[1..], key, plan))
  }

  lemma CallsLess(s: State, s': State, key: Key, state: Settlement)
    requires forall w | w in s'.calls :: w in s.calls && s.calls[w].key == s'.calls[w].key && s.calls[w].state == s'.calls[w].state
    ensures InFlight(s', key, state) ==> InFlight(s, key, state)
  {
  }

  lemma WriteKeepsPeace(s: State, w: Id, key: Key)
    requires OneWay(s.ledger, key) && !Clash(s, key)
    ensures OneWay(WriteRow(s, w).ledger, key) && !Clash(WriteRow(s, w), key)
  {
    var s' := WriteRow(s, w);
    CallsLess(s, s', key, Committed);
    CallsLess(s, s', key, Refunded);
    if w in s.calls {
      assert InFlight(s, s.calls[w].key, s.calls[w].state);
    }
  }

  lemma StartKeepsPeace(s: State, w: Id, k: Key, state: Settlement, key: Key)
    requires OneWay(s.ledger, key) && !Clash(s, key) && Orderly(s, Start(w, k, state), key)
    ensures OneWay(StartCall(s, w, k, state).ledger, key) && !Clash(StartCall(s, w, k, state), key)
  {
    var s' := StartCall(s, w, k, state);
    if s' != s {
      assert forall x | InFlight(s', key, x) :: InFlight(s, key, x) || (k == key && x == state);
    }
  }

  lemma StepKeepsPeace(s: State, a: Action, key: Key, plan: Plan)
    requires OneWay(s.ledger, key) && !Clash(s, key) && Orderly(s, a, key)
    ensures OneWay(Apply(s, a, plan).ledger, key) && !Clash(Apply(s, a, plan), key)
  {
    if a.Write? {
      WriteKeepsPeace(s, a.w, key);
    } else if a.Start? {
      StartKeepsPeace(s, a.w, a.key, a.state, key);
    } else {
      CallsLess(s, Apply(s, a, plan), key, Committed);
      CallsLess(s, Apply(s, a, plan), key, Refunded);
    }
  }

  lemma {:induction false} RunKeepsPeace(s: State, actions: seq<Action>, key: Key, plan: Plan)
    requires OneWay(s.ledger, key) && !Clash(s, key) && OrderlyRun(s, actions, key, plan)
    ensures OneWay(Run(s, actions, plan).ledger, key) && !Clash(Run(s, actions, plan), key)
    decreases |actions|
  {
    if actions != [] {
      StepKeepsPeace(s, actions[0], key, plan);
      RunKeepsPeace(Apply(s, actions[0], plan), actions[1..], key, plan);
    }
  }

  // ----- what calls in flight can still do

  lemma FinishCall(s: State, w: Id, plan: Plan)
    requires w in s.calls && s.calls[w].key in s.ledger.reserved
    ensures var call, s' := s.calls[w], Run(s, [Look(w), Write(w)], plan);
      && call.key in Rows(s'.ledger, call.state)
      && call.key in s'.ledger.reserved && s'.calls == s.calls - {w}
      && (forall k | k in Rows(s.ledger, Opposite(call.state)) :: k in Rows(s'.ledger, Opposite(call.state)))
    ensures forall k :: OrderlyRun(s, [Look(w), Write(w)], k, plan)
  {
    RunTwo(s, Look(w), Write(w), plan);
    assert LookUp(s, w).calls - {w} == s.calls - {w};
    assert [Look(w), Write(w)][1..] == [Write(w)] && [Write(w)][1..] == [];
    forall k ensures OrderlyRun(s, [Look(w), Write(w)], k, plan) {
      assert OrderlyRun(Apply(s, Look(w), plan), [Write(w)], k, plan);
    }
  }

  lemma {:induction false} OrderlyOn(s: State, first: seq<Action>, rest: seq<Action>, key: Key, plan: Plan)
    requires OrderlyRun(s, first, key, plan) && OrderlyRun(Run(s, first, plan), rest, key, plan)
    ensures OrderlyRun(s, first + rest, key, plan)
    decreases |first|
  {
    if first == [] {
      assert first + rest == rest;
    } else {
      OrderlyOn(Apply(s, first[0], plan), first[1..], rest, key, plan);
      assert (first + rest)[1..] == first[1..] + rest;
    }
  }

  /** Two opposite calls in flight finish one after the other. */
  lemma OppositeCallsSettleTwice(s: State, key: Key, plan: Plan) returns (actions: seq<Action>)
    requires key in s.ledger.reserved && InFlight(s, key, Committed) && InFlight(s, key, Refunded)
    ensures OrderlyRun(s, actions, key, plan) && !OneWay(Run(s, actions, plan).ledger, key)
  {
    var v :| v in s.calls && s.calls[v].key == key && s.calls[v].state == Committed;
    var w :| w in s.calls && s.calls[w].key == key && s.calls[w].state == Refunded;
    var s' := Run(s, [Look(v), Write(v)], plan);
    FinishCall(s, v, plan);
    FinishCall(s', w, plan);
    actions := [Look(v), Write(v)] + [Look(w), Write(w)];
    RunOn(s, [Look(v), Write(v)], [Look(w), Write(w)], plan);
    OrderlyOn(s, [Look(v), Write(v)], [Look(w), Write(w)], key, plan);
    assert key in Rows(s'.ledger, Opposite(Refunded));
    var s'' := Run(s', [Look(w), Write(w)], plan);
    assert Run(s, actions, plan) == s'';
    assert key in Rows(s''.ledger, Refunded) && key in Rows(s''.ledger, Opposite(Refunded));
  }

  /** A call that looked before the opposite row was written does not look again. */
  lemma LateCallSettlesTwice(s: State, key: Key, state: Settlement, plan: Plan) returns (actions: seq<Action>)
    requires key in s.ledger.reserved && InFlight(s, key, state) && key in Rows(s.ledger, Opposite(state))
    ensures OrderlyRun(s, actions, key, plan) && !OneWay(Run(s, actions, plan).ledger, key)
  {
    var w :| w in s.calls && s.calls[w].key == key && s.calls[w].state == state;
    FinishCall(s, w, plan);
    actions := [Look(w), Write(w)];
  }

  lemma ClashSettlesTwice(s: State, key: Key, plan: Plan) returns (actions: seq<Action>)
    requires key in s.ledger.reserved && Clash(s, key)
    ensures OrderlyRun(s, actions, key, plan) && !OneWay(Run(s, actions, plan).ledger, key)
  {
    if InFlight(s, key, Committed) && InFlight(s, key, Refunded) {
      actions := OppositeCallsSettleTwice(s, key, plan);
    } else if InFlight(s, key, Committed) {
      actions := LateCallSettlesTwice(s, key, Committed, plan);
    } else {
      actions := LateCallSettlesTwice(s, key, Refunded, plan);
    }
  }

  /** A reservation not yet settled both ways never will be, whatever else happens and however
      calls are begun one after the other, if and only if no two opposite calls on it, and no
      call opposite to its row, are in flight. */
  lemma SettledOnceIff(s: State, key: Key, plan: Plan)
    requires key in s.ledger.reserved && OneWay(s.ledger, key)
    ensures (forall actions | OrderlyRun(s, actions, key, plan) :: OneWay(Run(s, actions, plan).ledger, key)) <==> !Clash(s, key)
  {
    if Clash(s, key) {
      var actions := ClashSettlesTwice(s, key, plan);
      assert OrderlyRun(s, actions, key, plan) && !OneWay(Run(s, actions, plan).ledger, key);
    } else {
      forall actions | OrderlyRun(s, actions, key, plan) ensures OneWay(Run(s, actions, plan).ledger, key) {
        RunKeepsPeace(s, actions, key, plan);
      }
    }
  }

  // ----- the first settlement

  ghost predicate SettledAs(l: Ledger, l': Ledger, key: Key, state: Settlement)
    requires key in Rows(l, state)
  {
    key in Rows(l', state) && Rows(l', state)[key] == Rows(l, state)[key] && key !in Rows(l', Opposite(state))
  }

  lemma StepKeepsSettlement(s: State, a: Action, key: Key, state: Settlement, plan: Plan)
    requires key in Rows(s.ledger, state) && key !in Rows(s.ledger, Opposite(state)) && !InFlight(s, key, Opposite(state))
    ensures var s' := Apply(s, a, plan);
      SettledAs(s.ledger, s'.ledger, key, state) && !InFlight(s', key, Opposite(state))
  {
    var s' := Apply(s, a, plan);
    if a.Start? {
      assert InFlight(s', key, Opposite(state)) ==> InFlight(s, key, Opposite(state));
    } else {
      CallsLess(s, s', key, Opposite(state));
    }
  }

  lemma {:induction false} RunKeepsSettlement(s: State, actions: seq<Action>, key: Key, state: Settlement, plan: Plan)
    requires key in Rows(s.ledger, state) && key !in Rows(s.ledger, Opposite(state)) && !InFlight(s, key, Opposite(state))
    ensures SettledAs(s.ledger, Run(s, actions, plan).ledger, key, state)
    decreases |actions|
  {
    if actions != [] {
      StepKeepsSettlement(s, actions[0], key, state, plan);
      RunKeepsSettlement(Apply(s, actions[0], plan), actions[1..], key, state, plan);
    }
  }

  /** The first of commit and refund is final in every continuation, without any discipline, if
      and only if no opposite call that looked before is still in flight. */
  lemma FirstSettlementFinalIff(s: State, key: Key, state: Settlement, plan: Plan)
    requires key in s.ledger.reserved && key in Rows(s.ledger, state) && key !in Rows(s.ledger, Opposite(state))
    ensures (forall actions :: SettledAs(s.ledger, Run(s, actions, plan).ledger, key, state)) <==> !InFlight(s, key, Opposite(state))
  {
    if InFlight(s, key, Opposite(state)) {
      var actions := LateCallSettlesTwice(s, key, Opposite(state), plan);
      assert !SettledAs(s.ledger, Run(s, actions, plan).ledger, key, state);
    } else {
      forall actions ensures SettledAs(s.ledger, Run(s, actions, plan).ledger, key, state) {
        RunKeepsSettlement(s, actions, key, state, plan);
      }
    }
  }

  /** The three steps of one call, taken together, are the undisturbed transition. */
  lemma CallIsTransition(l: Ledger, w: Id, key: Key, state: Settlement)
    ensures var s := State(l, map[], map[]);
      WriteRow(LookUp(StartCall(s, w, key, state), w), w) == State(LedgerTransition(l, key, state), map[], map[])
  {
    var s := State(l, map[], map[]);
    if key !in Rows(l, Opposite(state)) {
      var s1 := StartCall(s, w, key, state);
      assert s1.calls - {w} == map[];
      if key in l.reserved {
        var s2 := LookUp(s1, w);
        assert s2.calls - {w} == map[];
      }
    }
  }

  // ----- the books, over orderly runs

  ghost predicate Books(s: State, plan: Plan) {
    && Sound(s.ledger, plan.durations)
    && (forall w | w in s.calls && s.calls[w].Found? ::
          s.calls[w].key in s.ledger.reserved && s.calls[w].quantity == s.ledger.reserved[s.calls[w].key])
    && (forall key :: !Clash(s, key))
  }

  /** What the admissions in flight will still reserve. */
  function Pending(s: State, plan: Plan): map<Key, real> {
    map key | key in s.admissions.Values && key !in s.ledger.reserved && DurationOf(plan.durations, key.video) > 0 ::
      Minutes(DurationOf(plan.durations, key.video))
  }

  ghost function PendingMinutes(s: State, plan: Plan): real {
    Total(Pending(s, plan))
  }

  /** New calls are orderly, and a check passes only with at most `spare` minutes of others in flight. */
  ghost predicate Careful(s: State, a: Action, spare: real, plan: Plan) {
    && (a.Start? ==> Orderly(s, a, a.key))
    && (a.Check? && Passes(s, a.key, plan) ==> PendingMinutes(s, plan) <= spare)
  }

  ghost predicate CarefulRun(s: State, actions: seq<Action>, spare: real, plan: Plan)
    decreases |actions|
  {
    actions == [] || (Careful(s, actions[0], spare, plan) && CarefulRun(Apply(s, actions[0], plan), actions[1..], spare, plan))
  }

  lemma StepKeepsLedger(s: State, a: Action, plan: Plan)
    requires Books(s, plan)
    ensures Sound(Apply(s, a, plan).ledger, plan.durations)
  {
    if a.Reserve? && a.w in s.admissions {
      ReserveKeepsSound(s.ledger, s.admissions[a.w], plan.durations);
    } else if a.Write? && a.w in s.calls && s.calls[a.w].Found? {
      var call := s.calls[a.w];
      assert InFlight(s, call.key, call.state);
      assert !Clash(s, call.key);
      SettleKeepsSound(s.ledger, call.key, call.state, plan.durations);
    }
  }

  lemma StepKeepsBooks(s: State, a: Action, plan: Plan)
    requires Books(s, plan) && (a.Start? ==> Orderly(s, a, a.key))
    ensures Books(Apply(s, a, plan), plan)
  {
    var s' := Apply(s, a, plan);
    StepKeepsLedger(s, a, plan);
    forall key ensures !Clash(s', key) {
      assert OneWay(s.ledger, key);
      StepKeepsPeace(s, a, key, plan);
    }
    StepKeepsCalls(s, a, plan, s');
  }

  lemma StepKeepsCalls(s: State, a: Action, plan: Plan, s': State)
    requires Books(s, plan) && s' == Apply(s, a, plan)
    ensures forall w | w in s'.calls && s'.calls[w].Found? ::
      s'.calls[w].key in s'.ledger.reserved && s'.calls[w].quantity == s'.ledger.reserved[s'.calls[w].key]
  {
    if a.Reserve? && a.w in s.admissions && s.admissions[a.w] in s.ledger.reserved {
      ReserveTwice(s.ledger, s.admissions[a.w], plan.durations);
    }
  }

  /** Used, open and announced minutes. */
  ghost function Demand(s: State, plan: Plan): real {
    Used(s.ledger) + Reserved(s.ledger) + PendingMinutes(s, plan)
  }

  ghost predicate Fits(s: State, spare: real, plan: Plan) {
    Demand(s, plan) <= plan.minutesPerMonth + s.ledger.topUps + 0.01 + spare
  }

  lemma PendingPositive(s: State, plan: Plan)
    ensures PendingMinutes(s, plan) >= 0.0
  {
    TotalNonNegative(Pending(s, plan));
  }

  lemma ValuesLess(rows: map<Id, Key>, w: Id)
    requires w in rows
    ensures forall key | key in rows.Values && key != rows[w] :: key in (rows - {w}).Values
  {
    forall key | key in rows.Values && key != rows[w] ensures key in (rows - {w}).Values {
      var v :| v in rows && rows[v] == key;
      assert v in rows - {w} && (rows - {w})[v] == key;
    }
  }

  /** A reservation turns announced minutes into open ones. */
  lemma ReserveKeepsDemand(s: State, w: Id, plan: Plan)
    requires Books(s, plan) && w in s.admissions
    ensures Demand(Apply(s, Reserve(w), plan), plan) == Demand(s, plan)
  {
    var key := s.admissions[w];
    var s' := Apply(s, Reserve(w), plan);
    ValuesLess(s.admissions, w);
    if key in s.ledger.reserved {
      ReserveTwice(s.ledger, key, plan.durations);
      assert Pending(s', plan) == Pending(s, plan);
    } else if DurationOf(plan.durations, key.video) == 0 {
      assert Pending(s', plan) == Pending(s, plan);
    } else {
      ReserveAddsMinutes(s.ledger, key, plan.durations);
      TotalTake(Pending(s, plan), key);
      assert Pending(s', plan) == Pending(s, plan) - {key};
    }
  }

  lemma ValuesAdded(rows: map<Id, Key>, w: Id, key: Key)
    requires w !in rows
    ensures rows[w := key].Values == rows.Values + {key}
  {
    var rows' := rows[w := key];
    assert rows'[w] == key;
    forall k | k in rows.Values ensures k in rows'.Values {
      var v :| v in rows && rows[v] == k;
      assert rows'[v] == k;
    }
  }

  lemma CheckKeepsFit(s: State, w: Id, key: Key, spare: real, plan: Plan)
    requires spare >= 0.0 && Fits(s, spare, plan) && Careful(s, Check(w, key), spare, plan)
    ensures Fits(Apply(s, Check(w, key), plan), spare, plan)
  {
    var s' := Apply(s, Check(w, key), plan);
    if s' != s {
      var ms := DurationOf(plan.durations, key.video);
      AdmitsWithinRounding(s.ledger, plan.minutesPerMonth, ms, plan.maximumSeconds, key in s.ledger.reserved);
      ValuesAdded(s.admissions, w, key);
      if key in s.ledger.reserved || ms == 0 || key in Pending(s, plan) {
        assert Pending(s', plan) == Pending(s, plan);
      } else {
        assert Pending(s', plan) == Pending(s, plan)[key := Minutes(ms)];
        TotalAdd(Pending(s, plan), key, Minutes(ms));
      }
    }
  }

  lemma WriteKeepsFit(s: State, w: Id, spare: real, plan: Plan)
    requires Books(s, plan) && Fits(s, spare, plan)
    ensures Fits(Apply(s, Write(w), plan), spare, plan)
  {
    var s' := Apply(s, Write(w), plan);
    assert Pending(s', plan) == Pending(s, plan);
    if w in s.calls && s.calls[w].Found? {
      var call := s.calls[w];
      assert InFlight(s, call.key, call.state);
      assert !Clash(s, call.key);
      if call.key !in Rows(s.ledger, call.state) {
        SettleMovesMinutes(s.ledger, call.key, call.state, plan.durations);
      }
    }
  }

  lemma StopKeepsFit(s: State, w: Id, spare: real, plan: Plan)
    requires Fits(s, spare, plan)
    ensures Fits(Apply(s, Stop(w), plan), spare, plan)
  {
    var s' := Apply(s, Stop(w), plan);
    var gone := Pending(s, plan).Keys - Pending(s', plan).Keys;
    assert Pending(s', plan) == Pending(s, plan) - gone;
    TotalLess(Pending(s, plan), gone);
  }

  lemma StepKeepsFit(s: State, a: Action, spare: real, plan: Plan)
    requires Books(s, plan) && spare >= 0.0 && Fits(s, spare, plan) && Careful(s, a, spare, plan)
    ensures Fits(Apply(s, a, plan), spare, plan)
  {
    match a
    case Check(w, key) => CheckKeepsFit(s, w, key, spare, plan);
    case Reserve(w) => if w in s.admissions { ReserveKeepsDemand(s, w, plan); }
    case TopUp(_) => assert Pending(Apply(s, a, plan), plan) == Pending(s, plan);
    case Start(_, _, _) => assert Pending(Apply(s, a, plan), plan) == Pending(s, plan);
    case Look(_) => assert Pending(Apply(s, a, plan), plan) == Pending(s, plan);
    case Write(w) => WriteKeepsFit(s, w, spare, plan);
    case Stop(w) => StopKeepsFit(s, w, spare, plan);
  }

  lemma {:induction false} RunKeepsFit(s: State, actions: seq<Action>, spare: real, plan: Plan)
    requires Books(s, plan) && spare >= 0.0 && Fits(s, spare, plan) && CarefulRun(s, actions, spare, plan)
    ensures Books(Run(s, actions, plan), plan) && Fits(Run(s, actions, plan), spare, plan)
    decreases |actions|
  {
    if actions != [] {
      StepKeepsBooks(s, actions[0], plan);
      StepKeepsFit(s, actions[0], spare, plan);
      RunKeepsFit(Apply(s, actions[0], plan), actions[1..], spare, plan);
    }
  }

  /** The admissions in flight can all go through. */
  lemma {:induction false} ReserveAll(s: State, spare: real, plan: Plan) returns (actions: seq<Action>)
    requires Books(s, plan)
    ensures CarefulRun(s, actions, spare, plan)
    ensures var l := Run(s, actions, plan).ledger;
      Used(l) + Reserved(l) == Demand(s, plan) && plan.minutesPerMonth + l.topUps == plan.minutesPerMonth + s.ledger.topUps
    decreases |s.admissions|
  {
    if s.admissions == map[] {
      assert Pending(s, plan) == map[];
      return [];
    }
    assert exists w :: w in s.admissions;
    var w :| w in s.admissions;
    var s' := Apply(s, Reserve(w), plan);
    StepKeepsBooks(s, Reserve(w), plan);
    ReserveKeepsDemand(s, w, plan);
    var rest := ReserveAll(s', spare, plan);
    actions := [Reserve(w)] + rest;
    assert actions[1..] == rest;
  }

  /** Used and open minutes stay within the limit, one hundredth for the rounding and `spare`
      minutes in every continuation whose checks find at most `spare` minutes in flight, if and
      only if what is used, open and in flight now fits into that. With `spare` zero: the limit
      holds for good if and only if the admissions in flight fit together. */
  lemma LimitKeptIff(s: State, spare: real, plan: Plan)
    requires Books(s, plan) && spare >= 0.0
    ensures (forall actions | CarefulRun(s, actions, spare, plan) :: WithinLimit(Run(s, actions, plan).ledger, spare, plan))
      <==> Used(s.ledger) + Reserved(s.ledger) + PendingMinutes(s, plan) <= plan.minutesPerMonth + s.ledger.topUps + 0.01 + spare
  {
    if Fits(s, spare, plan) {
      forall actions | CarefulRun(s, actions, spare, plan)
        ensures WithinLimit(Run(s, actions, plan).ledger, spare, plan)
      {
        RunKeepsFit(s, actions, spare, plan);
        PendingPositive(Run(s, actions, plan), plan);
      }
    } else {
      var actions := ReserveAll(s, spare, plan);
      assert !WithinLimit(Run(s, actions, plan).ledger, spare, plan);
    }
  }

  ghost predicate WithinLimit(l: Ledger, spare: real, plan: Plan) {
    Used(l) + Reserved(l) <= plan.minutesPerMonth + l.topUps + 0.01 + spare
  }

  /** Over every execution whose new calls are orderly and whose checks find at most `spare`
      minutes in flight: the books balance, the shown reservation is the open sum, nothing is
      settled both ways, and the limit is exceeded by the rounding and `spare` at most. */
  lemma LedgerSafe(actions: seq<Action>, spare: real, plan: Plan)
    requires plan.minutesPerMonth >= 0.0 && spare >= 0.0 && CarefulRun(Init, actions, spare, plan)
    ensures var l := Run(Init, actions, plan).ledger;
      && Total(l.reserved) == Total(l.committed) + Total(l.refunded) + Total(Open(l))
      && Reserved(l) == Total(Open(l))
      && l.committed.Keys !! l.refunded.Keys
      && Used(l) + Reserved(l) <= plan.minutesPerMonth + l.topUps + 0.01 + spare
  {
    assert Open(EmptyLedger) == map[] && Pending(Init, plan) == map[];
    assert Books(Init, plan) && Fits(Init, spare, plan);
    RunKeepsFit(Init, actions, spare, plan);
    var s := Run(Init, actions, plan);
    PendingPositive(s, plan);
    Conservation(s.ledger, plan.durations);
    ReservedIsOpen(s.ledger, plan.durations);
  }

  /** The spare minutes are needed: two checks before both reservations, each with the other's
      minutes in flight at most, and the limit is exceeded by just these. */
  lemma SplitAdmissionExceedsLimit(minutes: nat)
    requires minutes > 0
    ensures
      var ms := 60000 * minutes;
      var plan := Plan(map[0 := ms, 1 := ms], minutes as real, ms as real);
      var l := Run(Init, [Check(0, Key(0, 0)), Check(1, Key(1, 1))] + [Reserve(0), Reserve(1)], plan).ledger;
      Used(l) + Reserved(l) == plan.minutesPerMonth + l.topUps + minutes as real
  {
    var ms := 60000 * minutes;
    var plan := Plan(map[0 := ms, 1 := ms], minutes as real, ms as real);
    var a, b := Key(0, 0), Key(1, 1);
    assert Minutes(ms) == minutes as real;
    assert RoundUsage(0.0) == 0.0;
    var both := State(EmptyLedger, map[], map[0 := a, 1 := b]);
    RunTwo(Init, Check(0, a), Check(1, b), plan);
    assert Run(Init, [Check(0, a), Check(1, b)], plan) == both;
    RunTwo(both, Reserve(0), Reserve(1), plan);
    RunOn(Init, [Check(0, a), Check(1, b)], [Reserve(0), Reserve(1)], plan);
    ReserveAddsMinutes(EmptyLedger, a, plan.durations);
    ReserveKeepsSound(EmptyLedger, a, plan.durations);
    ReserveAddsMinutes(LedgerReserve(EmptyLedger, a, plan.durations), b, plan.durations);
  }
}
