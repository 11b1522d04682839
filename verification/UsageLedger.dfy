/** The minutes ledger of one workspace in one billing period: a reservation per run of a
    video, settled by a commit or by a refund. Durations are fixed once they are known; a
    video without an entry has none yet. */
module UsageLedger {
  import opened Common

  type Id = nat

  /** One run of a video; the three idempotency keys differ by their prefix. */
  datatype Key = Key(video: Id, run: Id)

  datatype Ledger = Ledger(reserved: map<Key, real>, committed: map<Key, real>, refunded: map<Key, real>, topUps: real)

  const EmptyLedger := Ledger(map[], map[], map[], 0.0)

  datatype Settlement = Committed | Refunded

  function Minutes(durationMs: nat): real {
    durationMs as real / 60000.0
  }

  function DurationOf(durations: map<Id, nat>, video: Id): nat {
    if video in durations then durations[video] else 0
  }

  // ----- sums over rows

  ghost function Total(rows: map<Key, real>): real {
    if rows == map[] then 0.0
    else
      var k :| k in rows;
      rows[k] + Total(rows - {k})
  }

  lemma {:induction false} TotalTake(rows: map<Key, real>, k: Key)
    requires k in rows
    ensures Total(rows) == rows[k] + Total(rows - {k})
    decreases |rows|
  {
    var c :| c in rows && Total(rows) == rows[c] + Total(rows - {c});
    if c != k {
      TotalTake(rows - {c}, k);
      TotalTake(rows - {k}, c);
      assert rows - {c} - {k} == rows - {k} - {c};
    }
  }

  lemma TotalAdd(rows: map<Key, real>, k: Key, q: real)
    requires k !in rows
    ensures Total(rows[k := q]) == Total(rows) + q
  {
    TotalTake(rows[k := q], k);
    assert rows[k := q] - {k} == rows;
  }

  lemma {:induction false} TotalNonNegative(rows: map<Key, real>)
    requires forall k | k in rows :: rows[k] >= 0.0
    ensures Total(rows) >= 0.0
    decreases |rows|
  {
    if rows != map[] {
      var c :| c in rows && Total(rows) == rows[c] + Total(rows - {c});
      TotalNonNegative(rows - {c});
    }
  }

  function Only(rows: map<Key, real>, keys: set<Key>): map<Key, real> {
    map k | k in rows && k in keys :: rows[k]
  }

  lemma {:induction false} TotalSplit(rows: map<Key, real>, keys: set<Key>)
    requires keys <= rows.Keys
    ensures Total(rows) == Total(Only(rows, keys)) + Total(rows - keys)
    decreases |keys|
  {
    if keys == {} {
      assert Only(rows, keys) == map[] && rows - keys == rows;
    } else {
      var k :| k in keys;
      TotalSplit(rows, keys - {k});
      TotalTake(Only(rows, keys), k);
      assert Only(rows, keys) - {k} == Only(rows, keys - {k});
      TotalTake(rows - (keys - {k}), k);
      assert rows - (keys - {k}) - {k} == rows - keys;
    }
  }

  /** Taking rows away never raises the total. */
  lemma TotalLess(rows: map<Key, real>, keys: set<Key>)
    requires keys <= rows.Keys && forall k | k in rows :: rows[k] >= 0.0
    ensures Total(rows - keys) <= Total(rows)
  {
    TotalSplit(rows, keys);
    TotalNonNegative(Only(rows, keys));
  }

  /** The reservations neither committed nor refunded. */
  function Open(l: Ledger): map<Key, real> {
    l.reserved - l.committed.Keys - l.refunded.Keys
  }

  // ----- one settlement at most

  /** What every step keeps; `durations` are in milliseconds. */
  ghost predicate Sound(l: Ledger, durations: map<Id, nat>) {
    && l.committed.Keys !! l.refunded.Keys
    && (forall k | k in l.reserved :: k.video in durations && l.reserved[k] == Minutes(durations[k.video]))
    && (forall k | k in l.committed :: k in l.reserved && l.committed[k] == l.reserved[k])
    && (forall k | k in l.refunded :: k in l.reserved && l.refunded[k] == l.reserved[k])
    && l.topUps >= 0.0
  }

  /** Reserved minutes are committed, refunded, or still open; nothing else happens to them. */
  lemma Conservation(l: Ledger, durations: map<Id, nat>)
    requires Sound(l, durations)
    ensures Total(l.reserved) == Total(l.committed) + Total(l.refunded) + Total(Open(l))
    ensures Total(Open(l)) >= 0.0 && Total(l.committed) >= 0.0 && Total(l.refunded) >= 0.0
  {
    TotalSplit(l.reserved, l.committed.Keys);
    assert Only(l.reserved, l.committed.Keys) == l.committed;
    var rest := l.reserved - l.committed.Keys;
    TotalSplit(rest, l.refunded.Keys);
    assert Only(rest, l.refunded.Keys) == l.refunded;
    TotalNonNegative(l.committed);
    TotalNonNegative(l.refunded);
    TotalNonNegative(Open(l));
  }

  // ----- the snapshot and the admission check

  function RoundUsage(value: real): real {
    (value * 100.0 + 0.5).Floor as real / 100.0
  }

  lemma RoundingError(value: real)
    ensures value - 0.005 <= RoundUsage(value) <= value + 0.005
    ensures RoundUsage(value) * 100.0 == (RoundUsage(value) * 100.0).Floor as real
  {
    var scaled := value * 100.0 + 0.5;
    assert scaled - 1.0 < scaled.Floor as real <= scaled;
  }

  datatype Snapshot = Snapshot(minutes: real, reservedMinutes: real, topUpMinutes: real, limit: real, remaining: real)

  ghost function Used(l: Ledger): real {
    Total(l.committed)
  }

  ghost function Reserved(l: Ledger): real {
    Max(0.0, Total(l.reserved) - Used(l) - Total(l.refunded))
  }

  ghost function Limit(l: Ledger, minutesPerMonth: real): real {
    minutesPerMonth + l.topUps
  }

  ghost function SnapshotOf(l: Ledger, minutesPerMonth: real): Snapshot {
    var limit := Limit(l, minutesPerMonth);
    Snapshot(RoundUsage(Used(l)), RoundUsage(Reserved(l)), RoundUsage(l.topUps), limit,
             RoundUsage(Max(0.0, limit - Used(l) - Reserved(l))))
  }

  /** The shown reservation is exactly the open sum: the lower bound of zero never takes effect. */
  lemma ReservedIsOpen(l: Ledger, durations: map<Id, nat>)
    requires Sound(l, durations)
    ensures Reserved(l) == Total(Open(l)) == Total(l.reserved) - Used(l) - Total(l.refunded)
  {
    Conservation(l, durations);
  }

  /** `assertCanProcessVideo` for an account in good standing. */
  predicate Admits(snapshot: Snapshot, durationMs: nat, maximumSeconds: real, alreadyReserved: bool) {
    var durationSeconds := durationMs as real / 1000.0;
    var requestedMinutes := if alreadyReserved then 0.0 else durationSeconds / 60.0;
    durationSeconds <= maximumSeconds && snapshot.minutes + snapshot.reservedMinutes + requestedMinutes <= snapshot.limit
  }

  /** Bought minutes raise the limit by just as many, and what remains with it. */
  lemma TopUpRaisesLimit(l: Ledger, minutes: real, minutesPerMonth: real)
    ensures var l' := l.(topUps := l.topUps + minutes);
      && SnapshotOf(l', minutesPerMonth).limit == SnapshotOf(l, minutesPerMonth).limit + minutes
      && SnapshotOf(l, minutesPerMonth).limit == minutesPerMonth + l.topUps
      && Used(l') == Used(l) && Reserved(l') == Reserved(l)
  {
  }

  /** The numbers that are shown, each half a hundredth of a minute off at most. */
  lemma SnapshotShows(l: Ledger, minutesPerMonth: real, durations: map<Id, nat>)
    requires Sound(l, durations)
    ensures var snapshot := SnapshotOf(l, minutesPerMonth);
      && Near(snapshot.minutes, Total(l.committed))
      && Near(snapshot.reservedMinutes, Total(Open(l)))
      && Near(snapshot.topUpMinutes, l.topUps)
      && Near(snapshot.remaining, Max(0.0, minutesPerMonth + l.topUps - Total(l.committed) - Total(Open(l))))
  {
    ReservedIsOpen(l, durations);
    RoundingError(Used(l));
    RoundingError(Reserved(l));
    RoundingError(l.topUps);
    RoundingError(Max(0.0, Limit(l, minutesPerMonth) - Used(l) - Reserved(l)));
  }

  predicate Near(shown: real, exact: real) {
    exact - 0.005 <= shown <= exact + 0.005
  }

  /** What `Admits` says of the exact minutes: each of the two rounded terms is half a hundredth off at most. */
  lemma AdmitsWithinRounding(l: Ledger, minutesPerMonth: real, durationMs: nat, maximumSeconds: real, alreadyReserved: bool)
    ensures
      var ok := Admits(SnapshotOf(l, minutesPerMonth), durationMs, maximumSeconds, alreadyReserved);
      var wanted := Used(l) + Reserved(l) + if alreadyReserved then 0.0 else Minutes(durationMs);
      && (ok ==> durationMs as real / 1000.0 <= maximumSeconds && wanted <= minutesPerMonth + l.topUps + 0.01)
      && (!ok ==> durationMs as real / 1000.0 > maximumSeconds || wanted > minutesPerMonth + l.topUps - 0.01)
  {
    RoundingError(Used(l));
    RoundingError(Reserved(l));
    assert durationMs as real / 1000.0 / 60.0 == Minutes(durationMs);
  }

  /** No reservation without a known, positive duration. */
  function LedgerReserve(l: Ledger, key: Key, durations: map<Id, nat>): Ledger {
    if DurationOf(durations, key.video) == 0 then l
    else l.(reserved := l.reserved[key := Minutes(durations[key.video])])
  }

  function Rows(l: Ledger, state: Settlement): map<Key, real> {
    if state == Committed then l.committed else l.refunded
  }

  function Opposite(state: Settlement): Settlement {
    if state == Committed then Refunded else Committed
  }

  /** The final upsert of a transition: an existing row is left alone. */
  function LedgerSettle(l: Ledger, key: Key, state: Settlement, quantity: real): Ledger {
    if key in Rows(l, state) then l
    else if state == Committed then l.(committed := l.committed[key := quantity])
    else l.(refunded := l.refunded[key := quantity])
  }

  /** A whole transition that nobody disturbs. */
  function LedgerTransition(l: Ledger, key: Key, state: Settlement): Ledger {
    if key in Rows(l, Opposite(state)) || key !in l.reserved then l
    else LedgerSettle(l, key, state, l.reserved[key])
  }

  /** A reservation takes the whole duration of a video that has one, and nothing of any other. */
  lemma ReservationIs(l: Ledger, key: Key, durations: map<Id, nat>)
    ensures key.video !in durations || durations[key.video] == 0 ==> LedgerReserve(l, key, durations) == l
    ensures key.video in durations && durations[key.video] > 0 ==>
      LedgerReserve(l, key, durations) == l.(reserved := l.reserved[key := durations[key.video] as real / 60000.0])
  {
  }

  /** A commit charges what was reserved unless it was refunded, a refund gives it back unless it
      was committed; neither does anything twice, or without a reservation. */
  lemma TransitionIs(l: Ledger, key: Key)
    ensures LedgerTransition(l, key, Committed) ==
      if key in l.reserved && key !in l.refunded && key !in l.committed
      then l.(committed := l.committed[key := l.reserved[key]]) else l
    ensures LedgerTransition(l, key, Refunded) ==
      if key in l.reserved && key !in l.committed && key !in l.refunded
      then l.(refunded := l.refunded[key := l.reserved[key]]) else l
  {
  }

  lemma ReserveKeepsSound(l: Ledger, key: Key, durations: map<Id, nat>)
    requires Sound(l, durations)
    ensures Sound(LedgerReserve(l, key, durations), durations)
  {
  }

  lemma SettleKeepsSound(l: Ledger, key: Key, state: Settlement, durations: map<Id, nat>)
    requires Sound(l, durations) && key in l.reserved && key !in Rows(l, Opposite(state))
    ensures Sound(LedgerSettle(l, key, state, l.reserved[key]), durations)
  {
  }

  /** Settling moves minutes out of the open ones; nothing is charged twice. */
  lemma SettleMovesMinutes(l: Ledger, key: Key, state: Settlement, durations: map<Id, nat>)
    requires Sound(l, durations) && key in l.reserved && key !in Rows(l, Opposite(state)) && key !in Rows(l, state)
    ensures var l' := LedgerSettle(l, key, state, l.reserved[key]);
      && Reserved(l') == Reserved(l) - l.reserved[key]
      && Used(l') == Used(l) + if state == Committed then l.reserved[key] else 0.0
  {
    var l' := LedgerSettle(l, key, state, l.reserved[key]);
    SettleKeepsSound(l, key, state, durations);
    ReservedIsOpen(l, durations);
    ReservedIsOpen(l', durations);
    TotalAdd(Rows(l, state), key, l.reserved[key]);
  }

  /** A reservation of a new key adds its minutes to the open ones. */
  lemma ReserveAddsMinutes(l: Ledger, key: Key, durations: map<Id, nat>)
    requires Sound(l, durations) && key !in l.reserved && DurationOf(durations, key.video) > 0
    ensures var l' := LedgerReserve(l, key, durations);
      Used(l') == Used(l) && Reserved(l') == Reserved(l) + Minutes(durations[key.video])
  {
    var l' := LedgerReserve(l, key, durations);
    ReserveKeepsSound(l, key, durations);
    ReservedIsOpen(l, durations);
    ReservedIsOpen(l', durations);
    TotalAdd(l.reserved, key, Minutes(durations[key.video]));
  }

  /** A second reservation of one key changes nothing. */
  lemma ReserveTwice(l: Ledger, key: Key, durations: map<Id, nat>)
    requires Sound(l, durations) && key in l.reserved
    ensures LedgerReserve(l, key, durations) == l
  {
    assert LedgerReserve(l, key, durations).reserved == l.reserved;
  }

  // ----- the service

  datatype Admission = Admitted | EmailUnverified | AccountBlocked | VideoTooLong | OverLimit

  /** One process of the service; `cached` is its own, the rows are everybody's. */
  class UsageService {
    var reserved: map<Key, real>
    var committed: map<Key, real>
    var refunded: map<Key, real>
    var topUps: real
    var cached: Option<Snapshot>
    const durations: map<Id, nat>
    const minutesPerMonth: real
    const maximumSeconds: real

    ghost function Rows(): Ledger
      reads this
    {
      Ledger(reserved, committed, refunded, topUps)
    }

    ghost predicate Valid()
      reads this
    {
      Sound(Rows(), durations)
    }

    constructor (durations: map<Id, nat>, minutesPerMonth: real, maximumSeconds: real)
      requires minutesPerMonth >= 0.0
      ensures Valid() && Rows() == EmptyLedger && cached.None?
      ensures this.durations == durations && this.minutesPerMonth == minutesPerMonth && this.maximumSeconds == maximumSeconds
    {
      reserved, committed, refunded, topUps, cached := map[], map[], map[], 0.0, None;
      this.durations, this.minutesPerMonth, this.maximumSeconds := durations, minutesPerMonth, maximumSeconds;
    }

    /** A cached answer is given again as it is, whatever other processes wrote since; otherwise
        the answer is the present snapshot, and is kept. */
    method Current() returns (snapshot: Snapshot)
      modifies this`cached
      ensures snapshot == if old(cached).Some? then old(cached).value else SnapshotOf(Rows(), minutesPerMonth)
      ensures cached == Some(snapshot)
    {
      if cached.Some? { return cached.value; }
      snapshot := TakeSnapshot();
      cached := Some(snapshot);
    }

    method TakeSnapshot() returns (snapshot: Snapshot)
      ensures snapshot == SnapshotOf(Rows(), minutesPerMonth)
      ensures snapshot.limit == minutesPerMonth + topUps
    {
      var used := Sum(committed);
      var reservations := Sum(reserved);
      var refunds := Sum(refunded);
      var open := Max(0.0, reservations - used - refunds);
      var limit := minutesPerMonth + topUps;
      snapshot := Snapshot(RoundUsage(used), RoundUsage(open), RoundUsage(topUps), limit,
                           RoundUsage(Max(0.0, limit - used - open)));
    }

    /** Never from the cache. The reasons for a refusal are looked at in the order below. A run
        that passes fits the limit, and one that is turned away for it does not, each up to one
        hundredth of a minute; an unknown duration takes none. */
    method AssertCanProcessVideo(key: Key, emailVerified: bool, blocked: bool) returns (r: Admission)
      ensures r.EmailUnverified? <==> !emailVerified
      ensures r.AccountBlocked? <==> emailVerified && blocked
      ensures var ms := DurationOf(durations, key.video);
        var wanted := Used(Rows()) + Reserved(Rows()) + if key in reserved then 0.0 else Minutes(ms);
        && (r.VideoTooLong? <==> emailVerified && !blocked && ms as real / 1000.0 > maximumSeconds)
        && (r.Admitted? <==> emailVerified && !blocked && Admits(SnapshotOf(Rows(), minutesPerMonth), ms, maximumSeconds, key in reserved))
        && (r.Admitted? ==> wanted <= minutesPerMonth + topUps + 0.01)
        && (r.OverLimit? ==> wanted > minutesPerMonth + topUps - 0.01)
    {
      if !emailVerified { return EmailUnverified; }
      var snapshot := TakeSnapshot();
      if blocked { return AccountBlocked; }
      var durationSeconds := DurationOf(durations, key.video) as real / 1000.0;
      if durationSeconds > maximumSeconds { return VideoTooLong; }
      var requestedMinutes := if key in reserved then 0.0 else durationSeconds / 60.0;
      AdmitsWithinRounding(Rows(), minutesPerMonth, DurationOf(durations, key.video), maximumSeconds, key in reserved);
      if snapshot.minutes + snapshot.reservedMinutes + requestedMinutes > snapshot.limit { return OverLimit; }
      return Admitted;
    }

    method ReserveProcessingMinutes(key: Key)
      requires Valid()
      modifies this
      ensures Valid() && Rows() == LedgerReserve(old(Rows()), key, durations)
      ensures cached == if DurationOf(durations, key.video) == 0 then old(cached) else None
    {
      var durationMs := DurationOf(durations, key.video);
      if durationMs == 0 { return; }
      reserved := reserved[key := Minutes(durationMs)];
      cached := None;
    }

    method TransitionProcessingMinutes(key: Key, state: Settlement)
      requires Valid()
      modifies this
      ensures Valid() && Rows() == LedgerTransition(old(Rows()), key, state)
      ensures Rows() != old(Rows()) ==> cached.None?
    {
      if state == Committed {
        if key in refunded || key !in reserved { return; }
        if key !in committed { committed := committed[key := reserved[key]]; }
      } else {
        if key in committed || key !in reserved { return; }
        if key !in refunded { refunded := refunded[key := reserved[key]]; }
      }
      cached := None;
    }
  }

  method Sum(rows: map<Key, real>) returns (total: real)
    ensures total == Total(rows)
  {
    total := 0.0;
    var rest := rows;
    while rest != map[]
      invariant total + Total(rest) == Total(rows)
      decreases |rest|
    {
      assert exists k :: k in rest;
      var keys := rest.Keys;
      var k :| k in keys;
      TotalTake(rest, k);
      total := total + rest[k];
      rest := rest - {k};
    }
  }
}
