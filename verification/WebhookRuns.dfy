/**
 Any number of dispatch workers over one table of notifications. A worker claims rows under a
 lease, calls the receiver, and saves what came of it, or crashes. As with polling, the saves
 compare nothing but the id, so a worker is assumed to save before its lease ends.
 */
module WebhookRuns {
  import opened Values
  import opened Tables
  import opened LeaseQueue
  import opened OutboxStore
  import opened Delivery
  import opened PaymentReceiptTracking

  // `answer` is what the receiver said, once it has been called.
  datatype Holding = Holding(worker: int, id: int, copy: NotificationRow, until: Time, answer: Option<bool>)

  // `accepted` lists the calls the receiver accepted; `ledgers` the attempts that were saved.
  datatype State = State(
    clock: Time,
    rows: map<int, NotificationRow>,
    held: set<Holding>,
    accepted: seq<int>,
    ledgers: map<int, seq<Attempt>>)

  datatype Query = Query(now: Time, ttl: int, limit: int, skipped: set<int>)

  datatype Action =
    | Tick(clock: Time)
    | Enqueue(id: int, row: NotificationRow)
    | Claim(worker: int, q: Query)
    | Notify(h: Holding, ok: bool)
    | Save(h: Holding, at: Time)
    | Crash(h: Holding)

  predicate Live(s: State, h: Holding) { h in s.held && s.clock < h.until }

  function Due(rows: map<int, NotificationRow>, q: Query): set<int> {
    Taken(DueOf(rows), Eligible(rows, q.now) - q.skipped, q.limit)
  }

  function HoldingOf(rows: map<int, NotificationRow>, worker: int, q: Query, id: int): Holding
    requires id in rows
  {
    Holding(worker, id, rows[id].(leaseUntil := Some(q.now + q.ttl)), q.now + q.ttl, None)
  }

  function Holdings(rows: map<int, NotificationRow>, worker: int, q: Query): set<Holding> {
    set id | id in Due(rows, q) :: HoldingOf(rows, worker, q, id)
  }

  ghost predicate DoEnqueue(s: State, id: int, row: NotificationRow, s': State) {
    && id > 0 && id !in s.rows
    && IsNew(row)
    && s' == s.(rows := s.rows[id := row], ledgers := s.ledgers[id := []])
  }

  ghost predicate DoClaim(s: State, worker: int, q: Query, s': State) {
    && q.now != ZERO_TIME && q.now <= s.clock
    && s' == s.(rows := Leased(s.rows, Due(s.rows, q), q.now + q.ttl), held := s.held + Holdings(s.rows, worker, q))
  }

  ghost predicate DoNotify(s: State, h: Holding, ok: bool, s': State) {
    && h in s.held && h.answer.None?
    && s' ==
         s.(held := s.held - {h} + {h.(answer := Some(ok))}, accepted := if ok then s.accepted + [h.id] else s.accepted)
  }

  // The worker has called the receiver, and can tell what to store.
  predicate CanSave(limits: Limits, s: State, h: Holding, at: Time) {
    && h in s.held && h.answer.Some? && h.id in s.rows && h.id in s.ledgers
    && ResultOf(h.id, h.copy, Attempt(h.answer.value, at), limits).Success?
  }

  // What a save writes, whoever makes it: the row by its id, from the copy.
  function AfterSave(limits: Limits, s: State, h: Holding, at: Time): State
    requires CanSave(limits, s, h, at)
  {
    var a := Attempt(h.answer.value, at);
    s.(rows := s.rows[h.id := RowAfter(h.id, s.rows[h.id], h.copy, a, limits)],
       held := s.held - {h},
       ledgers := s.ledgers[h.id := s.ledgers[h.id] + [a]])
  }

  ghost predicate DoSave(limits: Limits, s: State, h: Holding, at: Time, s': State) {
    Live(s, h) && CanSave(limits, s, h, at) && s' == AfterSave(limits, s, h, at)
  }

  // The same save by a worker whose lease has run out.
  ghost predicate DoLateSave(limits: Limits, s: State, h: Holding, at: Time, s': State) {
    s.clock >= h.until && CanSave(limits, s, h, at) && s' == AfterSave(limits, s, h, at)
  }

  ghost predicate Next(limits: Limits, s: State, a: Action, s': State) {
    match a
    case Tick(clock) => s.clock <= clock && s' == s.(clock := clock)
    case Enqueue(id, row) => DoEnqueue(s, id, row, s')
    case Claim(worker, q) => DoClaim(s, worker, q, s')
    case Notify(h, ok) => DoNotify(s, h, ok, s')
    case Save(h, at) => DoSave(limits, s, h, at, s')
    case Crash(h) => h in s.held && s' == s.(held := s.held - {h})
  }

  ghost predicate SomeNext(limits: Limits, s: State, s': State) {
    exists a :: Next(limits, s, a, s')
  }

  ghost predicate Init(s: State) {
    s.rows == map[] && s.held == {} && s.accepted == [] && s.ledgers == map[]
  }

  ghost predicate StepAt(limits: Limits, run: seq<State>, i: nat) {
    i + 1 < |run| && SomeNext(limits, run[i], run[i + 1])
  }

  ghost predicate IsRun(limits: Limits, run: seq<State>) {
    run != [] && Init(run[0]) && forall i: nat | i + 1 < |run| :: StepAt(limits, run, i)
  }

  /******* The invariant *******/

  // The attempts of a row: all failed, except that the last one may have been delivered.
  ghost predicate OnlyLastDelivered(attempts: seq<Attempt>) {
    forall i | 0 <= i < |attempts| - 1 :: !attempts[i].delivered
  }

  predicate WasDelivered(attempts: seq<Attempt>) {
    attempts != [] && attempts[|attempts| - 1].delivered
  }

  // What a stored row says is what its attempts say.
  ghost predicate RowTellsAttempts(limits: Limits, row: NotificationRow, attempts: seq<Attempt>) {
    && OnlyLastDelivered(attempts)
    && row.attempts == |attempts| - (if WasDelivered(attempts) then 1 else 0)
    && row.attempts <= limits.maxAttempts
    && row.status == (if WasDelivered(attempts) then Sent
                      else if |attempts| == limits.maxAttempts then Failed
                      else Pending)
    && (row.status == Sent <==> row.deliveredAt.Some?)
    && (row.status == Sent ==> row.attempts < limits.maxAttempts)
    && TimesTellLast(limits, row, attempts)
  }

  // A row that is still pending after attempts is due when the delay after the last one is over,
  // and a delivery has the time of the attempt that was accepted.
  predicate TimesTellLast(limits: Limits, row: NotificationRow, attempts: seq<Attempt>) {
    attempts != [] ==>
      var last := attempts[|attempts| - 1];
      && (row.status == Pending ==> row.nextAttemptAt == last.at + limits.retryDelay)
      && (row.status == Sent ==> row.deliveredAt == Some(last.at))
  }

  ghost predicate RowsTellAttempts(limits: Limits, s: State) {
    && s.rows.Keys == s.ledgers.Keys
    && forall id | id in s.rows ::
         && id > 0 && RowTellsAttempts(limits, s.rows[id], s.ledgers[id])
         && (s.rows[id].status == Sent ==> id in s.accepted)
  }

  predicate IsCurrent(s: State, h: Holding) {
    && h.id in s.rows && s.rows[h.id] == h.copy && h.copy.status == Pending
    && h.copy.leaseUntil == Some(h.until)
  }

  ghost predicate LeasesExclusive(s: State) {
    && (forall h | Live(s, h) :: IsCurrent(s, h))
    && (forall g, h | Live(s, g) && Live(s, h) && g.id == h.id :: g == h)
  }

  // A held copy, however old, was pending, and counts no more attempts than the row does now.
  predicate IsPast(limits: Limits, row: NotificationRow, copy: NotificationRow) {
    copy.status == Pending && 0 <= copy.attempts <= row.attempts && copy.attempts < limits.maxAttempts
  }

  ghost predicate CopiesArePast(limits: Limits, s: State) {
    forall h | h in s.held ::
      && h.id in s.rows && IsPast(limits, s.rows[h.id], h.copy)
      && (h.answer == Some(true) ==> h.id in s.accepted)
  }

  ghost predicate Inv(limits: Limits, s: State) {
    RowsTellAttempts(limits, s) && LeasesExclusive(s) && CopiesArePast(limits, s)
  }

  // One more attempt on a pending row, made on an up-to-date copy.
  lemma AttemptTells(limits: Limits, id: int, row: NotificationRow, attempts: seq<Attempt>, a: Attempt)
    requires ValidLimits(limits) && RowTellsAttempts(limits, row, attempts) && row.status == Pending
    requires ResultOf(id, row, a, limits).Success?
    ensures RowTellsAttempts(limits, RowAfter(id, row, row, a, limits), attempts + [a])
    ensures Remaining(limits, RowAfter(id, row, row, a, limits)) < Remaining(limits, row)
    ensures var after := RowAfter(id, row, row, a, limits);
      && after.event == row.event && after.customerReference == row.customerReference && after.leaseUntil.None?
      && (after.status == Sent <==> a.delivered)
      && (after.status == Pending <==> !a.delivered && row.attempts + 1 < limits.maxAttempts)
      && after.attempts == row.attempts + (if a.delivered then 0 else 1)
      && (after.status == Pending ==> after.nextAttemptAt == a.at + limits.retryDelay)
      && (after.status == Sent ==> after.deliveredAt == Some(a.at))
  {
    CountIsExactBelowTheLimit(1, row.attempts, limits.maxAttempts, 1, limits.retryDelay);
    var all := attempts + [a];
    forall i | 0 <= i < |all| - 1 ensures !all[i].delivered {
      assert all[i] == attempts[i];
    }
  }

  // How many failures a notification can still take.
  function Remaining(limits: Limits, row: NotificationRow): int {
    if row.status == Pending then limits.maxAttempts - row.attempts else 0
  }

  lemma AttemptsOnlyGrow(limits: Limits, id: int, row: NotificationRow, a: Attempt)
    requires ValidLimits(limits) && 0 <= row.attempts < limits.maxAttempts && ResultOf(id, row, a, limits).Success?
    ensures row.attempts <= RowAfter(id, row, row, a, limits).attempts
  {
    CountIsExactBelowTheLimit(1, row.attempts, limits.maxAttempts, 1, limits.retryDelay);
  }

  lemma SaveKeepsInv(limits: Limits, s: State, h: Holding, at: Time, s': State)
    requires ValidLimits(limits) && Inv(limits, s) && DoSave(limits, s, h, at, s')
    ensures Inv(limits, s')
  {
    assert IsCurrent(s, h);
    AttemptTells(limits, h.id, s.rows[h.id], s.ledgers[h.id], Attempt(h.answer.value, at));
    AttemptsOnlyGrow(limits, h.id, s.rows[h.id], Attempt(h.answer.value, at));
    forall g | Live(s', g) ensures IsCurrent(s', g) {
      assert Live(s, g) && g != h;
    }
  }

  lemma ClaimKeepsCopies(limits: Limits, s: State, worker: int, q: Query, s': State)
    requires RowsTellAttempts(limits, s) && CopiesArePast(limits, s) && DoClaim(s, worker, q, s')
    ensures CopiesArePast(limits, s')
  {
    forall h | h in s'.held
      ensures h.id in s'.rows && IsPast(limits, s'.rows[h.id], h.copy)
        && (h.answer == Some(true) ==> h.id in s'.accepted)
    {
      if h !in s.held {
        assert h in Holdings(s.rows, worker, q);
        assert RowTellsAttempts(limits, s.rows[h.id], s.ledgers[h.id]);
      }
    }
  }

  lemma ClaimKeepsInv(limits: Limits, s: State, worker: int, q: Query, s': State)
    requires Inv(limits, s) && DoClaim(s, worker, q, s')
    ensures Inv(limits, s')
  {
    ClaimKeepsCopies(limits, s, worker, q, s');
    forall h | Live(s', h)
      ensures IsCurrent(s', h) && (h in s.held <==> h.id !in Due(s.rows, q))
    {
      if h in s.held {
        assert Live(s, h) && IsCurrent(s, h);
      } else {
        assert h in Holdings(s.rows, worker, q);
      }
    }
    forall g, h | Live(s', g) && Live(s', h) && g.id == h.id ensures g == h {
      if g in s.held { assert Live(s, g) && Live(s, h); }
    }
  }

  // Calling the receiver writes nothing, so it does not matter when it happens.
  lemma NotifyKeepsInv(limits: Limits, s: State, h: Holding, ok: bool, s': State)
    requires Inv(limits, s) && DoNotify(s, h, ok, s')
    ensures Inv(limits, s')
  {
    var called := h.(answer := Some(ok));
    forall g | Live(s', g) ensures IsCurrent(s', g) && (g.id == h.id && g != called ==> Live(s, g)) {
      if g == called { assert Live(s, h) && IsCurrent(s, h); } else { assert Live(s, g) && IsCurrent(s, g); }
    }
    forall f, g | Live(s', f) && Live(s', g) && f.id == g.id ensures f == g {
      assert f == called || Live(s, f);
      assert g == called || Live(s, g);
      assert f == called || g == called ==> Live(s, h);
    }
  }

  lemma EnqueueKeepsInv(limits: Limits, s: State, id: int, row: NotificationRow, s': State)
    requires ValidLimits(limits) && Inv(limits, s) && DoEnqueue(s, id, row, s')
    ensures Inv(limits, s')
  {
    forall h | Live(s', h) ensures IsCurrent(s', h) {
      assert Live(s, h);
    }
  }

  lemma NextKeepsInv(limits: Limits, s: State, a: Action, s': State)
    requires ValidLimits(limits) && Inv(limits, s) && Next(limits, s, a, s')
    ensures Inv(limits, s')
  {
    match a {
      case Tick(_) => assert forall h | Live(s', h) :: Live(s, h) && IsCurrent(s, h);
      case Enqueue(id, row) => EnqueueKeepsInv(limits, s, id, row, s');
      case Claim(worker, q) => ClaimKeepsInv(limits, s, worker, q, s');
      case Notify(h, ok) => NotifyKeepsInv(limits, s, h, ok, s');
      case Save(h, at) => SaveKeepsInv(limits, s, h, at, s');
      case Crash(_) => assert forall h | Live(s', h) :: Live(s, h) && IsCurrent(s, h);
    }
  }

  lemma {:induction false} RunsKeepInv(limits: Limits, run: seq<State>, i: nat)
    requires ValidLimits(limits) && IsRun(limits, run) && i < |run|
    ensures Inv(limits, run[i])
  {
    if i > 0 {
      RunsKeepInv(limits, run, i - 1);
      assert StepAt(limits, run, i - 1);
      var a :| Next(limits, run[i - 1], a, run[i]);
      NextKeepsInv(limits, run[i - 1], a, run[i]);
    }
  }

  /******* What holds in every run *******/

  // The counter is the number of failed attempts. It stays below the limit while a delivery is
  // pending, so that the next increment cannot overflow; it is at the limit when the delivery
  // is given up; and a notification is sent only after the receiver accepted it.
  lemma AttemptsAreBounded(limits: Limits, run: seq<State>, i: nat, id: int)
    requires ValidLimits(limits) && IsRun(limits, run) && i < |run| && id in run[i].rows
    ensures id in run[i].ledgers
    ensures var row, attempts := run[i].rows[id], run[i].ledgers[id];
      && (row.status == Pending <==> |attempts| < limits.maxAttempts && !WasDelivered(attempts))
      && (row.status == Pending ==>
           0 <= row.attempts == |attempts| < limits.maxAttempts && row.attempts + 1 < TWO_TO_31)
      && (row.status == Failed ==> row.attempts == |attempts| == limits.maxAttempts)
      && (row.status == Sent ==> id in run[i].accepted && WasDelivered(attempts) && row.attempts == |attempts| - 1)
      && |attempts| <= limits.maxAttempts
  {
    RunsKeepInv(limits, run, i);
    assert RowTellsAttempts(limits, run[i].rows[id], run[i].ledgers[id]);
  }

  // A notification that was refused is not tried again before the delay is over: whoever claims
  // it does so at least that long after the last attempt.
  lemma RetriesWaitTheDelay(
    limits: Limits, run: seq<State>, i: nat, worker: int, q: Query, s': State, id: int)
    requires ValidLimits(limits) && IsRun(limits, run) && i < |run| && Next(limits, run[i], Claim(worker, q), s')
    requires id in run[i].rows && id in run[i].ledgers && run[i].ledgers[id] != []
    ensures var row, last := run[i].rows[id], run[i].ledgers[id][|run[i].ledgers[id]| - 1];
      && (row.status == Pending ==> !last.delivered && row.nextAttemptAt == last.at + limits.retryDelay)
      && (id in Due(run[i].rows, q) ==> q.now >= last.at + limits.retryDelay)
      && (row.status == Sent ==> last.delivered && row.deliveredAt == Some(last.at))
  {
    RunsKeepInv(limits, run, i);
    assert RowTellsAttempts(limits, run[i].rows[id], run[i].ledgers[id]);
  }

  // A saved attempt on a row takes it strictly closer to its end, nothing takes it further
  // away, a row that is sent or failed never changes again, and what is announced never does.
  ghost predicate Advances(limits: Limits, s: State, s': State, id: int) {
    && id in s.rows && id in s'.rows && id in s.ledgers && id in s'.ledgers
    && s.ledgers[id] <= s'.ledgers[id]
    && Remaining(limits, s'.rows[id]) + |s'.ledgers[id]| <= Remaining(limits, s.rows[id]) + |s.ledgers[id]|
    && (s.rows[id].status != Pending ==> s'.rows[id] == s.rows[id])
    && s'.rows[id].event == s.rows[id].event && s'.rows[id].customerReference == s.rows[id].customerReference
  }

  lemma StepAdvances(limits: Limits, s: State, a: Action, s': State, id: int)
    requires ValidLimits(limits) && Inv(limits, s) && Next(limits, s, a, s') && id in s.rows
    ensures Advances(limits, s, s', id)
  {
    if a.Save? {
      assert IsCurrent(s, a.h);
      AttemptTells(limits, a.h.id, s.rows[a.h.id], s.ledgers[a.h.id], Attempt(a.h.answer.value, a.at));
    }
  }

  lemma AdvancesReflexively(limits: Limits, s: State, id: int)
    requires id in s.rows && id in s.ledgers
    ensures Advances(limits, s, s, id) == true
  {
  }

  // An equation is passed on whole, without being taken apart at every step.
  lemma AdvancesTransitively(limits: Limits, a: State, b: State, c: State, id: int)
    requires Advances(limits, a, b, id) == true && Advances(limits, b, c, id) == true
    ensures Advances(limits, a, c, id) == true
  {
  }

  lemma {:induction false} RunAdvances(limits: Limits, run: seq<State>, i: nat, j: nat, id: int)
    requires ValidLimits(limits) && IsRun(limits, run) && i <= j < |run| && id in run[i].rows
    ensures Advances(limits, run[i], run[j], id) == true
  {
    if i < j {
      RunAdvances(limits, run, i, j - 1, id);
      RunStepAdvances(limits, run, j - 1, id);
      AdvancesTransitively(limits, run[i], run[j - 1], run[j], id);
    } else {
      RunsKeepInv(limits, run, i);
      AdvancesReflexively(limits, run[i], id);
    }
  }

  lemma RunStepAdvances(limits: Limits, run: seq<State>, i: nat, id: int)
    requires ValidLimits(limits) && IsRun(limits, run) && i + 1 < |run| && id in run[i].rows
    ensures Advances(limits, run[i], run[i + 1], id) == true
  {
    RunsKeepInv(limits, run, i);
    assert StepAt(limits, run, i);
    var a :| Next(limits, run[i], a, run[i + 1]);
    StepAdvances(limits, run[i], a, run[i + 1], id);
  }

  // So from any moment of a run on, a notification takes at most `Remaining` more attempts,
  // and once it has taken that many it is sent or given up.
  lemma AttemptsRunOut(limits: Limits, run: seq<State>, i: nat, j: nat, id: int)
    requires ValidLimits(limits) && IsRun(limits, run) && i <= j < |run| && id in run[i].rows
    ensures id in run[j].rows && id in run[i].ledgers && id in run[j].ledgers
    ensures |run[j].ledgers[id]| - |run[i].ledgers[id]| <= Remaining(limits, run[i].rows[id])
    ensures |run[j].ledgers[id]| - |run[i].ledgers[id]| == Remaining(limits, run[i].rows[id]) ==>
      run[j].rows[id].status != Pending
  {
    RunAdvances(limits, run, i, j, id);
    AttemptsAreBounded(limits, run, j, id);
  }

  lemma OneHolder(limits: Limits, run: seq<State>, i: nat, g: Holding, h: Holding)
    requires ValidLimits(limits) && IsRun(limits, run) && i < |run|
    requires Live(run[i], g) && Live(run[i], h) && g.id == h.id
    ensures g == h && h.id in run[i].rows && run[i].rows[h.id] == h.copy
  {
    RunsKeepInv(limits, run, i);
    assert IsCurrent(run[i], h);
  }

  // When a row is due and its lease, if any, has run out.
  function ReadyAt(row: NotificationRow): Time {
    Later(row.nextAttemptAt, if row.leaseUntil.Some? then row.leaseUntil.value else 1)
  }

  // The query comes late enough, and no other transaction has the row locked.
  predicate Covers(q: Query, id: int, row: NotificationRow) {
    ReadyAt(row) <= q.now && q.limit > 0 && id !in q.skipped && row.status == Pending
  }

  // Every claim that covers a row takes it, unless it fills its batch with rows that come first.
  lemma ClaimIsFair(limits: Limits, s: State, worker: int, q: Query, s': State, id: int)
    requires Next(limits, s, Claim(worker, q), s') && id in s.rows && Covers(q, id, s.rows[id])
    ensures || HoldingOf(s.rows, worker, q, id) in s'.held
            || (|Due(s.rows, q)| == q.limit && forall other | other in Due(s.rows, q) ::
                 ComesFirst(s.rows, other, id))
  {
    var eligible := Eligible(s.rows, q.now) - q.skipped;
    assert id in eligible;
    if id !in Due(s.rows, q) { OutboxStore.BatchComesFirst(s.rows, eligible, q.limit, id); }
    if id in Due(s.rows, q) { assert HoldingOf(s.rows, worker, q, id) in Holdings(s.rows, worker, q); }
  }

  // A pending notification whose worker crashed is not lost: from the moment it is due and its
  // lease has ended, every claim that covers it can be made, and is fair to it.
  lemma NoNotificationIsLost(limits: Limits, s: State, id: int, worker: int, q: Query)
    requires id in s.rows && Covers(q, id, s.rows[id]) && q.now != ZERO_TIME
    requires q.now <= Later(Later(s.clock, 1), ReadyAt(s.rows[id]))
    ensures var waited := s.(clock := Later(Later(s.clock, 1), ReadyAt(s.rows[id])));
      var claimed := waited.(rows := Leased(s.rows, Due(s.rows, q), q.now + q.ttl),
                             held := s.held + Holdings(s.rows, worker, q));
      && Next(limits, s, Tick(waited.clock), waited) && Next(limits, waited, Claim(worker, q), claimed)
      && (|| HoldingOf(s.rows, worker, q, id) in claimed.held
          || (|Due(s.rows, q)| == q.limit && forall other | other in Due(s.rows, q) ::
               ComesFirst(s.rows, other, id)))
  {
    var waited := s.(clock := Later(Later(s.clock, 1), ReadyAt(s.rows[id])));
    var claimed := waited.(rows := Leased(s.rows, Due(s.rows, q), q.now + q.ttl),
                           held := s.held + Holdings(s.rows, worker, q));
    ClaimIsFair(limits, waited, worker, q, claimed, id);
  }

  /******* Why the hypothesis is needed *******/

  // The guard of a harmless save: the row is still pending, and for a failure nobody counted an
  // attempt in the meantime.
  predicate StillFits(stored: NotificationRow, h: Holding) {
    stored.status == Pending && (h.answer == Some(true) || h.copy.attempts == stored.attempts)
  }

  // A save from a past copy counts the attempt exactly when the guard holds, and otherwise does
  // not bring the row closer to its end.
  lemma PastAttemptTellsExactly(limits: Limits, row: NotificationRow, attempts: seq<Attempt>, h: Holding, at: Time)
    requires ValidLimits(limits) && RowTellsAttempts(limits, row, attempts) && IsPast(limits, row, h.copy)
    requires h.answer.Some? && ResultOf(h.id, h.copy, Attempt(h.answer.value, at), limits).Success?
    ensures var a := Attempt(h.answer.value, at);
      var after := RowAfter(h.id, row, h.copy, a, limits);
      && (RowTellsAttempts(limits, after, attempts + [a]) <==> StillFits(row, h))
      && (Remaining(limits, after) < Remaining(limits, row) <==> StillFits(row, h))
      && (row.status == Sent ==>
           (after.status == Pending <==> h.answer == Some(false) && h.copy.attempts + 1 < limits.maxAttempts))
  {
    CountIsExactBelowTheLimit(1, h.copy.attempts, limits.maxAttempts, 1, limits.retryDelay);
    var a := Attempt(h.answer.value, at);
    var all := attempts + [a];
    assert all[|attempts|] == a && forall i | 0 <= i < |attempts| :: all[i] == attempts[i];
    if WasDelivered(attempts) { assert all[|attempts| - 1].delivered; }
  }

  // In every run: a late save brings the row closer to its end exactly under the guard. A late
  // failure takes back a delivery exactly when its own count is below the limit, and the
  // notification is then sent again.
  lemma LateSaveAdvancesExactly(limits: Limits, run: seq<State>, i: nat, h: Holding, at: Time, s': State)
    requires ValidLimits(limits) && IsRun(limits, run) && i < |run| && DoLateSave(limits, run[i], h, at, s')
    ensures h.id in run[i].rows && h.id in s'.rows
    ensures Remaining(limits, s'.rows[h.id]) < Remaining(limits, run[i].rows[h.id]) <==> StillFits(run[i].rows[h.id], h)
    ensures run[i].rows[h.id].status == Sent ==>
      (s'.rows[h.id].status == Pending <==> h.answer == Some(false) && h.copy.attempts + 1 < limits.maxAttempts)
  {
    RunsKeepInv(limits, run, i);
    assert RowTellsAttempts(limits, run[i].rows[h.id], run[i].ledgers[h.id]);
    PastAttemptTellsExactly(limits, run[i].rows[h.id], run[i].ledgers[h.id], h, at);
  }

  ghost predicate HeldByOther(s: State, h: Holding) {
    exists g :: Live(s, g) && g.id == h.id
  }

  // A late save does no harm at all exactly under the guard and when nobody else holds the row.
  lemma LateSaveIsHarmlessExactly(limits: Limits, run: seq<State>, i: nat, h: Holding, at: Time, s': State)
    requires ValidLimits(limits) && IsRun(limits, run) && i < |run| && DoLateSave(limits, run[i], h, at, s')
    ensures h.id in run[i].rows
    ensures Inv(limits, s') <==> StillFits(run[i].rows[h.id], h) && !HeldByOther(run[i], h)
  {
    var s := run[i];
    RunsKeepInv(limits, run, i);
    assert RowTellsAttempts(limits, s.rows[h.id], s.ledgers[h.id]);
    PastAttemptTellsExactly(limits, s.rows[h.id], s.ledgers[h.id], h, at);
    if Inv(limits, s') {
      assert RowTellsAttempts(limits, s'.rows[h.id], s'.ledgers[h.id]);
      LateHolderNeedsLease(limits, s, h, at, s');
    } else if StillFits(s.rows[h.id], h) && !HeldByOther(s, h) {
      FittingSaveKeepsInv(limits, s, h, at, s');
    }
  }

  lemma LateHolderNeedsLease(limits: Limits, s: State, h: Holding, at: Time, s': State)
    requires DoLateSave(limits, s, h, at, s') && LeasesExclusive(s')
    ensures !HeldByOther(s, h)
  {
    if g :| Live(s, g) && g.id == h.id {
      assert Live(s', g) && IsCurrent(s', g);
    }
  }

  lemma FittingSaveKeepsInv(limits: Limits, s: State, h: Holding, at: Time, s': State)
    requires ValidLimits(limits) && Inv(limits, s) && DoLateSave(limits, s, h, at, s')
    requires StillFits(s.rows[h.id], h) && !HeldByOther(s, h)
    ensures Inv(limits, s')
  {
    PastAttemptTellsExactly(limits, s.rows[h.id], s.ledgers[h.id], h, at);
    CountIsExactBelowTheLimit(1, h.copy.attempts, limits.maxAttempts, 1, limits.retryDelay);
    forall g | Live(s', g) ensures IsCurrent(s', g) {
      assert Live(s, g) && g.id != h.id;
    }
  }

  const SAMPLE_LIMITS := Limits(3, 1)

  const SAMPLE: NotificationRow := NewRow(StatusChanged(1, Watching, PaidConfirmed, 10, 10, 0, 1), "", 1)

  lemma RunExtends(limits: Limits, run: seq<State>, a: Action, s': State) returns (all: seq<State>)
    requires IsRun(limits, run) && Next(limits, run[|run| - 1], a, s')
    ensures IsRun(limits, all) && all == run + [s']
  {
    all := run + [s'];
    forall i: nat | i + 1 < |all| ensures StepAt(limits, all, i) {
      if i + 1 == |run| { assert Next(limits, all[i], a, all[i + 1]); } else { assert StepAt(limits, run, i); }
    }
  }

  // With a single row that is due and free, a claim takes it.
  lemma ClaimOnlyRow(limits: Limits, s: State, worker: int, q: Query, row: NotificationRow) returns (s': State)
    requires s.rows == map[1 := row] && row.status == Pending && row.nextAttemptAt <= q.now <= s.clock
    requires Free(row.leaseUntil, q.now) && q.now != ZERO_TIME && q.limit == 1 && q.skipped == {}
    ensures Next(limits, s, Claim(worker, q), s')
    ensures s' == s.(rows := map[1 := row.(leaseUntil := Some(q.now + q.ttl))],
                     held := s.held + {HoldingOf(s.rows, worker, q, 1)})
  {
    s' := s.(rows := Leased(s.rows, Due(s.rows, q), q.now + q.ttl), held := s.held + Holdings(s.rows, worker, q));
    var eligible := Eligible(s.rows, q.now) - {};
    assert eligible == {1};
    assert Ahead(DueOf(s.rows), eligible, 1) == {};
    assert Due(s.rows, q) == {1};
    assert Holdings(s.rows, worker, q) == {HoldingOf(s.rows, worker, q, 1)} by {
      assert 1 in Due(s.rows, q);
    }
    assert s'.rows == map[1 := row.(leaseUntil := Some(q.now + q.ttl))];
  }

  const FIRST: Holding := Holding(1, 1, SAMPLE.(leaseUntil := Some(2)), 2, Some(false))

  const SECOND: Holding := Holding(2, 1, SAMPLE.(leaseUntil := Some(15)), 15, None)

  // The first call is refused, and its worker is slow to say so.
  lemma SlowWorker() returns (run: seq<State>)
    ensures IsRun(SAMPLE_LIMITS, run)
    ensures run[|run| - 1] == State(5, map[1 := SAMPLE.(leaseUntil := Some(2))], {FIRST}, [], map[1 := []])
  {
    var s0 := State(1, map[], {}, [], map[]);
    var s1 := s0.(rows := map[1 := SAMPLE], ledgers := map[1 := []]);
    run := RunExtends(SAMPLE_LIMITS, [s0], Enqueue(1, SAMPLE), s1);
    var q := Query(1, 1, 1, {});
    var s2 := ClaimOnlyRow(SAMPLE_LIMITS, s1, 1, q, SAMPLE);
    run := RunExtends(SAMPLE_LIMITS, run, Claim(1, q), s2);
    var s3 := s2.(held := {FIRST});
    var called := FIRST.(answer := None);
    assert s2.held == {called} && s2.held - {called} + {FIRST} == {FIRST};
    run := RunExtends(SAMPLE_LIMITS, run, Notify(called, false), s3);
    run := RunExtends(SAMPLE_LIMITS, run, Tick(5), s3.(clock := 5));
  }

  // A second worker takes over.
  lemma TwoWorkers() returns (run: seq<State>)
    ensures IsRun(SAMPLE_LIMITS, run)
    ensures run[|run| - 1] == State(5, map[1 := SAMPLE.(leaseUntil := Some(15))], {FIRST, SECOND}, [], map[1 := []])
  {
    run := SlowWorker();
    var s, q := run[|run| - 1], Query(5, 10, 1, {});
    var s' := ClaimOnlyRow(SAMPLE_LIMITS, s, 2, q, SAMPLE.(leaseUntil := Some(2)));
    run := RunExtends(SAMPLE_LIMITS, run, Claim(2, q), s');
    assert s'.held == {FIRST, SECOND};
  }

  // A worker that is late by one lease reopens a notification that was delivered, so that it
  // is delivered again.
  lemma LateSaveReopensASentRow() returns (run: seq<State>, s': State)
    ensures IsRun(SAMPLE_LIMITS, run) && DoLateSave(SAMPLE_LIMITS, run[|run| - 1], FIRST, 6, s')
    ensures 1 in run[|run| - 1].rows && run[|run| - 1].rows[1].status == Sent
    ensures 1 in s'.rows && s'.rows[1].status == Pending
  {
    run := TwoWorkers();
    var s, answered := run[|run| - 1], SECOND.(answer := Some(true));
    var called := s.(held := s.held - {SECOND} + {answered}, accepted := [1]);
    assert s.accepted + [1] == [1];
    run := RunExtends(SAMPLE_LIMITS, run, Notify(SECOND, true), called);
    var sent := AfterSave(SAMPLE_LIMITS, called, answered, 5);
    run := RunExtends(SAMPLE_LIMITS, run, Save(answered, 5), sent);
    s' := AfterSave(SAMPLE_LIMITS, sent, FIRST, 6);
  }
}
