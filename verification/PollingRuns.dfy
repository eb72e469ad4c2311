/**
 Any number of polling workers over one table of trackings and one outbox. A worker claims
 rows under a lease, observes them at leisure and saves them one by one, or crashes. The
 saves compare neither the lease nor the status, so all that is shown here rests on one
 hypothesis: a worker saves a row before its lease on that row ends.

 Contracts say `P(..) == true` where `P` is only passed on: as an equation it reaches the solver
 whole, where a bare `P(..)` would be taken apart, conjunct by conjunct, at every call.
 */
module PollingRuns {
  import opened Values
  import opened Tables
  import opened PaymentReceiptTracking
  import opened PollOutcome
  import opened ReceiptHistory
  import opened StatusPath
  import opened LeaseQueue
  import opened TrackingStore

  // A worker's own copy of a row it claimed, with the clock of its cycle and its lease.
  datatype Holding = Holding(worker: int, id: int, copy: Tracking, now: Time, until: Time)

  // How a row came about: the tracking as issued, every accepted poll since, and the time of the
  // latest poll, failed ones included.
  datatype Ledger = Ledger(origin: Tracking, polls: seq<Seen>, polledAt: Option<Time>)

  datatype State = State(
    clock: Time,
    rows: map<int, TrackingRow>,
    outbox: seq<StatusChanged>,
    held: set<Holding>,
    ledgers: map<int, Ledger>)

  datatype Query = Query(now: Time, ttl: int, limit: int, chain: string, network: string, skipped: set<int>)

  datatype Action =
    | Tick(clock: Time)
    | Issue(t: Tracking)
    | Claim(worker: int, q: Query)
    | Save(h: Holding, outcome: Outcome, interval: int)
    | Crash(h: Holding)

  predicate Live(s: State, h: Holding) { h in s.held && s.clock < h.until }

  function Due(rows: map<int, TrackingRow>, q: Query): set<int> {
    Taken(DueOf(rows), Eligible(rows, q.now, q.chain, q.network, POLLABLE_STATUSES) - q.skipped, q.limit)
  }

  function Holdings(rows: map<int, TrackingRow>, worker: int, q: Query): set<Holding> {
    set id | id in Due(rows, q) :: Holding(worker, id, rows[id].tracking, q.now, q.now + q.ttl)
  }

  ghost predicate DoIssue(s: State, t: Tracking, s': State) {
    && Fresh(t) && t.paymentAddressId > 0 && t.paymentAddressId !in s.rows
    && s' == s.(rows := s.rows[t.paymentAddressId := TrackingRow(t, t.issuedAt, None, None)],
                ledgers := s.ledgers[t.paymentAddressId := Ledger(t, [], None)])
  }

  // The clock of a cycle is read before its claim reaches the database.
  ghost predicate DoClaim(s: State, worker: int, q: Query, s': State) {
    && q.now != ZERO_TIME && q.now <= s.clock
    && s' == s.(rows := Leased(s.rows, Due(s.rows, q), q.now + q.ttl), held := s.held + Holdings(s.rows, worker, q))
  }

  function LedgerAfter(ledger: Ledger, outcome: Outcome, now: Time): Ledger {
    ledger.(
      polls := if outcome.Unobserved? then ledger.polls else ledger.polls + [Seen(outcome.o, now)],
      polledAt := Some(if ledger.polledAt.Some? then Later(ledger.polledAt.value, now) else now))
  }

  // What a save writes, whoever makes it: the row by its id, and the announcement.
  function AfterSave(s: State, h: Holding, outcome: Outcome, interval: int): State
    requires h.id in s.rows && h.id in s.ledgers && Acceptable(h.copy, outcome, h.now)
  {
    s.(rows := s.rows[h.id := SavedRow(s.rows[h.id], Settle(h.copy, outcome, h.now), h.now, h.now + interval)],
       outbox := s.outbox + Announced(h.copy, outcome, h.now),
       held := s.held - {h},
       ledgers := s.ledgers[h.id := LedgerAfter(s.ledgers[h.id], outcome, h.now)])
  }

  ghost predicate DoSave(s: State, h: Holding, outcome: Outcome, interval: int, s': State) {
    && Live(s, h) && interval >= 0
    && h.id in s.rows && h.id in s.ledgers && Acceptable(h.copy, outcome, h.now)
    && s' == AfterSave(s, h, outcome, interval)
  }

  // The same save by a worker whose lease has run out.
  ghost predicate DoLateSave(s: State, h: Holding, outcome: Outcome, interval: int, s': State) {
    && h in s.held && s.clock >= h.until && interval >= 0
    && h.id in s.rows && h.id in s.ledgers && Acceptable(h.copy, outcome, h.now)
    && s' == AfterSave(s, h, outcome, interval)
  }

  ghost predicate Next(s: State, a: Action, s': State) {
    match a
    case Tick(clock) => s.clock <= clock && s' == s.(clock := clock)
    case Issue(t) => DoIssue(s, t, s')
    case Claim(worker, q) => DoClaim(s, worker, q, s')
    case Save(h, outcome, interval) => DoSave(s, h, outcome, interval, s')
    case Crash(h) => h in s.held && s' == s.(held := s.held - {h})
  }

  ghost predicate SomeNext(s: State, s': State) {
    exists a :: Next(s, a, s')
  }

  ghost predicate Init(s: State) {
    s.rows == map[] && s.outbox == [] && s.held == {} && s.ledgers == map[]
  }

  ghost predicate StepAt(run: seq<State>, i: nat) {
    i + 1 < |run| && SomeNext(run[i], run[i + 1])
  }

  ghost predicate IsRun(run: seq<State>) {
    run != [] && Init(run[0]) && forall i: nat | i + 1 < |run| :: StepAt(run, i)
  }

  /******* The invariant *******/

  // Failed polls leave a note, which is all a row may say beyond its history.
  predicate SameButNote(t: Tracking, u: Tracking) {
    u == t.(lastFailure := u.lastFailure)
  }

  // The row was not polled after the given time.
  predicate NoLaterPoll(row: TrackingRow, now: Time) {
    row.lastPolledAt.Some? ==> row.lastPolledAt.value <= now
  }

  ghost predicate TimesOrdered(polls: seq<Seen>, last: Option<Time>) {
    && (forall i, j | 0 <= i < j < |polls| :: polls[i].at <= polls[j].at)
    && (forall i | 0 <= i < |polls| :: last.Some? && polls[i].at <= last.value)
  }

  ghost predicate RowTellsLedger(id: int, row: TrackingRow, ledger: Ledger, events: seq<StatusChanged>) {
    && ledger.origin.paymentAddressId == id
    && Fresh(ledger.origin) && Accepted(ledger.origin, ledger.polls)
    && SameButNote(Replay(ledger.origin, ledger.polls), row.tracking)
    && TermsOf(row.tracking) == TermsOf(ledger.origin)
    && row.lastPolledAt == ledger.polledAt && NoLaterPoll(row, row.nextPollAt)
    && TimesOrdered(ledger.polls, row.lastPolledAt)
    && events == Changes(ledger.origin, ledger.polls)
  }

  ghost predicate RowsTellLedgers(s: State) {
    && s.rows.Keys == s.ledgers.Keys
    && forall id | id in s.rows :: RowTellsLedger(id, s.rows[id], s.ledgers[id], EventsFor(s.outbox, id))
  }

  predicate IsCurrent(rows: map<int, TrackingRow>, h: Holding) {
    && h.id in rows
    && rows[h.id].tracking == h.copy
    && rows[h.id].leaseUntil == Some(h.until)
    && rows[h.id].nextPollAt <= h.now
    && h.now != ZERO_TIME
    && Pollable(h.copy.status)
  }

  ghost predicate LeasesExclusive(s: State) {
    && (forall h | Live(s, h) :: IsCurrent(s.rows, h))
    && (forall g, h | Live(s, g) && Live(s, h) && g.id == h.id :: g == h)
  }

  ghost predicate NoStrayEvents(s: State) {
    forall id | id !in s.rows :: EventsFor(s.outbox, id) == []
  }

  // The copy says what the row said after the first `n` polls.
  ghost predicate PastAt(ledger: Ledger, n: nat, copy: Tracking) {
    n <= |ledger.polls| && SameButNote(Replay(ledger.origin, ledger.polls[..n]), copy)
  }

  // Also a copy that has gone stale is an earlier state of its own row.
  ghost predicate IsPast(ledger: Ledger, copy: Tracking) {
    Pollable(copy.status) && exists n: nat :: PastAt(ledger, n, copy)
  }

  ghost predicate CopiesArePast(s: State) {
    forall h | h in s.held :: h.id in s.rows && h.id in s.ledgers && IsPast(s.ledgers[h.id], h.copy)
  }

  ghost predicate Inv(s: State) {
    RowsTellLedgers(s) && LeasesExclusive(s) && NoStrayEvents(s) && CopiesArePast(s)
  }

  /******* Every step keeps it *******/

  // An accepted poll of the stored row is the next entry of its ledger.
  lemma PollExtendsLedger(
    id: int, row: TrackingRow, ledger: Ledger, events: seq<StatusChanged>, o: Observation, now: Time, nextPollAt: Time)
    requires RowTellsLedger(id, row, ledger, events) == true
    requires Pollable(row.tracking.status) && Acceptable(row.tracking, Observed(o), now)
    requires row.nextPollAt <= now <= nextPollAt
    ensures RowTellsLedger(
              id, PolledRow(Settle(row.tracking, Observed(o), now), now, nextPollAt),
              LedgerAfter(ledger, Observed(o), now), events + Announced(row.tracking, Observed(o), now)) == true
  {
    HistoryExtends(ledger, row.tracking, o, now);
    SettleKeepsTerms(row.tracking, Observed(o), now);
    LateTimes(row, ledger, o, now);
  }

  // A poll of a tracking that says what its history says, whatever its note.
  lemma HistoryExtends(ledger: Ledger, stored: Tracking, o: Observation, now: Time)
    requires SameButNote(Replay(ledger.origin, ledger.polls), stored) && Accepted(ledger.origin, ledger.polls)
    requires Acceptable(stored, Observed(o), now)
    ensures var polls := ledger.polls + [Seen(o, now)];
      && (Accepted(ledger.origin, polls) <==> Pollable(stored.status))
      && Replay(ledger.origin, polls) == Settle(stored, Observed(o), now)
      && Changes(ledger.origin, polls) ==
           Changes(ledger.origin, ledger.polls) + Announced(stored, Observed(o), now)
  {
    var polls := ledger.polls + [Seen(o, now)];
    assert polls[..|ledger.polls|] == ledger.polls && polls[|ledger.polls|] == Seen(o, now);
    assert Poll(Replay(ledger.origin, ledger.polls), o, now) == Poll(stored, o, now);
  }

  // The poll is the latest one exactly when the row was not polled later.
  lemma LateTimes(row: TrackingRow, ledger: Ledger, o: Observation, now: Time)
    requires row.lastPolledAt == ledger.polledAt && TimesOrdered(ledger.polls, row.lastPolledAt)
    ensures TimesOrdered(ledger.polls + [Seen(o, now)], Some(now))
            && LedgerAfter(ledger, Observed(o), now).polledAt == Some(now)
            <==> NoLaterPoll(row, now)
  {
    var polls, all := ledger.polls, ledger.polls + [Seen(o, now)];
    assert all[|polls|] == Seen(o, now) && forall i | 0 <= i < |polls| :: all[i] == polls[i];
  }

  lemma FailedPollKeepsLedger(
    id: int, row: TrackingRow, ledger: Ledger, events: seq<StatusChanged>, reason: FailureReason, now: Time,
    nextPollAt: Time)
    requires RowTellsLedger(id, row, ledger, events) == true && row.nextPollAt <= now <= nextPollAt
    ensures RowTellsLedger(id, PolledRow(MarkPollingFailure(row.tracking, reason), now, nextPollAt),
                           LedgerAfter(ledger, Unobserved(reason), now), events) == true
  {
    SettleKeepsTerms(row.tracking, Unobserved(reason), now);
  }

  lemma SaveTellsLedger(
    id: int, row: TrackingRow, ledger: Ledger, events: seq<StatusChanged>, outcome: Outcome, now: Time,
    nextPollAt: Time)
    requires RowTellsLedger(id, row, ledger, events) == true
    requires Pollable(row.tracking.status) && Acceptable(row.tracking, outcome, now)
    requires row.nextPollAt <= now <= nextPollAt
    ensures RowTellsLedger(id, PolledRow(Settle(row.tracking, outcome, now), now, nextPollAt),
                           LedgerAfter(ledger, outcome, now), events + Announced(row.tracking, outcome, now)) == true
    ensures SavedRow(row, Settle(row.tracking, outcome, now), now, nextPollAt)
            == PolledRow(Settle(row.tracking, outcome, now), now, nextPollAt)
  {
    SettleKeepsTerms(row.tracking, outcome, now);
    SavedIsWhole(row, Settle(row.tracking, outcome, now), now, nextPollAt);
    if outcome.Observed? {
      PollExtendsLedger(id, row, ledger, events, outcome.o, now, nextPollAt);
    } else {
      FailedPollKeepsLedger(id, row, ledger, events, outcome.reason, now, nextPollAt);
      assert events + Announced(row.tracking, outcome, now) == events;
    }
  }

  lemma AnnouncedForRow(id: int, row: TrackingRow, ledger: Ledger, events: seq<StatusChanged>, outcome: Outcome,
      now: Time)
    requires RowTellsLedger(id, row, ledger, events) == true && Acceptable(row.tracking, outcome, now)
    ensures var announced := Announced(row.tracking, outcome, now);
      announced != [] ==> announced[0].paymentAddressId == id
  {
    assert TermsOf(row.tracking).paymentAddressId == TermsOf(ledger.origin).paymentAddressId;
  }

  lemma OneRowChanged(s: State, s': State, id: int)
    requires RowsTellLedgers(s) && id in s.rows && id in s'.rows && id in s'.ledgers
    requires s'.rows == s.rows[id := s'.rows[id]] && s'.ledgers == s.ledgers[id := s'.ledgers[id]]
    requires forall other | other != id :: EventsFor(s'.outbox, other) == EventsFor(s.outbox, other)
    requires RowTellsLedger(id, s'.rows[id], s'.ledgers[id], EventsFor(s'.outbox, id))
    ensures RowsTellLedgers(s')
  {
    forall other | other in s'.rows && other != id
      ensures RowTellsLedger(other, s'.rows[other], s'.ledgers[other], EventsFor(s'.outbox, other))
    {
      assert RowTellsLedger(other, s.rows[other], s.ledgers[other], EventsFor(s.outbox, other));
    }
  }

  lemma EventsAfterSave(outbox: seq<StatusChanged>, announced: seq<StatusChanged>, id: int)
    requires |announced| <= 1 && (announced != [] ==> announced[0].paymentAddressId == id)
    ensures EventsFor(outbox + announced, id) == EventsFor(outbox, id) + announced
    ensures forall other | other != id :: EventsFor(outbox + announced, other) == EventsFor(outbox, other)
  {
    forall other
      ensures EventsFor(outbox + announced, other) == EventsFor(outbox, other) + if other == id then announced else []
    {
      EventsForAppend(outbox, announced, other);
    }
  }

  lemma SavedRowIsWhole(s: State, h: Holding, outcome: Outcome, interval: int)
    requires IsCurrent(s.rows, h) && Acceptable(h.copy, outcome, h.now)
    ensures SavedRow(s.rows[h.id], Settle(h.copy, outcome, h.now), h.now, h.now + interval)
            == PolledRow(Settle(h.copy, outcome, h.now), h.now, h.now + interval)
  {
    SettleKeepsTerms(h.copy, outcome, h.now);
    SavedIsWhole(s.rows[h.id], Settle(h.copy, outcome, h.now), h.now, h.now + interval);
  }

  lemma RowTells(s: State, id: int)
    requires RowsTellLedgers(s) && id in s.rows
    ensures id in s.ledgers && RowTellsLedger(id, s.rows[id], s.ledgers[id], EventsFor(s.outbox, id)) == true
  {
  }

  lemma SavedRowTells(s: State, h: Holding, outcome: Outcome, interval: int)
    requires RowsTellLedgers(s) == true && IsCurrent(s.rows, h) && interval >= 0
    requires Acceptable(h.copy, outcome, h.now)
    ensures RowTellsLedger(
              h.id, PolledRow(Settle(h.copy, outcome, h.now), h.now, h.now + interval),
              LedgerAfter(s.ledgers[h.id], outcome, h.now),
              EventsFor(s.outbox + Announced(h.copy, outcome, h.now), h.id)) == true
    ensures forall other | other != h.id ::
              EventsFor(s.outbox + Announced(h.copy, outcome, h.now), other) == EventsFor(s.outbox, other)
  {
    var row, ledger, events := s.rows[h.id], s.ledgers[h.id], EventsFor(s.outbox, h.id);
    RowTells(s, h.id);
    AnnouncedForRow(h.id, row, ledger, events, outcome, h.now);
    SaveTellsLedger(h.id, row, ledger, events, outcome, h.now, h.now + interval);
    EventsAfterSave(s.outbox, Announced(h.copy, outcome, h.now), h.id);
  }

  lemma SaveKeepsRows(s: State, h: Holding, outcome: Outcome, interval: int, s': State)
    requires RowsTellLedgers(s) && NoStrayEvents(s) && IsCurrent(s.rows, h) && DoSave(s, h, outcome, interval, s')
    ensures RowsTellLedgers(s') && NoStrayEvents(s')
  {
    SavedRowIsWhole(s, h, outcome, interval);
    SavedRowTells(s, h, outcome, interval);
    OneRowChanged(s, s', h.id);
  }

  lemma SaveKeepsLeases(s: State, h: Holding, outcome: Outcome, interval: int, s': State)
    requires Inv(s) && DoSave(s, h, outcome, interval, s')
    ensures LeasesExclusive(s')
  {
    forall g | Live(s', g) ensures IsCurrent(s'.rows, g) {
      assert Live(s, g) && g != h;
    }
  }

  // Longer histories have the same past.
  lemma PastIsKept(ledger: Ledger, ledger': Ledger, copy: Tracking)
    requires IsPast(ledger, copy) && ledger'.origin == ledger.origin && ledger.polls <= ledger'.polls
    ensures IsPast(ledger', copy)
  {
    var n: nat :| PastAt(ledger, n, copy);
    assert ledger'.polls[..n] == ledger.polls[..n];
    assert PastAt(ledger', n, copy);
  }

  lemma RowIsPast(s: State, id: int)
    requires RowsTellLedgers(s) && id in s.rows && Pollable(s.rows[id].tracking.status)
    ensures IsPast(s.ledgers[id], s.rows[id].tracking)
  {
    var ledger := s.ledgers[id];
    assert RowTellsLedger(id, s.rows[id], ledger, EventsFor(s.outbox, id));
    assert ledger.polls[..|ledger.polls|] == ledger.polls;
    assert PastAt(ledger, |ledger.polls|, s.rows[id].tracking);
  }

  lemma ClaimedIsPollable(rows: map<int, TrackingRow>, q: Query, id: int)
    requires id in Due(rows, q)
    ensures id in rows && Pollable(rows[id].tracking.status)
  {
  }

  lemma ClaimedIsPast(s: State, worker: int, q: Query, h: Holding)
    requires RowsTellLedgers(s) && h in Holdings(s.rows, worker, q)
    ensures h.id in s.rows && IsPast(s.ledgers[h.id], h.copy)
  {
    ClaimedIsPollable(s.rows, q, h.id);
    RowIsPast(s, h.id);
  }

  lemma ClaimKeepsCopies(s: State, worker: int, q: Query, s': State)
    requires RowsTellLedgers(s) && CopiesArePast(s) && DoClaim(s, worker, q, s')
    ensures CopiesArePast(s')
  {
    assert s'.rows.Keys == s.rows.Keys;
    forall h | h in s'.held ensures h.id in s'.rows && h.id in s'.ledgers && IsPast(s'.ledgers[h.id], h.copy) {
      if h !in s.held { ClaimedIsPast(s, worker, q, h); }
    }
  }

  // Whoever saves, whenever: the histories of the rows only get longer.
  lemma SaveKeepsCopies(s: State, h: Holding, outcome: Outcome, interval: int)
    requires CopiesArePast(s) && h.id in s.rows && h.id in s.ledgers && Acceptable(h.copy, outcome, h.now)
    ensures CopiesArePast(AfterSave(s, h, outcome, interval))
  {
    var s' := AfterSave(s, h, outcome, interval);
    forall g | g in s'.held ensures g.id in s'.rows && g.id in s'.ledgers && IsPast(s'.ledgers[g.id], g.copy) {
      PastIsKept(s.ledgers[g.id], s'.ledgers[g.id], g.copy);
    }
  }

  lemma ClaimKeepsRows(s: State, worker: int, q: Query, s': State)
    requires RowsTellLedgers(s) && NoStrayEvents(s) && DoClaim(s, worker, q, s')
    ensures RowsTellLedgers(s') && NoStrayEvents(s')
  {
    forall id | id in s'.rows ensures RowTellsLedger(id, s'.rows[id], s'.ledgers[id], EventsFor(s'.outbox, id)) {
      assert RowTellsLedger(id, s.rows[id], s.ledgers[id], EventsFor(s.outbox, id));
    }
  }

  // A row can be claimed only when every earlier lease on it has ended.
  lemma ClaimedIsFree(s: State, q: Query, h: Holding)
    requires LeasesExclusive(s) && q.now <= s.clock && Live(s, h)
    ensures h.id !in Due(s.rows, q)
  {
    assert IsCurrent(s.rows, h);
  }

  lemma ClaimKeepsLeases(s: State, worker: int, q: Query, s': State)
    requires LeasesExclusive(s) && DoClaim(s, worker, q, s')
    ensures LeasesExclusive(s')
  {
    forall h | Live(s', h)
      ensures IsCurrent(s'.rows, h) && (h in s.held <==> h.id !in Due(s.rows, q))
    {
      if h in s.held {
        assert Live(s, h) && IsCurrent(s.rows, h);
        ClaimedIsFree(s, q, h);
      } else {
        assert h in Holdings(s.rows, worker, q);
      }
    }
    forall g, h | Live(s', g) && Live(s', h) && g.id == h.id ensures g == h {
      if g in s.held { assert Live(s, g) && Live(s, h); }
    }
  }

  lemma IssuedTells(id: int, t: Tracking)
    requires Fresh(t) && t.paymentAddressId == id
    ensures RowTellsLedger(id, TrackingRow(t, t.issuedAt, None, None), Ledger(t, [], None), []) == true
  {
  }

  lemma IssueKeepsRows(s: State, t: Tracking, s': State)
    requires RowsTellLedgers(s) && NoStrayEvents(s) && DoIssue(s, t, s')
    ensures RowsTellLedgers(s') && NoStrayEvents(s')
  {
    IssuedTells(t.paymentAddressId, t);
    forall id | id in s'.rows ensures RowTellsLedger(id, s'.rows[id], s'.ledgers[id], EventsFor(s'.outbox, id)) {
      if id in s.rows { RowTells(s, id); }
    }
  }

  lemma IssueKeepsInv(s: State, t: Tracking, s': State)
    requires Inv(s) && DoIssue(s, t, s')
    ensures Inv(s')
  {
    IssueKeepsRows(s, t, s');
    forall h | Live(s', h) ensures IsCurrent(s'.rows, h) {
      assert Live(s, h);
    }
  }

  lemma NextKeepsInv(s: State, a: Action, s': State)
    requires Inv(s) && Next(s, a, s')
    ensures Inv(s')
  {
    match a {
      case Tick(clock) => assert forall h | Live(s', h) :: Live(s, h);
      case Issue(t) => IssueKeepsInv(s, t, s');
      case Claim(worker, q) =>
        ClaimKeepsRows(s, worker, q, s');
        ClaimKeepsLeases(s, worker, q, s');
        ClaimKeepsCopies(s, worker, q, s');
      case Save(h, outcome, interval) =>
        assert IsCurrent(s.rows, h);
        SaveKeepsRows(s, h, outcome, interval, s');
        SaveKeepsLeases(s, h, outcome, interval, s');
        SaveKeepsCopies(s, h, outcome, interval);
      case Crash(_) => assert forall h | Live(s', h) :: Live(s, h);
    }
  }

  lemma {:induction false} RunsKeepInv(run: seq<State>, i: nat)
    requires IsRun(run) && i < |run|
    ensures Inv(run[i])
  {
    if i > 0 {
      RunsKeepInv(run, i - 1);
      assert StepAt(run, i - 1);
      var a :| Next(run[i - 1], a, run[i]);
      NextKeepsInv(run[i - 1], a, run[i]);
    }
  }

  // The same, as an equation that is passed on whole.
  lemma InvInRuns(run: seq<State>, i: nat)
    requires IsRun(run) && i < |run|
    ensures Inv(run[i]) == true
  {
    RunsKeepInv(run, i);
  }

  /******* What holds in every run *******/

  // The notifications of an address lead from `Watching` to the stored status without a gap,
  // and are exactly the changes of status in the history of its accepted polls: one for each poll
  // that changed the status, in order, with the totals and the time of that poll.
  lemma OutboxFollowsTheStatus(run: seq<State>, i: nat, id: int) returns (at: seq<nat>)
    requires IsRun(run) && i < |run| && id in run[i].rows
    ensures var s := run[i];
      && id in s.ledgers && s.ledgers[id].origin.paymentAddressId == id
      && IsPath(EventsFor(s.outbox, id), Watching, s.rows[id].tracking.status)
      && EventsFor(s.outbox, id) == Changes(s.ledgers[id].origin, s.ledgers[id].polls)
      && TellThePolls(EventsFor(s.outbox, id), s.ledgers[id].origin, s.ledgers[id].polls, at)
  {
    RunsKeepInv(run, i);
    var ledger := run[i].ledgers[id];
    assert RowTellsLedger(id, run[i].rows[id], ledger, EventsFor(run[i].outbox, id));
    ChangesArePath(ledger.origin, ledger.polls);
    at := ChangesTellThePolls(ledger.origin, ledger.polls);
  }

  // What the stored row says is what its history says: the totals of the last poll, the times
  // of the first ones over each threshold, in order, and a status that remembers any payment.
  lemma StoredRowIsItsHistory(run: seq<State>, i: nat, id: int)
    requires IsRun(run) && i < |run| && id in run[i].rows
    ensures id in run[i].ledgers
    ensures var t, ledger := run[i].rows[id].tracking, run[i].ledgers[id];
      && IsFirst(ledger.polls, Arrived(), t.firstObservedAt)
      && IsFirst(ledger.polls, Paid(ledger.origin), t.paidAt)
      && IsFirst(ledger.polls, Settled(ledger.origin), t.confirmedAt)
      && (t.confirmedAt.Some? ==> t.paidAt.Some? && t.paidAt.value <= t.confirmedAt.value)
      && (t.paidAt.Some? ==> t.firstObservedAt.Some? && t.firstObservedAt.value <= t.paidAt.value)
      && (ledger.polls == [] ==> t.status == Watching)
      && (ledger.polls != [] ==>
        var last := ledger.polls[|ledger.polls| - 1];
        && t.observed == last.o.observed && t.confirmed == last.o.confirmed && t.unconfirmed == last.o.unconfirmed
        && t.lastHeight == last.o.height
        && t.status == StatusAfter(ledger.origin, ledger.polls))
  {
    RunsKeepInv(run, i);
    var ledger := run[i].ledgers[id];
    assert RowTellsLedger(id, run[i].rows[id], ledger, EventsFor(run[i].outbox, id));
    ReplayIsHistory(ledger.origin, ledger.polls);
    StampsAreOrdered(ledger.origin, ledger.polls);
  }

  // Money that was seen in full is never forgotten, and only an address that never was paid in
  // full expires: exactly when its last poll came at or after the deadline.
  lemma PaidOrExpired(run: seq<State>, i: nat, id: int)
    requires IsRun(run) && i < |run| && id in run[i].rows
    ensures id in run[i].ledgers
    ensures var t, ledger := run[i].rows[id].tracking, run[i].ledgers[id];
      && (EverPaid(ledger.origin, ledger.polls) <==>
           t.status in {PaidUnconfirmed, PaidUnconfirmedReverted, PaidConfirmed})
      && (t.status == FailedExpired <==>
           && ledger.polls != [] && !EverPaid(ledger.origin, ledger.polls)
           && Overdue(ledger.origin, ledger.polls[|ledger.polls| - 1].at))
  {
    RunsKeepInv(run, i);
    var ledger := run[i].ledgers[id];
    assert RowTellsLedger(id, run[i].rows[id], ledger, EventsFor(run[i].outbox, id));
    if ledger.polls != [] { PaymentIsNeverForgotten(ledger.origin, ledger.polls); }
  }

  // Histories only grow, so a payment that was seen once is in every later one; and a tracking
  // that is confirmed or expired stays as it is.
  ghost predicate KeepsHistory(s: State, s': State, id: int) {
    && id in s.rows && id in s'.rows && id in s.ledgers && id in s'.ledgers
    && s'.ledgers[id].origin == s.ledgers[id].origin
    && s.ledgers[id].polls <= s'.ledgers[id].polls
    && (!Pollable(s.rows[id].tracking.status) ==> s'.rows[id].tracking == s.rows[id].tracking)
  }

  lemma StepKeepsHistory(s: State, a: Action, s': State, id: int)
    requires Inv(s) && Next(s, a, s') && id in s.rows
    ensures KeepsHistory(s, s', id)
  {
    if a.Save? { assert IsCurrent(s.rows, a.h); }
  }

  // An equation is passed on whole, without being taken apart at every step.
  lemma KeepsTransitively(a: State, b: State, c: State, id: int)
    requires KeepsHistory(a, b, id) == true && KeepsHistory(b, c, id) == true
    ensures KeepsHistory(a, c, id) == true
  {
  }

  lemma RunStepKeepsHistory(run: seq<State>, i: nat, id: int)
    requires IsRun(run) && i + 1 < |run| && id in run[i].rows
    ensures KeepsHistory(run[i], run[i + 1], id) == true
  {
    RunsKeepInv(run, i);
    assert StepAt(run, i);
    var a :| Next(run[i], a, run[i + 1]);
    StepKeepsHistory(run[i], a, run[i + 1], id);
  }

  lemma {:induction false} HistoryIsKept(run: seq<State>, i: nat, j: nat, id: int)
    requires IsRun(run) && i <= j < |run| && id in run[i].rows
    ensures KeepsHistory(run[i], run[j], id) == true
  {
    if i < j {
      HistoryIsKept(run, i, j - 1, id);
      RunStepKeepsHistory(run, j - 1, id);
      KeepsTransitively(run[i], run[j - 1], run[j], id);
    } else {
      RunsKeepInv(run, i);
    }
  }

  lemma PaidStaysPaid(run: seq<State>, i: nat, j: nat, id: int)
    requires IsRun(run) && i <= j < |run| && id in run[i].rows
    requires id in run[i].ledgers && EverPaid(run[i].ledgers[id].origin, run[i].ledgers[id].polls)
    ensures id in run[j].rows
      && run[j].rows[id].tracking.status in {PaidUnconfirmed, PaidUnconfirmedReverted, PaidConfirmed}
  {
    HistoryIsKept(run, i, j, id);
    var before, after := run[i].ledgers[id], run[j].ledgers[id];
    var k :| 0 <= k < |before.polls| && Paid(before.origin)(before.polls[k]);
    assert after.polls[k] == before.polls[k];
    PaidOrExpired(run, j, id);
  }

  // No two workers hold a row at the same time.
  lemma OneHolder(run: seq<State>, i: nat, g: Holding, h: Holding)
    requires IsRun(run) && i < |run| && Live(run[i], g) && Live(run[i], h) && g.id == h.id
    ensures g == h && h.id in run[i].rows && run[i].rows[h.id].tracking == h.copy
  {
    RunsKeepInv(run, i);
    assert IsCurrent(run[i].rows, h);
  }

  // When a row is due and its lease, if any, has run out.
  function ReadyAt(row: TrackingRow): Time {
    Later(row.nextPollAt, if row.leaseUntil.Some? then row.leaseUntil.value else 1)
  }

  // The query asks for rows like this one, late enough, and no other transaction has it locked.
  predicate Covers(q: Query, id: int, row: TrackingRow) {
    && ReadyAt(row) <= q.now && q.limit > 0 && id !in q.skipped
    && Pollable(row.tracking.status)
    && (q.chain == "" || row.tracking.chain == q.chain) && (q.network == "" || row.tracking.network == q.network)
  }

  // Every claim that covers a row takes it, unless it fills its batch with rows that come first.
  lemma ClaimIsFair(s: State, worker: int, q: Query, s': State, id: int)
    requires Next(s, Claim(worker, q), s') && id in s.rows && Covers(q, id, s.rows[id])
    ensures || Holding(worker, id, s.rows[id].tracking, q.now, q.now + q.ttl) in s'.held
            || (|Due(s.rows, q)| == q.limit && forall other | other in Due(s.rows, q) ::
                 ComesFirst(s.rows, other, id))
  {
    var eligible := Eligible(s.rows, q.now, q.chain, q.network, POLLABLE_STATUSES) - q.skipped;
    assert id in eligible;
    if id !in Due(s.rows, q) { TrackingStore.BatchComesFirst(s.rows, eligible, q.limit, id); }
    if id in Due(s.rows, q) {
      assert Holding(worker, id, s.rows[id].tracking, q.now, q.now + q.ttl) in Holdings(s.rows, worker, q);
    }
  }

  // A row whose worker crashed is not lost: from the moment it is due and its lease has ended,
  // every claim that covers it can be made, and is fair to it.
  lemma NoRowIsLost(s: State, id: int, worker: int, q: Query)
    requires id in s.rows && Covers(q, id, s.rows[id]) && q.now != ZERO_TIME
    requires q.now <= Later(Later(s.clock, 1), ReadyAt(s.rows[id]))
    ensures var waited := s.(clock := Later(Later(s.clock, 1), ReadyAt(s.rows[id])));
      var claimed := waited.(rows := Leased(s.rows, Due(s.rows, q), q.now + q.ttl),
                             held := s.held + Holdings(s.rows, worker, q));
      && Next(s, Tick(waited.clock), waited) && Next(waited, Claim(worker, q), claimed)
      && (|| Holding(worker, id, s.rows[id].tracking, q.now, q.now + q.ttl) in claimed.held
          || (|Due(s.rows, q)| == q.limit && forall other | other in Due(s.rows, q) ::
               ComesFirst(s.rows, other, id)))
  {
    var waited := s.(clock := Later(Later(s.clock, 1), ReadyAt(s.rows[id])));
    var claimed := waited.(rows := Leased(s.rows, Due(s.rows, q), q.now + q.ttl),
                           held := s.held + Holdings(s.rows, worker, q));
    ClaimIsFair(waited, worker, q, claimed, id);
  }

  /******* Why the hypothesis is needed *******/

  // What is known of any held copy, however old: it has the terms of the row, its time stamps
  // are still there, and its own status tells whether it had seen a payment.
  ghost predicate OldCopy(row: TrackingRow, copy: Tracking) {
    && TermsOf(copy) == TermsOf(row.tracking)
    && StampsExtend(copy, row.tracking)
    && (copy.paidAt.Some? <==> copy.status in {PaidUnconfirmed, PaidUnconfirmedReverted, PaidConfirmed})
    && Pollable(copy.status)
  }

  lemma NoteKeepsRest(t: Tracking, u: Tracking)
    requires SameButNote(t, u)
    ensures TermsOf(t) == TermsOf(u) && t.status == u.status
    ensures t.firstObservedAt == u.firstObservedAt && t.paidAt == u.paidAt && t.confirmedAt == u.confirmedAt
  {
  }

  lemma PastIsOldCopy(id: int, row: TrackingRow, ledger: Ledger, events: seq<StatusChanged>, copy: Tracking)
    requires RowTellsLedger(id, row, ledger, events) && IsPast(ledger, copy)
    ensures OldCopy(row, copy)
  {
    var n: nat :| PastAt(ledger, n, copy);
    var past := ledger.polls[..n];
    AcceptedPrefix(ledger.origin, ledger.polls, n);
    ReplayIsHistory(ledger.origin, past);
    PaidStatusHasStamp(ledger.origin, past);
    StampsAreKept(ledger.origin, ledger.polls, n);
    NoteKeepsRest(Replay(ledger.origin, past), copy);
    NoteKeepsRest(Replay(ledger.origin, ledger.polls), row.tracking);
  }

  lemma CopyIsOld(s: State, h: Holding)
    requires Inv(s) && h in s.held
    ensures h.id in s.rows && OldCopy(s.rows[h.id], h.copy) && h.copy.paymentAddressId == h.id
  {
    var row, ledger := s.rows[h.id], s.ledgers[h.id];
    assert RowTellsLedger(h.id, row, ledger, EventsFor(s.outbox, h.id));
    PastIsOldCopy(h.id, row, ledger, EventsFor(s.outbox, h.id), h.copy);
    assert TermsOf(h.copy).paymentAddressId == TermsOf(row.tracking).paymentAddressId;
    RowIsKeyed(s, h.id);
  }

  lemma RowIsKeyed(s: State, id: int)
    requires RowsTellLedgers(s) && id in s.rows
    ensures s.rows[id].tracking.paymentAddressId == id
  {
    assert RowTellsLedger(id, s.rows[id], s.ledgers[id], EventsFor(s.outbox, id));
    assert TermsOf(s.rows[id].tracking).paymentAddressId == TermsOf(s.ledgers[id].origin).paymentAddressId;
  }

  lemma CopyIsOldInRun(run: seq<State>, i: nat, h: Holding)
    requires IsRun(run) && i < |run| && h in run[i].held
    ensures h.id in run[i].rows && OldCopy(run[i].rows[h.id], h.copy)
  {
    RunsKeepInv(run, i);
    CopyIsOld(run[i], h);
  }

  // A worker that saves after its lease keeps the notifications in line with the stored status
  // exactly when the status it had copied is still the stored one.
  lemma LateSaveKeepsThePathExactly(run: seq<State>, i: nat, h: Holding, outcome: Outcome, interval: int, s': State)
    requires IsRun(run) && i < |run| && DoLateSave(run[i], h, outcome, interval, s')
    ensures h.id in s'.rows && h.id in run[i].rows
    ensures IsPath(EventsFor(s'.outbox, h.id), Watching, s'.rows[h.id].tracking.status) <==>
            h.copy.status == run[i].rows[h.id].tracking.status
  {
    RunsKeepInv(run, i);
    CopyIsOld(run[i], h);
    var _ := OutboxFollowsTheStatus(run, i, h.id);
    LateEvents(run[i], h, outcome, interval, s');
    var stored := run[i].rows[h.id].tracking.status;
    SaveKeepsPathExactly(EventsFor(run[i].outbox, h.id), Watching, stored, h.copy, outcome, h.now);
  }

  lemma LateEvents(s: State, h: Holding, outcome: Outcome, interval: int, s': State)
    requires DoLateSave(s, h, outcome, interval, s') && h.copy.paymentAddressId == h.id
    ensures EventsFor(s'.outbox, h.id) == EventsFor(s.outbox, h.id) + Announced(h.copy, outcome, h.now)
    ensures forall other | other != h.id :: EventsFor(s'.outbox, other) == EventsFor(s.outbox, other)
  {
    EventsAfterSave(s.outbox, Announced(h.copy, outcome, h.now), h.id);
  }

  // After a late save the address counts as paid exactly when the worker itself knew of a
  // payment, from its copy or from what it observed, whatever the stored row said.
  lemma LateSaveRemembersPaymentExactly(run: seq<State>, i: nat, h: Holding, outcome: Outcome, interval: int, s': State)
    requires IsRun(run) && i < |run| && DoLateSave(run[i], h, outcome, interval, s')
    ensures h.id in s'.rows
    ensures s'.rows[h.id].tracking.status in {PaidUnconfirmed, PaidUnconfirmedReverted, PaidConfirmed} <==>
            h.copy.paidAt.Some? || (outcome.Observed? && outcome.o.observed >= h.copy.expected)
  {
    RunsKeepInv(run, i);
    CopyIsOld(run[i], h);
    if outcome.Observed? { ValidateIsExact(outcome.o); }
  }

  // A time stamp that the save would write as it is stored.
  predicate StampFits(copied: Option<Time>, stored: Option<Time>, reached: bool, now: Time) {
    stored == copied || (copied.None? && reached && stored == Some(now))
  }

  // The guard of a harmless save, on the copy and the stored row. After an observation, only the
  // status and the time stamps matter: everything else is overwritten anyway.
  predicate StillFits(stored: Tracking, copy: Tracking, outcome: Outcome, now: Time) {
    if outcome.Unobserved? then SameButNote(stored, copy)
    else
      && copy.status == stored.status
      && StampFits(copy.firstObservedAt, stored.firstObservedAt, outcome.o.observed > 0, now)
      && StampFits(copy.paidAt, stored.paidAt, outcome.o.observed >= copy.expected, now)
      && StampFits(copy.confirmedAt, stored.confirmedAt, outcome.o.confirmed >= copy.expected, now)
  }

  // The row as a save writes it.
  function WrittenRow(row: TrackingRow, copy: Tracking, outcome: Outcome, now: Time, interval: int): TrackingRow
    requires Acceptable(copy, outcome, now)
  {
    SavedRow(row, Settle(copy, outcome, now), now, now + interval)
  }

  lemma WrittenIsSettled(row: TrackingRow, copy: Tracking, outcome: Outcome, now: Time, interval: int)
    requires Acceptable(copy, outcome, now) && OldCopy(row, copy)
    ensures WrittenRow(row, copy, outcome, now, interval)
            == PolledRow(Settle(copy, outcome, now), now, now + interval)
  {
    SettleKeepsTerms(copy, outcome, now);
    SavedIsWhole(row, Settle(copy, outcome, now), now, now + interval);
  }

  // Two trackings settle alike on one observation exactly when status and time stamps fit.
  lemma ObservationSettlesAlike(stored: Tracking, copy: Tracking, o: Observation, now: Time)
    requires TermsOf(copy) == TermsOf(stored) && StampsExtend(copy, stored)
    requires Acceptable(copy, Observed(o), now)
    ensures Acceptable(stored, Observed(o), now)
    ensures Settle(copy, Observed(o), now) == Settle(stored, Observed(o), now)
            && Announced(copy, Observed(o), now) == Announced(stored, Observed(o), now)
            <==> StillFits(stored, copy, Observed(o), now)
  {
    SameTerms(copy, stored);
    SettleKeepsTerms(copy, Observed(o), now);
    SettleKeepsTerms(stored, Observed(o), now);
    assert TermsOf(copy).paymentAddressId == TermsOf(stored).paymentAddressId;
    var a, b := Settle(copy, Observed(o), now), Settle(stored, Observed(o), now);
    if copy.status == stored.status && a.firstObservedAt == b.firstObservedAt && a.paidAt == b.paidAt
       && a.confirmedAt == b.confirmedAt {
      SavedIsWhole(TrackingRow(b, 0, None, None), a, now, 0);
    }
  }

  lemma LateObservationExactly(
    id: int, row: TrackingRow, ledger: Ledger, events: seq<StatusChanged>, copy: Tracking, o: Observation, now: Time,
    interval: int)
    requires RowTellsLedger(id, row, ledger, events) && OldCopy(row, copy)
    requires Acceptable(copy, Observed(o), now) && interval >= 0
    ensures RowTellsLedger(
              id, PolledRow(Settle(copy, Observed(o), now), now, now + interval),
              LedgerAfter(ledger, Observed(o), now), events + Announced(copy, Observed(o), now))
            <==> StillFits(row.tracking, copy, Observed(o), now) && NoLaterPoll(row, now)
  {
    var outcome, stored := Observed(o), row.tracking;
    ObservationSettlesAlike(stored, copy, o, now);
    HistoryExtends(ledger, stored, o, now);
    LateTimes(row, ledger, o, now);
    SettleKeepsTerms(copy, outcome, now);
    SettledNoteIsSame(stored, copy, o, now);
    SameTail(events, Announced(copy, outcome, now), Announced(stored, outcome, now));
  }

  lemma SameTail(events: seq<StatusChanged>, a: seq<StatusChanged>, b: seq<StatusChanged>)
    ensures events + a == events + b <==> a == b
  {
    if events + a == events + b {
      assert a == (events + a)[|events|..] && b == (events + b)[|events|..];
    }
  }

  // An observation overwrites the note, so that the notes cannot differ when the rest does not.
  lemma SettledNoteIsSame(t: Tracking, u: Tracking, o: Observation, now: Time)
    requires TermsOf(t) == TermsOf(u) && Acceptable(t, Observed(o), now) && Acceptable(u, Observed(o), now)
    ensures SameButNote(Settle(t, Observed(o), now), Settle(u, Observed(o), now)) <==>
            Settle(t, Observed(o), now) == Settle(u, Observed(o), now)
  {
    SameTerms(t, u);
  }

  lemma LateFailureExactly(
    id: int, row: TrackingRow, ledger: Ledger, events: seq<StatusChanged>, copy: Tracking, reason: FailureReason,
    now: Time, interval: int)
    requires RowTellsLedger(id, row, ledger, events) && OldCopy(row, copy) && interval >= 0
    ensures RowTellsLedger(id, PolledRow(MarkPollingFailure(copy, reason), now, now + interval),
                           LedgerAfter(ledger, Unobserved(reason), now), events)
            <==> StillFits(row.tracking, copy, Unobserved(reason), now) && NoLaterPoll(row, now)
  {
    SettleKeepsTerms(copy, Unobserved(reason), now);
    var b, note := Replay(ledger.origin, ledger.polls), MarkPollingFailure(copy, reason);
    if SameButNote(b, note) { NotesCompose(row.tracking, b, note, copy); }
    if SameButNote(row.tracking, copy) { NotesCompose(b, row.tracking, copy, note); }
  }

  lemma NotesCompose(a: Tracking, b: Tracking, c: Tracking, d: Tracking)
    requires (SameButNote(a, b) || SameButNote(b, a)) && SameButNote(b, c) && (SameButNote(c, d) || SameButNote(d, c))
    ensures SameButNote(a, d)
  {
  }

  lemma LateRowExactly(s: State, h: Holding, outcome: Outcome, interval: int, s': State)
    requires Inv(s) && DoLateSave(s, h, outcome, interval, s')
    ensures h.id in s'.rows && h.id in s'.ledgers
    ensures RowTellsLedger(h.id, s'.rows[h.id], s'.ledgers[h.id], EventsFor(s'.outbox, h.id)) <==>
            StillFits(s.rows[h.id].tracking, h.copy, outcome, h.now)
              && NoLaterPoll(s.rows[h.id], h.now)
  {
    CopyIsOld(s, h);
    LateEvents(s, h, outcome, interval, s');
    var row, ledger, events := s.rows[h.id], s.ledgers[h.id], EventsFor(s.outbox, h.id);
    assert RowTellsLedger(h.id, row, ledger, events);
    WrittenIsSettled(row, h.copy, outcome, h.now, interval);
    if outcome.Observed? {
      LateObservationExactly(h.id, row, ledger, events, h.copy, outcome.o, h.now, interval);
    } else {
      LateFailureExactly(h.id, row, ledger, events, h.copy, outcome.reason, h.now, interval);
      assert events + Announced(h.copy, outcome, h.now) == events;
    }
  }

  ghost predicate HeldByOther(s: State, h: Holding) {
    exists g :: Live(s, g) && g.id == h.id
  }

  // A late save does no harm at all exactly when status and time stamps of the copy still fit
  // the stored row, it was not polled later, and nobody else holds it. Then
  // everything that is said about runs goes on to hold; otherwise the row, its notifications
  // and its history no longer agree, or another holder is left without its lease.
  lemma LateSaveIsHarmlessExactly(run: seq<State>, i: nat, h: Holding, outcome: Outcome, interval: int, s': State)
    requires IsRun(run) && i < |run| && DoLateSave(run[i], h, outcome, interval, s')
    ensures Inv(s') <==>
            && StillFits(run[i].rows[h.id].tracking, h.copy, outcome, h.now)
            && NoLaterPoll(run[i].rows[h.id], h.now)
            && !HeldByOther(run[i], h)
    ensures Inv(s') ==> Pollable(run[i].rows[h.id].tracking.status)
  {
    var s := run[i];
    CopyIsOldInRun(run, i, h);
    RunsKeepInv(run, i);
    LateRowExactly(s, h, outcome, interval, s');
    if Inv(s') {
      LateHolderNeedsLease(s, h, outcome, interval, s');
      assert RowTellsLedger(h.id, s'.rows[h.id], s'.ledgers[h.id], EventsFor(s'.outbox, h.id));
    } else if !HeldByOther(s, h) {
      LateRestIsKept(s, h, outcome, interval, s');
    }
  }

  lemma LateHolderNeedsLease(s: State, h: Holding, outcome: Outcome, interval: int, s': State)
    requires Inv(s) && DoLateSave(s, h, outcome, interval, s') && LeasesExclusive(s')
    ensures !HeldByOther(s, h)
  {
    CopyIsOld(s, h);
    WrittenIsSettled(s.rows[h.id], h.copy, outcome, h.now, interval);
    if g :| Live(s, g) && g.id == h.id {
      assert Live(s', g) && IsCurrent(s'.rows, g);
    }
  }

  lemma LateRestIsKept(s: State, h: Holding, outcome: Outcome, interval: int, s': State)
    requires Inv(s) && DoLateSave(s, h, outcome, interval, s') && !HeldByOther(s, h)
    ensures LeasesExclusive(s') && NoStrayEvents(s') && CopiesArePast(s')
    ensures RowTellsLedger(h.id, s'.rows[h.id], s'.ledgers[h.id], EventsFor(s'.outbox, h.id)) ==> RowsTellLedgers(s')
  {
    CopyIsOld(s, h);
    LateEvents(s, h, outcome, interval, s');
    SaveKeepsCopies(s, h, outcome, interval);
    forall g | Live(s', g) ensures IsCurrent(s'.rows, g) {
      assert Live(s, g) && g.id != h.id;
    }
    if RowTellsLedger(h.id, s'.rows[h.id], s'.ledgers[h.id], EventsFor(s'.outbox, h.id)) { OneRowChanged(s, s', h.id); }
  }

  const SAMPLE: Tracking := Tracking(
    1, "policy", "bitcoin", "mainnet", "address", "", 1, 10, 1, Watching, 0, 0, 0, 0, None, None, None, Some(100), None)

  // With a single row that is due and free, a claim takes it.
  lemma ClaimOnlyRow(s: State, worker: int, q: Query, row: TrackingRow) returns (s': State)
    requires s.rows == map[1 := row] && row.nextPollAt <= q.now <= s.clock && q.now != ZERO_TIME
    requires Free(row.leaseUntil, q.now) && Pollable(row.tracking.status)
    requires q.limit == 1 && q.chain == "" && q.network == "" && q.skipped == {}
    ensures Next(s, Claim(worker, q), s')
    ensures s' == s.(rows := map[1 := row.(leaseUntil := Some(q.now + q.ttl))],
                     held := s.held + {Holding(worker, 1, row.tracking, q.now, q.now + q.ttl)})
  {
    s' := s.(rows := Leased(s.rows, Due(s.rows, q), q.now + q.ttl), held := s.held + Holdings(s.rows, worker, q));
    var eligible := Eligible(s.rows, q.now, "", "", POLLABLE_STATUSES) - {};
    assert eligible == {1};
    assert Ahead(DueOf(s.rows), eligible, 1) == {};
    assert Due(s.rows, q) == {1};
    assert Holdings(s.rows, worker, q) == {Holding(worker, 1, row.tracking, q.now, q.now + q.ttl)} by {
      assert 1 in Due(s.rows, q);
    }
    assert s'.rows == map[1 := row.(leaseUntil := Some(q.now + q.ttl))];
  }

  lemma RunExtends(run: seq<State>, a: Action, s': State) returns (all: seq<State>)
    requires IsRun(run) && Next(run[|run| - 1], a, s')
    ensures IsRun(all) && all == run + [s']
  {
    all := run + [s'];
    forall i: nat | i + 1 < |all| ensures StepAt(all, i) {
      if i + 1 == |run| { assert Next(all[i], a, all[i + 1]); } else { assert StepAt(run, i); }
    }
  }

  // The lease of the first worker runs out, and a second one claims the row.
  lemma TwoWorkers() returns (run: seq<State>)
    ensures IsRun(run)
    ensures run[|run| - 1] == State(
      5, map[1 := TrackingRow(SAMPLE, 1, Some(15), None)], [],
      {Holding(1, 1, SAMPLE, 1, 2), Holding(2, 1, SAMPLE, 5, 15)}, map[1 := Ledger(SAMPLE, [], None)])
  {
    var s0 := State(1, map[], [], {}, map[]);
    var s1 := s0.(rows := map[1 := TrackingRow(SAMPLE, 1, None, None)], ledgers := map[1 := Ledger(SAMPLE, [], None)]);
    run := RunExtends([s0], Issue(SAMPLE), s1);
    var q1, q2 := Query(1, 1, 1, "", "", {}), Query(5, 10, 1, "", "", {});
    var s2 := ClaimOnlyRow(s1, 1, q1, TrackingRow(SAMPLE, 1, None, None));
    run := RunExtends(run, Claim(1, q1), s2);
    var s3 := s2.(clock := 5);
    run := RunExtends(run, Tick(5), s3);
    var s4 := ClaimOnlyRow(s3, 2, q2, TrackingRow(SAMPLE, 1, Some(2), None));
    run := RunExtends(run, Claim(2, q2), s4);
    assert s4.held == {Holding(1, 1, SAMPLE, 1, 2), Holding(2, 1, SAMPLE, 5, 15)};
  }

  // A worker that is late by one lease turns a confirmed payment back into an unpaid address.
  lemma LateSaveForgetsAPayment() returns (run: seq<State>, h: Holding, outcome: Outcome, s': State)
    ensures IsRun(run) && DoLateSave(run[|run| - 1], h, outcome, 0, s')
    ensures 1 in run[|run| - 1].rows && run[|run| - 1].rows[1].tracking.status == PaidConfirmed
    ensures 1 in s'.rows && s'.rows[1].tracking.status == Watching
  {
    run := TwoWorkers();
    var second, paid := Holding(2, 1, SAMPLE, 5, 15), Observed(Observation(10, 10, 0, 7));
    var s := AfterSave(run[|run| - 1], second, paid, 0);
    run := RunExtends(run, Save(second, paid, 0), s);
    h, outcome := Holding(1, 1, SAMPLE, 1, 2), Observed(Observation(0, 0, 0, 3));
    s' := AfterSave(s, h, outcome, 0);
  }
}
