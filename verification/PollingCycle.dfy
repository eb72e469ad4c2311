/**
 One receipt polling cycle: claim due trackings, observe each of them with one height per
 chain and network, and save each outcome together with its status notification.

 Contracts say `P(..) == true` where `P` is only passed on: as an equation it reaches the solver
 whole, where a bare `P(..)` would be taken apart, conjunct by conjunct, at every call.
 */
module PollingCycle {
  import opened Values
  import opened Tables
  import opened PaymentReceiptTracking
  import opened PollOutcome
  import opened ReceiptObservation
  import opened ReceiptObservers
  import opened LeaseQueue
  import opened Stores
  import opened TrackingStore
  import OutboxStore
  import AtomicIssuance
  import IssuanceRuns

  datatype CycleError = DependencyFailure | InternalFailure | BatchSizeInvalid | ChainRequired

  datatype Output = Output(claimed: int, updated: int, terminalFailed: int, processingErrors: int)

  // The tracking and the notification of its status change are saved by one transaction.
  method SaveTracking(database: Database, t: Tracking, event: Option<StatusChanged>, now: Time, nextPollAt: Time)
    returns (ok: bool, enqueuedAt: Time)
    requires t.paymentAddressId in database.trackings && t.paymentAddressId in database.allocations
    requires TermsOf(t) == TermsOf(database.trackings[t.paymentAddressId].tracking)
    requires event.Some? ==> event.value.paymentAddressId == t.paymentAddressId
    modifies database
    ensures database.allocations == old(database.allocations) && database.cursors == old(database.cursors)
    ensures database.keys == old(database.keys) && database.nextId == old(database.nextId)
    ensures ok ==>
      && database.trackings == old(database.trackings)[t.paymentAddressId := PolledRow(t, now, nextPollAt)]
      && database.saves == old(database.saves) + [t.paymentAddressId]
      && (if event.None? then
            database.notifications == old(database.notifications)
            && database.nextNotificationId == old(database.nextNotificationId)
          else
            var reference := database.allocations[t.paymentAddressId].customerReference;
            && database.notifications ==
                 old(database.notifications)[old(database.nextNotificationId) :=
                   OutboxStore.NewRow(event.value, reference, enqueuedAt)]
            && database.nextNotificationId == old(database.nextNotificationId) + 1)
    ensures !ok ==>
      || database.trackings == old(database.trackings)
      || database.trackings == old(database.trackings)[t.paymentAddressId := PolledRow(t, now, nextPollAt)]
  {
    enqueuedAt := *;
    var tx := database.Begin();
    var trackings := new PaymentReceiptTrackingStore(tx);
    SavedIsWhole(tx.trackings[t.paymentAddressId], t, now, nextPollAt);
    var saved := trackings.Save(t, now, nextPollAt);
    if saved.Failure? { return false, enqueuedAt; }
    if event.Some? {
      var outbox := new OutboxStore.NotificationOutboxStore(tx);
      var enqueued := outbox.EnqueueStatusChanged(event.value, enqueuedAt);
      if enqueued.Failure? { return false, enqueuedAt; }
    }
    ok := database.Commit(tx);
  }

  // The stored row tells the outcome, is due at the given time, and is free again.
  predicate StoresOutcome(t: Tracking, outcome: Outcome, now: Time, nextPollAt: Time, row: TrackingRow) {
    && TellsOutcome(t, outcome, row.tracking)
    && row.nextPollAt == nextPollAt && row.leaseUntil.None? && row.lastPolledAt == Some(now)
  }

  // The new notification tells of the change, in the name of the allocation.
  predicate EnqueuesChange(
    t: Tracking, outcome: Outcome, now: Time, after: Tracking, reference: string, at: Time, row: NotificationRow)
  {
    && TellsChange(row.event, t, outcome, now, after)
    && row.customerReference == reference && row.nextAttemptAt == at && OutboxStore.IsNew(row)
  }

  // Saves the outcome. The two ways of counting it agree with what was saved.
  method SaveOutcome(database: Database, t: Tracking, outcome: Outcome, now: Time, nextPollAt: Time)
    returns (e: Option<CycleError>, kind: Kind, enqueuedAt: Time)
    requires Acceptable(t, outcome, now) && now != ZERO_TIME && t.paymentAddressId > 0
    requires t.paymentAddressId in database.trackings && t.paymentAddressId in database.allocations
    requires database.trackings[t.paymentAddressId].tracking == t
    requires t.status != FailedExpired
    modifies database
    ensures database.allocations == old(database.allocations) && database.cursors == old(database.cursors)
    ensures database.keys == old(database.keys) && database.nextId == old(database.nextId)
    ensures e.None? || e == Some(DependencyFailure)
    ensures var row := PolledRow(Settle(t, outcome, now), now, nextPollAt);
      && (e.None? ==>
        && kind == KindOf(t, outcome, now)
        && database.trackings == old(database.trackings)[t.paymentAddressId := row]
        && database.saves == old(database.saves) + [t.paymentAddressId]
        && (if EventOf(t, outcome, now).None? then
              database.notifications == old(database.notifications)
              && database.nextNotificationId == old(database.nextNotificationId)
            else
              var reference := database.allocations[t.paymentAddressId].customerReference;
              && database.notifications == old(database.notifications)[old(database.nextNotificationId) :=
                   OutboxStore.NewRow(EventOf(t, outcome, now).value, reference, enqueuedAt)]
              && database.nextNotificationId == old(database.nextNotificationId) + 1))
      && (e.Some? ==> database.trackings == old(database.trackings)
                      || database.trackings == old(database.trackings)[t.paymentAddressId := row])
    ensures e.None? ==>
      && t.paymentAddressId in database.trackings
      && StoresOutcome(t, outcome, now, nextPollAt, database.trackings[t.paymentAddressId])
      && (kind == ProcessingError <==> outcome.Unobserved?)
      && (kind == TerminalFailed <==>
           outcome.Observed? && database.trackings[t.paymentAddressId].tracking.status == FailedExpired)
      && var after, first := database.trackings[t.paymentAddressId].tracking, old(database.nextNotificationId);
      && (after.status == t.status ==> database.notifications == old(database.notifications))
      && (after.status != t.status ==>
        && first in database.notifications
        && EnqueuesChange(t, outcome, now, after, database.allocations[t.paymentAddressId].customerReference,
                          enqueuedAt, database.notifications[first]))
  {
    kind, enqueuedAt := ProcessingError, 0;
    SettleKeepsTerms(t, outcome, now);
    SettleTells(t, outcome, now);
    if outcome.Unobserved? {
      var ok, _ := SaveTracking(database, MarkPollingFailure(t, outcome.reason), None, now, nextPollAt);
      return if ok then None else Some(DependencyFailure), kind, enqueuedAt;
    }
    ValidateIsExact(outcome.o);
    var updated := ApplyObservation(t, outcome.o, now).value;
    var final, expired := ExpireIfDue(updated, now).0, ExpireIfDue(updated, now).1;
    var event := StatusChangedEvent(if expired then final else updated, t.status, now);
    if event.Failure? { return Some(InternalFailure), kind, enqueuedAt; }
    kind := if expired then TerminalFailed else Updated;
    var ok;
    ok, enqueuedAt := SaveTracking(database, if expired then final else updated, event.value, now, nextPollAt);
    e := if ok then None else Some(DependencyFailure);
  }

  /******* The whole batch *******/

  // The first outcomes of a batch.
  predicate AllAcceptable(claimed: seq<Tracking>, outcomes: seq<Outcome>, now: Time) {
    |outcomes| <= |claimed| && forall i | 0 <= i < |outcomes| :: Acceptable(claimed[i], outcomes[i], now)
  }

  function Announcements(claimed: seq<Tracking>, outcomes: seq<Outcome>, now: Time): seq<StatusChanged>
    requires AllAcceptable(claimed, outcomes, now)
    decreases |outcomes|
  {
    if outcomes == [] then []
    else
      var n := |outcomes| - 1;
      var event := EventOf(claimed[n], outcomes[n], now);
      Announcements(claimed, outcomes[..n], now) + if event.Some? then [event.value] else []
  }

  function Count(kind: Kind, claimed: seq<Tracking>, outcomes: seq<Outcome>, now: Time): nat
    requires AllAcceptable(claimed, outcomes, now)
    decreases |outcomes|
  {
    if outcomes == [] then 0
    else
      var n := |outcomes| - 1;
      Count(kind, claimed, outcomes[..n], now) + if KindOf(claimed[n], outcomes[n], now) == kind then 1 else 0
  }

  // Every tracking with an outcome is stored as settled, free of its lease; no other row moved.
  ghost predicate RowsSettled(
    before: map<int, TrackingRow>, after: map<int, TrackingRow>, claimed: seq<Tracking>, outcomes: seq<Outcome>,
    now: Time, nextPollAt: Time)
  {
    && AllAcceptable(claimed, outcomes, now)
    && after.Keys == before.Keys
    && (forall i | 0 <= i < |outcomes| ::
         && claimed[i].paymentAddressId in after
         && after[claimed[i].paymentAddressId] == PolledRow(Settle(claimed[i], outcomes[i], now), now, nextPollAt))
    && (forall id | id in before && !Among(claimed, |outcomes|, id) :: after[id] == before[id])
  }

  // The new notifications are the announcements, in order, each for its own allocation.
  ghost predicate Enqueued(
    allocations: map<int, AllocationRow>, before: map<int, NotificationRow>, after: map<int, NotificationRow>,
    first: int, events: seq<StatusChanged>)
  {
    && (forall id :: id in after <==> id in before || first <= id < first + |events|)
    && (forall id | id in before :: after[id] == before[id])
    && (forall k | 0 <= k < |events| ::
         && events[k].paymentAddressId in allocations
         && after[first + k] == OutboxStore.NewRow(
              events[k], allocations[events[k].paymentAddressId].customerReference, after[first + k].nextAttemptAt))
  }

  // The claimed trackings are as stored, and may still be polled.
  ghost predicate Claimed(trackings: map<int, TrackingRow>, claimed: seq<Tracking>, from: nat) {
    forall i | from <= i < |claimed| ::
      && claimed[i].paymentAddressId in trackings
      && trackings[claimed[i].paymentAddressId].tracking == claimed[i]
      && claimed[i].paymentAddressId > 0 && Pollable(claimed[i].status)
  }

  lemma SettleNext(
    before: map<int, TrackingRow>, mid: map<int, TrackingRow>, claimed: seq<Tracking>, outcomes: seq<Outcome>,
    outcome: Outcome, now: Time, nextPollAt: Time)
    requires |outcomes| < |claimed| && Distinct(claimed)
    requires AllAcceptable(claimed, outcomes, now) && Acceptable(claimed[|outcomes|], outcome, now)
    requires RowsSettled(before, mid, claimed, outcomes, now, nextPollAt)
    requires claimed[|outcomes|].paymentAddressId in mid
    ensures AllAcceptable(claimed, outcomes + [outcome], now)
    ensures var t := claimed[|outcomes|];
      var after := mid[t.paymentAddressId := PolledRow(Settle(t, outcome, now), now, nextPollAt)];
      RowsSettled(before, after, claimed, outcomes + [outcome], now, nextPollAt)
  {
    var n, all := |outcomes|, outcomes + [outcome];
    var t := claimed[n];
    var after := mid[t.paymentAddressId := PolledRow(Settle(t, outcome, now), now, nextPollAt)];
    forall id | id in before && !Among(claimed, |all|, id) ensures after[id] == before[id] {
      assert claimed[n].paymentAddressId != id;
      assert !Among(claimed, n, id);
    }
  }

  // What the outputs of a cycle say about its batch.
  ghost predicate Tallied(output: Output, claimed: seq<Tracking>, outcomes: seq<Outcome>, now: Time) {
    && AllAcceptable(claimed, outcomes, now)
    && output.claimed == |claimed|
    && output.updated == Count(Updated, claimed, outcomes, now)
    && output.terminalFailed == Count(TerminalFailed, claimed, outcomes, now)
    && output.processingErrors == Count(ProcessingError, claimed, outcomes, now)
  }

  lemma {:induction false} CountsAddUp(claimed: seq<Tracking>, outcomes: seq<Outcome>, now: Time)
    requires AllAcceptable(claimed, outcomes, now)
    ensures Count(Updated, claimed, outcomes, now) + Count(TerminalFailed, claimed, outcomes, now)
            + Count(ProcessingError, claimed, outcomes, now) == |outcomes|
    decreases |outcomes|
  {
    if outcomes != [] { CountsAddUp(claimed, outcomes[..|outcomes| - 1], now); }
  }

  // An event for the next tracking is one more announcement.
  lemma EnqueueNext(
    allocations: map<int, AllocationRow>, before: map<int, NotificationRow>, mid: map<int, NotificationRow>, first: int,
    events: seq<StatusChanged>, event: StatusChanged, at: Time)
    requires Enqueued(allocations, before, mid, first, events)
    requires event.paymentAddressId in allocations && forall id | id in before :: id < first
    ensures var row := OutboxStore.NewRow(event, allocations[event.paymentAddressId].customerReference, at);
      Enqueued(allocations, before, mid[first + |events| := row], first, events + [event])
  {
  }

  // The same trackings, each within the terms of its issuance.
  ghost predicate SameTerms(before: map<int, TrackingRow>, after: map<int, TrackingRow>) {
    && before.Keys == after.Keys
    && forall id | id in before :: TermsOf(after[id].tracking) == TermsOf(before[id].tracking)
  }

  lemma SameTermsAtFirst(rows: map<int, TrackingRow>)
    ensures SameTerms(rows, rows) == true
  {
  }

  lemma SameTermsCompose(a: map<int, TrackingRow>, b: map<int, TrackingRow>, c: map<int, TrackingRow>)
    requires SameTerms(a, b) == true && SameTerms(b, c) == true
    ensures SameTerms(a, c) == true
  {
  }

  datatype Rows = Rows(trackings: map<int, TrackingRow>, notifications: map<int, NotificationRow>,
      nextNotificationId: int)

  // The next notification id is above all that are in use.
  ghost predicate IdsBelow(rows: Rows) {
    forall id | id in rows.notifications :: id < rows.nextNotificationId
  }

  // The tables after the first outcomes of a batch have been saved.
  ghost predicate Progress(
    allocations: map<int, AllocationRow>, before: Rows, after: Rows, claimed: seq<Tracking>, outcomes: seq<Outcome>,
    now: Time, nextPollAt: Time)
  {
    && AllAcceptable(claimed, outcomes, now)
    && Claimed(after.trackings, claimed, |outcomes|)
    && SameTerms(before.trackings, after.trackings)
    && RowsSettled(before.trackings, after.trackings, claimed, outcomes, now, nextPollAt)
    && Enqueued(allocations, before.notifications, after.notifications, before.nextNotificationId,
                Announcements(claimed, outcomes, now))
    && after.nextNotificationId == before.nextNotificationId + |Announcements(claimed, outcomes, now)|
  }

  // The tables after saving one more outcome.
  ghost predicate SavedOne(
    allocations: map<int, AllocationRow>, mid: Rows, after: Rows, t: Tracking, outcome: Outcome, now: Time,
    nextPollAt: Time, enqueuedAt: Time)
    requires Acceptable(t, outcome, now)
  {
    && t.paymentAddressId in allocations
    && after.trackings == mid.trackings[t.paymentAddressId := PolledRow(Settle(t, outcome, now), now, nextPollAt)]
    && var event := EventOf(t, outcome, now);
       if event.None? then after == mid.(trackings := after.trackings)
       else
         var reference := allocations[t.paymentAddressId].customerReference;
         && after.notifications ==
              mid.notifications[mid.nextNotificationId := OutboxStore.NewRow(event.value, reference, enqueuedAt)]
         && after.nextNotificationId == mid.nextNotificationId + 1
  }

  lemma ClaimedNext(
    before: map<int, TrackingRow>, mid: map<int, TrackingRow>, claimed: seq<Tracking>, n: nat, row: TrackingRow)
    requires n < |claimed| && Distinct(claimed) && Claimed(mid, claimed, n)
    requires SameTerms(before, mid) && TermsOf(row.tracking) == TermsOf(claimed[n])
    ensures Claimed(mid[claimed[n].paymentAddressId := row], claimed, n + 1)
    ensures SameTerms(before, mid[claimed[n].paymentAddressId := row])
  {
  }

  lemma AnnounceNext(
    allocations: map<int, AllocationRow>, before: Rows, mid: Rows, after: Rows, claimed: seq<Tracking>,
    outcomes: seq<Outcome>, outcome: Outcome, now: Time, nextPollAt: Time, enqueuedAt: Time)
    requires |outcomes| < |claimed| && AllAcceptable(claimed, outcomes, now)
      && Acceptable(claimed[|outcomes|], outcome, now)
    requires AllAcceptable(claimed, outcomes + [outcome], now)
    requires IdsBelow(before)
    requires Enqueued(allocations, before.notifications, mid.notifications, before.nextNotificationId,
                      Announcements(claimed, outcomes, now))
    requires mid.nextNotificationId == before.nextNotificationId + |Announcements(claimed, outcomes, now)|
    requires SavedOne(allocations, mid, after, claimed[|outcomes|], outcome, now, nextPollAt, enqueuedAt)
    ensures Enqueued(allocations, before.notifications, after.notifications, before.nextNotificationId,
                     Announcements(claimed, outcomes + [outcome], now))
    ensures after.nextNotificationId == before.nextNotificationId + |Announcements(claimed, outcomes + [outcome], now)|
  {
    assert (outcomes + [outcome])[..|outcomes|] == outcomes;
    var event := EventOf(claimed[|outcomes|], outcome, now);
    if event.Some? {
      EnqueueNext(allocations, before.notifications, mid.notifications, before.nextNotificationId,
                  Announcements(claimed, outcomes, now), event.value, enqueuedAt);
    } else {
      assert Announcements(claimed, outcomes + [outcome], now) == Announcements(claimed, outcomes, now);
    }
  }

  lemma SaveProgresses(
    allocations: map<int, AllocationRow>, before: Rows, mid: Rows, after: Rows, claimed: seq<Tracking>,
    outcomes: seq<Outcome>, outcome: Outcome, now: Time, nextPollAt: Time, enqueuedAt: Time)
    requires |outcomes| < |claimed| && Distinct(claimed)
    requires AllAcceptable(claimed, outcomes, now) && Acceptable(claimed[|outcomes|], outcome, now)
    requires IdsBelow(before)
    requires Progress(allocations, before, mid, claimed, outcomes, now, nextPollAt)
    requires SavedOne(allocations, mid, after, claimed[|outcomes|], outcome, now, nextPollAt, enqueuedAt)
    ensures AllAcceptable(claimed, outcomes + [outcome], now)
    ensures Progress(allocations, before, after, claimed, outcomes + [outcome], now, nextPollAt)
  {
    var t := claimed[|outcomes|];
    SettleNext(before.trackings, mid.trackings, claimed, outcomes, outcome, now, nextPollAt);
    SettleKeepsTerms(t, outcome, now);
    ClaimedNext(before.trackings, mid.trackings, claimed, |outcomes|,
      PolledRow(Settle(t, outcome, now), now, nextPollAt));
    AnnounceNext(allocations, before, mid, after, claimed, outcomes, outcome, now, nextPollAt, enqueuedAt);
  }

  function Add(output: Output, kind: Kind): Output {
    match kind
    case Updated => output.(updated := output.updated + 1)
    case TerminalFailed => output.(terminalFailed := output.terminalFailed + 1)
    case ProcessingError => output.(processingErrors := output.processingErrors + 1)
  }

  lemma TallyNext(output: Output, claimed: seq<Tracking>, outcomes: seq<Outcome>, outcome: Outcome, now: Time)
    requires |outcomes| < |claimed| && AllAcceptable(claimed, outcomes, now)
      && Acceptable(claimed[|outcomes|], outcome, now)
    requires Tallied(output, claimed, outcomes, now)
    ensures AllAcceptable(claimed, outcomes + [outcome], now)
    ensures Tallied(Add(output, KindOf(claimed[|outcomes|], outcome, now)), claimed, outcomes + [outcome], now) == true
  {
    assert (outcomes + [outcome])[..|outcomes|] == outcomes;
  }

  ghost function RowsOf(database: Database): Rows
    reads database
  {
    Rows(database.trackings, database.notifications, database.nextNotificationId)
  }

  // Saves the next outcome, with the progress it makes.
  method SaveNext(
    database: Database, ghost before: Rows, claimed: seq<Tracking>, n: nat, ghost outcomes: seq<Outcome>,
    outcome: Outcome, now: Time, nextPollAt: Time)
    returns (e: Option<CycleError>, kind: Kind)
    requires n == |outcomes| < |claimed| && Distinct(claimed) && now != ZERO_TIME
    requires Acceptable(claimed[|outcomes|], outcome, now)
    requires database.trackings.Keys <= database.allocations.Keys
    requires IdsBelow(before)
    requires Progress(database.allocations, before, RowsOf(database), claimed, outcomes, now, nextPollAt) == true
    modifies database
    ensures database.allocations == old(database.allocations) && database.cursors == old(database.cursors)
    ensures database.keys == old(database.keys) && database.nextId == old(database.nextId)
    ensures SameTerms(before.trackings, database.trackings)
    ensures e.None? || e == Some(DependencyFailure)
    ensures e.None? ==>
      && kind == KindOf(claimed[|outcomes|], outcome, now)
      && Progress(database.allocations, before, RowsOf(database), claimed, outcomes + [outcome], now,
                  nextPollAt) == true
      && database.saves == old(database.saves) + [claimed[n].paymentAddressId]
  {
    ghost var mid := RowsOf(database);
    var at;
    SettleKeepsTerms(claimed[n], outcome, now);
    e, kind, at := SaveOutcome(database, claimed[n], outcome, now, nextPollAt);
    if e.None? {
      SaveProgresses(database.allocations, before, mid, RowsOf(database), claimed, outcomes, outcome, now, nextPollAt,
        at);
    }
  }

  // What a cycle asked the chain, with all answers.
  datatype Inquiry = Inquiry(
    fetches: seq<Fetch>, answers: map<Scope, Option<int64>>, sightings: seq<Sighting>, sights: seq<Sight>)

  // The ids of the first trackings of a batch, in order.
  function IdsOf(claimed: seq<Tracking>, n: nat): seq<int>
    requires n <= |claimed|
  {
    seq(n, i requires 0 <= i < n => claimed[i].paymentAddressId)
  }

  // Every outcome is what the answers of the chain make it.
  ghost predicate FromAnswers(claimed: seq<Tracking>, sights: seq<Sight>, outcomes: seq<Outcome>) {
    && |outcomes| == |sights| <= |claimed|
    && forall i | 0 <= i < |outcomes| :: outcomes[i] == OutcomeOf(claimed[i], sights[i])
  }

  // The tables and the account of a batch so far.
  ghost predicate Batch(
    allocations: map<int, AllocationRow>, before: Rows, after: Rows, output: Output, claimed: seq<Tracking>,
    sights: seq<Sight>, outcomes: seq<Outcome>, now: Time, nextPollAt: Time)
  {
    && Progress(allocations, before, after, claimed, outcomes, now, nextPollAt)
    && Tallied(output, claimed, outcomes, now)
    && FromAnswers(claimed, sights, outcomes)
  }

  lemma BatchStarts(allocations: map<int, AllocationRow>, rows: Rows, claimed: seq<Tracking>, now: Time,
      nextPollAt: Time)
    requires Claimed(rows.trackings, claimed, 0)
    ensures Batch(allocations, rows, rows, Output(|claimed|, 0, 0, 0), claimed, [], [], now, nextPollAt) == true
  {
  }

  // One more save is the next id of the batch.
  lemma SavesNext(before: seq<int>, saves: seq<int>, claimed: seq<Tracking>, n: nat)
    requires n < |claimed| && saves == before + IdsOf(claimed, n)
    ensures saves + [claimed[n].paymentAddressId] == before + IdsOf(claimed, n + 1)
  {
    assert IdsOf(claimed, n + 1) == IdsOf(claimed, n) + [claimed[n].paymentAddressId];
  }

  lemma FromAnswersNext(
    claimed: seq<Tracking>, sights: seq<Sight>, outcomes: seq<Outcome>, sight: Sight, outcome: Outcome)
    requires FromAnswers(claimed, sights, outcomes) && |outcomes| < |claimed|
    requires outcome == OutcomeOf(claimed[|outcomes|], sight)
    ensures FromAnswers(claimed, sights + [sight], outcomes + [outcome]) == true
  {
  }

  lemma BatchNext(
    allocations: map<int, AllocationRow>, before: Rows, mid: Rows, after: Rows, output: Output, claimed: seq<Tracking>,
    sights: seq<Sight>, outcomes: seq<Outcome>, sight: Sight, outcome: Outcome, now: Time, nextPollAt: Time)
    requires Batch(allocations, before, mid, output, claimed, sights, outcomes, now, nextPollAt)
      && |outcomes| < |claimed|
    requires Acceptable(claimed[|outcomes|], outcome, now) && outcome == OutcomeOf(claimed[|outcomes|], sight)
    requires Progress(allocations, before, after, claimed, outcomes + [outcome], now, nextPollAt) == true
    ensures Batch(allocations, before, after, Add(output, KindOf(claimed[|outcomes|], outcome, now)), claimed,
                  sights + [sight], outcomes + [outcome], now, nextPollAt) == true
  {
    TallyNext(output, claimed, outcomes, outcome, now);
    FromAnswersNext(claimed, sights, outcomes, sight, outcome);
  }

  // Observes and saves the next tracking. The predicates are equations where they are only
  // carried along, so that they are not taken apart.
  method ProcessNext(
    database: Database, ghost before: Rows, observer: BlockchainReceiptObserver, cache: HeightCache,
    claimed: seq<Tracking>, n: nat, ghost sights: seq<Sight>, ghost outcomes: seq<Outcome>, output: Output, now: Time,
    nextPollAt: Time)
    returns (output': Output, e: Option<CycleError>, ghost sight: Sight, ghost outcome: Outcome)
    requires n == |sights| == |outcomes| < |claimed| && Distinct(claimed) && now != ZERO_TIME
    requires database.trackings.Keys <= database.allocations.Keys && IdsBelow(before)
    requires Batch(database.allocations, before, RowsOf(database), output, claimed, sights, outcomes, now,
      nextPollAt) == true
    requires Asking(observer, cache, claimed, sights) == true
    modifies database, observer, cache
    ensures database.allocations == old(database.allocations) && database.cursors == old(database.cursors)
    ensures database.keys == old(database.keys) && database.nextId == old(database.nextId)
    ensures SameTerms(before.trackings, database.trackings) == true
    ensures e.None? || e == Some(DependencyFailure)
    ensures e.None? ==>
      && Batch(database.allocations, before, RowsOf(database), output', claimed, sights + [sight], outcomes + [outcome],
               now, nextPollAt) == true
      && Asking(observer, cache, claimed, sights + [sight]) == true
      && database.saves == old(database.saves) + [claimed[n].paymentAddressId]
  {
    ghost var mid := RowsOf(database);
    var found, kind;
    found, sight := ObserveNext(observer, cache, claimed, n, sights, now);
    outcome := found;
    e, kind := SaveNext(database, before, claimed, n, outcomes, found, now, nextPollAt);
    output' := output;
    if e.None? {
      BatchNext(database.allocations, before, mid, RowsOf(database), output, claimed, sights, outcomes, sight, outcome,
                now, nextPollAt);
      output' := Add(output, kind);
    }
  }

  // Works through the batch until it is done or the database fails.
  method ProcessClaimed(database: Database, claimed: seq<Tracking>, now: Time, nextPollAt: Time)
    returns (output: Output, e: Option<CycleError>, ghost inquiry: Inquiry, ghost outcomes: seq<Outcome>)
    requires now != ZERO_TIME && Distinct(claimed) && Claimed(database.trackings, claimed, 0)
    requires database.trackings.Keys <= database.allocations.Keys && IdsBelow(RowsOf(database))
    modifies database
    ensures database.allocations == old(database.allocations) && database.cursors == old(database.cursors)
    ensures database.keys == old(database.keys) && database.nextId == old(database.nextId)
    ensures SameTerms(old(database.trackings), database.trackings) == true
    ensures e.None? || e == Some(DependencyFailure)
    ensures e.None? ==>
      && |outcomes| == |claimed|
      && database.saves == old(database.saves) + IdsOf(claimed, |claimed|)
      && Batch(database.allocations, old(RowsOf(database)), RowsOf(database), output, claimed, inquiry.sights, outcomes,
               now, nextPollAt) == true
      && Asks(inquiry.fetches, inquiry.answers, inquiry.sightings, claimed, inquiry.sights) == true
  {
    var observer := new BlockchainReceiptObserver();
    var cache := new HeightCache();
    output := Output(|claimed|, 0, 0, 0);
    inquiry, outcomes := Inquiry([], map[], [], []), [];
    ghost var sights: seq<Sight> := [];
    ghost var before, saves := RowsOf(database), database.saves;
    NothingAsked(claimed);
    BatchStarts(database.allocations, before, claimed, now, nextPollAt);
    SameTermsAtFirst(before.trackings);
    assert saves + IdsOf(claimed, 0) == saves;
    var n := 0;
    while n < |claimed|
      invariant n == |sights| == |outcomes| <= |claimed|
      invariant database.allocations == old(database.allocations) && database.cursors == old(database.cursors)
      invariant database.keys == old(database.keys) && database.nextId == old(database.nextId)
      invariant SameTerms(before.trackings, database.trackings) == true
        && database.trackings.Keys == before.trackings.Keys
      invariant database.saves == saves + IdsOf(claimed, n)
      invariant Batch(database.allocations, before, RowsOf(database), output, claimed, sights, outcomes, now,
        nextPollAt) == true
      invariant Asking(observer, cache, claimed, sights) == true
    {
      ghost var sight, outcome;
      SavesNext(saves, database.saves, claimed, n);
      output, e, sight, outcome :=
        ProcessNext(database, before, observer, cache, claimed, n, sights, outcomes, output, now, nextPollAt);
      if e.Some? { return; }
      sights, outcomes, n := sights + [sight], outcomes + [outcome], n + 1;
    }
    e := None;
    inquiry := Inquiry(observer.fetches, cache.Answers(), observer.sightings, sights);
  }

  /******* The cycle *******/

  datatype Input = Input(batchSize: int, chain: string, network: string, claimTtl: int, rescheduleInterval: int)

  // The rows the claim takes.
  function Due(trackings: map<int, TrackingRow>, input: Input, now: Time, skipped: set<int>): set<int> {
    Taken(TrackingStore.DueOf(trackings),
          TrackingStore.Eligible(trackings, now, input.chain, input.network, POLLABLE_STATUSES) - skipped,
            input.batchSize)
  }

  // The claim touched no row outside the batch, nor the outbox.
  ghost predicate OnlyLeased(before: Rows, leased: Rows, claimed: seq<Tracking>) {
    && leased == before.(trackings := leased.trackings)
    && leased.trackings.Keys == before.trackings.Keys
    && forall id | id in before.trackings && !Among(claimed, |claimed|, id) ::
         leased.trackings[id] == before.trackings[id]
  }

  lemma ClaimOnlyLeases(before: Rows, leased: Rows, ids: set<int>, until: Time, claimed: seq<Tracking>)
    requires AreIds(ids, claimed) && leased == before.(trackings := TrackingStore.Leased(before.trackings, ids, until))
    ensures OnlyLeased(before, leased, claimed) == true
  {
  }

  // Leases are cleared again by the saves, so the leased tables can be left out of the account.
  lemma LeasesAreGone(
    before: Rows, leased: Rows, after: map<int, TrackingRow>, claimed: seq<Tracking>, outcomes: seq<Outcome>, now: Time,
    nextPollAt: Time)
    requires |outcomes| == |claimed| && OnlyLeased(before, leased, claimed)
    requires RowsSettled(leased.trackings, after, claimed, outcomes, now, nextPollAt)
    ensures RowsSettled(before.trackings, after, claimed, outcomes, now, nextPollAt) == true
  {
  }

  // The questions and answers of a whole batch, and what was made of them.
  ghost predicate Answered(inquiry: Inquiry, claimed: seq<Tracking>, outcomes: seq<Outcome>) {
    && Asks(inquiry.fetches, inquiry.answers, inquiry.sightings, claimed, inquiry.sights)
    && FromAnswers(claimed, inquiry.sights, outcomes)
  }

  // The account of a cycle that ends without an error: which rows it took, what became of
  // them, what was announced, and how it was counted.
  ghost predicate Completed(
    allocations: map<int, AllocationRow>, before: Rows, after: Rows, output: Output, input: Input, now: Time,
    skipped: set<int>, claimed: seq<Tracking>, outcomes: seq<Outcome>)
  {
    && now != ZERO_TIME
    && IsBatch(before, input, now, skipped, claimed)
    && |outcomes| == |claimed|
    && RowsSettled(before.trackings, after.trackings, claimed, outcomes, now, now + input.rescheduleInterval)
    && AnnouncesAll(allocations, before, after, claimed, outcomes, now)
    && Tallied(output, claimed, outcomes, now)
    && output.claimed == output.updated + output.terminalFailed + output.processingErrors
  }

  // The batch is what the claim takes, each row once and as it was stored.
  ghost predicate IsBatch(before: Rows, input: Input, now: Time, skipped: set<int>, claimed: seq<Tracking>) {
    && Distinct(claimed)
    && AreIds(Due(before.trackings, input, now, skipped), claimed)
    && Copies(before.trackings, claimed)
  }

  ghost predicate AnnouncesAll(
    allocations: map<int, AllocationRow>, before: Rows, after: Rows, claimed: seq<Tracking>, outcomes: seq<Outcome>,
    now: Time)
  {
    && AllAcceptable(claimed, outcomes, now)
    && Enqueued(allocations, before.notifications, after.notifications, before.nextNotificationId,
                Announcements(claimed, outcomes, now))
  }

  lemma TallyAddsUp(output: Output, claimed: seq<Tracking>, outcomes: seq<Outcome>, now: Time)
    requires Tallied(output, claimed, outcomes, now) == true && |outcomes| == |claimed|
    ensures output.claimed == output.updated + output.terminalFailed + output.processingErrors
  {
    CountsAddUp(claimed, outcomes, now);
  }

  lemma BatchSettles(
    allocations: map<int, AllocationRow>, before: Rows, leased: Rows, after: Rows, output: Output,
    claimed: seq<Tracking>, sights: seq<Sight>, outcomes: seq<Outcome>, now: Time, nextPollAt: Time)
    requires OnlyLeased(before, leased, claimed) == true && |outcomes| == |claimed|
    requires Batch(allocations, leased, after, output, claimed, sights, outcomes, now, nextPollAt)
    ensures RowsSettled(before.trackings, after.trackings, claimed, outcomes, now, nextPollAt) == true
    ensures AnnouncesAll(allocations, before, after, claimed, outcomes, now) == true
    ensures Tallied(output, claimed, outcomes, now) == true && FromAnswers(claimed, sights, outcomes) == true
  {
    LeasesAreGone(before, leased, after.trackings, claimed, outcomes, now, nextPollAt);
  }

  lemma CompletedParts(
    allocations: map<int, AllocationRow>, before: Rows, after: Rows, output: Output, input: Input, now: Time,
    skipped: set<int>, claimed: seq<Tracking>, outcomes: seq<Outcome>)
    requires now != ZERO_TIME && IsBatch(before, input, now, skipped, claimed) == true && |outcomes| == |claimed|
    requires RowsSettled(before.trackings, after.trackings, claimed, outcomes, now,
      now + input.rescheduleInterval) == true
    requires AnnouncesAll(allocations, before, after, claimed, outcomes, now) == true
    requires Tallied(output, claimed, outcomes, now) == true
    requires output.claimed == output.updated + output.terminalFailed + output.processingErrors
    ensures Completed(allocations, before, after, output, input, now, skipped, claimed, outcomes) == true
  {
  }

  // The leased rows are settled in turn, so that a batch makes a whole cycle.
  lemma CycleCompletes(
    allocations: map<int, AllocationRow>, before: Rows, leased: Rows, after: Rows, output: Output, input: Input,
    now: Time, skipped: set<int>, claimed: seq<Tracking>, sights: seq<Sight>, outcomes: seq<Outcome>)
    requires now != ZERO_TIME && OnlyLeased(before, leased, claimed) == true && |outcomes| == |claimed|
    requires IsBatch(before, input, now, skipped, claimed) == true
    requires Batch(allocations, leased, after, output, claimed, sights, outcomes, now,
      now + input.rescheduleInterval) == true
    ensures Completed(allocations, before, after, output, input, now, skipped, claimed, outcomes) == true
    ensures FromAnswers(claimed, sights, outcomes) == true
  {
    BatchSettles(allocations, before, leased, after, output, claimed, sights, outcomes, now,
      now + input.rescheduleInterval);
    TallyAddsUp(output, claimed, outcomes, now);
    CompletedParts(allocations, before, after, output, input, now, skipped, claimed, outcomes);
  }

  // What the claim returns is the batch, and still to be polled.
  lemma BatchIsClaimed(before: Rows, leased: Rows, input: Input, now: Time, skipped: set<int>, claimed: seq<Tracking>)
    requires Keyed(before.trackings) && forall id | id in before.trackings :: id > 0
    requires leased == before.(trackings := TrackingStore.Leased(
               before.trackings, Due(before.trackings, input, now, skipped), now + input.claimTtl))
    requires IsBatch(before, input, now, skipped, claimed) == true
    ensures OnlyLeased(before, leased, claimed) == true
    ensures Claimed(leased.trackings, claimed, 0) == true
    ensures SameTerms(before.trackings, leased.trackings) == true
  {
    var due := Due(before.trackings, input, now, skipped);
    ClaimOnlyLeases(before, leased, due, now + input.claimTtl, claimed);
    forall i | 0 <= i < |claimed| ensures Pollable(claimed[i].status) {
      assert Among(claimed, |claimed|, claimed[i].paymentAddressId);
      assert claimed[i].paymentAddressId in due;
    }
  }

  // The statements of the claim.
  method ClaimBatch(tx: Transaction, ghost before: Rows, input: Input, now: Time)
    returns (r: Result<seq<Tracking>, StoreError>, ghost skipped: set<int>)
    requires Keyed(tx.trackings) && (forall id | id in tx.trackings :: id > 0) && before.trackings == tx.trackings
    modifies tx`trackings
    ensures r.Success? ==>
      && now != ZERO_TIME && IsBatch(before, input, now, skipped, r.value) == true
      && OnlyLeased(before, before.(trackings := tx.trackings), r.value) == true
      && Claimed(tx.trackings, r.value, 0) == true && SameTerms(before.trackings, tx.trackings) == true
    ensures r.Failure? ==> tx.trackings == old(tx.trackings)
  {
    var store := new PaymentReceiptTrackingStore(tx);
    r, skipped :=
      store.ClaimDue(now, now + input.claimTtl, input.batchSize, input.chain, input.network, POLLABLE_STATUSES);
    if r.Success? {
      BatchIsClaimed(before, before.(trackings := tx.trackings), input, now, skipped, r.value);
    }
  }

  method Claim(database: Database, input: Input, now: Time) returns (r: Option<seq<Tracking>>, ghost skipped: set<int>)
    requires Keyed(database.trackings) && forall id | id in database.trackings :: id > 0
    modifies database
    ensures database.allocations == old(database.allocations) && database.cursors == old(database.cursors)
    ensures database.keys == old(database.keys) && database.nextId == old(database.nextId)
    ensures database.notifications == old(database.notifications)
    ensures database.nextNotificationId == old(database.nextNotificationId) && database.saves == old(database.saves)
    ensures SameTerms(old(database.trackings), database.trackings) == true
    ensures r.Some? ==>
      && now != ZERO_TIME && IsBatch(old(RowsOf(database)), input, now, skipped, r.value) == true
      && OnlyLeased(old(RowsOf(database)), RowsOf(database), r.value) == true
      && Claimed(database.trackings, r.value, 0) == true
  {
    ghost var before := RowsOf(database);
    SameTermsAtFirst(database.trackings);
    var tx := database.Begin();
    var claimed;
    claimed, skipped := ClaimBatch(tx, before, input, now);
    if claimed.Failure? { return None, skipped; }
    var committed := database.Commit(tx);
    r := if committed then Some(claimed.value) else None;
    assert committed ==> RowsOf(database) == before.(trackings := tx.trackings);
  }

  // Works through a claimed batch, with the account of the whole cycle.
  method ProcessBatch(
    database: Database, ghost before: Rows, input: Input, now: Time, ghost skipped: set<int>, claimed: seq<Tracking>)
    returns (output: Output, e: Option<CycleError>, ghost outcomes: seq<Outcome>, ghost inquiry: Inquiry)
    requires now != ZERO_TIME && Claimed(database.trackings, claimed, 0) == true
    requires database.trackings.Keys <= database.allocations.Keys && IdsBelow(RowsOf(database))
    requires IsBatch(before, input, now, skipped, claimed) == true
    requires OnlyLeased(before, RowsOf(database), claimed) == true
    requires SameTerms(before.trackings, database.trackings) == true
    modifies database
    ensures database.allocations == old(database.allocations) && database.cursors == old(database.cursors)
    ensures database.keys == old(database.keys) && database.nextId == old(database.nextId)
    ensures SameTerms(before.trackings, database.trackings) == true
    ensures e.None? || e == Some(DependencyFailure)
    ensures e.None? ==>
      && Completed(database.allocations, before, RowsOf(database), output, input, now, skipped, claimed,
                   outcomes) == true
      && Answered(inquiry, claimed, outcomes) == true
      && database.saves == old(database.saves) + IdsOf(claimed, |claimed|)
  {
    ghost var mid := RowsOf(database);
    output, e, inquiry, outcomes := ProcessClaimed(database, claimed, now, now + input.rescheduleInterval);
    SameTermsCompose(before.trackings, mid.trackings, database.trackings);
    if e.None? {
      CycleCompletes(database.allocations, before, mid, RowsOf(database), output, input, now, skipped, claimed,
                     inquiry.sights, outcomes);
    }
  }

  method RunCycle(database: Database, input: Input, now: Time)
    returns (output: Output, e: Option<CycleError>, ghost skipped: set<int>, ghost claimed: seq<Tracking>,
             ghost outcomes: seq<Outcome>, ghost inquiry: Inquiry)
    requires Keyed(database.trackings) && (forall id | id in database.trackings :: id > 0)
    requires database.trackings.Keys <= database.allocations.Keys && IdsBelow(RowsOf(database))
    modifies database
    ensures database.allocations == old(database.allocations) && database.cursors == old(database.cursors)
    ensures database.keys == old(database.keys) && database.nextId == old(database.nextId)
    ensures SameTerms(old(database.trackings), database.trackings) == true
    ensures e.None? ==>
      && Completed(database.allocations, old(RowsOf(database)), RowsOf(database), output, input, now, skipped, claimed,
                   outcomes) == true
      && Answered(inquiry, claimed, outcomes) == true
      && database.saves == old(database.saves) + IdsOf(claimed, |claimed|)
    ensures e.Some? ==> e.value != InternalFailure
  {
    output, claimed, outcomes, skipped := Output(0, 0, 0, 0), [], [], {};
    inquiry := Inquiry([], map[], [], []);
    if input.batchSize <= 0 { e := Some(BatchSizeInvalid); return; }
    if input.network != "" && input.chain == "" { e := Some(CycleError.ChainRequired); return; }
    ghost var before := RowsOf(database);
    var taken;
    taken, skipped := Claim(database, input, now);
    if taken.None? { e := Some(DependencyFailure); return; }
    claimed := taken.value;
    output, e, outcomes, inquiry := ProcessBatch(database, before, input, now, skipped, taken.value);
  }

  /******* What a cycle stores and announces, column by column *******/

  // The poll of the `j`th claimed tracking changed its status.
  ghost predicate ChangesStatus(claimed: seq<Tracking>, outcomes: seq<Outcome>, now: Time, j: nat) {
    && j < |outcomes| <= |claimed| && Acceptable(claimed[j], outcomes[j], now)
    && Settle(claimed[j], outcomes[j], now).status != claimed[j].status
  }

  // `at` are the polls of a batch that changed a status, in order.
  ghost predicate AreChanges(at: seq<nat>, claimed: seq<Tracking>, outcomes: seq<Outcome>, now: Time) {
    && (forall i, k | 0 <= i < k < |at| :: at[i] < at[k])
    && (forall j: nat :: j in at <==> ChangesStatus(claimed, outcomes, now, j))
  }

  ghost predicate EventTells(event: StatusChanged, claimed: seq<Tracking>, outcomes: seq<Outcome>, now: Time, j: nat) {
    && j < |outcomes| <= |claimed| && Acceptable(claimed[j], outcomes[j], now)
    && TellsChange(event, claimed[j], outcomes[j], now, Settle(claimed[j], outcomes[j], now))
  }

  ghost predicate TellChanges(
    events: seq<StatusChanged>, at: seq<nat>, claimed: seq<Tracking>, outcomes: seq<Outcome>, now: Time)
  {
    |at| == |events| && forall k | 0 <= k < |at| :: EventTells(events[k], claimed, outcomes, now, at[k])
  }

  lemma EarlierChanges(claimed: seq<Tracking>, outcomes: seq<Outcome>, outcome: Outcome, now: Time, j: nat)
    requires |outcomes| < |claimed| && j != |outcomes|
    ensures ChangesStatus(claimed, outcomes + [outcome], now, j) <==> ChangesStatus(claimed, outcomes, now, j)
  {
  }

  lemma NextChange(at: seq<nat>, claimed: seq<Tracking>, outcomes: seq<Outcome>, outcome: Outcome, now: Time)
    requires AreChanges(at, claimed, outcomes, now) && |outcomes| < |claimed|
    ensures AreChanges(
      if ChangesStatus(claimed, outcomes + [outcome], now, |outcomes|) then at + [|outcomes|] else at,
      claimed, outcomes + [outcome], now) == true
  {
    var n := |outcomes|;
    var longer := if ChangesStatus(claimed, outcomes + [outcome], now, n) then at + [n] else at;
    forall k | 0 <= k < |at| ensures at[k] < n {
      assert at[k] in at && ChangesStatus(claimed, outcomes, now, at[k]);
    }
    forall j: nat ensures j in longer <==> ChangesStatus(claimed, outcomes + [outcome], now, j) {
      if j != n { EarlierChanges(claimed, outcomes, outcome, now, j); }
    }
  }

  lemma TellNextChange(
    events: seq<StatusChanged>, at: seq<nat>, claimed: seq<Tracking>, outcomes: seq<Outcome>, outcome: Outcome,
    now: Time)
    requires TellChanges(events, at, claimed, outcomes, now) && |outcomes| < |claimed|
    ensures TellChanges(events, at, claimed, outcomes + [outcome], now) == true
  {
    forall k | 0 <= k < |at| ensures EventTells(events[k], claimed, outcomes + [outcome], now, at[k]) {
      assert EventTells(events[k], claimed, outcomes, now, at[k]);
    }
  }

  lemma EventIsTold(claimed: seq<Tracking>, outcomes: seq<Outcome>, now: Time, j: nat)
    requires j < |outcomes| <= |claimed| && Acceptable(claimed[j], outcomes[j], now)
    ensures var event := EventOf(claimed[j], outcomes[j], now);
      && (event.Some? <==> ChangesStatus(claimed, outcomes, now, j))
      && (event.Some? ==> EventTells(event.value, claimed, outcomes, now, j))
  {
    SettleTells(claimed[j], outcomes[j], now);
  }

  lemma {:induction false} AnnouncementsTell(claimed: seq<Tracking>, outcomes: seq<Outcome>, now: Time)
    returns (at: seq<nat>)
    requires AllAcceptable(claimed, outcomes, now)
    ensures AreChanges(at, claimed, outcomes, now) == true
    ensures TellChanges(Announcements(claimed, outcomes, now), at, claimed, outcomes, now) == true
    decreases |outcomes|
  {
    at := [];
    if outcomes != [] {
      var n := |outcomes| - 1;
      assert outcomes[..n] + [outcomes[n]] == outcomes;
      at := AnnouncementsTell(claimed, outcomes[..n], now);
      NextChange(at, claimed, outcomes[..n], outcomes[n], now);
      TellNextChange(Announcements(claimed, outcomes[..n], now), at, claimed, outcomes[..n], outcomes[n], now);
      EventIsTold(claimed, outcomes, now, n);
      if EventOf(claimed[n], outcomes[n], now).Some? {
        at := at + [n];
      } else {
        assert Announcements(claimed, outcomes, now) == Announcements(claimed, outcomes[..n], now);
      }
    }
  }

  // The rows of a batch tell their outcomes.
  ghost predicate RowsTell(
    after: map<int, TrackingRow>, claimed: seq<Tracking>, outcomes: seq<Outcome>, now: Time, nextPollAt: Time)
  {
    |outcomes| == |claimed| && forall i | 0 <= i < |claimed| ::
      && claimed[i].paymentAddressId in after
      && StoresOutcome(claimed[i], outcomes[i], now, nextPollAt, after[claimed[i].paymentAddressId])
  }

  lemma SettledRowsTell(
    before: map<int, TrackingRow>, after: map<int, TrackingRow>, claimed: seq<Tracking>, outcomes: seq<Outcome>,
    now: Time, nextPollAt: Time)
    requires RowsSettled(before, after, claimed, outcomes, now, nextPollAt) && |outcomes| == |claimed|
    ensures RowsTell(after, claimed, outcomes, now, nextPollAt) == true
  {
    forall i | 0 <= i < |claimed|
      ensures claimed[i].paymentAddressId in after
        && StoresOutcome(claimed[i], outcomes[i], now, nextPollAt, after[claimed[i].paymentAddressId])
    {
      SettleTells(claimed[i], outcomes[i], now);
    }
  }

  // The new notifications tell of the changes, in order, and of nothing else.
  ghost predicate NotificationsTell(
    allocations: map<int, AllocationRow>, before: Rows, after: Rows, at: seq<nat>, claimed: seq<Tracking>,
    outcomes: seq<Outcome>, now: Time)
    requires |outcomes| == |claimed|
  {
    var first := before.nextNotificationId;
    && (forall id :: id in after.notifications <==> id in before.notifications || first <= id < first + |at|)
    && forall k: nat | k < |at| :: NotificationTells(allocations, before, after, at, claimed, outcomes, now, k)
  }

  // The notification of the `k`th change.
  ghost predicate NotificationTells(
    allocations: map<int, AllocationRow>, before: Rows, after: Rows, at: seq<nat>, claimed: seq<Tracking>,
    outcomes: seq<Outcome>, now: Time, k: nat)
    requires |outcomes| == |claimed| && k < |at|
  {
    && at[k] < |claimed| && before.nextNotificationId + k in after.notifications
    && var t, row := claimed[at[k]], after.notifications[before.nextNotificationId + k];
    && t.paymentAddressId in after.trackings && t.paymentAddressId in allocations
    && EnqueuesChange(t, outcomes[at[k]], now, after.trackings[t.paymentAddressId].tracking,
                      allocations[t.paymentAddressId].customerReference, row.nextAttemptAt, row)
  }

  lemma EventIsEnqueued(
    allocations: map<int, AllocationRow>, before: Rows, after: Rows, at: seq<nat>, claimed: seq<Tracking>,
    outcomes: seq<Outcome>, now: Time, nextPollAt: Time, k: nat)
    requires |outcomes| == |claimed| && k < |at|
    requires RowsSettled(before.trackings, after.trackings, claimed, outcomes, now, nextPollAt)
    requires TellChanges(Announcements(claimed, outcomes, now), at, claimed, outcomes, now)
    requires Enqueued(allocations, before.notifications, after.notifications, before.nextNotificationId,
                      Announcements(claimed, outcomes, now))
    ensures NotificationTells(allocations, before, after, at, claimed, outcomes, now, k) == true
  {
    var event := Announcements(claimed, outcomes, now)[k];
    assert event.paymentAddressId in allocations;
    assert EventTells(event, claimed, outcomes, now, at[k]);
  }

  lemma ChangesAreStored(
    before: map<int, TrackingRow>, after: map<int, TrackingRow>, at: seq<nat>, claimed: seq<Tracking>,
    outcomes: seq<Outcome>, now: Time, nextPollAt: Time)
    requires RowsSettled(before, after, claimed, outcomes, now, nextPollAt) && |outcomes| == |claimed|
    requires AreChanges(at, claimed, outcomes, now)
    ensures forall j: nat | j < |claimed| ::
      j in at <==> after[claimed[j].paymentAddressId].tracking.status != claimed[j].status
  {
    forall j: nat | j < |claimed|
      ensures j in at <==> after[claimed[j].paymentAddressId].tracking.status != claimed[j].status
    {
      assert j in at <==> ChangesStatus(claimed, outcomes, now, j);
    }
  }

  // A cycle that ends without an error takes only trackings that were due, free and asked for,
  // stores for each of them the totals that the chain showed, or the reason why there are none,
  // and announces exactly the changes of status among them, each with the totals that caused it
  // and the time of the cycle.
  lemma CycleTellsItsChanges(
    allocations: map<int, AllocationRow>, before: Rows, after: Rows, output: Output, input: Input, now: Time,
    skipped: set<int>, claimed: seq<Tracking>, outcomes: seq<Outcome>)
    returns (at: seq<nat>)
    requires Completed(allocations, before, after, output, input, now, skipped, claimed, outcomes)
    ensures forall i | 0 <= i < |claimed| ::
      WasDue(before.trackings, claimed[i].paymentAddressId, now, input.chain, input.network, POLLABLE_STATUSES)
    ensures RowsTell(after.trackings, claimed, outcomes, now, now + input.rescheduleInterval)
    ensures forall i, k | 0 <= i < k < |at| :: at[i] < at[k]
    ensures forall j: nat | j < |claimed| ::
      j in at <==> after.trackings[claimed[j].paymentAddressId].tracking.status != claimed[j].status
    ensures NotificationsTell(allocations, before, after, at, claimed, outcomes, now)
  {
    var nextPollAt := now + input.rescheduleInterval;
    TakenWereDue(before.trackings, skipped, now, now + input.claimTtl, input.batchSize, input.chain, input.network,
                 POLLABLE_STATUSES, claimed);
    SettledRowsTell(before.trackings, after.trackings, claimed, outcomes, now, nextPollAt);
    at := AnnouncementsTell(claimed, outcomes, now);
    ChangesAreStored(before.trackings, after.trackings, at, claimed, outcomes, now, nextPollAt);
    forall k: nat | k < |at| ensures NotificationTells(allocations, before, after, at, claimed, outcomes, now, k) {
      EventIsEnqueued(allocations, before, after, at, claimed, outcomes, now, nextPollAt, k);
    }
  }

  // A row is saved as failed to update exactly for an answer that does not add up.
  lemma UpdateFailureIsStoredExactly(
    before: map<int, TrackingRow>, after: map<int, TrackingRow>, claimed: seq<Tracking>, outcomes: seq<Outcome>,
    inquiry: Inquiry, now: Time, nextPollAt: Time, i: nat)
    requires RowsSettled(before, after, claimed, outcomes, now, nextPollAt)
    requires Answered(inquiry, claimed, outcomes) && i < |outcomes|
    ensures var sight := inquiry.sights[i];
      after[claimed[i].paymentAddressId].tracking.lastFailure == Some(TrackingUpdateFailed) <==>
      sight.Asked? && sight.answer.Some? && Validate(sight.answer.value).Some?
  {
    if claimed[i].issuedAt != ZERO_TIME { UpdateFailsExactly(claimed, inquiry.sights, i); }
  }

  // So no update fails in a cycle whose answers come from the two observers.
  lemma ObserversNeverFailAnUpdate(
    before: map<int, TrackingRow>, after: map<int, TrackingRow>, claimed: seq<Tracking>, outcomes: seq<Outcome>,
    inquiry: Inquiry, now: Time, nextPollAt: Time, i: nat)
    requires RowsSettled(before, after, claimed, outcomes, now, nextPollAt)
    requires Answered(inquiry, claimed, outcomes) && i < |outcomes|
    requires forall k | k in inquiry.sightings :: k.answer.Some? ==> IsReported(k.answer.value)
    ensures after[claimed[i].paymentAddressId].tracking.lastFailure != Some(TrackingUpdateFailed)
  {
    var sight := inquiry.sights[i];
    if sight.Asked? && sight.answer.Some? {
      AskedIsLogged(claimed, inquiry.sights, i);
      assert Sighting(claimed[i], sight.height, sight.answer).answer.Some?;
      ReportedIsValid(sight.answer.value);
    }
    UpdateFailureIsStoredExactly(before, after, claimed, outcomes, inquiry, now, nextPollAt, i);
  }

  // Polls stay within the terms of the issuances, which is all that issuance relies on.
  lemma PollsKeepConsistent(db: Db, trackings: map<int, TrackingRow>)
    requires AtomicIssuance.Consistent(db) && SameTerms(db.trackings, trackings)
    ensures AtomicIssuance.Consistent(db.(trackings := trackings))
  {
    PollsKeepTracked(db, trackings);
    forall key | key in db.keys ensures AtomicIssuance.KeyComplete(db.(trackings := trackings), key) {
      assert AtomicIssuance.KeyComplete(db, key);
    }
  }

  lemma PollsKeepTracked(db: Db, trackings: map<int, TrackingRow>)
    requires AtomicIssuance.TrackedOneToOne(db) && SameTerms(db.trackings, trackings)
    ensures AtomicIssuance.TrackedOneToOne(db.(trackings := trackings))
  {
    forall id | id in db.trackings
      ensures AtomicIssuance.Agree(id, db.allocations[id], trackings[id].tracking)
    {
      IssuanceRuns.SameTermsAgree(id, db.allocations[id], db.trackings[id].tracking, trackings[id].tracking);
    }
  }

  // A cycle between two transactions of anybody else leaves the tables as issuance needs them.
  method Execute(database: Database, input: Input) returns (output: Output, e: Option<CycleError>)
    requires database.Valid() && forall id | id in database.notifications :: id < database.nextNotificationId
    modifies database
    ensures database.Valid()
    ensures database.Committed() == old(database.Committed()).(trackings := database.trackings)
    ensures SameTerms(old(database.trackings), database.trackings)
    ensures e.None? ==> output.claimed == output.updated + output.terminalFailed + output.processingErrors
  {
    var now: Time := *;
    ghost var before := database.Committed();
    ValidIsPollable(before);
    var out, error, skipped, claimed, outcomes, inquiry := RunCycle(database, input, now);
    output, e := out, error;
    PollsKeepConsistent(before, database.trackings);
  }

  lemma ValidIsPollable(db: Db)
    requires AtomicIssuance.RowsOk(db) && AtomicIssuance.TrackedOneToOne(db)
    ensures Keyed(db.trackings) && (forall id | id in db.trackings :: id > 0)
      && db.trackings.Keys <= db.allocations.Keys
  {
    forall id | id in db.trackings ensures db.trackings[id].tracking.paymentAddressId == id > 0
      && id in db.allocations {
      assert AtomicIssuance.Agree(id, db.allocations[id], db.trackings[id].tracking);
    }
  }
}
