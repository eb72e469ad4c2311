/**
 The code one call at a time, and the machines that interleave any number of calls: an issuance
 is an `Issue` of the polling machine, a polling cycle a `Claim` and its `Save`s, the outbox
 rows it writes are the `Enqueue`s of the webhook machine, and a dispatch cycle is a `Claim` with
 a `Notify` and a `Save` for each row. So what is proved of runs holds of the tables that the
 code leaves behind.

 An equation `P(..) == true` in a contract is there for the solver: it passes `P` on whole, where
 a bare `P(..)` would be taken apart, conjunct by conjunct, at every call.
 */
module CyclesAreRuns {
  import opened Values
  import opened Tables
  import opened PaymentReceiptTracking
  import opened PollOutcome
  import opened ReceiptHistory
  import opened AtomicIssuance
  import TrackingStore
  import OutboxStore
  import Delivery
  import IssuanceMachine
  import IssuanceRuns
  import StatusPath
  import PC = PollingCycle
  import PR = PollingRuns
  import WC = WebhookCycle
  import WR = WebhookRuns

  function Last<T>(run: seq<T>): T
    requires run != []
  {
    run[|run| - 1]
  }

  /******* Issuance *******/

  // What an issuance stores is a tracking without any history.
  lemma IssuedTrackingIsFresh(i: Issuance)
    requires TrackingOf(i.plan, i.pick.id, i.derived).Success?
    ensures var t := TrackingOf(i.plan, i.pick.id, i.derived).value;
      Fresh(t) && t.paymentAddressId == i.pick.id > 0 && t.issuedAt == i.plan.issuedAt
  {
    IssuedIsFresh(
      i.pick.id, i.plan.policy.id, i.plan.policy.chain, i.plan.policy.network, i.derived.address,
      i.plan.policy.assetReference, i.plan.issuedAt, i.plan.amount, i.plan.confirmations, i.plan.expiresAt);
  }

  // Polling histories start where issuance leaves off.
  lemma IssuanceIsAnIssue(sys: IssuanceMachine.System, db: Db, db': Db, run: seq<PR.State>)
    returns (longer: seq<PR.State>)
    requires IssuanceRuns.Issues(sys, db, db')
    requires PR.IsRun(run) && Last(run).rows == db.trackings
    ensures PR.IsRun(longer) && |longer| == |run| + 1 && run <= longer && Last(longer).rows == db'.trackings
  {
    var i :| Enabled(db, i) && IssuanceRuns.Configured(sys, i) && db' == Issue(db, i);
    var s, t := Last(run), TrackingOf(i.plan, i.pick.id, i.derived).value;
    IssuedTrackingIsFresh(i);
    IssueByTable(db, i);
    var s' := s.(rows := s.rows[t.paymentAddressId := TrackingRow(t, t.issuedAt, None, None)],
                 ledgers := s.ledgers[t.paymentAddressId := PR.Ledger(t, [], None)]);
    longer := PR.RunExtends(run, PR.Issue(t), s');
  }

  /******* A polling cycle *******/

  // What a worker claimed in one cycle, and what came of it.
  datatype Poll = Poll(worker: int, input: PC.Input, now: Time, claimed: seq<Tracking>, outcomes: seq<Outcome>) {
    function NextPollAt(): Time { now + input.rescheduleInterval }

    function HoldingAt(k: nat): PR.Holding
      requires k < |claimed|
    {
      PR.Holding(worker, claimed[k].paymentAddressId, claimed[k], now, now + input.claimTtl)
    }

    function Query(skipped: set<int>): PR.Query {
      PR.Query(now, input.claimTtl, input.batchSize, input.chain, input.network, skipped)
    }

    ghost predicate Sound() {
      && |outcomes| == |claimed| && input.rescheduleInterval >= 0
      && TrackingStore.Distinct(claimed) && PC.AllAcceptable(claimed, outcomes, now)
    }
  }

  // The trackings that are still to be saved.
  ghost predicate StillHeld(c: Poll, s: PR.State, n: nat) {
    forall k: nat | n <= k < |c.claimed| :: c.HoldingAt(k) in s.held
  }

  // The state of the machine after the first `n` saves of a cycle.
  ghost predicate SavedSoFar(c: Poll, claim: PR.State, s: PR.State, n: nat) {
    && n <= |c.outcomes| == |c.claimed|
    && s.clock == claim.clock
    && PC.RowsSettled(claim.rows, s.rows, c.claimed, c.outcomes[..n], c.now, c.NextPollAt())
    && s.outbox == claim.outbox + PC.Announcements(c.claimed, c.outcomes[..n], c.now)
    && StillHeld(c, s, n)
  }

  // One save, as the cycle makes it.
  ghost predicate SavesOne(c: Poll, s: PR.State, s': PR.State, n: nat) {
    && n < |c.outcomes| == |c.claimed| && Acceptable(c.claimed[n], c.outcomes[n], c.now)
    && c.claimed[n].paymentAddressId in s.rows
    && s'.clock == s.clock && s'.held == s.held - {c.HoldingAt(n)}
    && s'.rows == s.rows[c.claimed[n].paymentAddressId :=
         TrackingStore.PolledRow(Settle(c.claimed[n], c.outcomes[n], c.now), c.now, c.NextPollAt())]
    && s'.outbox == s.outbox + StatusPath.Announced(c.claimed[n], c.outcomes[n], c.now)
  }

  lemma SaveIsNext(c: Poll, s: PR.State, n: nat) returns (s': PR.State)
    requires n < |c.claimed| == |c.outcomes| && c.input.rescheduleInterval >= 0
    requires PR.Inv(s) == true && PR.Live(s, c.HoldingAt(n)) && Acceptable(c.claimed[n], c.outcomes[n], c.now)
    ensures PR.Next(s, PR.Save(c.HoldingAt(n), c.outcomes[n], c.input.rescheduleInterval), s') == true
    ensures SavesOne(c, s, s', n) == true
  {
    var h := c.HoldingAt(n);
    HolderIsCurrent(s, h);
    s' := PR.AfterSave(s, h, c.outcomes[n], c.input.rescheduleInterval);
    PR.SavedRowIsWhole(s, h, c.outcomes[n], c.input.rescheduleInterval);
  }

  lemma HolderIsCurrent(s: PR.State, h: PR.Holding)
    requires PR.Inv(s) && PR.Live(s, h)
    ensures PR.IsCurrent(s.rows, h) && h.id in s.ledgers
  {
    assert s.rows.Keys == s.ledgers.Keys;
  }

  lemma AnnouncementsNext(claimed: seq<Tracking>, outcomes: seq<Outcome>, now: Time, n: nat)
    requires n < |outcomes| <= |claimed| && PC.AllAcceptable(claimed, outcomes, now)
    ensures PC.AllAcceptable(claimed, outcomes[..n], now) && PC.AllAcceptable(claimed, outcomes[..n + 1], now)
    ensures PC.Announcements(claimed, outcomes[..n + 1], now) ==
            PC.Announcements(claimed, outcomes[..n], now) + StatusPath.Announced(claimed[n], outcomes[n], now)
  {
    assert outcomes[..n + 1][..n] == outcomes[..n];
  }

  lemma RowsNext(c: Poll, claim: PR.State, s: PR.State, s': PR.State, n: nat)
    requires c.Sound() && SavedSoFar(c, claim, s, n) && SavesOne(c, s, s', n)
    ensures PC.RowsSettled(claim.rows, s'.rows, c.claimed, c.outcomes[..n + 1], c.now, c.NextPollAt()) == true
  {
    assert c.outcomes[..n + 1] == c.outcomes[..n] + [c.outcomes[n]];
    PC.SettleNext(claim.rows, s.rows, c.claimed, c.outcomes[..n], c.outcomes[n], c.now, c.NextPollAt());
  }

  lemma HeldNext(c: Poll, s: PR.State, s': PR.State, n: nat)
    requires c.Sound() && StillHeld(c, s, n) && SavesOne(c, s, s', n)
    ensures StillHeld(c, s', n + 1) == true
  {
    forall k: nat | n + 1 <= k < |c.claimed| ensures c.HoldingAt(k) in s'.held {
      assert c.HoldingAt(k).id != c.HoldingAt(n).id;
    }
  }

  lemma SavedMore(c: Poll, claim: PR.State, s: PR.State, s': PR.State, n: nat)
    requires c.Sound() == true && SavedSoFar(c, claim, s, n) == true && SavesOne(c, s, s', n) == true
    ensures SavedSoFar(c, claim, s', n + 1) == true
  {
    RowsNext(c, claim, s, s', n);
    HeldNext(c, s, s', n);
    AnnouncementsNext(c.claimed, c.outcomes, c.now, n);
  }

  lemma NextHolding(c: Poll, claim: PR.State, s: PR.State, n: nat)
    requires c.Sound() && SavedSoFar(c, claim, s, n) && n < |c.claimed| && claim.clock < c.now + c.input.claimTtl
    ensures PR.Live(s, c.HoldingAt(n)) && Acceptable(c.claimed[n], c.outcomes[n], c.now)
  {
  }

  lemma OneMoreSave(c: Poll, run: seq<PR.State>, claim: PR.State, n: nat) returns (more: seq<PR.State>)
    requires PR.IsRun(run) && n < |c.claimed| == |c.outcomes| && c.Sound() == true
    requires SavedSoFar(c, claim, Last(run), n) == true && claim.clock < c.now + c.input.claimTtl
    ensures PR.IsRun(more) && run <= more && |more| == |run| + 1
    ensures SavedSoFar(c, claim, Last(more), n + 1) == true
  {
    var s := Last(run);
    PR.InvInRuns(run, |run| - 1);
    NextHolding(c, claim, s, n);
    assert c.input.rescheduleInterval >= 0;
    var s' := SaveIsNext(c, s, n);
    SavedMore(c, claim, s, s', n);
    more := PR.RunExtends(run, PR.Save(c.HoldingAt(n), c.outcomes[n], c.input.rescheduleInterval), s');
  }

  lemma {:induction false} SavesExtendRun(c: Poll, run: seq<PR.State>, claim: PR.State, n: nat)
    returns (longer: seq<PR.State>)
    requires PR.IsRun(run) && n <= |c.claimed| == |c.outcomes| && c.Sound() == true
    requires SavedSoFar(c, claim, Last(run), n) == true && claim.clock < c.now + c.input.claimTtl
    ensures PR.IsRun(longer) && run <= longer && |longer| == |run| + |c.claimed| - n
    ensures SavedSoFar(c, claim, Last(longer), |c.claimed|) == true
    decreases |c.claimed| - n
  {
    if n == |c.claimed| {
      longer := run;
    } else {
      var more := OneMoreSave(c, run, claim, n);
      longer := SavesExtendRun(c, more, claim, n + 1);
    }
  }

  // Settled rows are the same rows, whether the lease of the claim is looked at or not.
  lemma SameSettledRows(
    before: PC.Rows, leased: PC.Rows, a: map<int, TrackingRow>, b: map<int, TrackingRow>, claimed: seq<Tracking>,
    outcomes: seq<Outcome>, now: Time, nextPollAt: Time)
    requires |outcomes| == |claimed| && PC.OnlyLeased(before, leased, claimed) == true
    requires PC.RowsSettled(leased.trackings, a, claimed, outcomes, now, nextPollAt) == true
    requires PC.RowsSettled(before.trackings, b, claimed, outcomes, now, nextPollAt) == true
    ensures a == b
  {
    PC.LeasesAreGone(before, leased, a, claimed, outcomes, now, nextPollAt);
    assert a.Keys == b.Keys;
    forall id | id in a ensures a[id] == b[id] {
      if TrackingStore.Among(claimed, |claimed|, id) {
        var i :| 0 <= i < |claimed| && claimed[i].paymentAddressId == id;
      }
    }
  }

  lemma ClaimIsTheBatch(c: Poll, s: PR.State, before: PC.Rows, skipped: set<int>) returns (claim: PR.State)
    requires s.rows == before.trackings && c.now != ZERO_TIME && c.now <= s.clock
    requires PC.IsBatch(before, c.input, c.now, skipped, c.claimed)
    ensures PR.Next(s, PR.Claim(c.worker, c.Query(skipped)), claim) == true
    ensures claim.clock == s.clock && claim.outbox == s.outbox
    ensures PC.OnlyLeased(before, before.(trackings := claim.rows), c.claimed) == true && StillHeld(c, claim, 0) == true
  {
    var q := c.Query(skipped);
    assert PR.Due(s.rows, q) == PC.Due(before.trackings, c.input, c.now, skipped);
    claim := s.(rows := TrackingStore.Leased(s.rows, PR.Due(s.rows, q), q.now + q.ttl),
                held := s.held + PR.Holdings(s.rows, c.worker, q));
    forall k: nat | k < |c.claimed| ensures c.HoldingAt(k) in claim.held {
      assert TrackingStore.Among(c.claimed, |c.claimed|, c.claimed[k].paymentAddressId);
      assert c.claimed[k].paymentAddressId in PR.Due(s.rows, q);
    }
    PC.ClaimOnlyLeases(before, before.(trackings := claim.rows), PR.Due(s.rows, q), q.now + q.ttl, c.claimed);
  }

  lemma NothingSaved(c: Poll, claim: PR.State)
    requires |c.outcomes| == |c.claimed| && StillHeld(c, claim, 0)
    ensures SavedSoFar(c, claim, claim, 0) == true
  {
    assert c.outcomes[..0] == [];
  }

  lemma AllSaved(c: Poll, before: PC.Rows, claim: PR.State, s: PR.State, after: PC.Rows)
    requires SavedSoFar(c, claim, s, |c.claimed|)
    requires PC.OnlyLeased(before, before.(trackings := claim.rows), c.claimed) == true
    requires PC.RowsSettled(before.trackings, after.trackings, c.claimed, c.outcomes, c.now, c.NextPollAt()) == true
    ensures s.rows == after.trackings && s.clock == claim.clock
    ensures PC.AllAcceptable(c.claimed, c.outcomes, c.now)
            && s.outbox == claim.outbox + PC.Announcements(c.claimed, c.outcomes, c.now)
  {
    assert c.outcomes[..|c.claimed|] == c.outcomes;
    SameSettledRows(before, before.(trackings := claim.rows), s.rows, after.trackings, c.claimed, c.outcomes, c.now,
                    c.NextPollAt());
  }

  // The parts of a completed cycle that its run needs.
  lemma CompletedSays(
    allocations: map<int, AllocationRow>, before: PC.Rows, after: PC.Rows, output: PC.Output, c: Poll,
    skipped: set<int>)
    requires PC.Completed(allocations, before, after, output, c.input, c.now, skipped, c.claimed, c.outcomes)
    requires c.input.rescheduleInterval >= 0
    ensures c.Sound() == true && c.now != ZERO_TIME
    ensures PC.IsBatch(before, c.input, c.now, skipped, c.claimed) == true
    ensures PC.RowsSettled(before.trackings, after.trackings, c.claimed, c.outcomes, c.now, c.NextPollAt()) == true
  {
  }

  // A cycle that ends without an error before its leases do is one claim and one save for each
  // row of its batch: it extends any run that has reached the tables it started from to one that
  // ends with the tables it left, and with its notifications in the outbox.
  lemma PollingCycleIsARun(
    run: seq<PR.State>, allocations: map<int, AllocationRow>, before: PC.Rows, after: PC.Rows, output: PC.Output,
    c: Poll, skipped: set<int>)
    returns (longer: seq<PR.State>)
    requires PC.Completed(allocations, before, after, output, c.input, c.now, skipped, c.claimed, c.outcomes) == true
    requires PR.IsRun(run) && Last(run).rows == before.trackings
    requires c.now <= Last(run).clock < c.now + c.input.claimTtl && c.input.rescheduleInterval >= 0
    ensures PR.IsRun(longer) && run <= longer && |longer| == |run| + 1 + |c.claimed|
    ensures var s, s' := Last(run), Last(longer);
      && s'.rows == after.trackings && s'.clock == s.clock
      && PC.AllAcceptable(c.claimed, c.outcomes, c.now)
      && s'.outbox == s.outbox + PC.Announcements(c.claimed, c.outcomes, c.now)
  {
    CompletedSays(allocations, before, after, output, c, skipped);
    var claim := ClaimIsTheBatch(c, Last(run), before, skipped);
    var more := PR.RunExtends(run, PR.Claim(c.worker, c.Query(skipped)), claim);
    NothingSaved(c, claim);
    longer := SavesExtendRun(c, more, claim, 0);
    AllSaved(c, before, claim, Last(longer), after);
  }

  /******* The outbox *******/

  // The rows once the first `n` announcements are in.
  function WithFirst(before: map<int, NotificationRow>, after: map<int, NotificationRow>, first: int, n: nat)
    : map<int, NotificationRow>
  {
    map id | id in after && (id in before || id < first + n) :: after[id]
  }

  // The rows a polling cycle adds to the outbox are new rows of the webhook machine.
  lemma {:induction false} AnnouncementsAreEnqueued(
    limits: Delivery.Limits, run: seq<WR.State>, allocations: map<int, AllocationRow>,
    before: map<int, NotificationRow>, after: map<int, NotificationRow>, first: int, events: seq<StatusChanged>, n: nat)
    returns (longer: seq<WR.State>)
    requires PC.Enqueued(allocations, before, after, first, events) && n <= |events|
    requires first > 0 && forall id | id in before :: id < first
    requires WR.IsRun(limits, run) && Last(run).rows == before
    ensures WR.IsRun(limits, longer) && run <= longer && |longer| == |run| + n
    ensures Last(longer).rows == WithFirst(before, after, first, n)
    ensures n == |events| ==> Last(longer).rows == after
  {
    longer := run;
    if n == 0 {
      var none := WithFirst(before, after, first, 0);
      forall id ensures id in none <==> id in before {}
      assert forall id | id in before :: none[id] == before[id];
      assert none.Keys == before.Keys by {
        assert forall id | id in none.Keys :: id in before.Keys;
        assert forall id | id in before.Keys :: id in none.Keys;
      }
      assert none == before;
    } else {
      var more := AnnouncementsAreEnqueued(limits, run, allocations, before, after, first, events, n - 1);
      var s, id := Last(more), first + n - 1;
      var row := after[id];
      var s' := s.(rows := s.rows[id := row], ledgers := s.ledgers[id := []]);
      assert events[n - 1].paymentAddressId in allocations && id == first + (n - 1);
      longer := WR.RunExtends(limits, more, WR.Enqueue(id, row), s');
      assert WithFirst(before, after, first, n) == WithFirst(before, after, first, n - 1)[id := row];
    }
    if n == |events| { assert WithFirst(before, after, first, n) == after; }
  }

  // So the outbox a polling cycle leaves is where a run of the webhook machine has got to.
  lemma PollingCycleFeedsTheOutbox(
    limits: Delivery.Limits, run: seq<WR.State>, allocations: map<int, AllocationRow>, before: PC.Rows, after: PC.Rows,
    output: PC.Output, c: Poll, skipped: set<int>)
    returns (longer: seq<WR.State>)
    requires PC.Completed(allocations, before, after, output, c.input, c.now, skipped, c.claimed, c.outcomes)
    requires before.nextNotificationId > 0 && PC.IdsBelow(before)
    requires WR.IsRun(limits, run) && Last(run).rows == before.notifications
    ensures WR.IsRun(limits, longer) && run <= longer && Last(longer).rows == after.notifications
  {
    var events := PC.Announcements(c.claimed, c.outcomes, c.now);
    longer := AnnouncementsAreEnqueued(
      limits, run, allocations, before.notifications, after.notifications, before.nextNotificationId, events, |events|);
  }

  /******* A dispatch cycle *******/

  function ClaimedBy(worker: int, input: WC.Input, now: Time, m: OutboxStore.Message): WR.Holding {
    WR.Holding(worker, m.notificationId, m.row, now + input.dispatchTtl, None)
  }

  function DispatchQuery(input: WC.Input, now: Time, skipped: set<int>): WR.Query {
    WR.Query(now, input.dispatchTtl, input.batchSize, skipped)
  }

  // The ids of the calls the receiver accepted, in order.
  function AcceptedIds(calls: seq<WC.Call>): seq<int> {
    if calls == [] then []
    else
      var last := calls[|calls| - 1];
      AcceptedIds(calls[..|calls| - 1]) + if last.accepted then [last.told.notificationId] else []
  }

  ghost predicate SentSoFar(
    claim: WR.State, s: WR.State, worker: int, input: WC.Input, now: Time, claimed: seq<OutboxStore.Message>,
    attempts: seq<Delivery.Attempt>, n: nat)
  {
    && n <= |attempts| == |claimed|
    && WC.AllSaved(claimed, attempts[..n], input.limits)
    && s.clock == claim.clock
    && s.rows.Keys == s.ledgers.Keys
    && WC.RowsSaved(claim.rows, s.rows, claimed, attempts[..n], input.limits)
    && OutboxStore.Claimed(s.rows, claimed, n)
    && s.accepted == claim.accepted + AcceptedIds(WC.CallsOf(claimed, attempts[..n]))
    && forall k: nat | n <= k < |claimed| :: ClaimedBy(worker, input, now, claimed[k]) in s.held
  }

  lemma CallNext(claimed: seq<OutboxStore.Message>, attempts: seq<Delivery.Attempt>, a: Delivery.Attempt)
    requires |attempts| < |claimed|
    ensures AcceptedIds(WC.CallsOf(claimed, attempts + [a])) ==
      AcceptedIds(WC.CallsOf(claimed, attempts)) + if a.delivered then [claimed[|attempts|].notificationId] else []
  {
    var calls, last := WC.CallsOf(claimed, attempts), WC.Call(claimed[|attempts|], a.delivered);
    assert WC.CallsOf(claimed, attempts + [a]) == calls + [last];
    assert (calls + [last])[..|calls|] == calls;
  }

  // The call of the receiver and the save of its answer.
  lemma DeliveryIsNext(limits: Delivery.Limits, s: WR.State, held: WR.Holding, a: Delivery.Attempt)
    returns (called: WR.State, h: WR.Holding, s': WR.State)
    requires WR.Live(s, held) && held.answer.None? && held.id in s.rows && held.id in s.ledgers
    requires s.rows[held.id] == held.copy && Delivery.ResultOf(held.id, held.copy, a, limits).Success?
    ensures WR.Next(limits, s, WR.Notify(held, a.delivered), called) == true
    ensures WR.Next(limits, called, WR.Save(h, a.at), s') == true
    ensures s'.clock == s.clock && s'.held == s.held - {held} + {h} - {h} && h.id == held.id && h.answer.Some?
    ensures s'.rows == s.rows[held.id := Delivery.RowAfter(held.id, held.copy, held.copy, a, limits)]
    ensures s'.ledgers.Keys == s.ledgers.Keys
    ensures s'.accepted == s.accepted + if a.delivered then [held.id] else []
  {
    h := held.(answer := Some(a.delivered));
    called := s.(held := s.held - {held} + {h},
                 accepted := if a.delivered then s.accepted + [held.id] else s.accepted);
    assert a == Delivery.Attempt(h.answer.value, a.at);
    s' := WR.AfterSave(limits, called, h, a.at);
  }

  lemma SentMore(
    claim: WR.State, s: WR.State, s': WR.State, worker: int, input: WC.Input, now: Time,
    claimed: seq<OutboxStore.Message>, attempts: seq<Delivery.Attempt>, n: nat)
    requires SentSoFar(claim, s, worker, input, now, claimed, attempts, n) && n < |claimed|
    requires OutboxStore.Distinct(claimed) && WC.AllSaved(claimed, attempts, input.limits)
    requires s'.clock == s.clock && s'.ledgers.Keys == s.ledgers.Keys
    requires forall k: nat | n < k < |claimed| :: ClaimedBy(worker, input, now, claimed[k]) in s'.held
    requires s'.rows == s.rows[claimed[n].notificationId := WC.SavedRow(claimed[n], attempts[n], input.limits)]
    requires s'.accepted == s.accepted + if attempts[n].delivered then [claimed[n].notificationId] else []
    ensures SentSoFar(claim, s', worker, input, now, claimed, attempts, n + 1) == true
  {
    assert attempts[..n + 1] == attempts[..n] + [attempts[n]];
    WC.SavedNext(claim.rows, s.rows, claimed, attempts[..n], attempts[n], input.limits);
    CallNext(claimed, attempts[..n], attempts[n]);
  }

  lemma SentSays(
    claim: WR.State, s: WR.State, worker: int, input: WC.Input, now: Time, claimed: seq<OutboxStore.Message>,
    attempts: seq<Delivery.Attempt>, n: nat)
    requires SentSoFar(claim, s, worker, input, now, claimed, attempts, n) && n < |claimed|
    ensures s.clock == claim.clock && s.rows.Keys == s.ledgers.Keys
    ensures claimed[n].notificationId in s.rows && s.rows[claimed[n].notificationId] == claimed[n].row
    ensures forall k: nat | n <= k < |claimed| :: ClaimedBy(worker, input, now, claimed[k]) in s.held
  {
  }

  lemma OneMoreDelivery(
    run: seq<WR.State>, claim: WR.State, worker: int, input: WC.Input, now: Time,
    claimed: seq<OutboxStore.Message>, attempts: seq<Delivery.Attempt>, n: nat)
    returns (more: seq<WR.State>)
    requires WR.IsRun(input.limits, run) && n < |claimed| == |attempts|
    requires SentSoFar(claim, Last(run), worker, input, now, claimed, attempts, n) == true
    requires claim.clock < now + input.dispatchTtl
    requires OutboxStore.Distinct(claimed) == true && WC.AllSaved(claimed, attempts, input.limits) == true
    ensures WR.IsRun(input.limits, more) && run <= more && |more| == |run| + 2
    ensures SentSoFar(claim, Last(more), worker, input, now, claimed, attempts, n + 1) == true
  {
    var s, held := Last(run), ClaimedBy(worker, input, now, claimed[n]);
    SentSays(claim, s, worker, input, now, claimed, attempts, n);
    var called, h, s' := DeliveryIsNext(input.limits, s, held, attempts[n]);
    forall k: nat | n < k < |claimed| ensures ClaimedBy(worker, input, now, claimed[k]) in s'.held {
      assert ClaimedBy(worker, input, now, claimed[k]).id != held.id;
    }
    SentMore(claim, s, s', worker, input, now, claimed, attempts, n);
    more := WR.RunExtends(input.limits, run, WR.Notify(held, attempts[n].delivered), called);
    more := WR.RunExtends(input.limits, more, WR.Save(h, attempts[n].at), s');
  }

  lemma {:induction false} DeliveriesExtendRun(
    run: seq<WR.State>, claim: WR.State, worker: int, input: WC.Input, now: Time,
    claimed: seq<OutboxStore.Message>, attempts: seq<Delivery.Attempt>, n: nat)
    returns (longer: seq<WR.State>)
    requires WR.IsRun(input.limits, run) && n <= |claimed| == |attempts|
    requires SentSoFar(claim, Last(run), worker, input, now, claimed, attempts, n) == true
    requires claim.clock < now + input.dispatchTtl
    requires OutboxStore.Distinct(claimed) == true && WC.AllSaved(claimed, attempts, input.limits) == true
    ensures WR.IsRun(input.limits, longer) && run <= longer && |longer| == |run| + 2 * (|claimed| - n)
    ensures SentSoFar(claim, Last(longer), worker, input, now, claimed, attempts, |claimed|) == true
    decreases |claimed| - n
  {
    if n == |claimed| {
      longer := run;
    } else {
      var more := OneMoreDelivery(run, claim, worker, input, now, claimed, attempts, n);
      longer := DeliveriesExtendRun(more, claim, worker, input, now, claimed, attempts, n + 1);
    }
  }

  lemma DispatchClaims(
    limits: Delivery.Limits, s: WR.State, worker: int, input: WC.Input, now: Time, skipped: set<int>,
    claimed: seq<OutboxStore.Message>)
    returns (claim: WR.State)
    requires now != ZERO_TIME && now <= s.clock
    requires OutboxStore.AreIds(WC.Due(s.rows, input, now, skipped), claimed)
    requires OutboxStore.Claimed(WC.LeasedRows(s.rows, input, now, skipped), claimed, 0)
    ensures WR.Next(limits, s, WR.Claim(worker, DispatchQuery(input, now, skipped)), claim)
    ensures claim == s.(rows := WC.LeasedRows(s.rows, input, now, skipped), held := claim.held)
    ensures forall k: nat | k < |claimed| :: ClaimedBy(worker, input, now, claimed[k]) in claim.held
  {
    var q := DispatchQuery(input, now, skipped);
    assert WR.Due(s.rows, q) == WC.Due(s.rows, input, now, skipped);
    claim := s.(rows := OutboxStore.Leased(s.rows, WR.Due(s.rows, q), q.now + q.ttl),
                held := s.held + WR.Holdings(s.rows, worker, q));
    forall k: nat | k < |claimed| ensures ClaimedBy(worker, input, now, claimed[k]) in claim.held {
      var id := claimed[k].notificationId;
      assert OutboxStore.Among(claimed, |claimed|, id);
      assert id in WR.Due(s.rows, q);
      assert ClaimedBy(worker, input, now, claimed[k]) == WR.HoldingOf(s.rows, worker, q, id);
    }
  }

  // A dispatch cycle that ends without an error before its leases do is one claim, and one call
  // and one save for each row of its batch.
  lemma DispatchCycleIsARun(
    run: seq<WR.State>, after: map<int, NotificationRow>, input: WC.Input, now: Time, skipped: set<int>,
    claimed: seq<OutboxStore.Message>, attempts: seq<Delivery.Attempt>, worker: int)
    returns (longer: seq<WR.State>)
    requires WR.IsRun(input.limits, run) && Delivery.ValidLimits(input.limits)
    requires WC.Completed(Last(run).rows, after, input, now, skipped, claimed, attempts)
    requires now <= Last(run).clock < now + input.dispatchTtl
    ensures WR.IsRun(input.limits, longer) && run <= longer && |longer| == |run| + 1 + 2 * |claimed|
    ensures var s, s' := Last(run), Last(longer);
      s'.rows == after && s'.accepted == s.accepted + AcceptedIds(WC.CallsOf(claimed, attempts))
  {
    var s := Last(run);
    WR.RunsKeepInv(input.limits, run, |run| - 1);
    var claim := DispatchClaims(input.limits, s, worker, input, now, skipped, claimed);
    var more := WR.RunExtends(input.limits, run, WR.Claim(worker, DispatchQuery(input, now, skipped)), claim);
    NothingSent(claim, worker, input, now, claimed, attempts);
    longer := DeliveriesExtendRun(more, claim, worker, input, now, claimed, attempts, 0);
    AllSent(claim, Last(longer), after, worker, input, now, claimed, attempts);
  }

  lemma NothingSent(
    claim: WR.State, worker: int, input: WC.Input, now: Time, claimed: seq<OutboxStore.Message>,
    attempts: seq<Delivery.Attempt>)
    requires |attempts| == |claimed| && claim.rows.Keys == claim.ledgers.Keys
    requires OutboxStore.Claimed(claim.rows, claimed, 0)
    requires forall k: nat | k < |claimed| :: ClaimedBy(worker, input, now, claimed[k]) in claim.held
    ensures SentSoFar(claim, claim, worker, input, now, claimed, attempts, 0) == true
  {
    assert attempts[..0] == [];
  }

  lemma AllSent(
    claim: WR.State, s: WR.State, after: map<int, NotificationRow>, worker: int, input: WC.Input, now: Time,
    claimed: seq<OutboxStore.Message>, attempts: seq<Delivery.Attempt>)
    requires SentSoFar(claim, s, worker, input, now, claimed, attempts, |claimed|)
    requires WC.AllSaved(claimed, attempts, input.limits)
    requires WC.RowsSaved(claim.rows, after, claimed, attempts, input.limits)
    ensures s.rows == after && s.accepted == claim.accepted + AcceptedIds(WC.CallsOf(claimed, attempts))
  {
    assert attempts[..|claimed|] == attempts;
    SameSavedRows(claim.rows, s.rows, after, claimed, attempts, input.limits);
  }

  lemma SameSavedRows(
    before: map<int, NotificationRow>, a: map<int, NotificationRow>, b: map<int, NotificationRow>,
    claimed: seq<OutboxStore.Message>, attempts: seq<Delivery.Attempt>, limits: Delivery.Limits)
    requires WC.AllSaved(claimed, attempts, limits)
    requires WC.RowsSaved(before, a, claimed, attempts, limits) && WC.RowsSaved(before, b, claimed, attempts, limits)
    ensures a == b
  {
    assert a.Keys == b.Keys;
    forall id | id in a ensures a[id] == b[id] {
      if OutboxStore.Among(claimed, |attempts|, id) {
        var i :| 0 <= i < |attempts| && claimed[i].notificationId == id;
      }
    }
  }
}
