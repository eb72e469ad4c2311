/** One webhook dispatch cycle: claim pending notifications, call the receiver, save each result. */
module WebhookCycle {
  import opened Values
  import opened Tables
  import opened LeaseQueue
  import opened Stores
  import opened OutboxStore
  import opened Delivery

  datatype CycleError =
    | DependencyFailure
    | InternalFailure
    | PolicyNotConfigured
    | BatchSizeInvalid
    | MaxAttemptsInvalid
    | RetryDelayInvalid

  datatype Output = Output(claimed: int, sent: int, retried: int, failed: int)

  // One call of the receiver: what it was told, and whether it accepted that.
  datatype Call = Call(told: Message, accepted: bool)

  // The receiver, seen through the network: it may accept or refuse any call. The ghost field
  // records every call that reaches it.
  class StatusNotifier {
    ghost var calls: seq<Call>

    constructor ()
      ensures calls == []
    {
      calls := [];
    }

    method NotifyStatusChanged(m: Message) returns (ok: bool)
      modifies `calls
      ensures calls == old(calls) + [Call(m, ok)]
    {
      ok := DriverSucceeds();
      calls := calls + [Call(m, ok)];
    }
  }

  predicate CanSave(m: Message, a: Attempt, limits: Limits) {
    ResultOf(m.notificationId, m.row, a, limits).Success?
  }

  function SavedRow(m: Message, a: Attempt, limits: Limits): NotificationRow
    requires CanSave(m, a, limits)
  {
    RowAfter(m.notificationId, m.row, m.row, a, limits)
  }

  method SaveDeliveryResult(database: Database, d: DeliveryResult) returns (ok: bool)
    modifies database
    ensures database.Committed() == old(database.Committed()) && database.nextId == old(database.nextId)
    ensures database.nextNotificationId == old(database.nextNotificationId)
    ensures ok ==>
      && d.notificationId in old(database.notifications)
      && (d.status.Sent? ==> d.deliveredAt.Some?) && (d.status.Pending? ==> d.nextAttemptAt.Some?)
      && database.notifications ==
           old(database.notifications)[d.notificationId := ResultRow(old(database.notifications)[d.notificationId], d)]
      && Records(old(database.notifications)[d.notificationId], database.notifications[d.notificationId], d)
  {
    var tx := database.Begin();
    var outbox := new NotificationOutboxStore(tx);
    var saved := outbox.SaveDeliveryResult(d);
    if saved.Failure? { return false; }
    ok := database.Commit(tx);
  }

  // One notification: called once, and saved with what came of the call.
  method ProcessNotification(database: Database, notifier: StatusNotifier, policies: set<string>, m: Message,
      limits: Limits)
    returns (e: Option<CycleError>, status: DeliveryStatus, attempt: Attempt)
    requires m.notificationId in database.notifications && database.notifications[m.notificationId] == m.row
    modifies database, notifier
    ensures database.Committed() == old(database.Committed()) && database.nextId == old(database.nextId)
    ensures database.nextNotificationId == old(database.nextNotificationId)
    ensures e.None? ==>
      && CanSave(m, attempt, limits)
      && status == SavedRow(m, attempt, limits).status
      && database.notifications == old(database.notifications)[m.notificationId := SavedRow(m, attempt, limits)]
      && FollowsAttempt(m.row, database.notifications[m.notificationId], attempt, limits)
      && m.policyId in policies
      && notifier.calls == old(notifier.calls) + [Call(m, attempt.delivered)]
    ensures e.Some? ==> old(notifier.calls) <= notifier.calls && |notifier.calls| <= |old(notifier.calls)| + 1
    ensures m.policyId !in policies ==> notifier.calls == old(notifier.calls)
  {
    attempt, status := Attempt(false, 0), m.row.status;
    var ok := DriverSucceeds();
    if !ok { return Some(DependencyFailure), status, attempt; }
    if m.policyId !in policies { return Some(PolicyNotConfigured), status, attempt; }
    var delivered := notifier.NotifyStatusChanged(m);
    var now: Time := *;
    attempt := Attempt(delivered, now);
    var result := ResultOf(m.notificationId, m.row, attempt, limits);
    if result.Failure? { return Some(InternalFailure), status, attempt; }
    ok := SaveDeliveryResult(database, result.value);
    if !ok { return Some(DependencyFailure), status, attempt; }
    AttemptIsFollowed(m.notificationId, m.row, attempt, limits);
    return None, result.value.status, attempt;
  }

  /******* The whole batch *******/

  predicate AllSaved(claimed: seq<Message>, attempts: seq<Attempt>, limits: Limits) {
    |attempts| <= |claimed| && forall i | 0 <= i < |attempts| :: CanSave(claimed[i], attempts[i], limits)
  }

  function Count(status: DeliveryStatus, claimed: seq<Message>, attempts: seq<Attempt>, limits: Limits): nat
    requires AllSaved(claimed, attempts, limits)
    decreases |attempts|
  {
    if attempts == [] then 0
    else
      var n := |attempts| - 1;
      Count(status, claimed, attempts[..n], limits) + if SavedRow(claimed[n], attempts[n], limits).status == status
        then 1 else 0
  }

  lemma {:induction false} CountsAddUp(claimed: seq<Message>, attempts: seq<Attempt>, limits: Limits)
    requires AllSaved(claimed, attempts, limits)
    ensures Count(Sent, claimed, attempts, limits) + Count(Pending, claimed, attempts, limits)
            + Count(Failed, claimed, attempts, limits) == |attempts|
    decreases |attempts|
  {
    if attempts != [] { CountsAddUp(claimed, attempts[..|attempts| - 1], limits); }
  }

  // Every notification with an attempt is stored as its attempt left it; no other row moved.
  ghost predicate RowsSaved(
    before: map<int, NotificationRow>, after: map<int, NotificationRow>, claimed: seq<Message>, attempts: seq<Attempt>,
    limits: Limits)
    requires AllSaved(claimed, attempts, limits)
  {
    && after.Keys == before.Keys
    && (forall i | 0 <= i < |attempts| ::
         && claimed[i].notificationId in after
         && after[claimed[i].notificationId] == SavedRow(claimed[i], attempts[i], limits))
    && (forall id | id in before && !Among(claimed, |attempts|, id) :: after[id] == before[id])
  }

  // The calls of a batch: one for each notification, in order, as its attempt says.
  function CallsOf(claimed: seq<Message>, attempts: seq<Attempt>): seq<Call>
    requires |attempts| <= |claimed|
  {
    seq(|attempts|, i requires 0 <= i < |attempts| => Call(claimed[i], attempts[i].delivered))
  }

  ghost predicate Tallied(output: Output, claimed: seq<Message>, attempts: seq<Attempt>, limits: Limits)
    requires AllSaved(claimed, attempts, limits)
  {
    && output.claimed == |claimed|
    && output.sent == Count(Sent, claimed, attempts, limits)
    && output.retried == Count(Pending, claimed, attempts, limits)
    && output.failed == Count(Failed, claimed, attempts, limits)
  }

  function Add(output: Output, status: DeliveryStatus): Output {
    match status
    case Sent => output.(sent := output.sent + 1)
    case Pending => output.(retried := output.retried + 1)
    case Failed => output.(failed := output.failed + 1)
  }

  lemma SavedNext(
    before: map<int, NotificationRow>, mid: map<int, NotificationRow>, claimed: seq<Message>, attempts: seq<Attempt>,
    a: Attempt, limits: Limits)
    requires |attempts| < |claimed| && Distinct(claimed) && Claimed(mid, claimed, |attempts|)
    requires AllSaved(claimed, attempts, limits) && CanSave(claimed[|attempts|], a, limits)
    requires RowsSaved(before, mid, claimed, attempts, limits)
    ensures AllSaved(claimed, attempts + [a], limits)
    ensures var m := claimed[|attempts|];
      var after := mid[m.notificationId := SavedRow(m, a, limits)];
      RowsSaved(before, after, claimed, attempts + [a], limits) && Claimed(after, claimed, |attempts| + 1)
  {
    var n, all := |attempts|, attempts + [a];
    var m := claimed[n];
    var after := mid[m.notificationId := SavedRow(m, a, limits)];
    forall id | id in before && !Among(claimed, |all|, id) ensures after[id] == before[id] {
      assert claimed[n].notificationId != id;
      assert !Among(claimed, n, id);
    }
  }

  lemma TallyNext(output: Output, claimed: seq<Message>, attempts: seq<Attempt>, a: Attempt, limits: Limits)
    requires |attempts| < |claimed| && AllSaved(claimed, attempts, limits) && CanSave(claimed[|attempts|], a, limits)
    requires Tallied(output, claimed, attempts, limits)
    ensures AllSaved(claimed, attempts + [a], limits)
    ensures Tallied(Add(output, SavedRow(claimed[|attempts|], a, limits).status), claimed, attempts + [a], limits)
    ensures CallsOf(claimed, attempts + [a]) ==
            CallsOf(claimed, attempts) + [Call(claimed[|attempts|], a.delivered)]
  {
    assert (attempts + [a])[..|attempts|] == attempts;
  }

  method ProcessClaimed(database: Database, notifier: StatusNotifier, policies: set<string>, claimed: seq<Message>,
      limits: Limits)
    returns (output: Output, e: Option<CycleError>, ghost attempts: seq<Attempt>)
    requires Distinct(claimed) && Claimed(database.notifications, claimed, 0) && notifier.calls == []
    modifies database, notifier
    ensures database.Committed() == old(database.Committed()) && database.nextId == old(database.nextId)
    ensures e.None? ==>
      && |attempts| == |claimed| && AllSaved(claimed, attempts, limits)
      && RowsSaved(old(database.notifications), database.notifications, claimed, attempts, limits)
      && Tallied(output, claimed, attempts, limits)
      && notifier.calls == CallsOf(claimed, attempts)
  {
    output, attempts := Output(|claimed|, 0, 0, 0), [];
    var n := 0;
    while n < |claimed|
      invariant n == |attempts| <= |claimed| && AllSaved(claimed, attempts, limits)
      invariant database.Committed() == old(database.Committed()) && database.nextId == old(database.nextId)
      invariant Claimed(database.notifications, claimed, n)
      invariant RowsSaved(old(database.notifications), database.notifications, claimed, attempts, limits)
      invariant Tallied(output, claimed, attempts, limits)
      invariant notifier.calls == CallsOf(claimed, attempts)
    {
      ghost var mid := database.notifications;
      var status, attempt;
      e, status, attempt := ProcessNotification(database, notifier, policies, claimed[n], limits);
      if e.Some? { return; }
      SavedNext(old(database.notifications), mid, claimed, attempts, attempt, limits);
      TallyNext(output, claimed, attempts, attempt, limits);
      output := Add(output, status);
      attempts, n := attempts + [attempt], n + 1;
    }
    e := None;
  }

  /******* The cycle *******/

  datatype Input = Input(batchSize: int, dispatchTtl: int, limits: Limits)

  function Due(rows: map<int, NotificationRow>, input: Input, now: Time, skipped: set<int>): set<int> {
    Taken(DueOf(rows), Eligible(rows, now) - skipped, input.batchSize)
  }

  method Claim(database: Database, input: Input, now: Time) returns (r: Option<seq<Message>>, ghost skipped: set<int>)
    requires Referenced(database.notifications, database.allocations)
    modifies database
    ensures database.Committed() == old(database.Committed()) && database.nextId == old(database.nextId)
    ensures r.Some? ==>
      && now != ZERO_TIME && Distinct(r.value) == true
      && database.notifications == LeasedRows(old(database.notifications), input, now, skipped)
      && AreIds(Due(old(database.notifications), input, now, skipped), r.value) == true
      && Claimed(database.notifications, r.value, 0) == true
      && Told(database.allocations, old(database.notifications), r.value, now + input.dispatchTtl) == true
      && WereDue(old(database.notifications), r.value, now) == true
  {
    var tx := database.Begin();
    var outbox := new NotificationOutboxStore(tx);
    var claimed;
    claimed, skipped := outbox.ClaimPending(now, now + input.dispatchTtl, input.batchSize);
    if claimed.Failure? { return None, skipped; }
    var committed := database.Commit(tx);
    r := if committed then Some(claimed.value) else None;
  }

  function LeasedRows(rows: map<int, NotificationRow>, input: Input, now: Time, skipped: set<int>)
    : map<int, NotificationRow>
  {
    Leased(rows, Due(rows, input, now, skipped), now + input.dispatchTtl)
  }

  // The account of a cycle that ends without an error: which rows it took, and that each was
  // saved as its attempt left it.
  ghost predicate Completed(
    before: map<int, NotificationRow>, after: map<int, NotificationRow>, input: Input, now: Time, skipped: set<int>,
    claimed: seq<Message>, attempts: seq<Attempt>)
  {
    && now != ZERO_TIME
    && Distinct(claimed) && AreIds(Due(before, input, now, skipped), claimed)
    && Claimed(LeasedRows(before, input, now, skipped), claimed, 0)
    && |attempts| == |claimed| && AllSaved(claimed, attempts, input.limits)
    && RowsSaved(LeasedRows(before, input, now, skipped), after, claimed, attempts, input.limits)
  }

  // Every claimed row is stored as its attempt makes it, column by column.
  ghost predicate AttemptsFollowed(
    after: map<int, NotificationRow>, claimed: seq<Message>, attempts: seq<Attempt>, limits: Limits)
  {
    |attempts| == |claimed| && forall i | 0 <= i < |claimed| ::
      && claimed[i].notificationId in after
      && FollowsAttempt(claimed[i].row, after[claimed[i].notificationId], attempts[i], limits)
  }

  lemma SavedRowsFollow(
    before: map<int, NotificationRow>, after: map<int, NotificationRow>, claimed: seq<Message>,
    attempts: seq<Attempt>, limits: Limits)
    requires |attempts| == |claimed| && AllSaved(claimed, attempts, limits)
    requires RowsSaved(before, after, claimed, attempts, limits)
    ensures AttemptsFollowed(after, claimed, attempts, limits) == true
  {
    forall i | 0 <= i < |claimed|
      ensures claimed[i].notificationId in after
        && FollowsAttempt(claimed[i].row, after[claimed[i].notificationId], attempts[i], limits)
    {
      AttemptIsFollowed(claimed[i].notificationId, claimed[i].row, attempts[i], limits);
    }
  }

  // Every cycle that ends without an error calls the receiver once for each claimed row and
  // saves each row with what came of its call; the counts add up.
  method RunCycle(database: Database, policies: set<string>, input: Input, now: Time)
    returns (output: Output, e: Option<CycleError>, ghost skipped: set<int>, ghost claimed: seq<Message>,
             ghost attempts: seq<Attempt>, ghost calls: seq<Call>)
    requires Referenced(database.notifications, database.allocations)
    modifies database
    ensures database.Committed() == old(database.Committed()) && database.nextId == old(database.nextId)
    ensures e.None? ==>
      && input.batchSize > 0 && ValidLimits(input.limits)
      && Completed(old(database.notifications), database.notifications, input, now, skipped, claimed, attempts)
      && Tallied(output, claimed, attempts, input.limits)
      && output.claimed == output.sent + output.retried + output.failed
      && calls == CallsOf(claimed, attempts)
      && Told(database.allocations, old(database.notifications), claimed, now + input.dispatchTtl) == true
      && WereDue(old(database.notifications), claimed, now) == true
      && AttemptsFollowed(database.notifications, claimed, attempts, input.limits) == true
  {
    output, claimed, attempts, calls, skipped := Output(0, 0, 0, 0), [], [], [], {};
    if input.batchSize <= 0 { e := Some(BatchSizeInvalid); return; }
    if input.limits.maxAttempts <= 0 { e := Some(MaxAttemptsInvalid); return; }
    if input.limits.retryDelay <= 0 { e := Some(RetryDelayInvalid); return; }
    var taken;
    taken, skipped := Claim(database, input, now);
    if taken.None? { e := Some(DependencyFailure); return; }
    claimed := taken.value;
    var notifier := new StatusNotifier();
    ghost var leased := database.notifications;
    output, e, attempts := ProcessClaimed(database, notifier, policies, taken.value, input.limits);
    calls := notifier.calls;
    if e.None? {
      CountsAddUp(claimed, attempts, input.limits);
      SavedRowsFollow(leased, database.notifications, claimed, attempts, input.limits);
    }
  }
}
