/** What one delivery attempt of a status notification leads to. */
module Delivery {
  import opened Values
  import opened Tables

  datatype DeliveryResult = DeliveryResult(
    notificationId: int,
    status: DeliveryStatus,
    attempts: int32,
    nextAttemptAt: Option<Time>,
    deliveredAt: Option<Time>)

  datatype DeliveryError = OutboxFailed | DeliveredAtRequired

  function MarkSent(notificationId: int, deliveredAt: Time): Result<DeliveryResult, DeliveryError> {
    if notificationId <= 0 then Failure(OutboxFailed)
    else if deliveredAt == ZERO_TIME then Failure(DeliveredAtRequired)
    else Success(DeliveryResult(notificationId, Sent, 0, None, Some(deliveredAt)))
  }

  // The attempt is counted in 32-bit arithmetic; the last one allowed gives up.
  function ResolveFailure(notificationId: int, attempts: int32, maxAttempts: int32, now: Time, retryDelay: int)
    : Result<DeliveryResult, DeliveryError>
  {
    if notificationId <= 0 || attempts < 0 || maxAttempts <= 0 || now == ZERO_TIME then Failure(OutboxFailed)
    else
      var next := Wrap32(attempts + 1);
      if next >= maxAttempts then Success(DeliveryResult(notificationId, Failed, next, None, None))
      else if retryDelay <= 0 then Failure(OutboxFailed)
      else Success(DeliveryResult(notificationId, Pending, next, Some(now + retryDelay), None))
  }

  // The row that a delivery result leaves. A delivery keeps the attempts that failed before it.
  function ResultRow(row: NotificationRow, r: DeliveryResult): NotificationRow
    requires r.status.Sent? ==> r.deliveredAt.Some?
    requires r.status.Pending? ==> r.nextAttemptAt.Some?
  {
    match r.status
    case Sent => row.(status := Sent, deliveredAt := r.deliveredAt, leaseUntil := None)
    case Pending =>
      row.(status := Pending, attempts := r.attempts, nextAttemptAt := r.nextAttemptAt.value, leaseUntil := None)
    case Failed => row.(status := Failed, attempts := r.attempts, leaseUntil := None)
  }

  // The counter overflows only beyond every limit: from any count below the limit the result
  // is exact, and the notification is given up exactly at the limit. The one failing input of
  // the counter is the highest 32-bit value, which no limit lets a row reach.
  lemma CountIsExactBelowTheLimit(id: int, attempts: int32, maxAttempts: int32, now: Time, retryDelay: int)
    requires id > 0 && attempts >= 0 && maxAttempts > 0 && now != ZERO_TIME && retryDelay > 0
    ensures var r := ResolveFailure(id, attempts, maxAttempts, now, retryDelay);
      && r.Success?
      && (attempts < maxAttempts ==>
        && r.value.attempts == attempts + 1
        && (r.value.status == Failed <==> r.value.attempts == maxAttempts)
        && (r.value.status == Pending <==> r.value.attempts < maxAttempts)
        && (r.value.status == Pending ==> r.value.nextAttemptAt == Some(now + retryDelay)))
      && (r.value.attempts == attempts + 1 <==> attempts + 1 < TWO_TO_31)
  {
    if attempts + 1 == TWO_TO_31 {
      assert (attempts + 1 + TWO_TO_31) % (2 * TWO_TO_31) == 0;
    }
  }

  // One attempt: whether the receiver accepted the notification, and when its answer was noted.
  datatype Attempt = Attempt(delivered: bool, at: Time)

  // Fixed for a deployment; both are checked before anything is claimed.
  datatype Limits = Limits(maxAttempts: int32, retryDelay: int)

  predicate ValidLimits(limits: Limits) { limits.maxAttempts > 0 && limits.retryDelay > 0 }

  function ResultOf(id: int, row: NotificationRow, a: Attempt, limits: Limits): Result<DeliveryResult, DeliveryError> {
    if a.delivered then MarkSent(id, a.at)
    else ResolveFailure(id, row.attempts, limits.maxAttempts, a.at, limits.retryDelay)
  }

  // What is stored in place of `stored` after an attempt made on the copy `copy`.
  function RowAfter(id: int, stored: NotificationRow, copy: NotificationRow, a: Attempt, limits: Limits)
    : NotificationRow
    requires ResultOf(id, copy, a, limits).Success?
  {
    ResultRow(stored, ResultOf(id, copy, a, limits).value)
  }

  // What an attempt makes of a row, column by column: a delivery is noted with its time and keeps
  // the count, a refusal is counted, and then the row is either given up or due once the delay
  // after this attempt is over. What is to be announced stays, and the lease is gone.
  predicate FollowsAttempt(before: NotificationRow, after: NotificationRow, a: Attempt, limits: Limits) {
    && after.event == before.event && after.customerReference == before.customerReference && after.leaseUntil.None?
    && (a.delivered ==> after.status == Sent && after.deliveredAt == Some(a.at) && after.attempts == before.attempts)
    && (!a.delivered ==>
      && after.status != Sent && after.deliveredAt == before.deliveredAt
      && (before.attempts < limits.maxAttempts ==>
        && after.attempts == before.attempts + 1
        && (after.status == Failed <==> after.attempts == limits.maxAttempts)))
    && (after.status == Pending ==> after.nextAttemptAt == a.at + limits.retryDelay)
  }

  lemma AttemptIsFollowed(id: int, row: NotificationRow, a: Attempt, limits: Limits)
    requires ResultOf(id, row, a, limits).Success?
    ensures FollowsAttempt(row, RowAfter(id, row, row, a, limits), a, limits)
  {
    if 0 <= row.attempts < limits.maxAttempts && limits.retryDelay > 0 {
      CountIsExactBelowTheLimit(1, row.attempts, limits.maxAttempts, 1, limits.retryDelay);
    }
  }
}
