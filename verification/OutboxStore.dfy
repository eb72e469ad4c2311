/** The outbox of status notifications: enqueued with a status change, claimed, and settled. */
module OutboxStore {
  import opened Values
  import opened Tables
  import opened LeaseQueue
  import opened Stores
  import opened Delivery
  import PaymentReceiptTracking

  // What a claim hands to the dispatcher.
  datatype Message = Message(notificationId: int, policyId: string, row: NotificationRow)

  function DueOf(rows: map<int, NotificationRow>): map<int, Time> {
    map id | id in rows :: rows[id].nextAttemptAt
  }

  function Eligible(rows: map<int, NotificationRow>, now: Time): set<int> {
    set id | id in rows && rows[id].status == Pending && rows[id].nextAttemptAt <= now && Free(rows[id].leaseUntil, now)
  }

  // The row was due earlier, or at the same time and has the lower id.
  predicate ComesFirst(rows: map<int, NotificationRow>, a: int, b: int) {
    && a in rows && b in rows
    && (rows[a].nextAttemptAt < rows[b].nextAttemptAt || (rows[a].nextAttemptAt == rows[b].nextAttemptAt && a < b))
  }

  // A batch without an eligible row is full of rows that come before it.
  lemma BatchComesFirst(rows: map<int, NotificationRow>, eligible: set<int>, limit: int, id: int)
    requires eligible <= rows.Keys && id in eligible && limit >= 0 && id !in Taken(DueOf(rows), eligible, limit)
    ensures |Taken(DueOf(rows), eligible, limit)| == limit
    ensures forall other | other in Taken(DueOf(rows), eligible, limit) :: ComesFirst(rows, other, id)
  {
    TakenIsFair(DueOf(rows), eligible, limit);
    forall other | other in Taken(DueOf(rows), eligible, limit) ensures ComesFirst(rows, other, id) {
      assert Before(DueOf(rows), other, id);
    }
  }

  function Leased(rows: map<int, NotificationRow>, ids: set<int>, until: Time): map<int, NotificationRow> {
    map id | id in rows :: if id in ids then rows[id].(leaseUntil := Some(until)) else rows[id]
  }

  // A row as it is enqueued: no attempt made, due at once.
  function NewRow(event: PaymentReceiptTracking.StatusChanged, customerReference: string, now: Time): NotificationRow {
    NotificationRow(event, customerReference, Pending, 0, now, None, None)
  }

  // Nothing was tried yet, and nobody holds the row.
  predicate IsNew(row: NotificationRow) {
    row.status == Pending && row.attempts == 0 && row.leaseUntil.None? && row.deliveredAt.None?
  }

  // `payment_address_id` references the allocations.
  ghost predicate Referenced(notifications: map<int, NotificationRow>, allocations: map<int, AllocationRow>) {
    forall id | id in notifications :: notifications[id].event.paymentAddressId in allocations
  }

  lemma ReferencedRow(notifications: map<int, NotificationRow>, allocations: map<int, AllocationRow>, id: int)
    requires Referenced(notifications, allocations) && id in notifications
    ensures notifications[id].event.paymentAddressId in allocations
  {
  }

  ghost predicate Distinct(claimed: seq<Message>) {
    forall i, j | 0 <= i < j < |claimed| :: claimed[i].notificationId != claimed[j].notificationId
  }

  ghost predicate Among(claimed: seq<Message>, n: nat, id: int)
    requires n <= |claimed|
  {
    exists i :: 0 <= i < n && claimed[i].notificationId == id
  }

  ghost predicate AreIds(ids: set<int>, claimed: seq<Message>) {
    forall id :: id in ids <==> Among(claimed, |claimed|, id)
  }

  // The messages are as stored.
  ghost predicate Claimed(rows: map<int, NotificationRow>, claimed: seq<Message>, from: nat) {
    forall i | from <= i < |claimed| ::
      claimed[i].notificationId in rows && rows[claimed[i].notificationId] == claimed[i].row
  }

  // The columns that each kind of result writes; all others stay as they are.
  predicate Records(before: NotificationRow, after: NotificationRow, d: DeliveryResult) {
    && after.event == before.event && after.customerReference == before.customerReference
    && after.status == d.status && after.leaseUntil.None?
    && after.attempts == (if d.status.Sent? then before.attempts else d.attempts)
    && (if d.status.Sent? then after.deliveredAt == d.deliveredAt && d.deliveredAt.Some?
        else after.deliveredAt == before.deliveredAt)
    && (if d.status.Pending? then Some(after.nextAttemptAt) == d.nextAttemptAt
        else after.nextAttemptAt == before.nextAttemptAt)
  }

  // The messages tell the rows they lease, and the policies of their allocations.
  ghost predicate Told(
    allocations: map<int, AllocationRow>, before: map<int, NotificationRow>, messages: seq<Message>, until: Time)
  {
    forall i | 0 <= i < |messages| :: Tells(allocations, before, messages[i], until)
  }

  predicate Tells(
    allocations: map<int, AllocationRow>, before: map<int, NotificationRow>, m: Message, until: Time)
  {
    && m.notificationId in before && m.row == before[m.notificationId].(leaseUntil := Some(until))
    && m.row.event.paymentAddressId in allocations
    && m.policyId == allocations[m.row.event.paymentAddressId].space.policyId
  }

  // Every message is for a row that was pending, due, and under no lease any more.
  ghost predicate WereDue(before: map<int, NotificationRow>, messages: seq<Message>, now: Time) {
    forall i | 0 <= i < |messages| :: WasDue(before, messages[i].notificationId, now)
  }

  predicate WasDue(before: map<int, NotificationRow>, id: int, now: Time) {
    && id in before && before[id].status == Pending && before[id].nextAttemptAt <= now
    && (before[id].leaseUntil.Some? ==> before[id].leaseUntil.value <= now)
  }

  lemma TakenWereDue(
    rows: map<int, NotificationRow>, locked: set<int>, now: Time, limit: int, messages: seq<Message>)
    requires AreIds(Taken(DueOf(rows), Eligible(rows, now) - locked, limit), messages)
    ensures WereDue(rows, messages, now) == true
  {
    forall i | 0 <= i < |messages| ensures WasDue(rows, messages[i].notificationId, now) {
      assert Among(messages, |messages|, messages[i].notificationId);
    }
  }

  class NotificationOutboxStore {
    const tx: Transaction

    constructor (tx: Transaction)
      ensures this.tx == tx
    {
      this.tx := tx;
    }

    // The row is selected from the allocation, so that an unknown address enqueues nothing.
    method EnqueueStatusChanged(event: PaymentReceiptTracking.StatusChanged, now: Time)
      returns (r: Result<(), StoreError>)
      modifies tx`notifications, tx.database`nextNotificationId
      ensures r.Success? ==>
        && event.paymentAddressId in tx.allocations
        && tx.database.nextNotificationId == old(tx.database.nextNotificationId) + 1
        && tx.notifications == old(tx.notifications)[old(tx.database.nextNotificationId) :=
             NewRow(event, tx.allocations[event.paymentAddressId].customerReference, now)]
        && var row := tx.notifications[old(tx.database.nextNotificationId)];
        && row.event == event && row.customerReference == tx.allocations[event.paymentAddressId].customerReference
        && IsNew(row) && row.nextAttemptAt == now
      ensures r.Failure? ==> tx.notifications == old(tx.notifications)
      ensures r == Failure(NotFound) ==> event.paymentAddressId !in tx.allocations
      ensures old(tx.database.nextNotificationId) <= tx.database.nextNotificationId
    {
      var ok := DriverSucceeds();
      if !ok { return Failure(StoreFailed); }
      if event.paymentAddressId !in tx.allocations { return Failure(NotFound); }
      var id := tx.database.nextNotificationId;
      tx.database.nextNotificationId := id + 1;
      ok := DriverSucceeds();
      if !ok { return Failure(StoreFailed); }
      tx.notifications :=
        tx.notifications[id := NewRow(event, tx.allocations[event.paymentAddressId].customerReference, now)];
      return Success(());
    }

    // The update of the rows in the order it visits them, and the messages it returns.
    method LeaseRows(ids: seq<int>, claimUntil: Time, ghost taken: set<int>) returns (messages: seq<Message>)
      requires Referenced(tx.notifications, tx.allocations)
      requires forall i | 0 <= i < |ids| :: ids[i] in tx.notifications
      requires forall i, j | 0 <= i < j < |ids| :: ids[i] != ids[j]
      requires forall id :: id in taken <==> id in ids
      modifies tx`notifications
      ensures tx.notifications == Leased(old(tx.notifications), taken, claimUntil) && |messages| == |ids|
      ensures AreIds(taken, messages) == true && Distinct(messages) == true
      ensures Claimed(tx.notifications, messages, 0) == true
      ensures Told(tx.allocations, old(tx.notifications), messages, claimUntil) == true
    {
      var rows := tx.notifications;
      messages := [];
      ghost var leased: set<int> := {};
      for n := 0 to |ids|
        invariant |messages| == n && Told(tx.allocations, rows, messages, claimUntil)
        invariant forall i | 0 <= i < n ::
          messages[i].notificationId == ids[i] && messages[i].row == rows[ids[i]].(leaseUntil := Some(claimUntil))
        invariant forall id :: id in leased <==> id in ids[..n]
        invariant tx.notifications == Leased(rows, leased, claimUntil) && Referenced(rows, tx.allocations)
      {
        assert ids[..n + 1] == ids[..n] + [ids[n]];
        ReferencedRow(rows, tx.allocations, ids[n]);
        leased := leased + {ids[n]};
        var row := rows[ids[n]].(leaseUntil := Some(claimUntil));
        tx.notifications := tx.notifications[ids[n] := row];
        var policyId := tx.allocations[row.event.paymentAddressId].space.policyId;
        messages := messages + [Message(ids[n], policyId, row)];
      }
      assert ids[..|ids|] == ids;
      SameIds(leased, taken);
      forall id ensures id in taken <==> Among(messages, |messages|, id) {
        assert id in taken <==> id in ids;
      }
    }

    method ClaimPending(now: Time, claimUntil: Time, limit: int)
      returns (r: Result<seq<Message>, StoreError>, ghost skipped: set<int>)
      requires Referenced(tx.notifications, tx.allocations)
      modifies tx`notifications
      ensures r.Success? ==>
        && now != ZERO_TIME && claimUntil != ZERO_TIME && limit > 0
        && var rows := old(tx.notifications);
        && var ids := Taken(DueOf(rows), Eligible(rows, now) - skipped, limit);
        && tx.notifications == Leased(rows, ids, claimUntil)
        && AreIds(ids, r.value) == true && Claimed(tx.notifications, r.value, 0) == true && Distinct(r.value) == true
        && Told(tx.allocations, rows, r.value, claimUntil) == true && WereDue(rows, r.value, now) == true
        && |r.value| <= limit
      ensures r.Failure? ==> tx.notifications == old(tx.notifications)
    {
      skipped := {};
      if now == ZERO_TIME || claimUntil == ZERO_TIME { return Failure(TimeRequired), skipped; }
      if limit <= 0 { return Failure(LimitInvalid), skipped; }
      var ok := DriverSucceeds();
      if !ok { return Failure(StoreFailed), skipped; }
      var locked: set<int> := *;
      skipped := locked;
      var rows := tx.notifications;
      var ids := TakeFirst(DueOf(rows), Eligible(rows, now) - locked, limit);
      ghost var taken := Taken(DueOf(rows), Eligible(rows, now) - locked, limit);
      assert forall i | 0 <= i < |ids| :: ids[i] in taken;
      var messages := LeaseRows(ids, claimUntil, taken);
      TakenWereDue(rows, locked, now, limit, messages);
      ok := DriverSucceeds();
      if !ok {
        tx.notifications := rows;
        return Failure(StoreFailed), skipped;
      }
      return Success(messages), skipped;
    }

    // The row is found by its id alone: neither the lease nor the status is compared.
    method SaveDeliveryResult(d: DeliveryResult) returns (r: Result<(), StoreError>)
      modifies tx`notifications
      ensures r.Success? ==>
        && d.notificationId in old(tx.notifications)
        && (d.status.Sent? ==> d.deliveredAt.Some?) && (d.status.Pending? ==> d.nextAttemptAt.Some?)
        && tx.notifications ==
             old(tx.notifications)[d.notificationId := ResultRow(old(tx.notifications)[d.notificationId], d)]
        && Records(old(tx.notifications)[d.notificationId], tx.notifications[d.notificationId], d)
      ensures r.Failure? ==> tx.notifications == old(tx.notifications)
    {
      if d.status.Sent? && d.deliveredAt.None? { return Failure(TimeRequired); }
      if d.status.Pending? && d.nextAttemptAt.None? { return Failure(TimeRequired); }
      var ok := DriverSucceeds();
      if !ok { return Failure(StoreFailed); }
      if d.notificationId !in tx.notifications { return Failure(NotFound); }
      tx.notifications := tx.notifications[d.notificationId := ResultRow(tx.notifications[d.notificationId], d)];
      return Success(());
    }
  }
}
