/** The store of receipt trackings: creation, claims under a lease, and saves. */
module TrackingStore {
  import opened Values
  import opened Tables
  import opened PaymentReceiptTracking
  import opened LeaseQueue
  import opened Stores

  const POLLABLE_STATUSES: set<Status> := {Watching, PartiallyPaid, PaidUnconfirmed, PaidUnconfirmedReverted}

  // The rows are keyed by their own payment address id.
  ghost predicate Keyed(rows: map<int, TrackingRow>) {
    forall id | id in rows :: rows[id].tracking.paymentAddressId == id
  }

  function DueOf(rows: map<int, TrackingRow>): map<int, Time> {
    map id | id in rows :: rows[id].nextPollAt
  }

  function Eligible(rows: map<int, TrackingRow>, now: Time, chain: string, network: string, statuses: set<Status>)
    : set<int>
  {
    set id | id in rows && rows[id].nextPollAt <= now && Free(rows[id].leaseUntil, now)
             && rows[id].tracking.status in statuses
             && (chain == "" || rows[id].tracking.chain == chain)
             && (network == "" || rows[id].tracking.network == network)
  }

  // The row was due earlier, or at the same time and has the lower id.
  predicate ComesFirst(rows: map<int, TrackingRow>, a: int, b: int) {
    && a in rows && b in rows
    && (rows[a].nextPollAt < rows[b].nextPollAt || (rows[a].nextPollAt == rows[b].nextPollAt && a < b))
  }

  // A batch without an eligible row is full of rows that come before it.
  lemma BatchComesFirst(rows: map<int, TrackingRow>, eligible: set<int>, limit: int, id: int)
    requires eligible <= rows.Keys && id in eligible && limit >= 0 && id !in Taken(DueOf(rows), eligible, limit)
    ensures |Taken(DueOf(rows), eligible, limit)| == limit
    ensures forall other | other in Taken(DueOf(rows), eligible, limit) :: ComesFirst(rows, other, id)
  {
    TakenIsFair(DueOf(rows), eligible, limit);
    forall other | other in Taken(DueOf(rows), eligible, limit) ensures ComesFirst(rows, other, id) {
      assert Before(DueOf(rows), other, id);
    }
  }

  function Leased(rows: map<int, TrackingRow>, ids: set<int>, until: Time): map<int, TrackingRow> {
    map id | id in rows :: if id in ids then rows[id].(leaseUntil := Some(until)) else rows[id]
  }

  // A row as a poll leaves it, free of its lease.
  function PolledRow(t: Tracking, polledAt: Time, nextPollAt: Time): TrackingRow {
    TrackingRow(t, nextPollAt, None, Some(polledAt))
  }

  // The columns that a save writes; the terms of the issuance are not among them, but the
  // deadline is.
  function SavedRow(row: TrackingRow, t: Tracking, polledAt: Time, nextPollAt: Time): TrackingRow {
    TrackingRow(
      row.tracking.(
        status := t.status, observed := t.observed, confirmed := t.confirmed, unconfirmed := t.unconfirmed,
        lastHeight := t.lastHeight, firstObservedAt := t.firstObservedAt, paidAt := t.paidAt,
        confirmedAt := t.confirmedAt, expiresAt := t.expiresAt, lastFailure := t.lastFailure),
      nextPollAt, None, Some(polledAt))
  }

  lemma SavedIsWhole(row: TrackingRow, t: Tracking, polledAt: Time, nextPollAt: Time)
    requires TermsOf(row.tracking) == TermsOf(t)
    ensures SavedRow(row, t, polledAt, nextPollAt) == PolledRow(t, polledAt, nextPollAt)
  {
    var a, b := TermsOf(row.tracking), TermsOf(t);
    assert a.paymentAddressId == b.paymentAddressId && a.policyId == b.policyId && a.chain == b.chain;
    assert a.network == b.network && a.address == b.address && a.assetReference == b.assetReference;
    assert a.issuedAt == b.issuedAt && a.expected == b.expected && a.requiredConfirmations == b.requiredConfirmations;
  }

  // The polled columns are those of the tracking that is saved, and the others are as they were.
  predicate WritesPolled(before: TrackingRow, after: TrackingRow, t: Tracking, polledAt: Time, nextPollAt: Time) {
    && var a, b := after.tracking, before.tracking;
    && a.status == t.status && a.observed == t.observed && a.confirmed == t.confirmed && a.unconfirmed == t.unconfirmed
    && a.lastHeight == t.lastHeight && a.firstObservedAt == t.firstObservedAt && a.paidAt == t.paidAt
    && a.confirmedAt == t.confirmedAt && a.expiresAt == t.expiresAt && a.lastFailure == t.lastFailure
    && a.paymentAddressId == b.paymentAddressId && a.policyId == b.policyId && a.chain == b.chain
    && a.network == b.network && a.address == b.address && a.assetReference == b.assetReference
    && a.issuedAt == b.issuedAt && a.expected == b.expected && a.requiredConfirmations == b.requiredConfirmations
    && after.nextPollAt == nextPollAt && after.leaseUntil.None? && after.lastPolledAt == Some(polledAt)
  }

  // The address of one of the first `n` trackings of a batch.
  ghost predicate Among(claimed: seq<Tracking>, n: nat, id: int)
    requires n <= |claimed|
  {
    exists i :: 0 <= i < n && claimed[i].paymentAddressId == id
  }

  ghost predicate AreIds(ids: set<int>, claimed: seq<Tracking>) {
    forall id :: id in ids <==> Among(claimed, |claimed|, id)
  }

  ghost predicate Distinct(claimed: seq<Tracking>) {
    forall i, j | 0 <= i < j < |claimed| :: claimed[i].paymentAddressId != claimed[j].paymentAddressId
  }

  ghost predicate Copies(trackings: map<int, TrackingRow>, claimed: seq<Tracking>) {
    forall i | 0 <= i < |claimed| ::
      claimed[i].paymentAddressId in trackings && claimed[i] == trackings[claimed[i].paymentAddressId].tracking
  }

  // The row was due, under no lease any more, and is one of those that were asked for.
  predicate WasDue(rows: map<int, TrackingRow>, id: int, now: Time, chain: string, network: string,
      statuses: set<Status>)
  {
    && id in rows && rows[id].nextPollAt <= now
    && (rows[id].leaseUntil.Some? ==> rows[id].leaseUntil.value <= now)
    && rows[id].tracking.status in statuses
    && (chain != "" ==> rows[id].tracking.chain == chain)
    && (network != "" ==> rows[id].tracking.network == network)
  }

  // The rows of the batch were due and asked for; they alone changed, by the lease alone.
  ghost predicate LeasesDue(
    before: map<int, TrackingRow>, after: map<int, TrackingRow>, claimed: seq<Tracking>, now: Time, until: Time,
    chain: string, network: string, statuses: set<Status>)
  {
    && after.Keys == before.Keys
    && (forall i | 0 <= i < |claimed| :: WasDue(before, claimed[i].paymentAddressId, now, chain, network, statuses))
    && (forall id | id in before ::
         after[id] == if Among(claimed, |claimed|, id) then before[id].(leaseUntil := Some(until)) else before[id])
  }

  lemma TakenWereDue(
    rows: map<int, TrackingRow>, locked: set<int>, now: Time, until: Time, limit: int, chain: string, network: string,
    statuses: set<Status>, claimed: seq<Tracking>)
    requires AreIds(Taken(DueOf(rows), Eligible(rows, now, chain, network, statuses) - locked, limit), claimed)
    ensures var ids := Taken(DueOf(rows), Eligible(rows, now, chain, network, statuses) - locked, limit);
      LeasesDue(rows, Leased(rows, ids, until), claimed, now, until, chain, network, statuses) == true
  {
    forall i | 0 <= i < |claimed|
      ensures WasDue(rows, claimed[i].paymentAddressId, now, chain, network, statuses)
    {
      assert Among(claimed, |claimed|, claimed[i].paymentAddressId);
    }
  }

  class PaymentReceiptTrackingStore {
    const tx: Transaction

    constructor (tx: Transaction)
      ensures this.tx == tx
    {
      this.tx := tx;
    }

    // `ON CONFLICT (payment_address_id) DO NOTHING` reports a second tracking as existing; a
    // second use of the address is an error of the database.
    method Create(t: Tracking, nextPollAt: Time) returns (r: Result<(), StoreError>)
      modifies tx`trackings
      ensures r.Success? ==>
        && nextPollAt != ZERO_TIME && t.paymentAddressId !in old(tx.trackings)
        && !AddressTracked(old(tx.trackings), AddressOfTracking(t))
        && tx.trackings == old(tx.trackings)[t.paymentAddressId := TrackingRow(t, nextPollAt, None, None)]
      ensures r.Failure? ==> tx.trackings == old(tx.trackings)
      ensures r == Failure(AlreadyExists) ==> t.paymentAddressId in old(tx.trackings)
    {
      if nextPollAt == ZERO_TIME { return Failure(TimeRequired); }
      var ok := DriverSucceeds();
      if !ok { return Failure(StoreFailed); }
      if t.paymentAddressId in tx.trackings { return Failure(AlreadyExists); }
      if AddressTracked(tx.trackings, AddressOfTracking(t)) { return Failure(StoreFailed); }
      tx.trackings := tx.trackings[t.paymentAddressId := TrackingRow(t, nextPollAt, None, None)];
      return Success(());
    }

    // The update of the rows in the order it visits them, and the records it returns.
    method LeaseRows(ids: seq<int>, claimUntil: Time, ghost taken: set<int>) returns (records: seq<Tracking>)
      requires Keyed(tx.trackings)
      requires forall i | 0 <= i < |ids| :: ids[i] in tx.trackings
      requires forall i, j | 0 <= i < j < |ids| :: ids[i] != ids[j]
      requires forall id :: id in taken <==> id in ids
      modifies tx`trackings
      ensures tx.trackings == Leased(old(tx.trackings), taken, claimUntil) && |records| == |ids|
      ensures AreIds(taken, records) == true && Distinct(records) == true && Copies(old(tx.trackings), records) == true
    {
      var rows := tx.trackings;
      records := [];
      ghost var leased: set<int> := {};
      for n := 0 to |ids|
        invariant |records| == n
        invariant forall i | 0 <= i < n :: records[i] == rows[ids[i]].tracking && records[i].paymentAddressId == ids[i]
        invariant forall id :: id in leased <==> id in ids[..n]
        invariant tx.trackings == Leased(rows, leased, claimUntil)
      {
        assert ids[..n + 1] == ids[..n] + [ids[n]];
        leased := leased + {ids[n]};
        tx.trackings := tx.trackings[ids[n] := tx.trackings[ids[n]].(leaseUntil := Some(claimUntil))];
        records := records + [rows[ids[n]].tracking];
      }
      assert ids[..|ids|] == ids;
      SameIds(leased, taken);
      forall id ensures id in taken <==> Among(records, |records|, id) {
        assert id in taken <==> id in ids;
      }
    }

    // Leases the first due rows that no other transaction has locked, and returns them in
    // whatever order the update visits them.
    method ClaimDue(now: Time, claimUntil: Time, limit: int, chain: string, network: string, statuses: set<Status>)
      returns (r: Result<seq<Tracking>, StoreError>, ghost skipped: set<int>)
      requires Keyed(tx.trackings)
      modifies tx`trackings
      ensures r.Success? ==>
        && now != ZERO_TIME && claimUntil != ZERO_TIME && limit > 0 && statuses != {}
        && var rows := old(tx.trackings);
        && var ids := Taken(DueOf(rows), Eligible(rows, now, chain, network, statuses) - skipped, limit);
        && tx.trackings == Leased(rows, ids, claimUntil)
        && AreIds(ids, r.value) == true && Copies(rows, r.value) == true && Distinct(r.value) == true
        && LeasesDue(rows, tx.trackings, r.value, now, claimUntil, chain, network, statuses) == true
        && |r.value| <= limit
      ensures r.Failure? ==> tx.trackings == old(tx.trackings)
    {
      skipped := {};
      if now == ZERO_TIME || claimUntil == ZERO_TIME { return Failure(TimeRequired), skipped; }
      if limit <= 0 { return Failure(LimitInvalid), skipped; }
      if statuses == {} { return Failure(StatusesRequired), skipped; }
      var ok := DriverSucceeds();
      if !ok { return Failure(StoreFailed), skipped; }
      var locked: set<int> := *;
      skipped := locked;
      var rows := tx.trackings;
      var ids := TakeFirst(DueOf(rows), Eligible(rows, now, chain, network, statuses) - locked, limit);
      ghost var taken := Taken(DueOf(rows), Eligible(rows, now, chain, network, statuses) - locked, limit);
      assert forall i | 0 <= i < |ids| :: ids[i] in taken;
      var records := LeaseRows(ids, claimUntil, taken);
      TakenWereDue(rows, locked, now, claimUntil, limit, chain, network, statuses, records);
      ok := DriverSucceeds();
      if !ok {
        tx.trackings := rows;
        return Failure(StoreFailed), skipped;
      }
      return Success(records), skipped;
    }

    // The row is found by its id alone: neither the lease nor the status is compared.
    method Save(t: Tracking, polledAt: Time, nextPollAt: Time) returns (r: Result<(), StoreError>)
      modifies tx`trackings, tx`saves
      ensures r.Success? ==>
        && polledAt != ZERO_TIME && nextPollAt != ZERO_TIME
        && var id := t.paymentAddressId;
        && id in old(tx.trackings)
        && tx.trackings == old(tx.trackings)[id := SavedRow(old(tx.trackings)[id], t, polledAt, nextPollAt)]
        && WritesPolled(old(tx.trackings)[id], tx.trackings[id], t, polledAt, nextPollAt) == true
        && tx.saves == old(tx.saves) + [id]
      ensures r.Failure? ==> tx.trackings == old(tx.trackings) && tx.saves == old(tx.saves)
    {
      if polledAt == ZERO_TIME || nextPollAt == ZERO_TIME { return Failure(TimeRequired); }
      var ok := DriverSucceeds();
      if !ok { return Failure(StoreFailed); }
      var id := t.paymentAddressId;
      if id !in tx.trackings { return Failure(NotFound); }
      tx.trackings := tx.trackings[id := SavedRow(tx.trackings[id], t, polledAt, nextPollAt)];
      tx.saves := tx.saves + [id];
      return Success(());
    }
  }
}
