/** The stores behind address issuance: allocations with their cursors, and idempotency keys. */
module AllocationStore {
  import opened Values
  import opened Tables
  import opened IssuancePolicy
  import opened AtomicIssuance
  import opened Stores

  // The failed row of the space that was reserved before all others, or has the lowest id of those
  // that were reserved first.
  ghost predicate WaitedLongest(rows: map<int, AllocationRow>, space: Space, id: int) {
    && id in rows && rows[id].space == space && rows[id].status == DerivationFailed
    && forall other | other in rows && rows[other].space == space && rows[other].status == DerivationFailed ::
         other == id || rows[id].reservedAt < rows[other].reservedAt
         || (rows[id].reservedAt == rows[other].reservedAt && id < other)
  }

  // The slot is reserved for the request, and says nothing of an earlier one.
  predicate IsReservedFor(row: AllocationRow, plan: Plan, slot: int, now: Time) {
    && row.space == Space(plan.policy.id, plan.policy.spaceRef) && row.slot == slot
    && row.amount == plan.amount && row.customerReference == plan.customerReference
    && row.status == Reserved && row.details.None? && !row.failed && row.reservedAt == now
  }

  // The row is for the same slot and the same request.
  predicate IsReservedAs(before: AllocationRow, after: AllocationRow) {
    && after.space == before.space && after.slot == before.slot && after.amount == before.amount
    && after.customerReference == before.customerReference && after.reservedAt == before.reservedAt
  }

  class PaymentAddressAllocationStore {
    const tx: Transaction

    constructor (tx: Transaction)
      ensures this.tx == tx
    {
      this.tx := tx;
    }

    method FindIssuedById(id: int) returns (r: Result<Option<AllocationRow>, StoreError>)
      ensures r.Success? ==>
        r.value == if id in tx.allocations && tx.allocations[id].status == Issued then Some(tx.allocations[id])
          else None
      ensures r.Failure? ==> r.error == StoreFailed || r.error == IndexExhausted
      ensures r == Failure(IndexExhausted) ==> id in tx.allocations && !(0 <= tx.allocations[id].slot <= MAX_SLOT_INDEX)
    {
      var ok := DriverSucceeds();
      if !ok { return Failure(StoreFailed); }
      if id !in tx.allocations || tx.allocations[id].status != Issued { return Success(None); }
      var row := tx.allocations[id];
      if row.slot < 0 || row.slot > MAX_SLOT_INDEX { return Failure(IndexExhausted); }
      return Success(Some(row));
    }

    // Takes over the failed slot that was reserved first, and gives it the new request.
    method ReopenFailedReservation(plan: Plan, now: Time) returns (r: Result<Option<Reservation>, StoreError>)
      modifies tx`allocations
      ensures r.Success? && r.value.Some? ==>
        var id := r.value.value.id;
        && FirstReopenable(old(tx.allocations), SpaceOf(plan.policy), {}, id)
        && r.value.value.slot == old(tx.allocations)[id].slot
        && tx.allocations == old(tx.allocations)[id :=
             ReopenRow(old(tx.allocations)[id], plan.amount, plan.customerReference, now)]
        && WaitedLongest(old(tx.allocations), SpaceOf(plan.policy), id)
        && IsReservedFor(tx.allocations[id], plan, r.value.value.slot, now)
      ensures r.Success? && r.value.None? ==>
        && tx.allocations == old(tx.allocations)
        && forall id | id in tx.allocations :: !Reopenable(tx.allocations, SpaceOf(plan.policy), {}, id)
      ensures r.Failure? ==> tx.allocations == old(tx.allocations)
    {
      var ok := DriverSucceeds();
      if !ok { return Failure(StoreFailed); }
      var space := SpaceOf(plan.policy);
      var ids := set id | id in tx.allocations && Reopenable(tx.allocations, space, {}, id);
      if some :| some in ids {
        ghost var first := FirstExists(tx.allocations, ids, some);
        assert FirstReopenable(tx.allocations, space, {}, first) by {
          forall other | other in tx.allocations && Reopenable(tx.allocations, space, {}, other) ensures other in ids {}
        }
        var id :| id in tx.allocations && FirstReopenable(tx.allocations, space, {}, id);
        var row := tx.allocations[id];
        if row.slot < 0 || row.slot > MAX_SLOT_INDEX { return Failure(IndexExhausted); }
        ok := DriverSucceeds();
        if !ok { return Failure(StoreFailed); }
        tx.allocations := tx.allocations[id := ReopenRow(row, plan.amount, plan.customerReference, now)];
        return Success(Some(Reservation(id, row.slot)));
      } else {
        forall id | id in tx.allocations ensures !Reopenable(tx.allocations, space, {}, id) {
          assert id !in ids;
        }
        return Success(None);
      }
    }

    // Hands out the slot the cursor stands at, creating the cursor behind the highest slot in
    // use when there is none, and moves the cursor on.
    method ReserveFresh(plan: Plan, now: Time) returns (r: Result<Reservation, StoreError>)
      modifies tx`allocations, tx`cursors, tx.database`nextId
      ensures r.Success? ==>
        var space := SpaceOf(plan.policy);
        && r.value.id == old(tx.database.nextId) && tx.database.nextId == r.value.id + 1
        && r.value.slot == CursorValue(old(tx.View()), space) <= MAX_SLOT_INDEX
        && tx.cursors == old(tx.cursors)[space := r.value.slot + 1]
        && tx.allocations == old(tx.allocations)[r.value.id := ReservedRow(plan, r.value.slot, now)]
        && IsReservedFor(tx.allocations[r.value.id], plan, r.value.slot, now)
      ensures r.Failure? ==> r.error == StoreFailed || r.error == IndexExhausted
      ensures r == Failure(IndexExhausted) ==> CursorValue(old(tx.View()), SpaceOf(plan.policy)) > MAX_SLOT_INDEX
      ensures old(tx.database.nextId) <= tx.database.nextId
    {
      var space := SpaceOf(plan.policy);
      var ok := DriverSucceeds();
      if !ok { return Failure(StoreFailed); }
      if space !in tx.cursors {
        var next := tx.MaxSlotPlusOne(space);
        tx.cursors := tx.cursors[space := next];
      }
      ok := DriverSucceeds();
      if !ok { return Failure(StoreFailed); }
      var nextIndex := tx.cursors[space];
      if nextIndex > MAX_SLOT_INDEX { return Failure(IndexExhausted); }
      var id := tx.database.nextId;
      tx.database.nextId := id + 1;
      ok := DriverSucceeds();
      if !ok { return Failure(StoreFailed); }
      tx.allocations := tx.allocations[id := ReservedRow(plan, nextIndex, now)];
      ok := DriverSucceeds();
      if !ok { return Failure(StoreFailed); }
      tx.cursors := tx.cursors[space := tx.cursors[space] + 1];
      return Success(Reservation(id, nextIndex));
    }

    // Only a reserved row can be completed, and no other row may have the same address.
    method Complete(id: int, details: Details) returns (r: Result<(), StoreError>)
      modifies tx`allocations
      ensures r.Success? ==>
        && details.sweepMaterial != "" && details.issuedAt != ZERO_TIME
        && id in old(tx.allocations) && old(tx.allocations)[id].status == Reserved
        && !AddressIssued(old(tx.allocations)[id := old(tx.allocations)[id].(details := None)], AddressOf(details))
        && tx.allocations == old(tx.allocations)[id := CompleteRow(old(tx.allocations)[id], details)]
        && IsReservedAs(old(tx.allocations)[id], tx.allocations[id])
        && tx.allocations[id].status == Issued && tx.allocations[id].details == Some(details)
        && !tx.allocations[id].failed
      ensures r.Failure? ==> tx.allocations == old(tx.allocations)
      ensures r == Failure(NotReserved) ==> id !in old(tx.allocations) || old(tx.allocations)[id].status != Reserved
    {
      if details.issuedAt == ZERO_TIME { return Failure(TimeRequired); }
      if details.sweepMaterial == "" { return Failure(StoreFailed); }
      var ok := DriverSucceeds();
      if !ok { return Failure(StoreFailed); }
      if id !in tx.allocations || tx.allocations[id].status != Reserved { return Failure(NotReserved); }
      var row := tx.allocations[id];
      if AddressIssued(tx.allocations[id := row.(details := None)], AddressOf(details)) { return Failure(StoreFailed); }
      tx.allocations := tx.allocations[id := CompleteRow(row, details)];
      return Success(());
    }

    method MarkDerivationFailed(id: int) returns (r: Result<(), StoreError>)
      modifies tx`allocations
      ensures r.Success? ==>
        && id in old(tx.allocations) && old(tx.allocations)[id].status == Reserved
        && tx.allocations == old(tx.allocations)[id := FailRow(old(tx.allocations)[id])]
        && IsReservedAs(old(tx.allocations)[id], tx.allocations[id])
        && tx.allocations[id].status == DerivationFailed && tx.allocations[id].failed
      ensures r.Failure? ==> tx.allocations == old(tx.allocations)
      ensures r == Failure(NotReserved) ==> id !in old(tx.allocations) || old(tx.allocations)[id].status != Reserved
    {
      var ok := DriverSucceeds();
      if !ok { return Failure(StoreFailed); }
      if id !in tx.allocations || tx.allocations[id].status != Reserved { return Failure(NotReserved); }
      tx.allocations := tx.allocations[id := FailRow(tx.allocations[id])];
      return Success(());
    }
  }

  class PaymentAddressIdempotencyStore {
    const tx: Transaction

    constructor (tx: Transaction)
      ensures this.tx == tx
    {
      this.tx := tx;
    }

    method FindByKey(key: Key) returns (r: Result<Option<KeyRow>, StoreError>)
      ensures r.Success? ==>
        r.value == if key.idempotencyKey != "" && key in tx.keys then Some(tx.keys[key]) else None
    {
      if key.idempotencyKey == "" { return Success(None); }
      var ok := DriverSucceeds();
      if !ok { return Failure(StoreFailed); }
      return Success(if key in tx.keys then Some(tx.keys[key]) else None);
    }

    // The primary key is what makes a second claim fail; the claim names no address yet.
    method Claim(key: Key, row: KeyRow) returns (r: Result<(), StoreError>)
      requires row.paymentAddressId.None?
      modifies tx`keys
      ensures r.Success? ==>
        key !in old(tx.keys) && row.amount > 0 && key.chain != "" && tx.keys == old(tx.keys)[key := row]
      ensures r.Failure? ==> tx.keys == old(tx.keys)
      ensures r == Failure(KeyExists) ==> key in old(tx.keys)
    {
      if key.chain == "" { return Failure(ChainRequired); }
      if key.idempotencyKey == "" { return Failure(KeyRequired); }
      if row.amount <= 0 { return Failure(AmountInvalid); }
      var ok := DriverSucceeds();
      if !ok { return Failure(StoreFailed); }
      if key in tx.keys { return Failure(KeyExists); }
      tx.keys := tx.keys[key := row];
      return Success(());
    }

    // A claim is completed once: a row that already names an address is not touched.
    method Complete(key: Key, paymentAddressId: int) returns (r: Result<(), StoreError>)
      modifies tx`keys
      ensures r.Success? ==>
        && paymentAddressId > 0 && key in old(tx.keys) && old(tx.keys)[key].paymentAddressId.None?
        && tx.keys == old(tx.keys)[key := old(tx.keys)[key].(paymentAddressId := Some(paymentAddressId))]
      ensures r.Failure? ==> tx.keys == old(tx.keys)
      ensures r == Failure(ClaimNotFound) ==> key in old(tx.keys) ==> old(tx.keys)[key].paymentAddressId.Some?
    {
      if key.chain == "" { return Failure(ChainRequired); }
      if key.idempotencyKey == "" { return Failure(KeyRequired); }
      if paymentAddressId <= 0 { return Failure(IdInvalid); }
      var ok := DriverSucceeds();
      if !ok { return Failure(StoreFailed); }
      if key !in tx.keys || tx.keys[key].paymentAddressId.Some? { return Failure(ClaimNotFound); }
      tx.keys := tx.keys[key := tx.keys[key].(paymentAddressId := Some(paymentAddressId))];
      return Success(());
    }

    // Only a claim that was never completed can be released.
    method Release(key: Key) returns (r: Result<(), StoreError>)
      modifies tx`keys
      ensures r.Success? ==>
        key in old(tx.keys) && old(tx.keys)[key].paymentAddressId.None? && tx.keys == old(tx.keys) - {key}
      ensures r.Failure? ==> tx.keys == old(tx.keys)
      ensures r == Failure(ClaimNotFound) ==> key in old(tx.keys) ==> old(tx.keys)[key].paymentAddressId.Some?
    {
      if key.chain == "" { return Failure(ChainRequired); }
      if key.idempotencyKey == "" { return Failure(KeyRequired); }
      var ok := DriverSucceeds();
      if !ok { return Failure(StoreFailed); }
      if key !in tx.keys || tx.keys[key].paymentAddressId.Some? { return Failure(ClaimNotFound); }
      tx.keys := tx.keys - {key};
      return Success(());
    }
  }
}
