/**
 The use case itself, statement by statement: replay lookup, plan, and one transaction that
 claims the key, reserves a slot, derives the address and records all of it.

 Contracts say `P(..) == true` where `P` is only passed on: as an equation it reaches the solver
 whole, where a bare `P(..)` would be taken apart, conjunct by conjunct, at every call.
 */
module AllocateUseCase {
  import opened Values
  import opened Tables
  import opened IssuancePolicy
  import opened AtomicIssuance
  import opened Stores
  import opened AllocationStore
  import opened TrackingStore
  import M = IssuanceMachine
  import IssuanceRuns

  datatype Attempt = ReopenFailed | TakeFresh

  const ATTEMPTS: seq<Attempt> := [ReopenFailed, TakeFresh]

  datatype IssueError = KeyTaken | PoolExhausted | AttemptsRequired | Refused(error: M.Error)

  datatype IssuedAllocation = IssuedAllocation(id: int, row: AllocationRow)

  // Derivation reads the policy and the reserved row, not the database, and may fail.
  method DeriveIssuedAddress(sys: M.System, policy: Policy, slot: int, id: int) returns (r: Result<Derived, ()>)
    ensures r.Success? ==> r.value == M.DerivedFor(sys, policy, slot, id)
  {
    var ok := DriverSucceeds();
    r := if ok then Success(M.DerivedFor(sys, policy, slot, id)) else Failure(());
  }

  method ClockNow() returns (now: Time) {
    now := *;
  }

  // The plan is for a configured policy, on its terms.
  predicate IsPlan(sys: M.System, plan: Plan) {
    && plan.policy.id in sys.catalogue && sys.catalogue[plan.policy.id] == plan.policy
    && OnTerms(sys.terms, plan)
  }

  // A failed slot is taken before a fresh one, in the order of the attempts.
  method ReserveAllocation(store: PaymentAddressAllocationStore, plan: Plan, attempts: seq<Attempt>, now: Time)
    returns (r: Result<Pick, IssueError>)
    requires store.tx.database.nextId > 0
    requires forall id | id in store.tx.allocations :: 0 < id < store.tx.database.nextId
    modifies store.tx`allocations, store.tx`cursors, store.tx.database`nextId
    ensures r.Success? ==>
      && Pickable(old(store.tx.View()), plan, r.value) && r.value.id < store.tx.database.nextId
      && store.tx.allocations == old(store.tx.allocations)[r.value.id := ReservedRow(plan, r.value.slot, now)]
      && store.tx.cursors ==
           if r.value.isNew then old(store.tx.cursors)[SpaceOf(plan.policy) := r.value.slot + 1]
             else old(store.tx.cursors)
    ensures r.Success? && attempts == ATTEMPTS ==>
      (r.value.isNew <==> forall id | id in old(store.tx.allocations) ::
        !Reopenable(old(store.tx.allocations), SpaceOf(plan.policy), {}, id))
    ensures r == Failure(PoolExhausted) ==> CursorValue(old(store.tx.View()), SpaceOf(plan.policy)) > MAX_SLOT_INDEX
    ensures r == Failure(AttemptsRequired) ==> TakeFresh !in attempts
    ensures r.Failure? ==>
      r.error == PoolExhausted || r.error == AttemptsRequired || r.error == Refused(M.DependencyFailure)
    ensures old(store.tx.database.nextId) <= store.tx.database.nextId
  {
    for i := 0 to |attempts|
      invariant store.tx.allocations == old(store.tx.allocations) && store.tx.cursors == old(store.tx.cursors)
      invariant store.tx.database.nextId == old(store.tx.database.nextId)
      invariant TakeFresh !in attempts[..i]
      invariant i > 0 && attempts == ATTEMPTS ==>
        forall id | id in store.tx.allocations :: !Reopenable(store.tx.allocations, SpaceOf(plan.policy), {}, id)
    {
      if attempts[i].ReopenFailed? {
        var reopened := store.ReopenFailedReservation(plan, now);
        if reopened.Failure? { return Failure(Refused(M.DependencyFailure)); }
        if reopened.value.Some? {
          var id := reopened.value.value.id;
          return Success(Pick(id, reopened.value.value.slot, false));
        }
      } else {
        var taken := store.ReserveFresh(plan, now);
        if taken.Failure? {
          return Failure(if taken.error == IndexExhausted then PoolExhausted else Refused(M.DependencyFailure));
        }
        return Success(Pick(taken.value.id, taken.value.slot, true));
      }
    }
    return Failure(AttemptsRequired);
  }

  // Marks the slot and releases the key, and still reports an error in every case: the one it
  // was called with only after both are done.
  method HandleDerivationFailure(
    allocations: PaymentAddressAllocationStore, keys: PaymentAddressIdempotencyStore, key: Option<Key>, id: int,
    final: M.Error)
    returns (e: M.Error, ghost handled: bool)
    requires allocations.tx == keys.tx
    modifies allocations.tx`allocations, keys.tx`keys
    ensures e == if handled then final else M.DependencyFailure
    ensures handled ==>
      && id in old(allocations.tx.allocations) && old(allocations.tx.allocations)[id].status == Reserved
      && allocations.tx.allocations ==
           old(allocations.tx.allocations)[id := FailRow(old(allocations.tx.allocations)[id])]
      && keys.tx.keys == if key.Some? then old(keys.tx.keys) - {key.value} else old(keys.tx.keys)
  {
    var marked := allocations.MarkDerivationFailed(id);
    if marked.Failure? { return M.DependencyFailure, false; }
    if key.Some? {
      var released := keys.Release(key.value);
      if released.Failure? { return M.DependencyFailure, false; }
    }
    return final, true;
  }

  // The reserved row is issued and tracked, at the address derived for it; all else is as it was.
  ghost predicate IsIssued(
    sys: M.System, before: Db, after: Db, plan: Plan, pick: Pick, reservedAt: Time, derived: Derived)
  {
    && derived == M.DerivedFor(sys, plan.policy, pick.slot, pick.id) && derived.address != ""
    && !AddressIssued(before.allocations, AddressOf(DetailsOf(plan, derived)))
    && TrackingOf(plan, pick.id, derived).Success? && pick.id !in before.trackings
    && after.allocations == before.allocations[pick.id := IssuedRow(plan, pick.slot, reservedAt, derived)]
    && after.trackings == before.trackings[pick.id :=
         TrackingRow(TrackingOf(plan, pick.id, derived).value, plan.issuedAt, None, None)]
    && after.cursors == before.cursors && after.keys == before.keys
  }

  // From a reserved slot to an issued, tracked allocation, inside the transaction.
  method IssueReserved(sys: M.System, tx: Transaction, key: Option<Key>, plan: Plan, pick: Pick, reservedAt: Time)
    returns (r: Result<Derived, IssueError>)
    requires pick.id in tx.allocations && tx.allocations[pick.id] == ReservedRow(plan, pick.slot, reservedAt)
    modifies tx`allocations, tx`keys, tx`trackings
    ensures r.Success? ==> IsIssued(sys, old(tx.View()), tx.View(), plan, pick, reservedAt, r.value) == true
    ensures r.Failure? ==> r.error == Refused(M.DependencyFailure) || r.error == Refused(M.InternalFailure)
  {
    var allocations := new PaymentAddressAllocationStore(tx);
    var keys := new PaymentAddressIdempotencyStore(tx);
    var trackings := new PaymentReceiptTrackingStore(tx);
    var derived := DeriveIssuedAddress(sys, plan.policy, pick.slot, pick.id);
    if derived.Failure? {
      var e, _ := HandleDerivationFailure(allocations, keys, key, pick.id, M.DependencyFailure);
      return Failure(Refused(e));
    }
    if derived.value.address == "" {
      var e, _ := HandleDerivationFailure(allocations, keys, key, pick.id, M.InternalFailure);
      return Failure(Refused(e));
    }
    var completed := allocations.Complete(pick.id, DetailsOf(plan, derived.value));
    if completed.Failure? { return Failure(Refused(M.DependencyFailure)); }
    assert tx.allocations[pick.id] == IssuedRow(plan, pick.slot, reservedAt, derived.value);
    assert old(tx.allocations)[pick.id := old(tx.allocations)[pick.id].(details := None)] == old(tx.allocations);
    var tracking := TrackingOf(plan, pick.id, derived.value);
    if tracking.Failure? { return Failure(Refused(M.InternalFailure)); }
    var created := trackings.Create(tracking.value, plan.issuedAt);
    if created.Failure? { return Failure(Refused(M.DependencyFailure)); }
    return Success(derived.value);
  }

  // The key is claimed, and a row that may be picked is reserved.
  ghost predicate IsReserved(before: Db, after: Db, key: Option<Key>, plan: Plan, pick: Pick, reservedAt: Time) {
    && (key.Some? ==> key.value !in before.keys) && Pickable(before, plan, pick)
    && after.keys == (if key.Some? then before.keys[key.value := ClaimedRow(plan)] else before.keys)
    && after.allocations == before.allocations[pick.id := ReservedRow(plan, pick.slot, reservedAt)]
    && after.cursors ==
         (if pick.isNew then before.cursors[SpaceOf(plan.policy) := pick.slot + 1] else before.cursors)
    && after.trackings == before.trackings
  }

  // The first half of the transaction: the key is claimed, then a slot is reserved.
  method ClaimAndReserve(tx: Transaction, key: Option<Key>, plan: Plan)
    returns (r: Result<Pick, IssueError>, now: Time)
    requires RowsOk(tx.View()) == true && SequenceAhead(tx.View(), tx.database.nextId) == true
    modifies tx`keys, tx`allocations, tx`cursors, tx.database`nextId
    ensures old(tx.database.nextId) <= tx.database.nextId
    ensures r.Success? ==>
      r.value.id < tx.database.nextId && IsReserved(old(tx.View()), tx.View(), key, plan, r.value, now) == true
    ensures r == Failure(KeyTaken) ==> key.Some? && key.value in old(tx.keys)
    ensures r == Failure(PoolExhausted) ==> CursorValue(old(tx.View()), SpaceOf(plan.policy)) > MAX_SLOT_INDEX
    ensures r.Failure? ==> r.error == KeyTaken || r.error == PoolExhausted || r.error == Refused(M.DependencyFailure)
  {
    now := ClockNow();
    if key.Some? {
      var keys := new PaymentAddressIdempotencyStore(tx);
      var claimed := keys.Claim(key.value, ClaimedRow(plan));
      if claimed.Failure? {
        return Failure(if claimed.error == KeyExists then KeyTaken else Refused(M.DependencyFailure)), now;
      }
    }
    var allocations := new PaymentAddressAllocationStore(tx);
    ghost var claimedView := tx.View();
    r := ReserveAllocation(allocations, plan, ATTEMPTS, now);
    if r.Success? {
      PickIgnoresKeys(old(tx.View()), claimedView, plan, r.value);
    } else {
      PickIgnoresKeys(old(tx.View()), claimedView, plan, Pick(0, 0, true));
    }
  }

  // The claim of the key, if there is one, points to the allocation.
  predicate IsCompleted(before: Db, after: Db, key: Option<Key>, id: int) {
    && (key.Some? ==> key.value in before.keys)
    && after == before.(keys :=
         if key.Some? then before.keys[key.value := before.keys[key.value].(paymentAddressId := Some(id))]
         else before.keys)
  }

  method CompleteClaim(tx: Transaction, key: Option<Key>, plan: Plan, id: int) returns (r: Result<(), IssueError>)
    requires key.Some? ==> key.value in tx.keys
    modifies tx`keys
    ensures r.Success? ==> IsCompleted(old(tx.View()), tx.View(), key, id) == true
    ensures r.Failure? ==> r.error == Refused(M.DependencyFailure)
  {
    if key.Some? {
      var keys := new PaymentAddressIdempotencyStore(tx);
      var completed := keys.Complete(key.value, id);
      if completed.Failure? { return Failure(Refused(M.DependencyFailure)); }
    }
    return Success(());
  }

  // What a failure of the transaction says about the tables it started from.
  ghost predicate Explains(e: IssueError, before: Db, key: Option<Key>, plan: Plan) {
    match e
    case KeyTaken => key.Some? && key.value in before.keys
    case PoolExhausted => CursorValue(before, SpaceOf(plan.policy)) > MAX_SLOT_INDEX
    case AttemptsRequired => false
    case Refused(error) => error == M.DependencyFailure || error == M.InternalFailure
  }

  // The body of the transaction. Success leaves exactly the rows of one issuance.
  method IssueInTransaction(sys: M.System, tx: Transaction, key: Option<Key>, plan: Plan)
    returns (r: Result<IssuedAllocation, IssueError>, ghost i: Issuance)
    requires plan.amount > 0 && (key.Some? ==> key.value.chain == plan.policy.chain)
    requires RowsOk(tx.View()) == true && SequenceAhead(tx.View(), tx.database.nextId) == true
    modifies tx`keys, tx`allocations, tx`cursors, tx`trackings, tx.database`nextId
    ensures old(tx.database.nextId) <= tx.database.nextId
    ensures r.Success? ==>
      && i.pick.id < tx.database.nextId
      && IsIssuance(sys, old(tx.View()), tx.View(), key, plan, i) == true
      && r.value == IssuedAllocation(i.pick.id, IssuedRow(plan, i.pick.slot, i.reservedAt, i.derived))
      && RecordsIssuance(tx.View(), i) == true
    ensures r.Failure? ==> Explains(r.error, old(tx.View()), key, plan) == true
  {
    i := Issuance(plan, key, Pick(0, 0, false), 0, Derived("", ""));
    var pick, now := ClaimAndReserve(tx, key, plan);
    if pick.Failure? { return Failure(pick.error), i; }
    ghost var reserved := tx.View();
    ReservedRowIsThere(old(tx.View()), reserved, key, plan, pick.value, now);
    var derived := IssueReserved(sys, tx, key, plan, pick.value, now);
    if derived.Failure? { return Failure(derived.error), i; }
    ghost var issued := tx.View();
    ClaimIsThere(sys, old(tx.View()), reserved, issued, key, plan, pick.value, now, derived.value);
    var completed := CompleteClaim(tx, key, plan, pick.value.id);
    if completed.Failure? { return Failure(completed.error), i; }
    i := Issuance(plan, key, pick.value, now, derived.value);
    RowsMakeAnIssuance(sys, old(tx.View()), reserved, issued, tx.View(), i);
    IssuanceIsRecorded(sys, old(tx.View()), tx.View(), key, plan, i);
    return Success(IssuedAllocation(pick.value.id, IssuedRow(plan, pick.value.slot, now, derived.value))), i;
  }

  lemma ReservedRowIsThere(before: Db, reserved: Db, key: Option<Key>, plan: Plan, pick: Pick, now: Time)
    requires IsReserved(before, reserved, key, plan, pick, now)
    ensures pick.id in reserved.allocations && reserved.allocations[pick.id] == ReservedRow(plan, pick.slot, now)
  {
  }

  lemma ClaimIsThere(
    sys: M.System, before: Db, reserved: Db, issued: Db, key: Option<Key>, plan: Plan, pick: Pick, now: Time,
    derived: Derived)
    requires IsReserved(before, reserved, key, plan, pick, now)
    requires IsIssued(sys, reserved, issued, plan, pick, now, derived)
    ensures key.Some? ==> key.value in issued.keys
  {
  }

  lemma PickIgnoresKeys(before: Db, after: Db, plan: Plan, pick: Pick)
    requires after == before.(keys := after.keys)
    ensures Pickable(before, plan, pick) == Pickable(after, plan, pick)
    ensures CursorValue(before, SpaceOf(plan.policy)) == CursorValue(after, SpaceOf(plan.policy))
  {
  }

  // One issuance for the plan and the key, at the address derived for the row it settled on.
  ghost predicate IsIssuance(sys: M.System, before: Db, after: Db, key: Option<Key>, plan: Plan, i: Issuance) {
    && i.plan == plan && i.key == key && i.derived == M.DerivedFor(sys, plan.policy, i.pick.slot, i.pick.id)
    && Enabled(before, i) && after == Issue(before, i)
  }

  lemma IssuanceIsRecorded(sys: M.System, before: Db, after: Db, key: Option<Key>, plan: Plan, i: Issuance)
    requires IsIssuance(sys, before, after, key, plan, i)
    ensures RecordsIssuance(after, i) == true
  {
    IssueIsRecorded(before, i);
  }

  // The statements of the transaction, table by table, add up to one issuance.
  lemma RowsMakeAnIssuance(sys: M.System, before: Db, reserved: Db, issued: Db, after: Db, i: Issuance)
    requires i.plan.amount > 0 && (i.key.Some? ==> i.key.value.chain == i.plan.policy.chain) && RowsOk(before) == true
    requires IsReserved(before, reserved, i.key, i.plan, i.pick, i.reservedAt)
    requires IsIssued(sys, reserved, issued, i.plan, i.pick, i.reservedAt, i.derived)
    requires IsCompleted(issued, after, i.key, i.pick.id)
    ensures IsIssuance(sys, before, after, i.key, i.plan, i) == true
  {
    IssuanceIsPossible(sys, before, reserved, issued, i);
    TablesAddUp(sys, before, reserved, issued, after, i);
  }

  lemma IssuanceIsPossible(sys: M.System, before: Db, reserved: Db, issued: Db, i: Issuance)
    requires i.plan.amount > 0 && (i.key.Some? ==> i.key.value.chain == i.plan.policy.chain) && RowsOk(before) == true
    requires IsReserved(before, reserved, i.key, i.plan, i.pick, i.reservedAt)
    requires IsIssued(sys, reserved, issued, i.plan, i.pick, i.reservedAt, i.derived)
    ensures Enabled(before, i) == true
  {
    var row := ReservedRow(i.plan, i.pick.slot, i.reservedAt);
    PickHasNoAddress(before, i.plan, i.pick);
    StillNotIssued(before.allocations, i.pick.id, row, AddressOf(DetailsOf(i.plan, i.derived)));
  }

  lemma TablesAddUp(sys: M.System, before: Db, reserved: Db, issued: Db, after: Db, i: Issuance)
    requires IsReserved(before, reserved, i.key, i.plan, i.pick, i.reservedAt)
    requires IsIssued(sys, reserved, issued, i.plan, i.pick, i.reservedAt, i.derived)
    requires IsCompleted(issued, after, i.key, i.pick.id) && Enabled(before, i) == true
    ensures after == Issue(before, i)
  {
    IssueByTable(before, i);
    PutOver(before.allocations, i.pick.id, ReservedRow(i.plan, i.pick.slot, i.reservedAt),
            IssuedRow(i.plan, i.pick.slot, i.reservedAt, i.derived));
    if i.key.Some? {
      var claim := ClaimedRow(i.plan);
      PutOver(before.keys, i.key.value, claim, claim.(paymentAddressId := Some(i.pick.id)));
    }
  }

  lemma PickHasNoAddress(db: Db, plan: Plan, pick: Pick)
    requires RowsOk(db) && Pickable(db, plan, pick)
    ensures pick.id in db.allocations ==> db.allocations[pick.id].details.None?
  {
  }

  lemma SoundParts(db: Db, nextId: int)
    requires Sound(db, nextId) == true
    ensures RowsOk(db) == true && SequenceAhead(db, nextId) == true
  {
  }

  lemma SoundKeys(db: Db, nextId: int, key: Option<Key>)
    requires Sound(db, nextId) == true
    ensures key.Some? && key.value in db.keys ==> KeyComplete(db, key.value) == true
  {
  }

  // Ids that a rolled back transaction took from the sequence are lost, which does no harm.
  lemma SoundLater(db: Db, nextId: int, nextId': int)
    requires Sound(db, nextId) == true && nextId <= nextId'
    ensures Sound(db, nextId') == true
  {
  }

  lemma IssuanceIssues(sys: M.System, db: Db, db': Db, key: Option<Key>, plan: Plan, i: Issuance)
    requires IsIssuance(sys, db, db', key, plan, i) == true
    requires IsPlan(sys, plan) == true
    ensures IssuanceRuns.Issues(sys, db, db') == true
  {
    assert IssuanceRuns.Configured(sys, i);
  }

  lemma IssueKeepsSound(sys: M.System, db: Db, db': Db, key: Option<Key>, plan: Plan, i: Issuance, nextId: int)
    requires Sound(db, nextId) == true && IsIssuance(sys, db, db', key, plan, i) == true && i.pick.id < nextId
    ensures Sound(db', nextId) == true
  {
    IssueKeepsConsistent(db, i);
    IssueByTable(db, i);
  }

  // A success is one whole issuance, a failure leaves every table as it was. Only a lost
  // acknowledgement of the commit can hide a whole issuance behind an error.
  ghost predicate AllOrNothing(
    sys: M.System, before: Db, after: Db, key: Option<Key>, plan: Plan, r: Result<IssuedAllocation, IssueError>,
    i: Issuance)
  {
    match r
    case Success(issued) =>
      && IsIssuance(sys, before, after, key, plan, i)
      && issued == IssuedAllocation(i.pick.id, IssuedRow(plan, i.pick.slot, i.reservedAt, i.derived))
    case Failure(e) =>
      && Explains(e, before, key, plan)
      && (after == before || (e == Refused(M.DependencyFailure) && IssuanceRuns.Issues(sys, before, after)))
  }

  lemma NothingWritten(sys: M.System, before: Db, key: Option<Key>, plan: Plan, e: IssueError, i: Issuance)
    requires Explains(e, before, key, plan) == true
    ensures AllOrNothing(sys, before, before, key, plan, Failure(e), i) == true
  {
  }

  // Whatever becomes of the commit of an issuance.
  lemma CommitOutcomes(
    sys: M.System, before: Db, after: Db, key: Option<Key>, plan: Plan, issued: IssuedAllocation, i: Issuance)
    requires IsPlan(sys, plan) == true
    requires IsIssuance(sys, before, after, key, plan, i) == true
    requires issued == IssuedAllocation(i.pick.id, IssuedRow(plan, i.pick.slot, i.reservedAt, i.derived))
    ensures AllOrNothing(sys, before, after, key, plan, Success(issued), i) == true
    ensures AllOrNothing(sys, before, after, key, plan, Failure(Refused(M.DependencyFailure)), i) == true
    ensures AllOrNothing(sys, before, before, key, plan, Failure(Refused(M.DependencyFailure)), i) == true
  {
    IssuanceIssues(sys, before, after, key, plan, i);
  }

  // The end of the transaction: its rows are put in place, or dropped with an error. An error may
  // also hide that they were put in place.
  method CommitIssuance(database: Database, tx: Transaction, issued: IssuedAllocation)
    returns (r: Result<IssuedAllocation, IssueError>, ghost applied: bool)
    requires tx.notifications == database.notifications
    modifies database
    ensures database.nextId == old(database.nextId) && database.notifications == old(database.notifications)
    ensures database.Committed() == if applied then tx.View() else old(database.Committed())
    ensures r == if r.Success? then Success(issued) else Failure(Refused(M.DependencyFailure))
    ensures r.Success? ==> applied
  {
    var committed := database.Commit(tx);
    applied := database.Committed() == tx.View();
    r := if committed then Success(issued) else Failure(Refused(M.DependencyFailure));
  }

  lemma EitherWay(
    sys: M.System, before: Db, after: Db, applied: bool, nextId: int, key: Option<Key>, plan: Plan,
    issued: IssuedAllocation, r: Result<IssuedAllocation, IssueError>, i: Issuance)
    requires Sound(before, nextId) == true && Sound(after, nextId) == true
    requires IsPlan(sys, plan) == true && IsIssuance(sys, before, after, key, plan, i) == true
    requires issued == IssuedAllocation(i.pick.id, IssuedRow(plan, i.pick.slot, i.reservedAt, i.derived))
    requires r == if r.Success? then Success(issued) else Failure(Refused(M.DependencyFailure))
    requires r.Success? ==> applied
    ensures var now := if applied then after else before;
      Sound(now, nextId) == true && AllOrNothing(sys, before, now, key, plan, r, i) == true
  {
    CommitOutcomes(sys, before, after, key, plan, issued, i);
  }

  // All or nothing, even when the slot had been marked and the key released.
  method IssueAllocation(sys: M.System, database: Database, key: Option<Key>, plan: Plan)
    returns (r: Result<IssuedAllocation, IssueError>, ghost i: Issuance)
    requires M.ValidSystem(sys) && database.Valid() == true
    requires IsPlan(sys, plan) == true
    requires plan.amount > 0 && (key.Some? ==> key.value.chain == plan.policy.chain)
    modifies database
    ensures database.Valid() == true && database.notifications == old(database.notifications)
    ensures AllOrNothing(sys, old(database.Committed()), database.Committed(), key, plan, r, i) == true
  {
    ghost var before := database.Committed();
    var tx := database.Begin();
    assert tx.View() == before;
    SoundParts(before, database.nextId);
    r, i := IssueInTransaction(sys, tx, key, plan);
    assert database.Committed() == before && tx.notifications == database.notifications == old(database.notifications);
    SoundLater(before, old(database.nextId), database.nextId);
    if r.Success? {
      IssueKeepsSound(sys, before, tx.View(), key, plan, i, database.nextId);
      ghost var after, issued, applied := tx.View(), r.value, false;
      r, applied := CommitIssuance(database, tx, r.value);
      EitherWay(sys, before, after, applied, database.nextId, key, plan, issued, r, i);
    } else {
      NothingWritten(sys, before, key, plan, r.error, i);
    }
  }

  // What the transaction of the replay lookup reads: the issued row that the key leads to.
  method FindReplay(tx: Transaction, key: Key, input: M.Input) returns (r: Result<Option<IssuedAllocation>, M.Error>)
    requires key.idempotencyKey != "" && (key in tx.keys ==> KeyComplete(tx.View(), key))
    ensures r.Failure? ==> r.error == M.DependencyFailure || r.error == M.IdempotencyKeyConflict
    ensures r == Failure(M.IdempotencyKeyConflict) ==> key in tx.keys && !M.SameRequest(tx.keys[key], input)
    ensures r.Success? && r.value.None? ==> key !in tx.keys
    ensures r.Success? && r.value.Some? ==>
      && key in tx.keys && M.SameRequest(tx.keys[key], input)
      && tx.keys[key].paymentAddressId == Some(r.value.value.id)
      && r.value.value.id in tx.allocations && r.value.value.row == tx.allocations[r.value.value.id]
  {
    var keys := new PaymentAddressIdempotencyStore(tx);
    var allocations := new PaymentAddressAllocationStore(tx);
    var record := keys.FindByKey(key);
    if record.Failure? { return Failure(M.DependencyFailure); }
    if record.value.None? { return Success(None); }
    if record.value.value.paymentAddressId.None? { return Failure(M.IdempotencyRecordIncomplete); }
    if !M.SameRequest(record.value.value, input) { return Failure(M.IdempotencyKeyConflict); }
    var id := record.value.value.paymentAddressId.value;
    var issued := allocations.FindIssuedById(id);
    if issued.Failure? { return Failure(M.DependencyFailure); }
    if issued.value.None? { return Failure(M.CompletedRecordMissingIssuedAllocation); }
    return Success(Some(IssuedAllocation(id, issued.value.value)));
  }

  lemma ReplayIsBacked(sys: M.System, db: Db, input: M.Input, id: int)
    requires M.ValidSystem(sys) && M.KeyOf(input).Some? && KeyComplete(db, M.KeyOf(input).value)
    requires M.SameRequest(db.keys[M.KeyOf(input).value], input)
    requires db.keys[M.KeyOf(input).value].paymentAddressId == Some(id)
    requires id in db.allocations && db.allocations[id].space.policyId in sys.catalogue
    ensures db.allocations[id].details.Some?
    ensures var row := db.allocations[id];
      IssuanceRuns.Backed(sys, db, input, M.ResponseOf(sys.catalogue[row.space.policyId], id, row, true)) == true
  {
  }

  method LoadReplayedAllocationResponse(sys: M.System, database: Database, input: M.Input)
    returns (r: Result<Option<M.Response>, M.Error>)
    requires M.ValidSystem(sys)
    requires M.KeyOf(input).Some? && M.KeyOf(input).value in database.keys ==>
      KeyComplete(database.Committed(), M.KeyOf(input).value) == true
    modifies database`allocations, database`cursors, database`keys, database`trackings, database`notifications,
      database`saves
    ensures database.Committed() == old(database.Committed()) && database.notifications == old(database.notifications)
    ensures r.Failure? ==>
      r.error == M.DependencyFailure || r.error == M.IdempotencyKeyConflict || r.error == M.AddressPolicyNotFound
    ensures r.Success? && r.value.Some? ==>
      && M.KeyOf(input).Some? && M.KeyOf(input).value in database.keys
      && M.SameRequest(database.keys[M.KeyOf(input).value], input)
      && r.value.value.replayed && IssuanceRuns.Backed(sys, database.Committed(), input, r.value.value) == true
    ensures r.Success? && r.value.None? ==> M.KeyOf(input).None? || M.KeyOf(input).value !in database.keys
    ensures r == Failure(M.IdempotencyKeyConflict) ==>
      && M.KeyOf(input).Some? && M.KeyOf(input).value in database.keys
      && !M.SameRequest(database.keys[M.KeyOf(input).value], input)
    ensures r.Failure? ==> IssuanceRuns.HasGround(sys, database.Committed(), input, r.error) == true
  {
    if M.KeyOf(input).None? { return Success(None); }
    var tx := database.Begin();
    var issued := FindReplay(tx, M.KeyOf(input).value, input);
    if issued.Failure? { return Failure(issued.error); }
    var committed := database.Commit(tx);
    if !committed { return Failure(M.DependencyFailure); }
    if issued.value.None? { return Success(None); }
    var ok := DriverSucceeds();
    if !ok { return Failure(M.DependencyFailure); }
    var row := issued.value.value.row;
    if row.space.policyId !in sys.catalogue { return Failure(M.AddressPolicyNotFound); }
    ReplayIsBacked(sys, database.Committed(), input, issued.value.value.id);
    return Success(Some(M.ResponseOf(sys.catalogue[row.space.policyId], issued.value.value.id, row, true)));
  }

  function PlanRefusal(e: PlanError): M.Error {
    match e
    case ChainMismatch => M.AddressPolicyNotFound
    case NotEnabled => M.AddressPolicyNotEnabled
    case ExpectedAmountInvalid => M.InvalidExpectedAmount
    case IssuedAtRequired => M.InternalFailure
  }

  // Reads the policy and plans, touching no table. A plan is for the policy, the amount and
  // the reference of the request.
  method PlanRequest(sys: M.System, input: M.Input) returns (r: Result<Plan, M.Error>)
    ensures r.Success? ==>
      && input.policyId in sys.catalogue && r.value.policy == sys.catalogue[input.policyId]
      && r.value.policy.chain == input.chain && r.value.policy.enabled
      && r.value.amount == input.amount > 0 && r.value.customerReference == input.customerReference
      && (M.ValidSystem(sys) ==> IsPlan(sys, r.value) == true)
    ensures r.Failure? ==> IssuanceRuns.Refuses(sys, input, r.error) && !IssuanceRuns.Damaged(r.error)
  {
    var ok := DriverSucceeds();
    if !ok { return Failure(M.DependencyFailure); }
    if input.policyId !in sys.catalogue { return Failure(M.AddressPolicyNotFound); }
    var issuedAt := ClockNow();
    var plan := MakePlan(
      sys.terms, sys.catalogue[input.policyId], input.chain, input.amount, input.customerReference, issuedAt);
    PlanIsOnTerms(
      sys.terms, sys.catalogue[input.policyId], input.chain, input.amount, input.customerReference, issuedAt);
    return if plan.Success? then Success(plan.value) else Failure(PlanRefusal(plan.error));
  }

  // Somebody else holds the key: their claim is committed, hence completed.
  method ReplayTakenKey(sys: M.System, database: Database, input: M.Input) returns (r: Result<M.Response, M.Error>)
    requires M.ValidSystem(sys)
    requires M.KeyOf(input).Some? && KeyComplete(database.Committed(), M.KeyOf(input).value) == true
    modifies database`allocations, database`cursors, database`keys, database`trackings, database`notifications,
      database`saves
    ensures database.Committed() == old(database.Committed()) && database.notifications == old(database.notifications)
    ensures r.Success? ==> r.value.replayed && IssuanceRuns.Backed(sys, database.Committed(), input, r.value) == true
    ensures r.Failure? ==>
      IssuanceRuns.HasGround(sys, database.Committed(), input, r.error) == true && !IssuanceRuns.Damaged(r.error)
  {
    var again := LoadReplayedAllocationResponse(sys, database, input);
    if again.Failure? { return Failure(again.error); }
    if again.value.None? { return Failure(M.ClaimConflictWithoutCompletedRecord); }
    return Success(again.value.value);
  }

  // A failed issuance is refused as its error says.
  lemma FailureHasGround(
    sys: M.System, before: Db, after: Db, input: M.Input, plan: Plan, e: IssueError, i: Issuance)
    requires input.policyId in sys.catalogue && plan.policy == sys.catalogue[input.policyId]
    requires AllOrNothing(sys, before, after, M.KeyOf(input), plan, Failure(e), i) && !e.KeyTaken?
    ensures IssuanceRuns.HasGround(
      sys, after, input, if e.PoolExhausted? then M.AddressPoolExhausted else e.error) == true
  {
  }

  // The second half of a request, once no completed claim was found.
  method PlanAndIssue(sys: M.System, database: Database, input: M.Input) returns (r: Result<M.Response, M.Error>)
    requires M.ValidSystem(sys) && database.Valid() == true
    modifies database
    ensures database.Valid() == true && database.notifications == old(database.notifications)
    ensures r.Success? ==> IssuanceRuns.Backed(sys, database.Committed(), input, r.value) == true
    ensures r.Success? && !r.value.replayed ==>
      && IssuanceRuns.Issues(sys, old(database.Committed()), database.Committed()) == true
      && IssuanceRuns.IsFresh(sys, database.Committed(), input, r.value) == true
      && (M.KeyOf(input).Some? ==> M.KeyOf(input).value !in old(database.keys))
    ensures r.Success? && r.value.replayed ==> database.Committed() == old(database.Committed())
    ensures r.Failure? ==>
      || database.Committed() == old(database.Committed())
      || (r.error == M.DependencyFailure
          && IssuanceRuns.Issues(sys, old(database.Committed()), database.Committed()) == true)
    ensures r.Failure? ==>
      IssuanceRuns.HasGround(sys, database.Committed(), input, r.error) == true && !IssuanceRuns.Damaged(r.error)
  {
    var plan := PlanRequest(sys, input);
    if plan.Failure? { return Failure(plan.error); }
    ghost var before := database.Committed();
    var issued, i := IssueAllocation(sys, database, M.KeyOf(input), plan.value);
    if issued.Success? {
      IssuanceIsBacked(sys, before, database.Committed(), input, plan.value, i);
      IssuanceIsFresh(sys, before, database.Committed(), input, plan.value, i);
      return Success(M.ResponseOf(plan.value.policy, issued.value.id, issued.value.row, false));
    }
    if !issued.error.KeyTaken? {
      FailureHasGround(sys, before, database.Committed(), input, plan.value, issued.error, i);
      return Failure(if issued.error.PoolExhausted? then M.AddressPoolExhausted else issued.error.error);
    }
    SoundKeys(database.Committed(), database.nextId, M.KeyOf(input));
    r := ReplayTakenKey(sys, database, input);
  }

  // One request on its own. A key that is taken is answered from the tables or refused, and
  // nothing is written; a new answer comes with one whole issuance, for an enabled policy of the
  // chain and a positive amount; a refusal has the ground that it names, and none reports damage.
  method Execute(sys: M.System, database: Database, input: M.Input) returns (r: Result<M.Response, M.Error>)
    requires M.ValidSystem(sys) && database.Valid() == true
    modifies database
    ensures database.Valid() == true && database.notifications == old(database.notifications)
    ensures r.Success? ==> IssuanceRuns.Backed(sys, database.Committed(), input, r.value) == true
    ensures r.Success? && r.value.replayed ==> database.Committed() == old(database.Committed())
    ensures r.Success? ==> IssuanceRuns.Watched(database.Committed(), r.value) == true
    ensures r.Success? && !r.value.replayed ==>
      && IssuanceRuns.Issues(sys, old(database.Committed()), database.Committed()) == true
      && IssuanceRuns.IsFresh(sys, database.Committed(), input, r.value) == true
    ensures r.Failure? ==>
      IssuanceRuns.HasGround(sys, database.Committed(), input, r.error) == true && !IssuanceRuns.Damaged(r.error)
    ensures r.Failure? ==>
      || database.Committed() == old(database.Committed())
      || (r.error == M.DependencyFailure
          && IssuanceRuns.Issues(sys, old(database.Committed()), database.Committed()) == true)
    ensures M.KeyOf(input).Some? && M.KeyOf(input).value in old(database.keys) ==>
      && database.Committed() == old(database.Committed())
      && (r.Success? ==> r.value.replayed && M.SameRequest(old(database.keys)[M.KeyOf(input).value], input))
  {
    if input.chain != "bitcoin" && input.chain != "ethereum" { return Failure(M.ChainNotSupported); }
    SoundKeys(database.Committed(), database.nextId, M.KeyOf(input));
    var replayed := LoadReplayedAllocationResponse(sys, database, input);
    if replayed.Failure? { return Failure(replayed.error); }
    if replayed.value.Some? {
      AnswerIsWatched(sys, database.Committed(), database.nextId, input, replayed.value.value);
      return Success(replayed.value.value);
    }
    r := PlanAndIssue(sys, database, input);
    if r.Success? { AnswerIsWatched(sys, database.Committed(), database.nextId, input, r.value); }
  }

  lemma AnswerIsWatched(sys: M.System, db: Db, nextId: int, input: M.Input, r: M.Response)
    requires Sound(db, nextId) == true && IssuanceRuns.Backed(sys, db, input, r) == true
    ensures IssuanceRuns.Watched(db, r) == true
  {
    IssuanceRuns.BackedIsWatched(sys, db, input, r);
  }

  lemma IssuanceIsFresh(sys: M.System, before: Db, after: Db, input: M.Input, plan: Plan, i: Issuance)
    requires input.policyId in sys.catalogue && plan.policy == sys.catalogue[input.policyId]
    requires plan.policy.enabled && plan.policy.chain == input.chain && plan.amount == input.amount > 0
    requires IsPlan(sys, plan) && IsIssuance(sys, before, after, M.KeyOf(input), plan, i)
    ensures var row := IssuedRow(plan, i.pick.slot, i.reservedAt, i.derived);
      IssuanceRuns.IsFresh(sys, after, input, M.ResponseOf(plan.policy, i.pick.id, row, false)) == true
  {
    IssueIsRecorded(before, i);
  }

  lemma IssuanceIsBacked(sys: M.System, before: Db, after: Db, input: M.Input, plan: Plan, i: Issuance)
    requires M.ValidSystem(sys) && input.policyId in sys.catalogue && plan.policy == sys.catalogue[input.policyId]
    requires plan.amount == input.amount && plan.customerReference == input.customerReference
    requires IsPlan(sys, plan) == true
    requires IsIssuance(sys, before, after, M.KeyOf(input), plan, i) == true
    ensures IssuanceRuns.Issues(sys, before, after) == true
    ensures M.KeyOf(input).Some? ==> M.KeyOf(input).value !in before.keys
    ensures var row := IssuedRow(plan, i.pick.slot, i.reservedAt, i.derived);
      IssuanceRuns.Backed(sys, after, input, M.ResponseOf(plan.policy, i.pick.id, row, false)) == true
  {
    assert IssuanceRuns.Configured(sys, i);
    IssueByTable(before, i);
  }
}
