/**
 What holds of every transaction in progress, at each statement, while others run beside it:
 the rows it has written so far are those of one atomic issuance, and the committed rows it
 relied on are still there because it holds their locks.

 Contracts say `P(..) == true` where `P` is only passed on: as an equation it reaches the solver
 whole, where a bare `P(..)` would be taken apart, conjunct by conjunct, at every call.
 */
module IssuanceInvariant {
  import opened Values
  import opened Tables
  import opened AtomicIssuance
  import opened IssuanceMachine

  // The allocation row is issued, or the tracking row is in place, inside the transaction.
  predicate HasIssued(pc: Pc) { pc.CreateTracking? || pc.CompleteKey? || pc.Commit? }

  predicate HasTracking(pc: Pc) { pc.CompleteKey? || pc.Commit? }

  predicate HasFailed(pc: Pc) { pc.Release? || pc.Rollback? }

  predicate KeyPart(db: Db, t: Txn) {
    if t.key.None? then t.written.keys == map[] && t.keyLocks == {} && !t.pc.Claim? && !t.pc.CompleteKey?
      && !t.pc.Release?
    else if t.pc.Claim? then t.written.keys == map[] && t.keyLocks == {}
    else
      && t.key.value !in db.keys
      && t.keyLocks == {t.key.value}
      && (t.pc == Rollback || t.written.keys == map[t.key.value :=
           ClaimedRow(t.plan).(paymentAddressId := if t.pc == Commit then Some(t.pick.id) else None)])
  }

  function RowAt(t: Txn): AllocationRow {
    var reserved := ReservedRow(t.plan, t.pick.slot, t.startedAt);
    if HasIssued(t.pc) then CompleteRow(reserved, DetailsOf(t.plan, t.derived))
    else if HasFailed(t.pc) then FailRow(reserved)
    else reserved
  }

  predicate HasPick(pc: Pc) {
    pc.Derive? || pc.CompleteAllocation? || HasIssued(pc) || pc.MarkFailed? || HasFailed(pc)
  }

  // The slot is settled: its row is written, and its cursor, if it is new, has moved on.
  ghost predicate Settled(db: Db, nextId: int, t: Txn) {
    var space := SpaceOf(t.plan.policy);
    && t.written.allocations == map[t.pick.id := RowAt(t)] && t.rowLocks == {t.pick.id}
    && t.pick.id < nextId && Pickable(db, t.plan, t.pick)
    && t.cursorLocks == (if t.pick.isNew then {space} else {})
    && t.written.cursors == if t.pick.isNew then map[space := t.pick.slot + 1] else map[]
  }

  // On the way to a slot: first no lock at all, then the lock on the cursor, whose value no
  // other transaction can change from then on.
  ghost predicate Approaching(db: Db, nextId: int, t: Txn) {
    var space := SpaceOf(t.plan.policy);
    var created := if space in db.cursors then map[] else map[space := CursorValue(db, space)];
    if t.pc.BumpCursor? then
      && t.written.allocations == map[t.pick.id := RowAt(t)] && t.rowLocks == {t.pick.id}
      && t.pick.isNew && t.pick.id < nextId && Pickable(db, t.plan, t.pick)
      && t.cursorLocks == {space} && t.written.cursors == created
    else
      && t.written.allocations == map[] && t.rowLocks == {}
      && if t.pc.InsertAllocation? then
           && t.pick.isNew && t.pick.slot == CursorValue(db, space) <= MAX_SLOT_INDEX
           && t.cursorLocks == {space} && t.written.cursors == created
         else if t.pc.LockCursor? then
           t.written.cursors == created && t.cursorLocks == if space in db.cursors then {} else {space}
         else t.written.cursors == map[] && t.cursorLocks == {}
  }

  ghost predicate SlotPart(db: Db, nextId: int, t: Txn) {
    if HasPick(t.pc) then Settled(db, nextId, t) else Approaching(db, nextId, t)
  }

  predicate TrackPart(t: Txn) {
    if HasTracking(t.pc) then
      && TrackingOf(t.plan, t.pick.id, t.derived).Success?
      && t.written.trackings ==
           map[t.pick.id := TrackingRow(TrackingOf(t.plan, t.pick.id, t.derived).value, t.plan.issuedAt, None, None)]
    else t.written.trackings == map[]
  }

  ghost predicate AddressPart(db: Db, t: Txn) {
    && (t.pc.CompleteAllocation? || HasIssued(t.pc) ==> t.derived.address != "")
    && (if HasIssued(t.pc) then
          var a := AddressOf(DetailsOf(t.plan, t.derived));
          t.addressLocks == {a} && !AddressIssued(db.allocations, a)
        else t.addressLocks == {})
  }

  ghost predicate TxnOk(db: Db, nextId: int, t: Txn) {
    && t.plan.amount > 0
    && (t.key.Some? ==> t.key.value.chain == t.plan.policy.chain)
    && (t.failure == DependencyFailure || t.failure == InternalFailure)
    && KeyPart(db, t)
    && SlotPart(db, nextId, t)
    && TrackPart(t)
    && AddressPart(db, t)
  }

  predicate LocksDisjoint(t: Txn, u: Txn) {
    && t.keyLocks !! u.keyLocks
    && t.rowLocks !! u.rowLocks
    && t.cursorLocks !! u.cursorLocks
    && t.addressLocks !! u.addressLocks
  }

  // Every statement keeps the invariant of its own transaction.
  ghost predicate Kept(db: Db, nextId: int, t: Txn, phase: Phase) {
    match phase
    case InTransaction(t') => t'.plan == t.plan && t'.key == t.key && TxnOk(db, nextId, t')
    case FindKey(again) => again && t.key.Some? && t.key.value in db.keys
    case Done(Refusal(e)) => e == AddressPoolExhausted || e == DependencyFailure || e == InternalFailure
    case _ => false
  }

  lemma PutTwice<K, V>(m: map<K, V>, k: K, v: V, w: V)
    requires m == map[k := v]
    ensures m[k := w] == map[k := w]
  {
  }

  lemma SettledMoves(db: Db, nextId: int, t: Txn, t': Txn)
    requires Settled(db, nextId, t)
    requires t'.plan == t.plan && t'.pick == t.pick && t'.rowLocks == t.rowLocks && t'.cursorLocks == t.cursorLocks
    requires t'.written.cursors == t.written.cursors && t'.written.allocations == map[t.pick.id := RowAt(t')]
    ensures Settled(db, nextId, t')
  {
  }

  lemma KeepClaim(s: State, t: Txn, phase: Phase)
    requires TxnOk(s.db, s.nextId, t) && t.pc == Claim && DoClaim(s, t, phase)
    ensures Kept(s.db, s.nextId, t, phase) == true
  {
  }

  lemma ReopenedSettles(db: Db, nextId: int, t: Txn, busy: set<int>, id: int)
    requires RowsOk(db) && SequenceAhead(db, nextId)
    requires Approaching(db, nextId, t) && t.pc == Reopen
    requires Reopenable(db.allocations, SpaceOf(t.plan.policy), busy, id)
    ensures Settled(db, nextId, Reopened(t, id, db.allocations[id]))
  {
    var t' := Reopened(t, id, db.allocations[id]);
    assert RowAt(t') == ReopenRow(db.allocations[id], t.plan.amount, t.plan.customerReference, t.startedAt);
  }

  lemma ReopenedKeeps(db: Db, nextId: int, t: Txn, busy: set<int>, id: int)
    requires RowsOk(db) && SequenceAhead(db, nextId)
    requires TxnOk(db, nextId, t) && t.pc == Reopen
    requires Reopenable(db.allocations, SpaceOf(t.plan.policy), busy, id)
    ensures TxnOk(db, nextId, Reopened(t, id, db.allocations[id]))
  {
    ReopenedSettles(db, nextId, t, busy, id);
  }

  lemma NothingToReopen(db: Db, nextId: int, t: Txn)
    requires TxnOk(db, nextId, t) && t.pc == Reopen
    ensures TxnOk(db, nextId, t.(pc := InsertCursor))
  {
  }

  lemma KeepReopen(s: State, p: int, t: Txn, phase: Phase)
    requires RowsOk(s.db) && SequenceAhead(s.db, s.nextId)
    requires TxnOk(s.db, s.nextId, t) && t.pc == Reopen && DoReopen(s, p, t, phase)
    ensures Kept(s.db, s.nextId, t, phase) == true
  {
    assert t.written.allocations == map[] by { assert Approaching(s.db, s.nextId, t); }
    NoPut(s.db.allocations);
    NothingToReopen(s.db, s.nextId, t);
    forall id | Reopenable(s.db.allocations, SpaceOf(t.plan.policy), RowsBusy(s, p), id)
      ensures TxnOk(s.db, s.nextId, Reopened(t, id, s.db.allocations[id]))
    {
      ReopenedKeeps(s.db, s.nextId, t, RowsBusy(s, p), id);
    }
  }

  lemma CursorCreated(db: Db, nextId: int, t: Txn, t': Txn)
    requires TxnOk(db, nextId, t) && t.pc == InsertCursor
    requires var space := SpaceOf(t.plan.policy);
      t' == if space in db.cursors then t.(pc := LockCursor)
            else t.(pc := LockCursor,
                    written := t.written.(cursors := t.written.cursors[space := CursorValue(db, space)]),
                    cursorLocks := t.cursorLocks + {space})
    ensures TxnOk(db, nextId, t')
  {
  }

  lemma KeepInsertCursor(s: State, t: Txn, phase: Phase)
    requires TxnOk(s.db, s.nextId, t) && t.pc == InsertCursor && DoInsertCursor(s, t, phase)
    ensures Kept(s.db, s.nextId, t, phase) == true
  {
    assert t.written.allocations == map[] && t.written.cursors == map[] by { assert Approaching(s.db, s.nextId, t); }
    NoPut(s.db.allocations);
    NoPut(s.db.cursors);
    CursorCreated(s.db, s.nextId, t, phase.txn);
  }

  lemma KeepLockCursor(s: State, t: Txn, phase: Phase)
    requires TxnOk(s.db, s.nextId, t) && t.pc == LockCursor && DoLockCursor(s, t, phase)
    ensures Kept(s.db, s.nextId, t, phase) == true
  {
  }

  lemma KeepInsertAllocation(s: State, t: Txn, phase: Phase)
    requires SequenceAhead(s.db, s.nextId)
    requires TxnOk(s.db, s.nextId, t) && t.pc == InsertAllocation && DoInsertAllocation(s, t, phase)
    ensures Kept(s.db, s.nextId + 1, t, phase) == true
  {
  }

  lemma KeepBumpCursor(s: State, t: Txn, phase: Phase)
    requires TxnOk(s.db, s.nextId, t) && t.pc == BumpCursor && DoBumpCursor(s, t, phase)
    ensures Kept(s.db, s.nextId, t, phase) == true
  {
    var space := SpaceOf(t.plan.policy);
    assert SeenCursors(s, t)[space] == t.pick.slot;
    assert t.written.cursors[space := t.pick.slot + 1] == map[space := t.pick.slot + 1];
  }

  lemma KeepDeriveTo(db: Db, nextId: int, t: Txn, t': Txn)
    requires TxnOk(db, nextId, t) && t.pc == Derive
    requires t' == t.(pc := t'.pc, derived := t'.derived, failure := t'.failure)
    requires t'.pc == MarkFailed || (t'.pc == CompleteAllocation && t'.derived.address != "")
    requires t'.failure == DependencyFailure || t'.failure == InternalFailure
    ensures TxnOk(db, nextId, t')
  {
    SettledMoves(db, nextId, t, t');
  }

  lemma KeepDerive(sys: System, s: State, t: Txn, phase: Phase)
    requires TxnOk(s.db, s.nextId, t) && t.pc == Derive && DoDerive(sys, t, phase)
    ensures Kept(s.db, s.nextId, t, phase) == true
  {
    KeepDeriveTo(s.db, s.nextId, t, phase.txn);
  }

  // The row of the pick has no address yet, so no other row loses one.
  lemma OnlyOthersAreIssued(db: Db, nextId: int, t: Txn, a: Address)
    requires RowsOk(db) && Settled(db, nextId, t) && RowAt(t).details.None?
    requires !AddressIssued(db.allocations + t.written.allocations, a)
    ensures !AddressIssued(db.allocations, a)
  {
    OnePut(db.allocations, t.pick.id, RowAt(t));
    StillNotIssued(db.allocations, t.pick.id, RowAt(t), a);
  }

  function Completed(t: Txn): Txn {
    var details := DetailsOf(t.plan, t.derived);
    t.(pc := CreateTracking,
       written := t.written.(allocations := map[t.pick.id := CompleteRow(RowAt(t), details)]),
       addressLocks := t.addressLocks + {AddressOf(details)})
  }

  lemma CompletedIsOk(db: Db, nextId: int, t: Txn)
    requires TxnOk(db, nextId, t) && t.pc == CompleteAllocation
    requires !AddressIssued(db.allocations, AddressOf(DetailsOf(t.plan, t.derived)))
    ensures TxnOk(db, nextId, Completed(t)) == true
  {
    SettledMoves(db, nextId, t, Completed(t));
  }

  lemma CompletionIsWritten(s: State, t: Txn)
    requires Settled(s.db, s.nextId, t) && t.pc == CompleteAllocation
    requires AfterCompleteAllocation(s, t).InTransaction?
    ensures AfterCompleteAllocation(s, t).txn == Completed(t)
    ensures !AddressIssued(s.db.allocations + t.written.allocations, AddressOf(DetailsOf(t.plan, t.derived)))
  {
    OnePut(s.db.allocations, t.pick.id, RowAt(t));
    PutTwice(t.written.allocations, t.pick.id, RowAt(t), CompleteRow(RowAt(t), DetailsOf(t.plan, t.derived)));
  }

  lemma KeepCompleteAllocation(s: State, t: Txn, phase: Phase)
    requires RowsOk(s.db)
    requires TxnOk(s.db, s.nextId, t) && t.pc == CompleteAllocation && DoCompleteAllocation(s, t, phase)
    ensures Kept(s.db, s.nextId, t, phase) == true
  {
    if phase.InTransaction? {
      CompletionIsWritten(s, t);
      OnlyOthersAreIssued(s.db, s.nextId, t, AddressOf(DetailsOf(t.plan, t.derived)));
      CompletedIsOk(s.db, s.nextId, t);
    }
  }

  lemma KeepCreateTracking(s: State, t: Txn, phase: Phase)
    requires TxnOk(s.db, s.nextId, t) && t.pc == CreateTracking && DoCreateTracking(s, t, phase)
    ensures Kept(s.db, s.nextId, t, phase) == true
  {
    if phase.InTransaction? { SettledMoves(s.db, s.nextId, t, phase.txn); }
  }

  lemma KeepCompleteKey(s: State, t: Txn, phase: Phase)
    requires TxnOk(s.db, s.nextId, t) && t.pc == CompleteKey && DoCompleteKey(s, t, phase)
    ensures Kept(s.db, s.nextId, t, phase) == true
  {
    assert SeenKeys(s, t)[t.key.value] == ClaimedRow(t.plan);
    if phase.InTransaction? {
      PutTwice(t.written.keys, t.key.value, ClaimedRow(t.plan),
        ClaimedRow(t.plan).(paymentAddressId := Some(t.pick.id)));
      SettledMoves(s.db, s.nextId, t, phase.txn);
    }
  }

  lemma KeepMarkFailed(s: State, t: Txn, phase: Phase)
    requires TxnOk(s.db, s.nextId, t) && t.pc == MarkFailed && DoMarkFailed(s, t, phase)
    ensures Kept(s.db, s.nextId, t, phase) == true
  {
    if phase.InTransaction? {
      OnePut(s.db.allocations, t.pick.id, RowAt(t));
      PutTwice(t.written.allocations, t.pick.id, RowAt(t), RowAt(phase.txn));
      SettledMoves(s.db, s.nextId, t, phase.txn);
    }
  }

  lemma KeepRelease(s: State, t: Txn, phase: Phase)
    requires TxnOk(s.db, s.nextId, t) && t.pc == Release && DoRelease(s, t, phase)
    ensures Kept(s.db, s.nextId, t, phase) == true
  {
    if phase.InTransaction? { SettledMoves(s.db, s.nextId, t, phase.txn); }
  }
}
