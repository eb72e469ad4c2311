/**
 The interleaved machine refines the atomic step: whatever the interleaving, a commit puts
 one whole issuance on top of the tables as they are at that moment.
 */
module IssuanceRefinement {
  import opened Tables
  import opened AtomicIssuance
  import opened IssuanceMachine
  import opened IssuanceInvariant

  function IssuanceOf(t: Txn): Issuance {
    Issuance(t.plan, t.key, t.pick, t.startedAt, t.derived)
  }

  // The private rows of a transaction that is about to commit are exactly the rows of one
  // issuance, and that issuance is possible on the database as it is now.
  lemma CommitIsAtomic(db: Db, nextId: int, t: Txn)
    requires Consistent(db) && TxnOk(db, nextId, t) && t.pc == Commit
    ensures Enabled(db, IssuanceOf(t)) && Overlay(db, t.written) == Issue(db, IssuanceOf(t))
    ensures t.written.allocations == map[t.pick.id := IssuedRow(t.plan, t.pick.slot, t.startedAt, t.derived)]
  {
    var i := IssuanceOf(t);
    assert RowAt(t) == IssuedRow(t.plan, t.pick.slot, t.startedAt, t.derived);
    assert t.written == Written(i);
  }

  /******* A commit does not disturb the other transactions *******/

  // The cursor of a space moves only for the transaction that holds it: reopening a failed
  // slot changes no slot set, and a fresh slot needs the lock.
  lemma CursorValueStable(db: Db, i: Issuance, space: Space)
    requires Enabled(db, i)
    requires !(i.pick.isNew && space == SpaceOf(i.plan.policy))
    ensures CursorValue(Issue(db, i), space) == CursorValue(db, space)
    ensures space in Issue(db, i).cursors <==> space in db.cursors
  {
    IssueByTable(db, i);
    SlotsAfterIssue(db, i, space);
    var slots := SlotsOf(db.allocations, space);
    if !i.pick.isNew && space == SpaceOf(i.plan.policy) {
      assert i.pick.slot in slots;
    }
    assert SlotsOf(Issue(db, i).allocations, space) == slots;
  }

  lemma KeyPartStable(db: Db, i: Issuance, u: Txn)
    requires Enabled(db, i) && KeyPart(db, u)
    requires i.key.Some? ==> i.key.value !in u.keyLocks
    ensures KeyPart(Issue(db, i), u)
  {
    IssueByTable(db, i);
  }

  lemma PickStable(db: Db, i: Issuance, u: Txn)
    requires Enabled(db, i) && Pickable(db, u.plan, u.pick)
    requires u.pick.id != i.pick.id
    requires u.pick.isNew && i.pick.isNew ==> SpaceOf(i.plan.policy) != SpaceOf(u.plan.policy)
    ensures Pickable(Issue(db, i), u.plan, u.pick)
  {
    IssueByTable(db, i);
    if u.pick.isNew { CursorValueStable(db, i, SpaceOf(u.plan.policy)); }
  }

  lemma SettledStable(db: Db, nextId: int, i: Issuance, u: Txn)
    requires Enabled(db, i) && Settled(db, nextId, u)
    requires i.pick.id !in u.rowLocks
    requires i.pick.isNew ==> SpaceOf(i.plan.policy) !in u.cursorLocks
    ensures Settled(Issue(db, i), nextId, u)
  {
    PickStable(db, i, u);
  }

  lemma ApproachingStable(db: Db, nextId: int, i: Issuance, u: Txn)
    requires Enabled(db, i) && Approaching(db, nextId, u)
    requires i.pick.id !in u.rowLocks
    requires i.pick.isNew ==> SpaceOf(i.plan.policy) !in u.cursorLocks
    ensures Approaching(Issue(db, i), nextId, u)
  {
    var space := SpaceOf(u.plan.policy);
    IssueByTable(db, i);
    if !(i.pick.isNew && space == SpaceOf(i.plan.policy)) { CursorValueStable(db, i, space); }
    if u.pc.BumpCursor? { PickStable(db, i, u); }
  }

  lemma AddressPartStable(db: Db, i: Issuance, u: Txn)
    requires Enabled(db, i) && AddressPart(db, u)
    requires AddressOf(DetailsOf(i.plan, i.derived)) !in u.addressLocks
    ensures AddressPart(Issue(db, i), u)
  {
    IssueByTable(db, i);
    var rows, rows' := db.allocations, Issue(db, i).allocations;
    forall a | !AddressIssued(rows, a) && a != AddressOf(DetailsOf(i.plan, i.derived))
      ensures !AddressIssued(rows', a)
    {
      forall id | id in rows' && rows'[id].details.Some? ensures AddressOf(rows'[id].details.value) != a {
        if id != i.pick.id { assert id in rows && rows[id].details.Some?; }
      }
    }
  }

  lemma OthersSurviveCommit(db: Db, nextId: int, t: Txn, u: Txn)
    requires Consistent(db) && TxnOk(db, nextId, t) && t.pc == Commit && TxnOk(db, nextId, u)
    requires LocksDisjoint(t, u)
    ensures TxnOk(Overlay(db, t.written), nextId, u)
  {
    var i := IssuanceOf(t);
    CommitIsAtomic(db, nextId, t);
    assert t.rowLocks == {i.pick.id} && (i.pick.isNew ==> t.cursorLocks == {SpaceOf(i.plan.policy)});
    assert t.addressLocks == {AddressOf(DetailsOf(i.plan, i.derived))};
    assert i.key.Some? ==> t.keyLocks == {i.key.value};
    KeyPartStable(db, i, u);
    AddressPartStable(db, i, u);
    if HasPick(u.pc) { SettledStable(db, nextId, i, u); } else { ApproachingStable(db, nextId, i, u); }
  }

  /******* Locks stay disjoint *******/

  // What a transaction has written of a cursor it has locked, and it has written what it
  // locked unless the row was there before.
  lemma CursorsAreLocked(db: Db, nextId: int, u: Txn)
    requires TxnOk(db, nextId, u)
    ensures forall space | space in u.written.cursors :: space in u.cursorLocks
    ensures forall space | space in u.cursorLocks :: space in u.written.cursors || space in db.cursors
  {
  }

  lemma RowLocksAreOld(db: Db, nextId: int, u: Txn)
    requires TxnOk(db, nextId, u)
    ensures forall id | id in u.rowLocks :: id < nextId
  {
  }

  lemma PendingCursorsAreLocked(s: State, p: int, t: Txn, q: int)
    requires p in s.procs && s.procs[p].phase == InTransaction(t) && !Waiting(s, p) && t.pc.InsertCursor?
    requires Other(s, p, q) && TxnOk(s.db, s.nextId, s.procs[q].phase.txn)
    ensures SpaceOf(t.plan.policy) in s.procs[q].phase.txn.cursorLocks ==> SpaceOf(t.plan.policy) in s.db.cursors
  {
    CursorsAreLocked(s.db, s.nextId, s.procs[q].phase.txn);
  }

  lemma StatementTakesFreeLocks(sys: System, s: State, p: int, t: Txn, t': Txn, q: int)
    requires p in s.procs && s.procs[p].phase == InTransaction(t) && !Waiting(s, p)
    requires Execute(sys, s, p, t, InTransaction(t'))
    requires Other(s, p, q) && forall id | id in s.procs[q].phase.txn.rowLocks :: id < s.nextId
    requires t.pc.InsertCursor? && SpaceOf(t.plan.policy) in s.procs[q].phase.txn.cursorLocks ==>
      SpaceOf(t.plan.policy) in s.db.cursors
    requires LocksDisjoint(t, s.procs[q].phase.txn)
    ensures LocksDisjoint(t', s.procs[q].phase.txn) == true
  {
    var u := s.procs[q].phase.txn;
    match t.pc {
      case Claim => assert t.key.value !in u.keyLocks;
      case Reopen => assert forall id | id in u.rowLocks :: id in RowsBusy(s, p);
      case LockCursor => assert SpaceOf(t.plan.policy) !in u.cursorLocks;
      case CompleteAllocation => assert AddressOf(DetailsOf(t.plan, t.derived)) !in u.addressLocks;
      case _ =>
    }
  }
}
