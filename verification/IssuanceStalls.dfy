/**
 When a policy can issue nothing more. A failed derivation leaves no trace in the tables, and
 addresses are unique per chain, so a slot whose address cannot be used is tried again by every
 request. This module says exactly when that is so, and that it is so for ever.
 */
module IssuanceStalls {
  import opened Values
  import opened Tables
  import opened IssuancePolicy
  import opened AtomicIssuance
  import opened IssuanceMachine
  import opened IssuanceRefinement
  import opened IssuanceRuns

  // The slot derives no address for this id, or one that was already issued on the chain.
  predicate NoAddress(sys: System, db: Db, policy: Policy, slot: int, id: int) {
    var d := DerivedFor(sys, policy, slot, id);
    d.address == "" || AddressIssued(db.allocations, Address(policy.chain, d.address))
  }

  // No failed row of the space has an address to be issued at.
  ghost predicate NothingToReopen(sys: System, db: Db, policy: Policy) {
    forall id | Reopenable(db.allocations, SpaceOf(policy), {}, id) ::
      NoAddress(sys, db, policy, db.allocations[id].slot, id)
  }

  // Neither has the slot at the cursor, for any new id, unless the slots are used up.
  ghost predicate NothingFresh(sys: System, db: Db, policy: Policy) {
    var slot := CursorValue(db, SpaceOf(policy));
    slot <= MAX_SLOT_INDEX ==> forall id | id > 0 && id !in db.allocations :: NoAddress(sys, db, policy, slot, id)
  }

  ghost predicate Stalled(sys: System, db: Db, policy: Policy) {
    NothingToReopen(sys, db, policy) && NothingFresh(sys, db, policy)
  }

  ghost predicate CanIssue(sys: System, db: Db, policy: Policy) {
    exists i :: Enabled(db, i) && Configured(sys, i) && i.plan.policy == policy
  }

  // The least demanding issuance at a row.
  function IssuanceAt(sys: System, policy: Policy, pick: Pick): Issuance {
    var scope := Scope(policy.chain, policy.network);
    var plan := Plan(
      policy, 1, "", 1, Lookup(sys.terms.confirmations, scope, DEFAULT_CONFIRMATIONS),
      1 + Lookup(sys.terms.expiresAfter, scope, DEFAULT_EXPIRES_AFTER));
    Issuance(plan, None, pick, 1, DerivedFor(sys, policy, pick.slot, pick.id))
  }

  lemma PickIssues(sys: System, db: Db, policy: Policy, pick: Pick)
    requires TrackedOneToOne(db) && policy.id in sys.catalogue && sys.catalogue[policy.id] == policy
    requires Pickable(db, IssuanceAt(sys, policy, pick).plan, pick) && !NoAddress(sys, db, policy, pick.slot, pick.id)
    ensures CanIssue(sys, db, policy)
  {
    var i := IssuanceAt(sys, policy, pick);
    assert Enabled(db, i) && Configured(sys, i);
  }

  // A policy is stalled exactly when no issuance for it is possible on the tables.
  lemma StalledExactly(sys: System, db: Db, policy: Policy)
    requires RowsOk(db) && TrackedOneToOne(db)
    requires policy.id in sys.catalogue && sys.catalogue[policy.id] == policy
    ensures Stalled(sys, db, policy) <==> !CanIssue(sys, db, policy)
  {
    var space := SpaceOf(policy);
    if !NothingToReopen(sys, db, policy) {
      var id :| Reopenable(db.allocations, space, {}, id) && !NoAddress(sys, db, policy, db.allocations[id].slot, id);
      PickIssues(sys, db, policy, Pick(id, db.allocations[id].slot, false));
    } else if !NothingFresh(sys, db, policy) {
      var slot := CursorValue(db, space);
      var id :| id > 0 && id !in db.allocations && !NoAddress(sys, db, policy, slot, id);
      PickIssues(sys, db, policy, Pick(id, slot, true));
    }
  }

  lemma IssuedStaysIssued(db: Db, i: Issuance, a: Address)
    requires RowsOk(db) && Enabled(db, i) && AddressIssued(db.allocations, a)
    ensures AddressIssued(Issue(db, i).allocations, a)
  {
    IssueByTable(db, i);
    var id :| id in db.allocations && db.allocations[id].details.Some?
      && AddressOf(db.allocations[id].details.value) == a;
    assert id != i.pick.id;
    assert id in Issue(db, i).allocations && Issue(db, i).allocations[id] == db.allocations[id];
  }

  // The rows of the space and its cursor.
  ghost predicate SameSpace(db: Db, db': Db, space: Space) {
    CursorValue(db', space) == CursorValue(db, space) && SameRows(db.allocations, db'.allocations, space)
  }

  ghost predicate SameRows(rows: map<int, AllocationRow>, rows': map<int, AllocationRow>, space: Space) {
    && (forall id | id in rows && rows[id].space == space :: id in rows' && rows'[id] == rows[id])
    && (forall id | id in rows' && rows'[id].space == space :: id in rows && rows[id].space == space)
  }

  lemma SameSpaceComposes(a: Db, b: Db, c: Db, space: Space)
    requires SameSpace(a, b, space) == true && SameSpace(b, c, space) == true
    ensures SameSpace(a, c, space) == true
  {
    forall id | id in c.allocations && c.allocations[id].space == space
      ensures id in a.allocations && a.allocations[id].space == space
    {
      assert id in b.allocations && b.allocations[id].space == space;
    }
  }

  lemma NoAddressStays(sys: System, db: Db, i: Issuance, policy: Policy, slot: int, id: int)
    requires RowsOk(db) && Enabled(db, i) && NoAddress(sys, db, policy, slot, id)
    ensures NoAddress(sys, Issue(db, i), policy, slot, id)
  {
    var a := Address(policy.chain, DerivedFor(sys, policy, slot, id).address);
    if AddressIssued(db.allocations, a) { IssuedStaysIssued(db, i, a); }
  }

  // An issuance elsewhere frees nothing here.
  lemma SpaceStays(db: Db, i: Issuance, space: Space)
    requires Enabled(db, i) && SpaceOf(i.plan.policy) != space
    ensures SameSpace(db, Issue(db, i), space) == true
  {
    IssueByTable(db, i);
    CursorValueStable(db, i, space);
    SpaceRowsStay(db.allocations, i.pick.id, IssuedRow(i.plan, i.pick.slot, i.reservedAt, i.derived), space);
  }

  lemma SpaceRowsStay(rows: map<int, AllocationRow>, id: int, row: AllocationRow, space: Space)
    requires row.space != space && (id in rows ==> rows[id].space != space)
    ensures SameRows(rows, rows[id := row], space) == true
  {
  }

  lemma NothingToReopenStays(sys: System, db: Db, i: Issuance, policy: Policy)
    requires RowsOk(db) && Enabled(db, i) && SpaceOf(i.plan.policy) != SpaceOf(policy)
    requires NothingToReopen(sys, db, policy)
    ensures NothingToReopen(sys, Issue(db, i), policy) == true
  {
    SpaceStays(db, i, SpaceOf(policy));
    var db' := Issue(db, i);
    forall id | Reopenable(db'.allocations, SpaceOf(policy), {}, id)
      ensures NoAddress(sys, db', policy, db'.allocations[id].slot, id)
    {
      assert Reopenable(db.allocations, SpaceOf(policy), {}, id);
      NoAddressStays(sys, db, i, policy, db.allocations[id].slot, id);
    }
  }

  lemma NothingFreshStays(sys: System, db: Db, i: Issuance, policy: Policy)
    requires RowsOk(db) && Enabled(db, i) && SpaceOf(i.plan.policy) != SpaceOf(policy)
    requires NothingFresh(sys, db, policy)
    ensures NothingFresh(sys, Issue(db, i), policy) == true
  {
    IssueByTable(db, i);
    CursorValueStable(db, i, SpaceOf(policy));
    var db', slot := Issue(db, i), CursorValue(db, SpaceOf(policy));
    forall id | slot <= MAX_SLOT_INDEX && id > 0 && id !in db'.allocations
      ensures NoAddress(sys, db', policy, slot, id)
    {
      NoAddressStays(sys, db, i, policy, slot, id);
    }
  }

  lemma StaysStalled(sys: System, db: Db, i: Issuance, policy: Policy)
    requires RowsOk(db) && Enabled(db, i) && SpaceOf(i.plan.policy) != SpaceOf(policy)
    requires Stalled(sys, db, policy)
    ensures Stalled(sys, Issue(db, i), policy) == true && SameSpace(db, Issue(db, i), SpaceOf(policy)) == true
  {
    SpaceStays(db, i, SpaceOf(policy));
    NothingToReopenStays(sys, db, i, policy);
    NothingFreshStays(sys, db, i, policy);
  }

  lemma StalledOnce(sys: System, run: seq<State>, i: nat, policy: Policy)
    requires ValidSystem(sys) && IsRun(sys, run) && i + 1 < |run|
    requires policy.id in sys.catalogue && sys.catalogue[policy.id] == policy
    requires Stalled(sys, run[i].db, policy) == true
    ensures Stalled(sys, run[i + 1].db, policy) == true
    ensures SameSpace(run[i].db, run[i + 1].db, SpaceOf(policy)) == true
  {
    var db, db' := run[i].db, run[i + 1].db;
    InvInRuns(sys, run, i);
    RunsAreAtomic(sys, run, i);
    StalledExactly(sys, db, policy);
    if Issues(sys, db, db') {
      var step :| Enabled(db, step) && Configured(sys, step) && db' == Issue(db, step);
      StaysStalled(sys, db, step, policy);
    }
  }

  // Nothing that happens later in a run helps: the cursor stays where it is, and no row is
  // issued, reopened or added in the space again.
  lemma {:induction false} StalledForever(sys: System, run: seq<State>, i: nat, j: nat, policy: Policy)
    requires ValidSystem(sys) && IsRun(sys, run) && i <= j < |run|
    requires policy.id in sys.catalogue && sys.catalogue[policy.id] == policy
    requires Stalled(sys, run[i].db, policy) == true
    ensures Stalled(sys, run[j].db, policy) == true
    ensures SameSpace(run[i].db, run[j].db, SpaceOf(policy)) == true
  {
    if i < j {
      StalledForever(sys, run, i, j - 1, policy);
      StalledOnce(sys, run, j - 1, policy);
      SameSpaceComposes(run[i].db, run[j - 1].db, run[j].db, SpaceOf(policy));
    }
  }

  // One way to get there: two policies of a chain derive the same address at a slot, as two
  // policies over one extended public key do. When one of them has issued the
  // slot at the cursor of the other, the other one is stalled.
  lemma SharedAddressStalls(sys: System, db: Db, i: Issuance, other: Policy)
    requires RowsOk(db) && Enabled(db, i)
    requires other.chain == i.plan.policy.chain && SpaceOf(other) != SpaceOf(i.plan.policy)
    requires CursorValue(db, SpaceOf(other)) == i.pick.slot
    requires forall id :: DerivedFor(sys, other, i.pick.slot, id).address == i.derived.address
    requires NothingToReopen(sys, db, other)
    ensures Stalled(sys, Issue(db, i), other)
  {
    var db' := Issue(db, i);
    IssueByTable(db, i);
    CursorValueStable(db, i, SpaceOf(other));
    NothingToReopenStays(sys, db, i, other);
    assert db'.allocations[i.pick.id].details.Some?;
    assert AddressOf(db'.allocations[i.pick.id].details.value) == Address(other.chain, i.derived.address);
    assert AddressIssued(db'.allocations, Address(other.chain, i.derived.address));
  }
}
