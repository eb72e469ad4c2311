/**
 One issuance as a single step on the committed tables, and what every such step keeps.
 The statement-level code and the interleaved machine are both related to this step.
 */
module AtomicIssuance {
  import opened Values
  import opened Tables
  import opened IssuancePolicy
  import PaymentReceiptTracking

  // The row an issuance settles on: a slot fresh from the cursor, or a failed one reopened.
  datatype Pick = Pick(id: int, slot: int, isNew: bool)

  datatype Derived = Derived(address: string, sweepMaterial: string)

  datatype Issuance = Issuance(plan: Plan, key: Option<Key>, pick: Pick, reservedAt: Time, derived: Derived)

  function SpaceOf(p: Policy): Space { Space(p.id, p.spaceRef) }

  function DetailsOf(plan: Plan, d: Derived): Details {
    Details(plan.policy.chain, plan.policy.network, plan.policy.scheme, plan.policy.assetReference,
            d.address, d.sweepMaterial, plan.issuedAt)
  }

  function ReservedRow(plan: Plan, slot: int, reservedAt: Time): AllocationRow {
    AllocationRow(SpaceOf(plan.policy), slot, plan.amount, plan.customerReference, Reserved, None, false, reservedAt)
  }

  function IssuedRow(plan: Plan, slot: int, reservedAt: Time, d: Derived): AllocationRow {
    ReservedRow(plan, slot, reservedAt).(status := Issued, details := Some(DetailsOf(plan, d)))
  }

  function ClaimedRow(plan: Plan): KeyRow { KeyRow(plan.policy.id, plan.amount, plan.customerReference, None) }

  function TrackingOf(plan: Plan, id: int, d: Derived)
    : Result<PaymentReceiptTracking.Tracking, PaymentReceiptTracking.Error>
  {
    PaymentReceiptTracking.NewTracking(
      id, plan.policy.id, plan.policy.chain, plan.policy.network, d.address, plan.policy.assetReference,
      plan.issuedAt, plan.amount, plan.confirmations, plan.expiresAt)
  }

  // The rows that an issuance leaves in the tables.
  function Written(i: Issuance): Db
    requires TrackingOf(i.plan, i.pick.id, i.derived).Success?
  {
    Db(map[i.pick.id := IssuedRow(i.plan, i.pick.slot, i.reservedAt, i.derived)],
       if i.pick.isNew then map[SpaceOf(i.plan.policy) := i.pick.slot + 1] else map[],
       if i.key.Some? then map[i.key.value := ClaimedRow(i.plan).(paymentAddressId := Some(i.pick.id))] else map[],
       map[i.pick.id := TrackingRow(TrackingOf(i.plan, i.pick.id, i.derived).value, i.plan.issuedAt, None, None)])
  }

  // The pick is either the next slot of the cursor, or any failed slot of the same space:
  // which one depends on what other transactions hold, so it is left open here.
  ghost predicate Pickable(db: Db, plan: Plan, pick: Pick) {
    && pick.id > 0
    && var space := SpaceOf(plan.policy);
       if pick.isNew then
         pick.id !in db.allocations && pick.slot == CursorValue(db, space) && pick.slot <= MAX_SLOT_INDEX
       else
         Reopenable(db.allocations, space, {}, pick.id) && pick.slot == db.allocations[pick.id].slot
  }

  ghost predicate Enabled(db: Db, i: Issuance) {
    && i.plan.amount > 0
    && (i.key.Some? ==> i.key.value !in db.keys && i.key.value.chain == i.plan.policy.chain)
    && Pickable(db, i.plan, i.pick)
    && i.derived.address != ""
    && TrackingOf(i.plan, i.pick.id, i.derived).Success?
    && i.pick.id !in db.trackings
    && !AddressIssued(db.allocations, AddressOf(DetailsOf(i.plan, i.derived)))
  }

  // The new database after one issuance.
  ghost function Issue(db: Db, i: Issuance): Db
    requires Enabled(db, i)
  {
    Overlay(db, Written(i))
  }

  /******* What an issuance records, column by column *******/

  // The row is issued to the request, at the slot and the address, under the terms of the policy.
  predicate RecordsAllocation(plan: Plan, slot: int, reservedAt: Time, d: Derived, row: AllocationRow) {
    && row.space.policyId == plan.policy.id && row.space.spaceRef == plan.policy.spaceRef && row.slot == slot
    && row.amount == plan.amount && row.customerReference == plan.customerReference
    && row.status == Issued && !row.failed && row.reservedAt == reservedAt && row.details.Some?
    && var c := row.details.value;
    && c.chain == plan.policy.chain && c.network == plan.policy.network && c.scheme == plan.policy.scheme
    && c.assetReference == plan.policy.assetReference
    && c.address == d.address && c.sweepMaterial == d.sweepMaterial && c.issuedAt == plan.issuedAt
  }

  // The address is watched for the amount, to the depth and until the end of the window that the
  // plan asks for; nothing has been seen yet, and the first poll is due at once.
  predicate RecordsTracking(plan: Plan, id: int, d: Derived, row: TrackingRow) {
    var t := row.tracking;
    && t.paymentAddressId == id && t.policyId == plan.policy.id
    && t.chain == plan.policy.chain && t.network == plan.policy.network && t.address == d.address
    && t.assetReference == plan.policy.assetReference
    && t.issuedAt == plan.issuedAt && t.expected == plan.amount
    && t.requiredConfirmations == plan.confirmations && t.expiresAt == Some(plan.expiresAt)
    && t.status == PaymentReceiptTracking.Watching && t.lastFailure.None?
    && t.observed == t.confirmed == t.unconfirmed == t.lastHeight == 0
    && t.firstObservedAt.None? && t.paidAt.None? && t.confirmedAt.None?
    && row.nextPollAt == plan.issuedAt && row.leaseUntil.None? && row.lastPolledAt.None?
  }

  // The claim of the key is for the request, and leads to the allocation.
  predicate RecordsKey(plan: Plan, id: int, row: KeyRow) {
    && row.policyId == plan.policy.id && row.amount == plan.amount
    && row.customerReference == plan.customerReference && row.paymentAddressId == Some(id)
  }

  predicate RecordsIssuance(db: Db, i: Issuance) {
    && i.pick.id in db.allocations && i.pick.id in db.trackings
    && RecordsAllocation(i.plan, i.pick.slot, i.reservedAt, i.derived, db.allocations[i.pick.id])
    && RecordsTracking(i.plan, i.pick.id, i.derived, db.trackings[i.pick.id])
    && (i.key.Some? ==> i.key.value in db.keys && RecordsKey(i.plan, i.pick.id, db.keys[i.key.value]))
  }

  lemma IssueIsRecorded(db: Db, i: Issuance)
    requires Enabled(db, i)
    ensures RecordsIssuance(Issue(db, i), i)
  {
    IssueByTable(db, i);
  }

  /******* What every committed database satisfies *******/

  ghost predicate RowsOk(db: Db) {
    forall id | id in db.allocations :: var row := db.allocations[id];
      && id > 0 && 0 <= row.slot <= MAX_SLOT_INDEX && row.amount > 0
      && row.status != Reserved
      && (row.status == Issued <==> row.details.Some?)
  }

  ghost predicate SlotsDistinct(db: Db) {
    forall a, b | a in db.allocations && b in db.allocations && a != b
      && db.allocations[a].space == db.allocations[b].space ::
      db.allocations[a].slot != db.allocations[b].slot
  }

  ghost predicate CursorsAhead(db: Db) {
    forall space | space in db.cursors ::
      && 0 <= db.cursors[space] <= MAX_SLOT_INDEX + 1
      && forall id | id in db.allocations && db.allocations[id].space == space ::
           db.allocations[id].slot < db.cursors[space]
  }

  // An issued allocation and its tracking say the same.
  predicate Agree(id: int, row: AllocationRow, t: PaymentReceiptTracking.Tracking) {
    && row.details.Some?
    && t.paymentAddressId == id
    && t.policyId == row.space.policyId
    && t.expected == row.amount
    && var d := row.details.value;
       t.chain == d.chain && t.network == d.network && t.address == d.address && t.assetReference == d.assetReference
       && t.issuedAt == d.issuedAt
  }

  ghost predicate OneToOne(rows: map<int, AllocationRow>, trackings: map<int, TrackingRow>) {
    && (forall id | id in trackings :: id in rows && rows[id].status == Issued)
    && (forall id | id in rows && rows[id].status == Issued ::
         id in trackings && Agree(id, rows[id], trackings[id].tracking))
  }

  ghost predicate TrackedOneToOne(db: Db) { OneToOne(db.allocations, db.trackings) }

  ghost predicate UniqueIn(rows: map<int, AllocationRow>) {
    forall a, b | a in rows && b in rows && a != b && rows[a].details.Some? && rows[b].details.Some? ::
      AddressOf(rows[a].details.value) != AddressOf(rows[b].details.value)
  }

  ghost predicate AddressesUnique(db: Db) { UniqueIn(db.allocations) }

  predicate KeyComplete(db: Db, key: Key) {
    && key in db.keys
    && var row := db.keys[key];
    && row.paymentAddressId.Some?
    && var id := row.paymentAddressId.value;
    && id in db.allocations
    && var a := db.allocations[id];
    && a.status == Issued && a.details.Some? && a.details.value.chain == key.chain
    && a.space.policyId == row.policyId && a.amount == row.amount && a.customerReference == row.customerReference
  }

  ghost predicate AllKeysComplete(db: Db) {
    forall key | key in db.keys :: KeyComplete(db, key)
  }

  ghost predicate KeysInjective(keys: map<Key, KeyRow>) {
    forall a, b | a in keys && b in keys && a != b :: keys[a].paymentAddressId != keys[b].paymentAddressId
  }

  ghost predicate Consistent(db: Db) {
    && RowsOk(db)
    && SlotsDistinct(db)
    && CursorsAhead(db)
    && TrackedOneToOne(db)
    && AddressesUnique(db)
    && AllKeysComplete(db)
    && KeysInjective(db.keys)
  }

  // The id sequence is past every allocation.
  ghost predicate SequenceAhead(db: Db, nextId: int) {
    nextId > 0 && forall id | id in db.allocations :: id < nextId
  }

  // The slots of the space are exactly those below its cursor.
  ghost predicate DenseIn(db: Db, space: Space)
    requires space in db.cursors
  {
    forall s :: s in SlotsOf(db.allocations, space) <==> 0 <= s < db.cursors[space]
  }

  // No slot below a cursor is missing, and every allocation came from some cursor.
  ghost predicate Dense(db: Db) {
    && (forall space | space in db.cursors :: DenseIn(db, space))
    && (forall id | id in db.allocations :: db.allocations[id].space in db.cursors)
  }

  // Later states only add: completed keys and issued rows stay as they are, cursors only move up.
  ghost predicate Grows(db: Db, db': Db) {
    && KeysKept(db.keys, db'.keys)
    && RowsKept(db.allocations, db'.allocations)
    && CursorsRise(db.cursors, db'.cursors)
    && TermsKept(db.trackings, db'.trackings)
  }

  ghost predicate KeysKept(keys: map<Key, KeyRow>, keys': map<Key, KeyRow>) {
    forall key | key in keys :: key in keys' && keys'[key] == keys[key]
  }

  ghost predicate RowsKept(rows: map<int, AllocationRow>, rows': map<int, AllocationRow>) {
    forall id | id in rows ::
      && id in rows' && rows'[id].slot == rows[id].slot && rows'[id].space == rows[id].space
      && (rows[id].status == Issued ==> rows'[id] == rows[id])
  }

  ghost predicate CursorsRise(cursors: map<Space, int>, cursors': map<Space, int>) {
    forall space | space in cursors :: space in cursors' && cursors[space] <= cursors'[space]
  }

  ghost predicate TermsKept(trackings: map<int, TrackingRow>, trackings': map<int, TrackingRow>) {
    forall id | id in trackings ::
      && id in trackings'
      && PaymentReceiptTracking.TermsOf(trackings'[id].tracking) ==
           PaymentReceiptTracking.TermsOf(trackings[id].tracking)
  }

  lemma StillNotIssued(rows: map<int, AllocationRow>, id: int, row: AllocationRow, a: Address)
    requires id in rows ==> rows[id].details.None?
    requires !AddressIssued(rows[id := row], a)
    ensures !AddressIssued(rows, a)
  {
    forall other | other in rows && rows[other].details.Some?
      ensures AddressOf(rows[other].details.value) != a
    {
      assert other in rows[id := row] && rows[id := row][other] == rows[other];
    }
  }

  lemma NoRowsConsistent()
    ensures Consistent(NO_ROWS) && Dense(NO_ROWS)
  {
  }

  lemma CursorValueBounds(db: Db, space: Space)
    requires RowsOk(db) && CursorsAhead(db)
    ensures 0 <= CursorValue(db, space) <= MAX_SLOT_INDEX + 1
    ensures forall id | id in db.allocations && db.allocations[id].space == space ::
      db.allocations[id].slot < CursorValue(db, space)
  {
    var slots := SlotsOf(db.allocations, space);
    assert forall id | id in db.allocations && db.allocations[id].space == space :: db.allocations[id].slot in slots;
  }

  lemma OnePut<K, V>(m: map<K, V>, k: K, v: V)
    ensures m + map[k := v] == m[k := v]
  {
  }

  lemma PutOver<K, V>(m: map<K, V>, k: K, v: V, w: V)
    ensures m[k := v][k := w] == m[k := w]
  {
  }

  lemma NoPut<K, V>(m: map<K, V>)
    ensures m + map[] == m
  {
  }

  // The same step, table by table.
  lemma IssueByTable(db: Db, i: Issuance)
    requires TrackingOf(i.plan, i.pick.id, i.derived).Success?
    ensures var db' := Overlay(db, Written(i));
      && db'.allocations == db.allocations[i.pick.id := IssuedRow(i.plan, i.pick.slot, i.reservedAt, i.derived)]
      && db'.trackings == db.trackings[i.pick.id :=
           TrackingRow(TrackingOf(i.plan, i.pick.id, i.derived).value, i.plan.issuedAt, None, None)]
      && db'.cursors == (if i.pick.isNew then db.cursors[SpaceOf(i.plan.policy) := i.pick.slot + 1] else db.cursors)
      && db'.keys == (if i.key.Some?
           then db.keys[i.key.value := ClaimedRow(i.plan).(paymentAddressId := Some(i.pick.id))]
                      else db.keys)
  {
    OnePut(db.allocations, i.pick.id, IssuedRow(i.plan, i.pick.slot, i.reservedAt, i.derived));
    var tracking := TrackingOf(i.plan, i.pick.id, i.derived).value;
    OnePut(db.trackings, i.pick.id, TrackingRow(tracking, i.plan.issuedAt, None, None));
    OnePut(db.cursors, SpaceOf(i.plan.policy), i.pick.slot + 1);
    NoPut(db.cursors);
    NoPut(db.keys);
    if i.key.Some? { OnePut(db.keys, i.key.value, ClaimedRow(i.plan).(paymentAddressId := Some(i.pick.id))); }
  }

  lemma IssueKeepsRows(db: Db, i: Issuance)
    requires Consistent(db) && Enabled(db, i)
    ensures RowsOk(Issue(db, i)) == true
  {
    IssueByTable(db, i);
    CursorValueBounds(db, SpaceOf(i.plan.policy));
  }

  lemma IssueKeepsSlotsDistinct(db: Db, i: Issuance)
    requires Consistent(db) && Enabled(db, i)
    ensures SlotsDistinct(Issue(db, i)) == true
  {
    IssueByTable(db, i);
    CursorValueBounds(db, SpaceOf(i.plan.policy));
  }

  lemma IssueKeepsCursorsAhead(db: Db, i: Issuance)
    requires Consistent(db) && Enabled(db, i)
    ensures CursorsAhead(Issue(db, i)) == true
  {
    IssueByTable(db, i);
    CursorValueBounds(db, SpaceOf(i.plan.policy));
  }

  lemma PutKeepsOneToOne(
    rows: map<int, AllocationRow>, trackings: map<int, TrackingRow>, id: int, row: AllocationRow, tracking: TrackingRow)
    requires OneToOne(rows, trackings) && row.status == Issued && Agree(id, row, tracking.tracking)
    ensures OneToOne(rows[id := row], trackings[id := tracking]) == true
  {
  }

  lemma IssueKeepsTrackings(db: Db, i: Issuance)
    requires Consistent(db) && Enabled(db, i)
    ensures TrackedOneToOne(Issue(db, i)) == true
  {
    IssueByTable(db, i);
    var row := IssuedRow(i.plan, i.pick.slot, i.reservedAt, i.derived);
    var t := TrackingOf(i.plan, i.pick.id, i.derived).value;
    PutKeepsOneToOne(
      db.allocations, db.trackings, i.pick.id, row, TrackingRow(t, i.plan.issuedAt, None, None));
  }

  lemma PutKeepsAddressesUnique(rows: map<int, AllocationRow>, id: int, row: AllocationRow)
    requires UniqueIn(rows) && row.details.Some? && !AddressIssued(rows, AddressOf(row.details.value))
    ensures UniqueIn(rows[id := row])
  {
  }

  lemma IssueKeepsAddresses(db: Db, i: Issuance)
    requires Consistent(db) && Enabled(db, i)
    ensures AddressesUnique(Issue(db, i)) == true
  {
    IssueByTable(db, i);
    PutKeepsAddressesUnique(db.allocations, i.pick.id, IssuedRow(i.plan, i.pick.slot, i.reservedAt, i.derived));
  }

  lemma IssueKeepsKey(db: Db, i: Issuance, key: Key)
    requires Enabled(db, i) && KeyComplete(db, key)
    ensures KeyComplete(Issue(db, i), key) && db.keys[key].paymentAddressId != Some(i.pick.id)
  {
    IssueByTable(db, i);
  }

  lemma IssueCompletesKey(db: Db, i: Issuance)
    requires Enabled(db, i) && i.key.Some?
    ensures KeyComplete(Issue(db, i), i.key.value)
  {
    IssueByTable(db, i);
  }

  lemma IssueKeepsKeysComplete(db: Db, i: Issuance)
    requires AllKeysComplete(db) && Enabled(db, i)
    ensures AllKeysComplete(Issue(db, i)) == true
  {
    forall key | key in Issue(db, i).keys ensures KeyComplete(Issue(db, i), key) {
      if i.key == Some(key) { IssueCompletesKey(db, i); } else { IssueKeepsKey(db, i, key); }
    }
  }

  lemma PutKeepsInjective(keys: map<Key, KeyRow>, key: Key, row: KeyRow)
    requires KeysInjective(keys) && forall k | k in keys :: keys[k].paymentAddressId != row.paymentAddressId
    ensures KeysInjective(keys[key := row])
  {
  }

  lemma IssueKeepsKeysInjective(db: Db, i: Issuance)
    requires AllKeysComplete(db) && KeysInjective(db.keys) && Enabled(db, i)
    ensures KeysInjective(Issue(db, i).keys) == true
  {
    forall key | key in db.keys ensures db.keys[key].paymentAddressId != Some(i.pick.id) {
      IssueKeepsKey(db, i, key);
    }
    IssueByTable(db, i);
    if i.key.Some? {
      PutKeepsInjective(db.keys, i.key.value, ClaimedRow(i.plan).(paymentAddressId := Some(i.pick.id)));
    }
  }

  lemma PutKeepsRows(rows: map<int, AllocationRow>, id: int, row: AllocationRow)
    requires id in rows ==> rows[id].status != Issued && rows[id].slot == row.slot && rows[id].space == row.space
    ensures RowsKept(rows, rows[id := row]) == true
  {
  }

  lemma PutKeepsKeys(keys: map<Key, KeyRow>, key: Key, row: KeyRow)
    requires key !in keys
    ensures KeysKept(keys, keys[key := row]) == true
  {
  }

  lemma PutKeepsTerms(trackings: map<int, TrackingRow>, id: int, row: TrackingRow)
    requires id !in trackings
    ensures TermsKept(trackings, trackings[id := row]) == true
  {
  }

  lemma PutRaisesCursor(cursors: map<Space, int>, space: Space, next: int)
    requires space in cursors ==> cursors[space] <= next
    ensures CursorsRise(cursors, cursors[space := next]) == true
  {
  }

  lemma IssueGrows(db: Db, i: Issuance)
    requires Enabled(db, i)
    ensures Grows(db, Issue(db, i)) == true
  {
    IssueByTable(db, i);
    var t := TrackingOf(i.plan, i.pick.id, i.derived).value;
    PutKeepsRows(db.allocations, i.pick.id, IssuedRow(i.plan, i.pick.slot, i.reservedAt, i.derived));
    PutKeepsTerms(db.trackings, i.pick.id, TrackingRow(t, i.plan.issuedAt, None, None));
    if i.pick.isNew { PutRaisesCursor(db.cursors, SpaceOf(i.plan.policy), i.pick.slot + 1); }
    if i.key.Some? { PutKeepsKeys(db.keys, i.key.value, ClaimedRow(i.plan).(paymentAddressId := Some(i.pick.id))); }
  }

  lemma IssueKeepsSequence(db: Db, i: Issuance, nextId: int)
    requires Enabled(db, i) && SequenceAhead(db, nextId) && i.pick.id < nextId
    ensures SequenceAhead(Issue(db, i), nextId) == true
  {
    IssueByTable(db, i);
  }

  // Every committed database stays consistent, and nothing that was promised is taken back.
  lemma IssueKeepsConsistent(db: Db, i: Issuance)
    requires Consistent(db) && Enabled(db, i)
    ensures Consistent(Issue(db, i)) == true && Grows(db, Issue(db, i)) == true
  {
    IssueKeepsRows(db, i);
    IssueKeepsSlotsDistinct(db, i);
    IssueKeepsCursorsAhead(db, i);
    IssueKeepsTrackings(db, i);
    IssueKeepsAddresses(db, i);
    IssueKeepsKeysComplete(db, i);
    IssueKeepsKeysInjective(db, i);
    IssueGrows(db, i);
  }

  lemma SlotsAfterIssue(db: Db, i: Issuance, space: Space)
    requires Enabled(db, i)
    ensures var slots' := SlotsOf(Issue(db, i).allocations, space);
      slots' == SlotsOf(db.allocations, space) + (if space == SpaceOf(i.plan.policy) then {i.pick.slot} else {})
  {
    IssueByTable(db, i);
    var a, a' := db.allocations, Issue(db, i).allocations;
    var slots, slots' := SlotsOf(a, space), SlotsOf(a', space);
    var added := if space == SpaceOf(i.plan.policy) then {i.pick.slot} else {};
    forall s | s in slots' ensures s in slots + added {
      var id :| id in a' && a'[id].space == space && a'[id].slot == s;
      if id != i.pick.id { assert id in a; }
    }
    forall s | s in slots + added ensures s in slots' {
      if s in slots {
        var id :| id in a && a[id].space == space && a[id].slot == s;
        assert id in a' && a'[id].space == space && a'[id].slot == s;
      } else {
        assert a'[i.pick.id].slot == s;
      }
    }
  }

  lemma SpaceStaysDense(db: Db, i: Issuance, space: Space)
    requires CursorsAhead(db) && Dense(db) && Enabled(db, i) && space in Issue(db, i).cursors
    ensures DenseIn(Issue(db, i), space) == true
  {
    IssueByTable(db, i);
    SlotsAfterIssue(db, i, space);
    if space in db.cursors { assert DenseIn(db, space); }
    if space == SpaceOf(i.plan.policy) {
      if space !in db.cursors {
        assert SlotsOf(db.allocations, space) == {};
      }
      if !i.pick.isNew {
        assert i.pick.slot in SlotsOf(db.allocations, space);
      }
    }
  }

  // The cursor hands out every slot once and in order, with no gap.
  lemma IssueKeepsDense(db: Db, i: Issuance)
    requires Consistent(db) && Dense(db) && Enabled(db, i)
    ensures Dense(Issue(db, i)) == true
  {
    IssueByTable(db, i);
    forall space | space in Issue(db, i).cursors ensures DenseIn(Issue(db, i), space) {
      SpaceStaysDense(db, i, space);
    }
  }
}
