/**
 The transactional tables, as values: one map per table, keyed by what the schema makes
 unique. A `Db` is a whole database, or the rows that one transaction has written so far.
 */
module Tables {
  import opened Values
  import opened PaymentReceiptTracking

  // Slot indexes are the non-hardened child numbers of BIP 32.
  const MAX_SLOT_INDEX: int := 0x7fff_ffff

  datatype Space = Space(policyId: string, spaceRef: string)

  datatype Key = Key(chain: string, idempotencyKey: string)

  datatype Address = Address(chain: string, address: string)

  datatype AllocationStatus = Reserved | Issued | DerivationFailed

  // The columns that stay NULL until an allocation is issued.
  datatype Details = Details(
    chain: string, network: string, scheme: string, assetReference: string, address: string,
    sweepMaterial: string, issuedAt: Time)

  datatype AllocationRow = AllocationRow(
    space: Space,
    slot: int,
    amount: int64,
    customerReference: string,
    status: AllocationStatus,
    details: Option<Details>,
    failed: bool,
    reservedAt: Time)

  datatype KeyRow = KeyRow(policyId: string, amount: int64, customerReference: string, paymentAddressId: Option<int>)

  datatype TrackingRow = TrackingRow(
    tracking: Tracking,
    nextPollAt: Time,
    leaseUntil: Option<Time>,
    lastPolledAt: Option<Time>)

  datatype DeliveryStatus = Pending | Sent | Failed

  datatype NotificationRow = NotificationRow(
    event: StatusChanged,
    customerReference: string,
    status: DeliveryStatus,
    attempts: int32,
    nextAttemptAt: Time,
    leaseUntil: Option<Time>,
    deliveredAt: Option<Time>)

  datatype Db = Db(
    allocations: map<int, AllocationRow>,
    cursors: map<Space, int>,
    keys: map<Key, KeyRow>,
    trackings: map<int, TrackingRow>)

  const NO_ROWS: Db := Db(map[], map[], map[], map[])

  // The database as a transaction sees it: its own rows over the committed ones.
  function Overlay(db: Db, written: Db): Db {
    Db(db.allocations + written.allocations,
       db.cursors + written.cursors,
       db.keys + written.keys,
       db.trackings + written.trackings)
  }

  function AddressOf(d: Details): Address { Address(d.chain, d.address) }

  function AddressOfTracking(t: Tracking): Address { Address(t.chain, t.address) }

  // `UNIQUE (chain, address)`, which both tables carry.
  predicate AddressIssued(allocations: map<int, AllocationRow>, a: Address) {
    exists id :: id in allocations && allocations[id].details.Some? && AddressOf(allocations[id].details.value) == a
  }

  predicate AddressTracked(trackings: map<int, TrackingRow>, a: Address) {
    exists id :: id in trackings && AddressOfTracking(trackings[id].tracking) == a
  }

  function SlotsOf(allocations: map<int, AllocationRow>, space: Space): set<int> {
    set id | id in allocations && allocations[id].space == space :: allocations[id].slot
  }

  // COALESCE(MAX(slot_index) + 1, 0)
  ghost function MaxPlusOne(slots: set<int>): (n: int)
    ensures slots == {} ==> n == 0
    ensures slots != {} ==> n - 1 in slots
    ensures forall x | x in slots :: x < n
  {
    if s :| s in slots then
      var rest := slots - {s};
      var m := MaxPlusOne(rest);
      assert slots == rest + {s};
      if rest == {} || s >= m then s + 1 else m
    else 0
  }

  // What the cursor of a space reads, or would be created with.
  ghost function CursorValue(db: Db, space: Space): int {
    if space in db.cursors then db.cursors[space] else MaxPlusOne(SlotsOf(db.allocations, space))
  }

  // The row an UPDATE leaves: a failed slot taken again, a reserved one issued or given up.
  function ReopenRow(row: AllocationRow, amount: int64, customerReference: string, at: Time): AllocationRow {
    row.(amount := amount, customerReference := customerReference, status := Reserved, details := None,
         failed := false, reservedAt := at)
  }

  function CompleteRow(row: AllocationRow, details: Details): AllocationRow {
    row.(status := Issued, details := Some(details), failed := false)
  }

  function FailRow(row: AllocationRow): AllocationRow {
    row.(status := DerivationFailed, failed := true)
  }

  // ORDER BY reserved_at ASC, id ASC LIMIT 1 over the failed rows of a space.
  predicate Reopenable(allocations: map<int, AllocationRow>, space: Space, locked: set<int>, id: int) {
    id in allocations && allocations[id].space == space && allocations[id].status == DerivationFailed && id !in locked
  }

  predicate FirstReopenable(allocations: map<int, AllocationRow>, space: Space, locked: set<int>, id: int) {
    && Reopenable(allocations, space, locked, id)
    && forall other | other in allocations && Reopenable(allocations, space, locked, other) ::
      || allocations[id].reservedAt < allocations[other].reservedAt
      || (allocations[id].reservedAt == allocations[other].reservedAt && id <= other)
  }

  lemma {:induction false} FirstExists(rows: map<int, AllocationRow>, ids: set<int>, some: int) returns (id: int)
    requires some in ids && ids <= rows.Keys
    ensures id in ids
    ensures forall other | other in ids ::
      || rows[id].reservedAt < rows[other].reservedAt
      || (rows[id].reservedAt == rows[other].reservedAt && id <= other)
  {
    id := some;
    var rest := ids - {some};
    assert forall other | other in ids :: other == some || other in rest;
    if next :| next in rest {
      var best := FirstExists(rows, rest, next);
      if rows[best].reservedAt < rows[id].reservedAt || (rows[best].reservedAt == rows[id].reservedAt && best <= id) {
        id := best;
      }
    }
  }
}
