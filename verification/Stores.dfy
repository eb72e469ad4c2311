/**
 The database, its transactions, and the stores that run SQL statements inside them. A
 transaction works on its own copy of the tables, which a commit puts in place of the
 committed ones. Id sequences are not part of a transaction and are never taken back.
 */
module Stores {
  import opened Tables
  import opened AtomicIssuance

  datatype StoreError =
    | StoreFailed
    | KeyExists
    | ClaimNotFound
    | KeyRequired
    | ChainRequired
    | AmountInvalid
    | IdInvalid
    | NotReserved
    | IndexExhausted
    | AlreadyExists
    | TimeRequired
    | NotFound
    | LimitInvalid
    | StatusesRequired

  // What the stores report about a reserved slot.
  datatype Reservation = Reservation(id: int, slot: int)

  // Statements, commits and connections may fail for reasons outside the program.
  method DriverSucceeds() returns (ok: bool) {
    ok := *;
  }

  ghost predicate Sound(db: Db, nextId: int) {
    Consistent(db) && SequenceAhead(db, nextId)
  }

  class Database {
    var allocations: map<int, AllocationRow>
    var cursors: map<Space, int>
    var keys: map<Key, KeyRow>
    var trackings: map<int, TrackingRow>
    var notifications: map<int, NotificationRow>
    var nextId: int
    var nextNotificationId: int
    // The trackings that were saved, in the order of the commits.
    ghost var saves: seq<int>

    constructor ()
      ensures Committed() == NO_ROWS && notifications == map[] && Valid()
    {
      allocations, cursors, keys, trackings := map[], map[], map[], map[];
      notifications, nextId, nextNotificationId := map[], 1, 1;
      saves := [];
      new;
      NoRowsConsistent();
    }

    ghost function Committed(): Db
      reads `allocations, `cursors, `keys, `trackings
    {
      Db(allocations, cursors, keys, trackings)
    }

    // Between transactions, the tables satisfy what every issuance and every poll keeps.
    ghost predicate Valid()
      reads this
    {
      Sound(Committed(), nextId)
    }

    method Begin() returns (tx: Transaction)
      ensures fresh(tx) && tx.database == this && tx.View() == Committed() && tx.notifications == notifications
      ensures tx.saves == []
    {
      tx := new Transaction(this);
    }

    // The rows of the transaction replace the committed ones, all at once or not at all. A
    // lost acknowledgement leaves the caller not knowing which.
    method Commit(tx: Transaction) returns (ok: bool)
      modifies `allocations, `cursors, `keys, `trackings, `notifications, `saves
      ensures ok ==> Committed() == tx.View() && notifications == tx.notifications && saves == old(saves) + tx.saves
      ensures !ok ==>
        || (Committed() == tx.View() && notifications == tx.notifications && saves == old(saves) + tx.saves)
        || (Committed() == old(Committed()) && notifications == old(notifications) && saves == old(saves))
    {
      var applied := DriverSucceeds();
      var acknowledged := DriverSucceeds();
      if applied {
        allocations, cursors, keys, trackings := tx.allocations, tx.cursors, tx.keys, tx.trackings;
        notifications := tx.notifications;
        saves := saves + tx.saves;
      }
      ok := applied && acknowledged;
    }
  }

  class Transaction {
    const database: Database
    var allocations: map<int, AllocationRow>
    var cursors: map<Space, int>
    var keys: map<Key, KeyRow>
    var trackings: map<int, TrackingRow>
    var notifications: map<int, NotificationRow>
    ghost var saves: seq<int>

    constructor (database: Database)
      ensures this.database == database && View() == database.Committed() && notifications == database.notifications
      ensures saves == []
    {
      saves := [];
      this.database := database;
      allocations, cursors := database.allocations, database.cursors;
      keys, trackings, notifications := database.keys, database.trackings, database.notifications;
    }

    ghost function View(): Db
      reads `allocations, `cursors, `keys, `trackings
    {
      Db(allocations, cursors, keys, trackings)
    }

    // SELECT COALESCE(MAX(slot_index) + 1, 0), by scanning the table.
    method MaxSlotPlusOne(space: Space) returns (n: int)
      ensures n == MaxPlusOne(SlotsOf(allocations, space))
    {
      var rest, found := allocations.Keys, false;
      ghost var slots: set<int> := {};
      n := 0;
      while true
        invariant rest <= allocations.Keys
        invariant slots == set id | id in allocations && id !in rest && allocations[id].space == space ::
          allocations[id].slot
        invariant found <==> slots != {}
        invariant if found then n - 1 in slots else n == 0
        invariant forall s | s in slots :: s < n
        decreases rest
      {
        if id :| id in rest {
          rest := rest - {id};
          if allocations[id].space == space {
            if !found || n <= allocations[id].slot { n := allocations[id].slot + 1; }
            found, slots := true, slots + {allocations[id].slot};
          }
        } else {
          break;
        }
      }
      assert slots == SlotsOf(allocations, space);
    }
  }
}
