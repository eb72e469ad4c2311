/**
 Concurrent requests for payment addresses, one SQL statement at a time.

 Every request runs the replay lookup, reads its policy and then works inside one
 transaction. Rows written by a transaction stay private to it until it commits. A unique
 insert waits for the transaction that has written the same key, cursor or address, and
 `FOR UPDATE` for the one that holds the cursor; `SKIP LOCKED` passes over rows that another
 transaction holds.
*/
module IssuanceMachine {
  import opened Values
  import opened Tables
  import opened IssuancePolicy
  import opened AtomicIssuance
  import PaymentReceiptTracking

  /******* Requests and answers *******/

  datatype Input = Input(chain: string, policyId: string, amount: int64, customerReference: string,
      idempotencyKey: string)

  datatype Response = Response(
    paymentAddressId: int, policyId: string, amount: int64, chain: string, network: string, scheme: string,
    assetReference: string, decimals: int, address: string, customerReference: string, replayed: bool)

  datatype Error =
    | ChainNotSupported
    | AddressPolicyNotFound
    | AddressPolicyNotEnabled
    | InvalidExpectedAmount
    | IdempotencyKeyConflict
    | AddressPoolExhausted
    | DependencyFailure
    | InternalFailure
    | IdempotencyRecordIncomplete
    | CompletedRecordMissingIssuedAllocation
    | ClaimConflictWithoutCompletedRecord

  datatype Outcome = Answer(response: Response) | Refusal(error: Error)

  // The configuration, which stays fixed while requests run: the policies, the receipt terms,
  // and what the key material makes of a policy, a slot and a payment address id.
  datatype System = System(catalogue: map<string, Policy>, terms: Terms, derive: (Policy, int, int) -> Derived)

  // The address and the sweep material of a payment address id at a slot of a policy.
  function DerivedFor(sys: System, policy: Policy, slot: int, id: int): Derived { sys.derive(policy, slot, id) }

  predicate ValidSystem(sys: System) {
    forall id | id in sys.catalogue :: sys.catalogue[id].id == id
  }

  function KeyOf(input: Input): Option<Key> {
    if input.idempotencyKey == "" then None else Some(Key(input.chain, input.idempotencyKey))
  }

  predicate SameRequest(row: KeyRow, input: Input) {
    row.policyId == input.policyId && row.amount == input.amount && row.customerReference == input.customerReference
  }

  function ResponseOf(policy: Policy, id: int, row: AllocationRow, replayed: bool): Response
    requires row.details.Some?
  {
    var d := row.details.value;
    Response(id, policy.id, row.amount, d.chain, d.network, d.scheme, policy.assetReference, policy.decimals,
             d.address, row.customerReference, replayed)
  }

  /******* One request in progress *******/

  datatype Pc =
    | Claim
    | Reopen
    | InsertCursor
    | LockCursor
    | InsertAllocation
    | BumpCursor
    | Derive
    | CompleteAllocation
    | CreateTracking
    | CompleteKey
    | Commit
    | MarkFailed
    | Release
    | Rollback

  datatype Txn = Txn(
    plan: Plan,
    key: Option<Key>,
    startedAt: Time,
    pc: Pc,
    written: Db,
    pick: Pick,
    derived: Derived,
    failure: Error,
    keyLocks: set<Key>,
    rowLocks: set<int>,
    cursorLocks: set<Space>,
    addressLocks: set<Address>)

  datatype Phase =
    | FindKey(again: bool)
    | FindIssued(again: bool, record: KeyRow)
    | ReadReplayPolicy(id: int, row: AllocationRow)
    | ReadPolicy
    | InTransaction(txn: Txn)
    | Done(outcome: Outcome)

  datatype Process = Process(input: Input, phase: Phase)

  datatype State = State(db: Db, nextId: int, procs: map<int, Process>)

  function Begin(plan: Plan, key: Option<Key>, now: Time): Txn {
    Txn(plan, key, now, if key.Some? then Claim else Reopen, NO_ROWS, Pick(0, 0, false), Derived("", ""),
        DependencyFailure, {}, {}, {}, {})
  }

  // A transaction reads its own rows over the committed ones, as in `Overlay(s.db, t.written)`.
  function SeenAllocations(s: State, t: Txn): map<int, AllocationRow> { s.db.allocations + t.written.allocations }

  function SeenCursors(s: State, t: Txn): map<Space, int> { s.db.cursors + t.written.cursors }

  function SeenKeys(s: State, t: Txn): map<Key, KeyRow> { s.db.keys + t.written.keys }

  function SeenTrackings(s: State, t: Txn): map<int, TrackingRow> { s.db.trackings + t.written.trackings }

  predicate Other(s: State, p: int, q: int) {
    q != p && q in s.procs && s.procs[q].phase.InTransaction?
  }

  /******* Locks of the other transactions *******/

  ghost predicate KeyBusy(s: State, p: int, key: Key) {
    exists q :: Other(s, p, q) && key in s.procs[q].phase.txn.keyLocks
  }

  ghost predicate CursorBusy(s: State, p: int, space: Space) {
    exists q :: Other(s, p, q) && space in s.procs[q].phase.txn.cursorLocks
  }

  // A cursor row that another transaction has inserted or moved on, and not committed yet.
  ghost predicate CursorPending(s: State, p: int, space: Space) {
    exists q :: Other(s, p, q) && space in s.procs[q].phase.txn.written.cursors
  }

  ghost predicate AddressBusy(s: State, p: int, a: Address) {
    exists q :: Other(s, p, q) && a in s.procs[q].phase.txn.addressLocks
  }

  ghost function RowsBusy(s: State, p: int): set<int> {
    set q, id | q in s.procs && Other(s, p, q) && id in s.procs[q].phase.txn.rowLocks :: id
  }

  // The statement at the program counter has to wait for another transaction to end. An
  // insert that gives way to a conflict passes a committed row that is only locked.
  ghost predicate Waiting(s: State, p: int) {
    && p in s.procs && s.procs[p].phase.InTransaction?
    && var t := s.procs[p].phase.txn;
       match t.pc
       case Claim => t.key.Some? && KeyBusy(s, p, t.key.value)
       case InsertCursor => CursorPending(s, p, SpaceOf(t.plan.policy))
       case LockCursor => CursorBusy(s, p, SpaceOf(t.plan.policy))
       case CompleteAllocation => AddressBusy(s, p, AddressOf(DetailsOf(t.plan, t.derived)))
       case _ => false
  }

  /******* Statements *******/

  // In each of these, `phase` is what the request becomes when the statement executes; waiting
  // and driver errors are excluded by the caller.

  ghost predicate DoClaim(s: State, t: Txn, phase: Phase) {
    && t.key.Some?
    && if t.key.value in SeenKeys(s, t) then phase == FindKey(true)
       else phase == InTransaction(t.(
         pc := Reopen,
         written := t.written.(keys := t.written.keys[t.key.value := ClaimedRow(t.plan)]),
         keyLocks := t.keyLocks + {t.key.value}))
  }

  ghost predicate DoReopen(s: State, p: int, t: Txn, phase: Phase) {
    var rows, space, busy := SeenAllocations(s, t), SpaceOf(t.plan.policy), RowsBusy(s, p);
    if forall id | id in rows :: !Reopenable(rows, space, busy, id) then
      phase == InTransaction(t.(pc := InsertCursor))
    else
      exists id | id in rows && FirstReopenable(rows, space, busy, id) ::
        phase == InTransaction(Reopened(t, id, rows[id]))
  }

  function Reopened(t: Txn, id: int, row: AllocationRow): Txn {
    t.(pc := Derive,
       pick := Pick(id, row.slot, false),
       written := t.written.(allocations := t.written.allocations[id :=
         ReopenRow(row, t.plan.amount, t.plan.customerReference, t.startedAt)]),
       rowLocks := t.rowLocks + {id})
  }

  ghost function AfterInsertCursor(s: State, t: Txn): Phase {
    var space := SpaceOf(t.plan.policy);
    InTransaction(
      if space in SeenCursors(s, t) then t.(pc := LockCursor)
      else t.(pc := LockCursor,
              written :=
                t.written.(cursors := t.written.cursors[space := MaxPlusOne(SlotsOf(SeenAllocations(s, t), space))]),
              cursorLocks := t.cursorLocks + {space}))
  }

  ghost predicate DoInsertCursor(s: State, t: Txn, phase: Phase) {
    phase == AfterInsertCursor(s, t)
  }

  ghost function AfterLockCursor(s: State, t: Txn): Phase
    requires SpaceOf(t.plan.policy) in SeenCursors(s, t)
  {
    var cursors, space := SeenCursors(s, t), SpaceOf(t.plan.policy);
    if cursors[space] > MAX_SLOT_INDEX then Done(Refusal(AddressPoolExhausted))
    else InTransaction(t.(
      pc := InsertAllocation,
      pick := Pick(0, cursors[space], true),
      cursorLocks := t.cursorLocks + {space}))
  }

  ghost predicate DoLockCursor(s: State, t: Txn, phase: Phase) {
    SpaceOf(t.plan.policy) in SeenCursors(s, t) && phase == AfterLockCursor(s, t)
  }

  ghost function AfterInsertAllocation(s: State, t: Txn): Phase {
    InTransaction(t.(
      pc := BumpCursor,
      pick := t.pick.(id := s.nextId),
      written :=
        t.written.(allocations := t.written.allocations[s.nextId := ReservedRow(t.plan, t.pick.slot, t.startedAt)]),
      rowLocks := t.rowLocks + {s.nextId}))
  }

  ghost predicate DoInsertAllocation(s: State, t: Txn, phase: Phase) {
    phase == AfterInsertAllocation(s, t)
  }

  ghost function AfterBumpCursor(s: State, t: Txn): Phase
    requires SpaceOf(t.plan.policy) in SeenCursors(s, t)
  {
    var cursors, space := SeenCursors(s, t), SpaceOf(t.plan.policy);
    InTransaction(t.(
      pc := Derive,
      written := t.written.(cursors := t.written.cursors[space := cursors[space] + 1])))
  }

  ghost predicate DoBumpCursor(s: State, t: Txn, phase: Phase) {
    SpaceOf(t.plan.policy) in SeenCursors(s, t) && phase == AfterBumpCursor(s, t)
  }

  // Derivation is outside the database. It can fail; otherwise it depends on the policy and
  // the row alone.
  ghost predicate DoDerive(sys: System, t: Txn, phase: Phase) {
    var d := DerivedFor(sys, t.plan.policy, t.pick.slot, t.pick.id);
    || phase == InTransaction(t.(pc := MarkFailed, failure := DependencyFailure))
    || phase == InTransaction(
         if d.address == "" then t.(pc := MarkFailed, failure := InternalFailure)
         else t.(pc := CompleteAllocation, derived := d))
  }

  ghost function AfterCompleteAllocation(s: State, t: Txn): Phase {
    var rows, details := SeenAllocations(s, t), DetailsOf(t.plan, t.derived);
    if t.derived.sweepMaterial == "" || t.pick.id !in rows || rows[t.pick.id].status != Reserved
       || AddressIssued(rows, AddressOf(details))
    then Done(Refusal(DependencyFailure))
    else InTransaction(t.(
      pc := CreateTracking,
      written := t.written.(allocations := t.written.allocations[t.pick.id :=
        CompleteRow(rows[t.pick.id], details)]),
      addressLocks := t.addressLocks + {AddressOf(details)}))
  }

  ghost predicate DoCompleteAllocation(s: State, t: Txn, phase: Phase) {
    phase == AfterCompleteAllocation(s, t)
  }

  ghost function AfterCreateTracking(s: State, t: Txn): Phase {
    var trackings, tracking := SeenTrackings(s, t), TrackingOf(t.plan, t.pick.id, t.derived);
    if tracking.Failure? then Done(Refusal(InternalFailure))
    else if t.pick.id in trackings || AddressTracked(trackings, AddressOfTracking(tracking.value)) then
      Done(Refusal(DependencyFailure))
    else InTransaction(t.(
      pc := if t.key.Some? then CompleteKey else Commit,
      written := t.written.(trackings := t.written.trackings[t.pick.id :=
        TrackingRow(tracking.value, t.plan.issuedAt, None, None)])))
  }

  ghost predicate DoCreateTracking(s: State, t: Txn, phase: Phase) {
    phase == AfterCreateTracking(s, t)
  }

  ghost function AfterCompleteKey(s: State, t: Txn): Phase
    requires t.key.Some?
  {
    var keys := SeenKeys(s, t);
    if t.key.value !in keys || keys[t.key.value].paymentAddressId.Some? then Done(Refusal(DependencyFailure))
    else InTransaction(t.(
      pc := Commit,
      written := t.written.(keys := t.written.keys[t.key.value :=
        keys[t.key.value].(paymentAddressId := Some(t.pick.id))])))
  }

  ghost predicate DoCompleteKey(s: State, t: Txn, phase: Phase) {
    t.key.Some? && phase == AfterCompleteKey(s, t)
  }

  ghost function AfterMarkFailed(s: State, t: Txn): Phase {
    var rows := SeenAllocations(s, t);
    if t.pick.id !in rows || rows[t.pick.id].status != Reserved then Done(Refusal(DependencyFailure))
    else InTransaction(t.(
      pc := if t.key.Some? then Release else Rollback,
      written := t.written.(allocations := t.written.allocations[t.pick.id := FailRow(rows[t.pick.id])])))
  }

  ghost predicate DoMarkFailed(s: State, t: Txn, phase: Phase) {
    phase == AfterMarkFailed(s, t)
  }

  ghost function AfterRelease(s: State, t: Txn): Phase
    requires t.key.Some?
  {
    var keys := SeenKeys(s, t);
    if t.key.value !in keys || keys[t.key.value].paymentAddressId.Some? then Done(Refusal(DependencyFailure))
    else InTransaction(t.(pc := Rollback, written := t.written.(keys := t.written.keys - {t.key.value})))
  }

  ghost predicate DoRelease(s: State, t: Txn, phase: Phase) {
    t.key.Some? && phase == AfterRelease(s, t)
  }

  ghost predicate Execute(sys: System, s: State, p: int, t: Txn, phase: Phase) {
    match t.pc
    case Claim => DoClaim(s, t, phase)
    case Reopen => DoReopen(s, p, t, phase)
    case InsertCursor => DoInsertCursor(s, t, phase)
    case LockCursor => DoLockCursor(s, t, phase)
    case InsertAllocation => DoInsertAllocation(s, t, phase)
    case BumpCursor => DoBumpCursor(s, t, phase)
    case Derive => DoDerive(sys, t, phase)
    case CompleteAllocation => DoCompleteAllocation(s, t, phase)
    case CreateTracking => DoCreateTracking(s, t, phase)
    case CompleteKey => DoCompleteKey(s, t, phase)
    case MarkFailed => DoMarkFailed(s, t, phase)
    case Release => DoRelease(s, t, phase)
    // The failure handler ends in an error, so the unit of work drops everything it wrote.
    case Rollback => phase == Done(Refusal(t.failure))
    case Commit => false
  }

  // The clock and the plan come before the transaction begins.
  function PlanPhase(sys: System, input: Input, issuedAt: Time, now: Time): Phase
    requires input.policyId in sys.catalogue
  {
    match MakePlan(sys.terms, sys.catalogue[input.policyId], input.chain, input.amount, input.customerReference,
      issuedAt)
    case Success(plan) => InTransaction(Begin(plan, KeyOf(input), now))
    case Failure(ChainMismatch) => Done(Refusal(AddressPolicyNotFound))
    case Failure(NotEnabled) => Done(Refusal(AddressPolicyNotEnabled))
    case Failure(ExpectedAmountInvalid) => Done(Refusal(InvalidExpectedAmount))
    case Failure(IssuedAtRequired) => Done(Refusal(InternalFailure))
  }

  // The lookups and the planning, which write nothing.
  ghost predicate Prepare(sys: System, s: State, input: Input, phase: Phase, phase': Phase) {
    match phase
    case FindKey(again) =>
      var key := KeyOf(input);
      if key.None? || key.value !in s.db.keys then
        phase' == if again then Done(Refusal(ClaimConflictWithoutCompletedRecord)) else ReadPolicy
      else
        var record := s.db.keys[key.value];
        if record.paymentAddressId.None? then phase' == Done(Refusal(IdempotencyRecordIncomplete))
        else if !SameRequest(record, input) then phase' == Done(Refusal(IdempotencyKeyConflict))
        else phase' == FindIssued(again, record)
    case FindIssued(again, record) =>
      if record.paymentAddressId.None? || record.paymentAddressId.value !in s.db.allocations
         || s.db.allocations[record.paymentAddressId.value].status != Issued
      then phase' == Done(Refusal(CompletedRecordMissingIssuedAllocation))
      else phase' == ReadReplayPolicy(record.paymentAddressId.value, s.db.allocations[record.paymentAddressId.value])
    case ReadReplayPolicy(id, row) =>
      if row.space.policyId !in sys.catalogue then phase' == Done(Refusal(AddressPolicyNotFound))
      else row.details.Some? && phase' == Done(Answer(ResponseOf(sys.catalogue[row.space.policyId], id, row, true)))
    case ReadPolicy =>
      if input.policyId !in sys.catalogue then phase' == Done(Refusal(AddressPolicyNotFound))
      else exists issuedAt: Time, now: Time :: phase' == PlanPhase(sys, input, issuedAt, now)
    case InTransaction(_) => false
    case Done(_) => false
  }

  /******* Steps of the whole system *******/

  datatype Action =
    | Arrive(p: int, input: Input)
    | Look(p: int)
    | Run(p: int)
    | Break(p: int)
    | CommitTxn(p: int, acknowledged: bool)
    | SavePoll(id: int, row: TrackingRow)

  function WithPhase(s: State, p: int, phase: Phase): map<int, Process>
    requires p in s.procs
  {
    s.procs[p := s.procs[p].(phase := phase)]
  }

  ghost predicate DoArrive(s: State, p: int, input: Input, s': State) {
    && p !in s.procs
    && s' == s.(procs := s.procs[p := Process(input,
         if input.chain != "bitcoin" && input.chain != "ethereum" then Done(Refusal(ChainNotSupported))
         else if KeyOf(input).Some? then FindKey(false) else ReadPolicy)])
  }

  ghost predicate DoLook(sys: System, s: State, p: int, s': State) {
    && p in s.procs
    && exists phase' ::
         Prepare(sys, s, s.procs[p].input, s.procs[p].phase, phase') && s' == s.(procs := WithPhase(s, p, phase'))
  }

  function NextIdAfter(s: State, t: Txn): int { if t.pc == InsertAllocation then s.nextId + 1 else s.nextId }

  ghost predicate DoRun(sys: System, s: State, p: int, s': State) {
    && p in s.procs && s.procs[p].phase.InTransaction?
    && !Waiting(s, p)
    && var t := s.procs[p].phase.txn;
       exists phase' ::
         Execute(sys, s, p, t, phase') && s' == s.(procs := WithPhase(s, p, phase'), nextId := NextIdAfter(s, t))
  }

  // A statement, a read or a commit can fail at any point; the transaction is rolled back.
  ghost predicate DoBreak(s: State, p: int, s': State) {
    && p in s.procs && !s.procs[p].phase.Done?
    && s' == s.(procs := WithPhase(s, p, Done(Refusal(DependencyFailure))))
  }

  // The rows become visible at once. When the acknowledgement is lost the caller sees an error.
  ghost predicate DoCommit(s: State, p: int, acknowledged: bool, s': State) {
    && p in s.procs && s.procs[p].phase.InTransaction?
    && var t := s.procs[p].phase.txn;
    && t.pc == Commit
    && t.pick.id in t.written.allocations && t.written.allocations[t.pick.id].details.Some?
    && s' == s.(
      db := Overlay(s.db, t.written),
      procs := WithPhase(s, p,
        if acknowledged then Done(Answer(ResponseOf(t.plan.policy, t.pick.id, t.written.allocations[t.pick.id], false)))
        else Done(Refusal(DependencyFailure))))
  }

  // The poller moves a tracking on, within the terms of its issuance.
  ghost predicate DoSavePoll(s: State, id: int, row: TrackingRow, s': State) {
    && id in s.db.trackings
    && PaymentReceiptTracking.TermsOf(row.tracking) == PaymentReceiptTracking.TermsOf(s.db.trackings[id].tracking)
    && s' == s.(db := s.db.(trackings := s.db.trackings[id := row]))
  }

  ghost predicate Next(sys: System, s: State, a: Action, s': State) {
    match a
    case Arrive(p, input) => DoArrive(s, p, input, s')
    case Look(p) => DoLook(sys, s, p, s')
    case Run(p) => DoRun(sys, s, p, s')
    case Break(p) => DoBreak(s, p, s')
    case CommitTxn(p, acknowledged) => DoCommit(s, p, acknowledged, s')
    case SavePoll(id, row) => DoSavePoll(s, id, row, s')
  }

  ghost predicate SomeNext(sys: System, s: State, s': State) {
    exists a :: Next(sys, s, a, s')
  }

  ghost predicate Init(s: State) {
    Consistent(s.db) && SequenceAhead(s.db, s.nextId) && s.procs == map[]
  }

  ghost predicate StepAt(sys: System, run: seq<State>, i: nat) {
    i + 1 < |run| && SomeNext(sys, run[i], run[i + 1])
  }

  ghost predicate IsRun(sys: System, run: seq<State>) {
    run != [] && Init(run[0]) && forall i: nat | i + 1 < |run| :: StepAt(sys, run, i)
  }
}
