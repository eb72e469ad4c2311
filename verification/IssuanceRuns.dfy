/**
 What holds in every run of concurrent requests, and what callers can rely on.

 Contracts say `P(..) == true` where `P` is only passed on: as an equation it reaches the solver
 whole, where a bare `P(..)` would be taken apart, conjunct by conjunct, at every call.
 */
module IssuanceRuns {
  import opened Values
  import opened Tables
  import opened IssuancePolicy
  import opened AtomicIssuance
  import opened IssuanceMachine
  import opened IssuanceInvariant
  import opened IssuanceRefinement
  import PaymentReceiptTracking

  // The three refusals that a damaged key table would cause.
  predicate Damaged(e: Error) {
    e.IdempotencyRecordIncomplete? || e.CompletedRecordMissingIssuedAllocation?
      || e.ClaimConflictWithoutCompletedRecord?
  }

  // The key of the request is taken, for another policy, amount or reference.
  predicate Differs(db: Db, input: Input) {
    var key := KeyOf(input);
    key.Some? && key.value in db.keys && !SameRequest(db.keys[key.value], input)
  }

  // What a refusal says of the request and the configuration. A failure of the database, the
  // clock or the derivation says nothing.
  predicate Refuses(sys: System, input: Input, e: Error) {
    match e
    case ChainNotSupported => input.chain != "bitcoin" && input.chain != "ethereum"
    case AddressPolicyNotFound =>
      input.policyId in sys.catalogue ==> sys.catalogue[input.policyId].chain != input.chain
    case AddressPolicyNotEnabled => input.policyId in sys.catalogue && !sys.catalogue[input.policyId].enabled
    case InvalidExpectedAmount => input.amount <= 0
    case DependencyFailure => true
    case InternalFailure => true
    case _ => false
  }

  // All slots of the policy's space are used up.
  ghost predicate Exhausted(sys: System, db: Db, policyId: string) {
    policyId in sys.catalogue && CursorValue(db, SpaceOf(sys.catalogue[policyId])) > MAX_SLOT_INDEX
  }

  // A refusal has its ground in the request, the configuration or the tables.
  ghost predicate HasGround(sys: System, db: Db, input: Input, e: Error) {
    || Refuses(sys, input, e)
    || (e == IdempotencyKeyConflict && Differs(db, input))
    || (e == AddressPoolExhausted && Exhausted(sys, db, input.policyId))
  }

  // An answer tells what the request asked for and what its row and its policy say, field by
  // field: above all, the address that was issued.
  predicate TellsRow(policy: Policy, input: Input, row: AllocationRow, r: Response) {
    && row.details.Some?
    && var d := row.details.value;
    && r.address == d.address && r.chain == d.chain && r.network == d.network && r.scheme == d.scheme
    && r.policyId == input.policyId == row.space.policyId
    && r.amount == input.amount == row.amount
    && r.customerReference == input.customerReference == row.customerReference
    && r.assetReference == policy.assetReference && r.decimals == policy.decimals
  }

  // An answer reports an issued row that is still there, and the key leads to it.
  predicate Backed(sys: System, db: Db, input: Input, r: Response) {
    && r.paymentAddressId in db.allocations && db.allocations[r.paymentAddressId].status == Issued
    && input.policyId in sys.catalogue
    && TellsRow(sys.catalogue[input.policyId], input, db.allocations[r.paymentAddressId], r)
    && (KeyOf(input).Some? ==>
         KeyOf(input).value in db.keys && db.keys[KeyOf(input).value].paymentAddressId == Some(r.paymentAddressId))
  }

  // The address of the answer is watched, for its amount.
  predicate Watched(db: Db, r: Response) {
    && r.paymentAddressId in db.trackings
    && var t := db.trackings[r.paymentAddressId].tracking;
    && t.paymentAddressId == r.paymentAddressId && t.address == r.address && t.chain == r.chain
    && t.network == r.network && t.expected == r.amount && t.policyId == r.policyId
  }

  // An answer to a new issuance: its address is the one derived for the slot and the id it got, and
  // is watched to the depth and for the window of the policy's own chain and network.
  predicate IsFresh(sys: System, db: Db, input: Input, r: Response) {
    && r.paymentAddressId in db.allocations && r.paymentAddressId in db.trackings && input.policyId in sys.catalogue
    && var policy := sys.catalogue[input.policyId];
    && policy.enabled && policy.chain == input.chain && input.amount > 0
    && var scope := Scope(policy.chain, policy.network);
    && var row, t := db.allocations[r.paymentAddressId], db.trackings[r.paymentAddressId].tracking;
    && r.address == DerivedFor(sys, policy, row.slot, r.paymentAddressId).address
    && IsSetting(sys.terms.confirmations, scope, 1, t.requiredConfirmations)
    && t.expiresAt.Some?
    && IsSetting(sys.terms.expiresAfter, scope, DEFAULT_EXPIRES_AFTER, t.expiresAt.value - t.issuedAt)
  }

  lemma BackedIsWatched(sys: System, db: Db, input: Input, r: Response)
    requires Backed(sys, db, input, r) && TrackedOneToOne(db)
    ensures Watched(db, r) == true
  {
    assert Agree(r.paymentAddressId, db.allocations[r.paymentAddressId], db.trackings[r.paymentAddressId].tracking);
  }

  // A plan is made for the request and its policy, on terms that a tracking accepts.
  predicate PlanFits(sys: System, input: Input, plan: Plan) {
    && input.policyId in sys.catalogue && plan.policy == sys.catalogue[input.policyId]
    && plan.policy.chain == input.chain
    && plan.amount == input.amount && plan.customerReference == input.customerReference
    && plan.confirmations >= 1 && plan.expiresAt > plan.issuedAt && OnTerms(sys.terms, plan)
  }

  // From derivation on, the address and the material are those of the policy and the row.
  predicate DerivedFits(sys: System, t: Txn) {
    t.pc.CompleteAllocation? || HasIssued(t.pc) ==> t.derived == DerivedFor(sys, t.plan.policy, t.pick.slot, t.pick.id)
  }

  ghost predicate PhaseOk(sys: System, db: Db, nextId: int, input: Input, phase: Phase) {
    var key := KeyOf(input);
    match phase
    case FindKey(again) => key.Some? && (again ==> key.value in db.keys)
    case FindIssued(again, record) => key.Some? && key.value in db.keys && db.keys[key.value] == record
      && SameRequest(record, input)
    case ReadReplayPolicy(id, row) =>
      && key.Some? && key.value in db.keys && SameRequest(db.keys[key.value], input)
      && db.keys[key.value].paymentAddressId == Some(id)
      && id in db.allocations && db.allocations[id] == row && row.status == Issued
    case ReadPolicy => true
    case InTransaction(t) =>
      && PlanFits(sys, input, t.plan) && DerivedFits(sys, t)
      && t.key == key
      && TxnOk(db, nextId, t)
    case Done(Answer(r)) => Backed(sys, db, input, r)
    case Done(Refusal(e)) => HasGround(sys, db, input, e)
  }

  ghost predicate ProcsOk(sys: System, s: State) {
    forall p | p in s.procs :: PhaseOk(sys, s.db, s.nextId, s.procs[p].input, s.procs[p].phase)
  }

  ghost predicate LocksExclusive(s: State) {
    forall p, q | p in s.procs && q in s.procs && p != q && s.procs[p].phase.InTransaction?
      && s.procs[q].phase.InTransaction? ::
      LocksDisjoint(s.procs[p].phase.txn, s.procs[q].phase.txn)
  }

  ghost predicate Inv(sys: System, s: State) {
    && Consistent(s.db)
    && SequenceAhead(s.db, s.nextId)
    && ProcsOk(sys, s)
    && LocksExclusive(s)
  }

  lemma LookupsKeepPhase(sys: System, s: State, input: Input, phase: Phase, phase': Phase)
    requires ValidSystem(sys) && AllKeysComplete(s.db) && PhaseOk(sys, s.db, s.nextId, input, phase)
    requires !phase.ReadPolicy? && Prepare(sys, s, input, phase, phase')
    ensures PhaseOk(sys, s.db, s.nextId, input, phase') && !phase'.InTransaction?
  {
    var key := KeyOf(input);
    if key.Some? && key.value in s.db.keys { assert KeyComplete(s.db, key.value); }
  }

  predicate NoLocks(t: Txn) {
    t.keyLocks == {} && t.rowLocks == {} && t.cursorLocks == {} && t.addressLocks == {}
  }

  lemma BeginOk(db: Db, nextId: int, plan: Plan, key: Option<Key>, now: Time)
    requires plan.amount > 0 && (key.Some? ==> key.value.chain == plan.policy.chain)
    ensures TxnOk(db, nextId, Begin(plan, key, now)) && NoLocks(Begin(plan, key, now))
  {
  }

  lemma PlanningKeepsPhase(sys: System, s: State, input: Input, issuedAt: Time, now: Time)
    requires ValidSystem(sys) && input.policyId in sys.catalogue
    ensures var phase' := PlanPhase(sys, input, issuedAt, now);
      PhaseOk(sys, s.db, s.nextId, input, phase') && (phase'.InTransaction? ==> NoLocks(phase'.txn))
  {
    var plan := MakePlan(sys.terms, sys.catalogue[input.policyId], input.chain, input.amount, input.customerReference,
      issuedAt);
    if plan.Success? { BeginOk(s.db, s.nextId, plan.value, KeyOf(input), now); }
  }

  lemma LooksKeepPhase(sys: System, s: State, input: Input, phase: Phase, phase': Phase)
    requires ValidSystem(sys) && AllKeysComplete(s.db) && PhaseOk(sys, s.db, s.nextId, input, phase)
    requires Prepare(sys, s, input, phase, phase')
    ensures PhaseOk(sys, s.db, s.nextId, input, phase') && (phase'.InTransaction? ==> NoLocks(phase'.txn))
  {
    if !phase.ReadPolicy? {
      LookupsKeepPhase(sys, s, input, phase, phase');
    } else if input.policyId in sys.catalogue {
      var issuedAt: Time, now: Time :| phase' == PlanPhase(sys, input, issuedAt, now);
      PlanningKeepsPhase(sys, s, input, issuedAt, now);
    }
  }

  lemma StatementKept(sys: System, s: State, p: int, t: Txn, phase': Phase)
    requires RowsOk(s.db) && SequenceAhead(s.db, s.nextId) && TxnOk(s.db, s.nextId, t) == true
    requires Execute(sys, s, p, t, phase')
    ensures Kept(s.db, NextIdAfter(s, t), t, phase') == true
  {
    match t.pc {
      case Claim => KeepClaim(s, t, phase');
      case Reopen => KeepReopen(s, p, t, phase');
      case InsertCursor => KeepInsertCursor(s, t, phase');
      case LockCursor => KeepLockCursor(s, t, phase');
      case InsertAllocation => KeepInsertAllocation(s, t, phase');
      case BumpCursor => KeepBumpCursor(s, t, phase');
      case Derive => KeepDerive(sys, s, t, phase');
      case CompleteAllocation => KeepCompleteAllocation(s, t, phase');
      case CreateTracking => KeepCreateTracking(s, t, phase');
      case CompleteKey => KeepCompleteKey(s, t, phase');
      case MarkFailed => KeepMarkFailed(s, t, phase');
      case Release => KeepRelease(s, t, phase');
      case Rollback =>
    }
  }

  lemma StatementsKeepPhase(sys: System, s: State, p: int, input: Input, t: Txn, phase': Phase)
    requires RowsOk(s.db) && SequenceAhead(s.db, s.nextId) && PhaseOk(sys, s.db, s.nextId, input, InTransaction(t))
    requires Execute(sys, s, p, t, phase')
    ensures PhaseOk(sys, s.db, NextIdAfter(s, t), input, phase') == true
  {
    StatementKept(sys, s, p, t, phase');
    if phase'.InTransaction? { DerivedStays(sys, s, p, t, phase'.txn); }
    ExhaustionHasGround(sys, s, p, t, phase');
    KeptIsOk(sys, s.db, NextIdAfter(s, t), input, t, phase');
  }

  lemma KeptIsOk(sys: System, db: Db, nextId: int, input: Input, t: Txn, phase': Phase)
    requires PlanFits(sys, input, t.plan) == true && t.key == KeyOf(input) && Kept(db, nextId, t, phase') == true
    requires phase'.InTransaction? ==> DerivedFits(sys, phase'.txn) == true
    requires phase' == Done(Refusal(AddressPoolExhausted)) ==> CursorValue(db, SpaceOf(t.plan.policy)) > MAX_SLOT_INDEX
    ensures PhaseOk(sys, db, nextId, input, phase') == true
  {
  }

  // The cursor under the lock reads as it would without the transaction.
  lemma ExhaustionHasGround(sys: System, s: State, p: int, t: Txn, phase': Phase)
    requires TxnOk(s.db, s.nextId, t) && Execute(sys, s, p, t, phase')
    ensures phase' == Done(Refusal(AddressPoolExhausted)) ==>
      CursorValue(s.db, SpaceOf(t.plan.policy)) > MAX_SLOT_INDEX
  {
  }

  // Derivation gives what the policy and the row make; no later statement changes it.
  lemma DerivedStays(sys: System, s: State, p: int, t: Txn, t': Txn)
    requires DerivedFits(sys, t) && Execute(sys, s, p, t, InTransaction(t'))
    ensures DerivedFits(sys, t')
  {
  }

  lemma NextIdGrows(sys: System, db: Db, nextId: int, input: Input, phase: Phase)
    requires PhaseOk(sys, db, nextId, input, phase)
    ensures PhaseOk(sys, db, nextId + 1, input, phase)
  {
  }

  // A space whose slots are used up stays so.
  lemma StaysExhausted(sys: System, db: Db, db': Db, policyId: string)
    requires Exhausted(sys, db, policyId) && Grows(db, db') && RowsOk(db') && CursorsAhead(db')
    ensures Exhausted(sys, db', policyId)
  {
    var space := SpaceOf(sys.catalogue[policyId]);
    CursorValueBounds(db', space);
    if space !in db.cursors {
      var slots := SlotsOf(db.allocations, space);
      var id :| id in db.allocations && db.allocations[id].space == space
        && db.allocations[id].slot == CursorValue(db, space) - 1;
      assert id in db'.allocations && db'.allocations[id].space == space;
    }
  }

  lemma GroundStays(sys: System, db: Db, db': Db, input: Input, e: Error)
    requires HasGround(sys, db, input, e) && Grows(db, db') && RowsOk(db') && CursorsAhead(db')
    ensures HasGround(sys, db', input, e) == true
  {
    if e.AddressPoolExhausted? { StaysExhausted(sys, db, db', input.policyId); }
  }

  // What a request has read or been told stays true when the tables grow.
  lemma PhaseSurvivesGrowth(sys: System, db: Db, db': Db, nextId: int, input: Input, phase: Phase)
    requires PhaseOk(sys, db, nextId, input, phase) && Grows(db, db') && RowsOk(db') && CursorsAhead(db')
    requires phase.InTransaction? ==> TxnOk(db', nextId, phase.txn)
    ensures PhaseOk(sys, db', nextId, input, phase)
  {
    if phase.Done? && phase.outcome.Refusal? { GroundStays(sys, db, db', input, phase.outcome.error); }
  }

  lemma CommitKeepsOther(sys: System, db: Db, nextId: int, t: Txn, input: Input, phase: Phase)
    requires Consistent(db) && TxnOk(db, nextId, t) && t.pc == Commit
    requires PhaseOk(sys, db, nextId, input, phase) && (phase.InTransaction? ==> LocksDisjoint(t, phase.txn))
    ensures PhaseOk(sys, Overlay(db, t.written), nextId, input, phase)
  {
    CommitIsAtomic(db, nextId, t);
    IssueGrows(db, IssuanceOf(t));
    IssueKeepsRows(db, IssuanceOf(t));
    IssueKeepsCursorsAhead(db, IssuanceOf(t));
    if phase.InTransaction? { OthersSurviveCommit(db, nextId, t, phase.txn); }
    PhaseSurvivesGrowth(sys, db, Overlay(db, t.written), nextId, input, phase);
  }

  lemma CommitIsBacked(sys: System, db: Db, nextId: int, input: Input, t: Txn)
    requires ValidSystem(sys) && Consistent(db) && PhaseOk(sys, db, nextId, input, InTransaction(t)) && t.pc == Commit
    ensures t.pick.id in t.written.allocations && t.written.allocations[t.pick.id].details.Some?
    ensures Backed(sys, Overlay(db, t.written), input,
                   ResponseOf(t.plan.policy, t.pick.id, t.written.allocations[t.pick.id], false))
  {
    CommitIsAtomic(db, nextId, t);
    IssueByTable(db, IssuanceOf(t));
  }

  lemma CommitKeepsDb(sys: System, s: State, p: int, acknowledged: bool, s': State)
    requires Inv(sys, s) && DoCommit(s, p, acknowledged, s')
    ensures Consistent(s'.db) == true && Grows(s.db, s'.db) == true && SequenceAhead(s'.db, s'.nextId) == true
  {
    var t := s.procs[p].phase.txn;
    ProcessOk(sys, s, p);
    CommitIsAtomic(s.db, s.nextId, t);
    CommitTakesOldId(s.db, s.nextId, t);
    IssueKeepsConsistent(s.db, IssuanceOf(t));
    IssueKeepsSequence(s.db, IssuanceOf(t), s.nextId);
  }

  lemma CommitTakesOldId(db: Db, nextId: int, t: Txn)
    requires TxnOk(db, nextId, t) && t.pc == Commit
    ensures t.pick.id < nextId
  {
  }

  lemma CommitKeepsProcs(sys: System, s: State, p: int, acknowledged: bool, s': State)
    requires ValidSystem(sys) && Inv(sys, s) && DoCommit(s, p, acknowledged, s')
    ensures ProcsOk(sys, s')
  {
    var t := s.procs[p].phase.txn;
    assert PhaseOk(sys, s.db, s.nextId, s.procs[p].input, s.procs[p].phase);
    CommitIsBacked(sys, s.db, s.nextId, s.procs[p].input, t);
    forall q | q in s'.procs
      ensures PhaseOk(sys, s'.db, s'.nextId, s'.procs[q].input, s'.procs[q].phase)
    {
      if q != p {
        assert PhaseOk(sys, s.db, s.nextId, s.procs[q].input, s.procs[q].phase);
        CommitKeepsOther(sys, s.db, s.nextId, t, s.procs[q].input, s.procs[q].phase);
      }
    }
  }

  // A poll moves a tracking on within its terms, which is all that issuance looks at.
  lemma PollKeepsInv(sys: System, s: State, id: int, row: TrackingRow, s': State)
    requires Inv(sys, s) && DoSavePoll(s, id, row, s')
    ensures Inv(sys, s') && Grows(s.db, s'.db)
  {
    PollKeepsConsistent(s.db, id, row);
    forall p | p in s'.procs
      ensures PhaseOk(sys, s'.db, s'.nextId, s'.procs[p].input, s'.procs[p].phase)
    {
      assert PhaseOk(sys, s.db, s.nextId, s.procs[p].input, s.procs[p].phase);
      PollKeepsPhase(sys, s.db, s.nextId, id, row, s.procs[p].input, s.procs[p].phase);
    }
  }

  lemma PollKeepsConsistent(db: Db, id: int, row: TrackingRow)
    requires Consistent(db) && id in db.trackings
    requires PaymentReceiptTracking.TermsOf(row.tracking) == PaymentReceiptTracking.TermsOf(db.trackings[id].tracking)
    ensures Consistent(db.(trackings := db.trackings[id := row]))
      && Grows(db, db.(trackings := db.trackings[id := row]))
  {
    var db' := db.(trackings := db.trackings[id := row]);
    SameTermsAgree(id, db.allocations[id], db.trackings[id].tracking, row.tracking);
    forall key | key in db'.keys ensures KeyComplete(db', key) { assert KeyComplete(db, key); }
  }

  lemma SameTermsAgree(id: int, row: AllocationRow, t: PaymentReceiptTracking.Tracking,
      u: PaymentReceiptTracking.Tracking)
    requires PaymentReceiptTracking.TermsOf(t) == PaymentReceiptTracking.TermsOf(u)
    ensures Agree(id, row, t) == Agree(id, row, u)
  {
    assert PaymentReceiptTracking.TermsOf(t).paymentAddressId == PaymentReceiptTracking.TermsOf(u).paymentAddressId;
  }

  lemma PollKeepsPhase(sys: System, db: Db, nextId: int, id: int, row: TrackingRow, input: Input, phase: Phase)
    requires PhaseOk(sys, db, nextId, input, phase)
    ensures PhaseOk(sys, db.(trackings := db.trackings[id := row]), nextId, input, phase)
  {
  }

  // A step of one process that leaves the tables alone.
  lemma LocalStepKeepsInv(sys: System, s: State, p: int, phase': Phase, nextId': int)
    requires Inv(sys, s) && p in s.procs && (nextId' == s.nextId || nextId' == s.nextId + 1)
    requires PhaseOk(sys, s.db, nextId', s.procs[p].input, phase')
    requires phase'.InTransaction? ==> forall q | Other(s, p, q) :: LocksDisjoint(phase'.txn, s.procs[q].phase.txn)
    ensures Inv(sys, s.(procs := WithPhase(s, p, phase'), nextId := nextId'))
  {
    var s' := s.(procs := WithPhase(s, p, phase'), nextId := nextId');
    forall q | q in s'.procs
      ensures PhaseOk(sys, s'.db, s'.nextId, s'.procs[q].input, s'.procs[q].phase)
    {
      if q != p {
        assert PhaseOk(sys, s.db, s.nextId, s.procs[q].input, s.procs[q].phase);
        if nextId' != s.nextId { NextIdGrows(sys, s.db, s.nextId, s.procs[q].input, s.procs[q].phase); }
      }
    }
    forall a, b | a in s'.procs && b in s'.procs && a != b && s'.procs[a].phase.InTransaction?
      && s'.procs[b].phase.InTransaction?
      ensures LocksDisjoint(s'.procs[a].phase.txn, s'.procs[b].phase.txn)
    {
      assert a == p ==> Other(s, p, b);
      assert b == p ==> Other(s, p, a);
    }
  }

  lemma ProcessOk(sys: System, s: State, p: int)
    requires Inv(sys, s) && p in s.procs
    ensures PhaseOk(sys, s.db, s.nextId, s.procs[p].input, s.procs[p].phase)
    ensures s.procs[p].phase.InTransaction? ==> TxnOk(s.db, s.nextId, s.procs[p].phase.txn)
  {
  }

  lemma RunLocksDisjoint(sys: System, s: State, p: int, t': Txn, q: int)
    requires Inv(sys, s) && p in s.procs && s.procs[p].phase.InTransaction? && !Waiting(s, p)
    requires Execute(sys, s, p, s.procs[p].phase.txn, InTransaction(t')) && Other(s, p, q)
    ensures LocksDisjoint(t', s.procs[q].phase.txn)
  {
    ProcessOk(sys, s, q);
    var u := s.procs[q].phase.txn;
    assert LocksDisjoint(s.procs[p].phase.txn, u);
    RowLocksAreOld(s.db, s.nextId, u);
    if s.procs[p].phase.txn.pc.InsertCursor? { PendingCursorsAreLocked(s, p, s.procs[p].phase.txn, q); }
    StatementTakesFreeLocks(sys, s, p, s.procs[p].phase.txn, t', q);
  }

  lemma RunKeepsInv(sys: System, s: State, p: int, s': State)
    requires Inv(sys, s) && DoRun(sys, s, p, s')
    ensures Inv(sys, s')
  {
    var t := s.procs[p].phase.txn;
    var phase' :| Execute(sys, s, p, t, phase')
      && s' == s.(procs := WithPhase(s, p, phase'), nextId := NextIdAfter(s, t));
    ProcessOk(sys, s, p);
    StatementsKeepPhase(sys, s, p, s.procs[p].input, t, phase');
    forall q | phase'.InTransaction? && Other(s, p, q)
      ensures LocksDisjoint(phase'.txn, s.procs[q].phase.txn)
    {
      RunLocksDisjoint(sys, s, p, phase'.txn, q);
    }
    LocalStepKeepsInv(sys, s, p, phase', NextIdAfter(s, t));
  }

  lemma LookKeepsInv(sys: System, s: State, p: int, s': State)
    requires ValidSystem(sys) && Inv(sys, s) && DoLook(sys, s, p, s')
    ensures Inv(sys, s')
  {
    var phase' :| Prepare(sys, s, s.procs[p].input, s.procs[p].phase, phase')
      && s' == s.(procs := WithPhase(s, p, phase'));
    assert PhaseOk(sys, s.db, s.nextId, s.procs[p].input, s.procs[p].phase);
    LooksKeepPhase(sys, s, s.procs[p].input, s.procs[p].phase, phase');
    LocalStepKeepsInv(sys, s, p, phase', s.nextId);
  }

  lemma ArriveKeepsInv(sys: System, s: State, p: int, input: Input, s': State)
    requires Inv(sys, s) && DoArrive(s, p, input, s')
    ensures Inv(sys, s')
  {
    forall q | q in s'.procs ensures PhaseOk(sys, s'.db, s'.nextId, s'.procs[q].input, s'.procs[q].phase) {
      if q != p { assert PhaseOk(sys, s.db, s.nextId, s.procs[q].input, s.procs[q].phase); }
    }
  }

  lemma CommitKeepsInv(sys: System, s: State, p: int, acknowledged: bool, s': State)
    requires ValidSystem(sys) && Inv(sys, s) && DoCommit(s, p, acknowledged, s')
    ensures Inv(sys, s')
  {
    CommitKeepsDb(sys, s, p, acknowledged, s');
    CommitKeepsProcs(sys, s, p, acknowledged, s');
  }

  lemma NextKeepsInv(sys: System, s: State, a: Action, s': State)
    requires ValidSystem(sys) && Inv(sys, s) && Next(sys, s, a, s')
    ensures Inv(sys, s')
  {
    match a {
      case Arrive(p, input) => ArriveKeepsInv(sys, s, p, input, s');
      case Look(p) => LookKeepsInv(sys, s, p, s');
      case Run(p) => RunKeepsInv(sys, s, p, s');
      case Break(p) => LocalStepKeepsInv(sys, s, p, Done(Refusal(DependencyFailure)), s.nextId);
      case CommitTxn(p, acknowledged) => CommitKeepsInv(sys, s, p, acknowledged, s');
      case SavePoll(id, row) => PollKeepsInv(sys, s, id, row, s');
    }
  }

  // One issuance for a configured policy, on its terms, at the address derived for its slot and id.
  ghost predicate Issues(sys: System, db: Db, db': Db) {
    exists i :: Enabled(db, i) && Configured(sys, i) && db' == Issue(db, i)
  }

  predicate Configured(sys: System, i: Issuance) {
    && i.plan.policy.id in sys.catalogue && sys.catalogue[i.plan.policy.id] == i.plan.policy
    && OnTerms(sys.terms, i.plan)
    && i.derived == DerivedFor(sys, i.plan.policy, i.pick.slot, i.pick.id)
  }

  // One poll of one tracking, within the terms of its issuance.
  ghost predicate Polls(db: Db, db': Db) {
    exists id: int, row: TrackingRow ::
      && id in db.trackings
      && PaymentReceiptTracking.TermsOf(row.tracking) == PaymentReceiptTracking.TermsOf(db.trackings[id].tracking)
      && db' == db.(trackings := db.trackings[id := row])
  }

  lemma CommitIssues(sys: System, s: State, p: int, acknowledged: bool, s': State)
    requires ValidSystem(sys) && Inv(sys, s) && DoCommit(s, p, acknowledged, s')
    ensures Issues(sys, s.db, s'.db)
  {
    var t := s.procs[p].phase.txn;
    ProcessOk(sys, s, p);
    CommitIsAtomic(s.db, s.nextId, t);
    assert Configured(sys, IssuanceOf(t));
  }

  lemma NextIsAtomic(sys: System, s: State, a: Action, s': State)
    requires ValidSystem(sys) && Inv(sys, s) == true && Next(sys, s, a, s') == true
    ensures s'.db == s.db || Issues(sys, s.db, s'.db) || Polls(s.db, s'.db)
    ensures Grows(s.db, s'.db)
  {
    match a {
      case CommitTxn(p, acknowledged) =>
        CommitIssues(sys, s, p, acknowledged, s');
        CommitKeepsDb(sys, s, p, acknowledged, s');
      case SavePoll(id, row) => PollKeepsInv(sys, s, id, row, s');
      case _ =>
    }
  }

  lemma {:induction false} RunsKeepInv(sys: System, run: seq<State>, i: nat)
    requires ValidSystem(sys) && IsRun(sys, run) && i < |run|
    ensures Inv(sys, run[i])
  {
    if i > 0 {
      RunsKeepInv(sys, run, i - 1);
      assert StepAt(sys, run, i - 1);
      var a :| Next(sys, run[i - 1], a, run[i]);
      NextKeepsInv(sys, run[i - 1], a, run[i]);
    }
  }

  // The action that led to the next state.
  lemma StepTaken(sys: System, run: seq<State>, i: nat) returns (a: Action)
    requires ValidSystem(sys) && IsRun(sys, run) && i + 1 < |run|
    ensures Inv(sys, run[i]) == true && Next(sys, run[i], a, run[i + 1]) == true
  {
    RunsKeepInv(sys, run, i);
    assert StepAt(sys, run, i);
    a :| Next(sys, run[i], a, run[i + 1]);
  }

  /******* What callers can rely on *******/

  lemma InvInRuns(sys: System, run: seq<State>, i: nat)
    requires ValidSystem(sys) && IsRun(sys, run) && i < |run|
    ensures Inv(sys, run[i]) == true
  {
    RunsKeepInv(sys, run, i);
  }

  lemma ConsistentInRuns(sys: System, run: seq<State>, i: nat)
    requires ValidSystem(sys) && IsRun(sys, run) && i < |run|
    ensures Consistent(run[i].db) == true && SlotsDistinct(run[i].db) == true && RowsOk(run[i].db) == true
  {
    RunsKeepInv(sys, run, i);
  }

  // In every run, the committed tables change only by whole issuances, or by a poll that
  // touches nothing but one tracking. No interleaving shows a half-done issuance.
  lemma RunsAreAtomic(sys: System, run: seq<State>, i: nat)
    requires ValidSystem(sys) && IsRun(sys, run) && i + 1 < |run|
    ensures var db, db' := run[i].db, run[i + 1].db;
      && (db' == db || Issues(sys, db, db') || Polls(db, db'))
      && Consistent(db') == true && Grows(db, db') == true
  {
    var a := StepTaken(sys, run, i);
    NextIsAtomic(sys, run[i], a, run[i + 1]);
    ConsistentInRuns(sys, run, i + 1);
  }

  lemma AtomicKeepsDense(sys: System, db: Db, db': Db)
    requires Consistent(db) == true && Dense(db) == true
    requires db' == db || Issues(sys, db, db') || Polls(db, db')
    ensures Dense(db') == true
  {
    if Issues(sys, db, db') {
      var i :| Enabled(db, i) && Configured(sys, i) && db' == Issue(db, i);
      IssueKeepsDense(db, i);
    }
  }

  lemma NextKeepsDense(sys: System, run: seq<State>, i: nat)
    requires ValidSystem(sys) && IsRun(sys, run) && i + 1 < |run| && Dense(run[i].db) == true
    ensures Dense(run[i + 1].db) == true
  {
    ConsistentInRuns(sys, run, i);
    RunsAreAtomic(sys, run, i);
    AtomicKeepsDense(sys, run[i].db, run[i + 1].db);
  }

  lemma {:induction false} RunsKeepDense(sys: System, run: seq<State>, i: nat)
    requires ValidSystem(sys) && IsRun(sys, run) && i < |run| && Dense(run[0].db) == true
    ensures Dense(run[i].db) == true
  {
    if i > 0 {
      RunsKeepDense(sys, run, i - 1);
      NextKeepsDense(sys, run, i - 1);
    }
  }

  // Started from tables without gaps, such as empty ones, the slots of a space are at all
  // times exactly those below its cursor, one allocation each, and fit 31 bits.
  lemma SlotsAreExactlyBelowTheCursor(sys: System, run: seq<State>, i: nat)
    requires ValidSystem(sys) && IsRun(sys, run) && i < |run| && Dense(run[0].db) == true
    ensures Dense(run[i].db) == true && SlotsDistinct(run[i].db) == true && RowsOk(run[i].db) == true
  {
    RunsKeepDense(sys, run, i);
    ConsistentInRuns(sys, run, i);
  }

  predicate WasIssued(db: Db, id: int) { id in db.allocations && db.allocations[id].status == Issued }

  // A row that was issued since `first` has the address and the sweep material that its own
  // policy, slot and id derive, and says of the chain and the asset what its policy says.
  ghost predicate RowDerived(sys: System, first: Db, db: Db, id: int) {
    WasIssued(db, id) && !WasIssued(first, id) ==>
      var row := db.allocations[id];
      && row.details.Some? && row.space.policyId in sys.catalogue
      && var policy, d := sys.catalogue[row.space.policyId], row.details.value;
      && row.space == SpaceOf(policy)
      && DerivedFor(sys, policy, row.slot, id) == Derived(d.address, d.sweepMaterial)
      && d.chain == policy.chain && d.network == policy.network && d.scheme == policy.scheme
      && d.assetReference == policy.assetReference
  }

  lemma IssueIsDerived(sys: System, first: Db, db: Db, i: Issuance, id: int)
    requires Enabled(db, i) && Configured(sys, i) && RowDerived(sys, first, db, id)
    ensures RowDerived(sys, first, Issue(db, i), id) == true
  {
    IssueByTable(db, i);
  }

  lemma DerivedOnce(sys: System, first: Db, run: seq<State>, i: nat, id: int)
    requires ValidSystem(sys) && IsRun(sys, run) && i + 1 < |run| && RowDerived(sys, first, run[i].db, id) == true
    ensures RowDerived(sys, first, run[i + 1].db, id) == true
  {
    RunsAreAtomic(sys, run, i);
    var db, db' := run[i].db, run[i + 1].db;
    if Issues(sys, db, db') {
      var step :| Enabled(db, step) && Configured(sys, step) && db' == Issue(db, step);
      IssueIsDerived(sys, first, db, step, id);
    } else {
      assert db'.allocations == db.allocations;
    }
  }

  // Whatever the interleaving, nobody is given an address derived for another slot.
  lemma {:induction false} IssuedAddressesAreDerived(sys: System, run: seq<State>, i: nat, id: int)
    requires ValidSystem(sys) && IsRun(sys, run) && i < |run|
    ensures RowDerived(sys, run[0].db, run[i].db, id) == true
  {
    if i > 0 {
      IssuedAddressesAreDerived(sys, run, i - 1, id);
      DerivedOnce(sys, run[0].db, run, i - 1, id);
    }
  }

  // A tracking that was created since `first` asks for the depth and the payment window that are
  // configured for its own chain and network, or for one confirmation and seven days.
  ghost predicate TrackedOnTerms(sys: System, first: Db, db: Db, id: int) {
    id in db.trackings && id !in first.trackings ==>
      var t := db.trackings[id].tracking;
      var scope := Scope(t.chain, t.network);
      && IsSetting(sys.terms.confirmations, scope, 1, t.requiredConfirmations)
      && t.expiresAt.Some?
      && IsSetting(sys.terms.expiresAfter, scope, DEFAULT_EXPIRES_AFTER, t.expiresAt.value - t.issuedAt)
  }

  lemma IssueIsOnTerms(sys: System, first: Db, db: Db, i: Issuance, id: int)
    requires Enabled(db, i) && Configured(sys, i) && TrackedOnTerms(sys, first, db, id)
    ensures TrackedOnTerms(sys, first, Issue(db, i), id) == true
  {
    IssueByTable(db, i);
    IssueIsRecorded(db, i);
  }

  lemma PollIsOnTerms(sys: System, first: Db, db: Db, db': Db, id: int)
    requires Polls(db, db') && TrackedOnTerms(sys, first, db, id)
    ensures TrackedOnTerms(sys, first, db', id) == true
  {
    var polled: int, row: TrackingRow :|
      && polled in db.trackings
      && PaymentReceiptTracking.TermsOf(row.tracking) == PaymentReceiptTracking.TermsOf(db.trackings[polled].tracking)
      && db' == db.(trackings := db.trackings[polled := row]);
    SameTermsMeans(row.tracking, db.trackings[polled].tracking);
  }

  lemma SameTermsMeans(t: PaymentReceiptTracking.Tracking, u: PaymentReceiptTracking.Tracking)
    requires PaymentReceiptTracking.TermsOf(t) == PaymentReceiptTracking.TermsOf(u)
    ensures t.chain == u.chain && t.network == u.network && t.requiredConfirmations == u.requiredConfirmations
    ensures t.issuedAt == u.issuedAt && t.expiresAt == u.expiresAt
  {
    assert PaymentReceiptTracking.TermsOf(t).chain == PaymentReceiptTracking.TermsOf(u).chain;
  }

  lemma OnTermsOnce(sys: System, first: Db, run: seq<State>, i: nat, id: int)
    requires ValidSystem(sys) && IsRun(sys, run) && i + 1 < |run| && TrackedOnTerms(sys, first, run[i].db, id) == true
    ensures TrackedOnTerms(sys, first, run[i + 1].db, id) == true
  {
    RunsAreAtomic(sys, run, i);
    var db, db' := run[i].db, run[i + 1].db;
    if Issues(sys, db, db') {
      var step :| Enabled(db, step) && Configured(sys, step) && db' == Issue(db, step);
      IssueIsOnTerms(sys, first, db, step, id);
    } else if Polls(db, db') {
      PollIsOnTerms(sys, first, db, db', id);
    }
  }

  // Issuances give every tracking the terms of its own scope, and polls keep them.
  lemma {:induction false} TrackingsAreOnTerms(sys: System, run: seq<State>, i: nat, id: int)
    requires ValidSystem(sys) && IsRun(sys, run) && i < |run|
    ensures TrackedOnTerms(sys, run[0].db, run[i].db, id) == true
  {
    if i > 0 {
      TrackingsAreOnTerms(sys, run, i - 1, id);
      OnTermsOnce(sys, run[0].db, run, i - 1, id);
    }
  }

  // All requests that succeed with one idempotency key get the same answer, up to the flag
  // that says who was replayed; so a request that differs from them never succeeds.
  lemma OneAnswerPerKey(sys: System, run: seq<State>, i: nat, p: int, q: int)
    requires ValidSystem(sys) && IsRun(sys, run) && i < |run|
    requires p in run[i].procs && run[i].procs[p].phase.Done? && run[i].procs[p].phase.outcome.Answer?
    requires q in run[i].procs && run[i].procs[q].phase.Done? && run[i].procs[q].phase.outcome.Answer?
    requires KeyOf(run[i].procs[p].input).Some? && KeyOf(run[i].procs[p].input) == KeyOf(run[i].procs[q].input)
    ensures var r1, r2 := run[i].procs[p].phase.outcome.response, run[i].procs[q].phase.outcome.response;
      r1.(replayed := false) == r2.(replayed := false)
    ensures run[i].procs[p].input == run[i].procs[q].input
  {
    RunsKeepInv(sys, run, i);
    var s := run[i];
    assert PhaseOk(sys, s.db, s.nextId, s.procs[p].input, s.procs[p].phase);
    assert PhaseOk(sys, s.db, s.nextId, s.procs[q].input, s.procs[q].phase);
  }

  // The refusals that stand for damaged tables are dead code, the others have the ground that they
  // name: the chain, the policy, the amount, a different request under the key, or a space whose
  // slots are used up. Every answer is backed by
  // an issued allocation whose tracking agrees with it. The address that is answered is the one of
  // that row; if the row was issued in the run, it is the one that its own policy, slot and id
  // derive.
  lemma RefusalsAndAnswersAreSound(sys: System, run: seq<State>, i: nat, p: int)
    requires ValidSystem(sys) && IsRun(sys, run) && i < |run|
    requires p in run[i].procs && run[i].procs[p].phase.Done?
    ensures match run[i].procs[p].phase.outcome
      case Refusal(e) => !Damaged(e) && HasGround(sys, run[i].db, run[i].procs[p].input, e)
      case Answer(r) =>
        && Backed(sys, run[i].db, run[i].procs[p].input, r)
        && r.paymentAddressId in run[i].db.trackings
        && Agree(r.paymentAddressId, run[i].db.allocations[r.paymentAddressId],
             run[i].db.trackings[r.paymentAddressId].tracking)
        && Watched(run[i].db, r)
        && (!WasIssued(run[0].db, r.paymentAddressId) ==>
             r.address == DerivedFor(sys, sys.catalogue[run[i].procs[p].input.policyId],
                                     run[i].db.allocations[r.paymentAddressId].slot, r.paymentAddressId).address)
  {
    RunsKeepInv(sys, run, i);
    assert PhaseOk(sys, run[i].db, run[i].nextId, run[i].procs[p].input, run[i].procs[p].phase);
    if run[i].procs[p].phase.outcome.Answer? {
      var r := run[i].procs[p].phase.outcome.response;
      BackedIsWatched(sys, run[i].db, run[i].procs[p].input, r);
      IssuedAddressesAreDerived(sys, run, i, r.paymentAddressId);
    }
  }

  lemma DiffersStays(db: Db, db': Db, input: Input)
    requires Differs(db, input) && Grows(db, db')
    ensures Differs(db', input)
  {
  }

  lemma ProcessStays(sys: System, s: State, a: Action, s': State, p: int)
    requires Next(sys, s, a, s') && p in s.procs
    ensures p in s'.procs && s'.procs[p].input == s.procs[p].input
    ensures s.procs[p].phase.Done? ==> s'.procs[p].phase == s.procs[p].phase
  {
  }

  lemma StaysDifferent(sys: System, s: State, a: Action, s': State, p: int)
    requires ValidSystem(sys) && Inv(sys, s) == true && Next(sys, s, a, s') == true
    requires p in s.procs && Differs(s.db, s.procs[p].input) == true
    ensures p in s'.procs && s'.procs[p].input == s.procs[p].input && Differs(s'.db, s.procs[p].input) == true
  {
    ProcessStays(sys, s, a, s', p);
    NextIsAtomic(sys, s, a, s');
    DiffersStays(s.db, s'.db, s.procs[p].input);
  }

  // Where a request can be whose key is taken for another: it is never answered.
  predicate Unanswered(phase: Phase) {
    match phase
    case FindKey(_) => true
    case ReadPolicy => true
    case InTransaction(t) => t.pc.Claim?
    case Done(Refusal(_)) => true
    case _ => false
  }

  lemma DifferentIsUnanswered(sys: System, s: State, p: int)
    requires Inv(sys, s) && p in s.procs && Differs(s.db, s.procs[p].input)
    ensures Unanswered(s.procs[p].phase)
  {
    ProcessOk(sys, s, p);
    assert KeyComplete(s.db, KeyOf(s.procs[p].input).value);
  }

  lemma DifferenceStaysOnce(sys: System, run: seq<State>, i: nat, p: int)
    requires ValidSystem(sys) && IsRun(sys, run) && i + 1 < |run|
    requires p in run[i].procs && Differs(run[i].db, run[i].procs[p].input) == true
    ensures p in run[i + 1].procs && run[i + 1].procs[p].input == run[i].procs[p].input
    ensures Differs(run[i + 1].db, run[i + 1].procs[p].input) == true
  {
    var a := StepTaken(sys, run, i);
    StaysDifferent(sys, run[i], a, run[i + 1], p);
  }

  lemma {:induction false} DifferenceStays(sys: System, run: seq<State>, i: nat, j: nat, p: int)
    requires ValidSystem(sys) && IsRun(sys, run) && i <= j < |run|
    requires p in run[i].procs && Differs(run[i].db, run[i].procs[p].input) == true
    ensures p in run[j].procs && run[j].procs[p].input == run[i].procs[p].input
    ensures Differs(run[j].db, run[j].procs[p].input) == true
  {
    if i < j {
      DifferenceStays(sys, run, i, j - 1, p);
      DifferenceStaysOnce(sys, run, j - 1, p);
    }
  }

  // From the moment its key belongs to a request with another policy, amount or reference,
  // however far it has come, a request is not answered in any later state.
  lemma DifferentRequestIsNeverAnswered(sys: System, run: seq<State>, i: nat, j: nat, p: int)
    requires ValidSystem(sys) && IsRun(sys, run) && i <= j < |run|
    requires p in run[i].procs && Differs(run[i].db, run[i].procs[p].input)
    ensures p in run[j].procs && run[j].procs[p].input == run[i].procs[p].input
    ensures Differs(run[j].db, run[j].procs[p].input) && Unanswered(run[j].procs[p].phase)
  {
    DifferenceStays(sys, run, i, j, p);
    InvInRuns(sys, run, j);
    DifferentIsUnanswered(sys, run[j], p);
  }

  // It still has to look the key up, or to lose the claim and then look it up; or it has been
  // told of the conflict, unless the database failed it.
  predicate Conflicting(phase: Phase) {
    match phase
    case FindKey(_) => true
    case InTransaction(t) => t.pc.Claim?
    case Done(outcome) => outcome == Refusal(IdempotencyKeyConflict) || outcome == Refusal(DependencyFailure)
    case _ => false
  }

  lemma LookupConflicts(sys: System, s: State, input: Input, phase: Phase, phase': Phase)
    requires Differs(s.db, input) && KeyComplete(s.db, KeyOf(input).value) && phase.FindKey?
    requires Prepare(sys, s, input, phase, phase')
    ensures Conflicting(phase')
  {
  }

  lemma ClaimConflicts(sys: System, s: State, p: int, t: Txn, phase': Phase)
    requires TxnOk(s.db, s.nextId, t) && t.pc.Claim? && t.key.Some? && t.key.value in s.db.keys
    requires Execute(sys, s, p, t, phase')
    ensures Conflicting(phase')
  {
  }

  lemma StaysConflicting(sys: System, s: State, a: Action, s': State, p: int)
    requires Inv(sys, s) == true && Next(sys, s, a, s') == true
    requires p in s.procs && Differs(s.db, s.procs[p].input) == true && Conflicting(s.procs[p].phase) == true
    ensures p in s'.procs && Conflicting(s'.procs[p].phase) == true
  {
    var process := s.procs[p];
    ProcessOk(sys, s, p);
    InvKeyComplete(sys, s, KeyOf(process.input).value);
    if a.Look? && a.p == p && process.phase.FindKey? {
      LookupConflicts(sys, s, process.input, process.phase, s'.procs[p].phase);
    } else if a.Run? && a.p == p && process.phase.InTransaction? {
      ClaimConflicts(sys, s, p, process.phase.txn, s'.procs[p].phase);
    }
  }

  lemma InvKeyComplete(sys: System, s: State, key: Key)
    requires Inv(sys, s) && key in s.db.keys
    ensures KeyComplete(s.db, key) == true
  {
  }

  lemma StaysConflictingOnce(sys: System, run: seq<State>, i: nat, p: int)
    requires ValidSystem(sys) && IsRun(sys, run) && i + 1 < |run|
    requires p in run[i].procs && Differs(run[i].db, run[i].procs[p].input) == true
    requires Conflicting(run[i].procs[p].phase) == true
    ensures p in run[i + 1].procs && Conflicting(run[i + 1].procs[p].phase) == true
  {
    var a := StepTaken(sys, run, i);
    StaysConflicting(sys, run[i], a, run[i + 1], p);
  }

  // A request that has yet to look its key up or to claim it ends in the conflict or in a
  // failure of the database, if it ends. That holds for the second lookup, after a lost claim, too.
  lemma {:induction false} DifferentRequestConflicts(sys: System, run: seq<State>, i: nat, j: nat, p: int)
    requires ValidSystem(sys) && IsRun(sys, run) && i <= j < |run|
    requires p in run[i].procs && Differs(run[i].db, run[i].procs[p].input) == true
    requires Conflicting(run[i].procs[p].phase) == true
    ensures p in run[j].procs && Conflicting(run[j].procs[p].phase) == true
  {
    if i < j {
      DifferentRequestConflicts(sys, run, i, j - 1, p);
      DifferenceStays(sys, run, i, j - 1, p);
      StaysConflictingOnce(sys, run, j - 1, p);
    }
  }

  lemma DoneStaysOnce(sys: System, run: seq<State>, i: nat, p: int)
    requires ValidSystem(sys) && IsRun(sys, run) && i + 1 < |run|
    requires p in run[i].procs && run[i].procs[p].phase.Done?
    ensures p in run[i + 1].procs && run[i + 1].procs[p] == run[i].procs[p]
  {
    var a := StepTaken(sys, run, i);
    ProcessStays(sys, run[i], a, run[i + 1], p);
  }

  lemma {:induction false} DoneStays(sys: System, run: seq<State>, i: nat, j: nat, p: int)
    requires ValidSystem(sys) && IsRun(sys, run) && i <= j < |run|
    requires p in run[i].procs && run[i].procs[p].phase.Done?
    ensures p in run[j].procs && run[j].procs[p] == run[i].procs[p]
  {
    if i < j {
      DoneStays(sys, run, i, j - 1, p);
      DoneStaysOnce(sys, run, j - 1, p);
    }
  }

  lemma ArrivesDifferent(sys: System, s: State, a: Action, s': State, p: int)
    requires Inv(sys, s) == true && Next(sys, s, a, s')
    requires p !in s.procs && p in s'.procs && Differs(s.db, s'.procs[p].input) == true
    ensures Differs(s'.db, s'.procs[p].input) == true
    ensures s'.procs[p].phase ==
      if s'.procs[p].input.chain in {"bitcoin", "ethereum"} then FindKey(false) else Done(Refusal(ChainNotSupported))
  {
  }

  // In particular when the key was taken before the request arrived.
  lemma LateComerConflicts(sys: System, run: seq<State>, i: nat, j: nat, p: int)
    requires ValidSystem(sys) && IsRun(sys, run) && i < j < |run|
    requires p !in run[i].procs && p in run[i + 1].procs
    requires Differs(run[i].db, run[i + 1].procs[p].input) == true
    ensures p in run[j].procs
    ensures if run[i + 1].procs[p].input.chain in {"bitcoin", "ethereum"} then Conflicting(run[j].procs[p].phase)
            else run[j].procs[p].phase == Done(Refusal(ChainNotSupported))
  {
    var a := StepTaken(sys, run, i);
    ArrivesDifferent(sys, run[i], a, run[i + 1], p);
    if run[i + 1].procs[p].phase.Done? {
      DoneStays(sys, run, i + 1, j, p);
    } else {
      DifferentRequestConflicts(sys, run, i + 1, j, p);
    }
  }

  // The unique index on the slots of a space never has to refuse an insert: the slot that a
  // transaction takes under the cursor lock is neither stored nor being inserted elsewhere.
  lemma SlotIsFree(sys: System, s: State, p: int)
    requires Inv(sys, s) && p in s.procs && s.procs[p].phase.InTransaction?
      && s.procs[p].phase.txn.pc == InsertAllocation
    ensures var t := s.procs[p].phase.txn;
      var space := SpaceOf(t.plan.policy);
      && (forall id | id in SeenAllocations(s, t) && SeenAllocations(s, t)[id].space == space ::
           SeenAllocations(s, t)[id].slot < t.pick.slot)
      && (forall q, id | Other(s, p, q) && id in s.procs[q].phase.txn.written.allocations
                         && s.procs[q].phase.txn.written.allocations[id].space == space ::
           s.procs[q].phase.txn.written.allocations[id].slot < t.pick.slot)
  {
    var t := s.procs[p].phase.txn;
    assert TxnOk(s.db, s.nextId, t) by { assert PhaseOk(sys, s.db, s.nextId, s.procs[p].input, s.procs[p].phase); }
    CursorValueBounds(s.db, SpaceOf(t.plan.policy));
    forall q, id | Other(s, p, q) && id in s.procs[q].phase.txn.written.allocations
                   && s.procs[q].phase.txn.written.allocations[id].space == SpaceOf(t.plan.policy)
      ensures s.procs[q].phase.txn.written.allocations[id].slot < t.pick.slot
    {
      var u := s.procs[q].phase.txn;
      assert TxnOk(s.db, s.nextId, u) by { assert PhaseOk(sys, s.db, s.nextId, s.procs[q].input, s.procs[q].phase); }
      assert LocksDisjoint(t, u);
      OtherSlotIsBelow(s.db, s.nextId, u, id, SpaceOf(t.plan.policy));
    }
  }

  lemma OtherSlotIsBelow(db: Db, nextId: int, u: Txn, id: int, space: Space)
    requires RowsOk(db) && CursorsAhead(db) && TxnOk(db, nextId, u)
    requires id in u.written.allocations && u.written.allocations[id].space == space && space !in u.cursorLocks
    ensures u.written.allocations[id].slot < CursorValue(db, space)
  {
    CursorValueBounds(db, space);
  }

  // The guards of the later statements are there for damaged tables only. A transaction that
  // has its slot is refused by nothing but bad material, an address that is already issued, or
  // a payment window that ends at the zero time, which no clock past the zero time gives.
  lemma GuardsNeverFire(sys: System, s: State, p: int, phase': Phase)
    requires Inv(sys, s) && p in s.procs && s.procs[p].phase.InTransaction?
    requires Execute(sys, s, p, s.procs[p].phase.txn, phase')
    ensures var t := s.procs[p].phase.txn;
      && (t.pc.CompleteKey? || t.pc.MarkFailed? || t.pc.Release? ==> phase'.InTransaction?)
      && (t.pc.CreateTracking? ==> (phase'.InTransaction? <==> t.plan.expiresAt != ZERO_TIME))
      && (t.pc.CreateTracking? && t.plan.issuedAt > ZERO_TIME ==> phase'.InTransaction?)
      && (t.pc.CompleteAllocation? ==>
           (phase'.InTransaction? <==>
            t.derived.sweepMaterial != "" && !AddressIssued(s.db.allocations, AddressOf(DetailsOf(t.plan, t.derived)))))
  {
    var t := s.procs[p].phase.txn;
    ProcessOk(sys, s, p);
    if t.pc.CreateTracking? {
      CreateTrackingAccepted(s, t);
      TermsAreUsable(sys, s, p);
    } else if t.pc.CompleteAllocation? {
      CompleteAllocationAccepted(s, t);
    } else if t.pc.CompleteKey? || t.pc.MarkFailed? || t.pc.Release? {
      OwnRowsAccepted(s, t);
    }
  }

  lemma TermsAreUsable(sys: System, s: State, p: int)
    requires Inv(sys, s) && p in s.procs && s.procs[p].phase.InTransaction? && s.procs[p].phase.txn.pc.CreateTracking?
    ensures var t := s.procs[p].phase.txn;
      && (TrackingOf(t.plan, t.pick.id, t.derived).Success? <==> t.plan.expiresAt != ZERO_TIME)
      && t.plan.expiresAt > t.plan.issuedAt
  {
    ProcessOk(sys, s, p);
  }

  lemma OwnRowsAccepted(s: State, t: Txn)
    requires TxnOk(s.db, s.nextId, t)
    ensures t.pc.CompleteKey? ==> AfterCompleteKey(s, t).InTransaction?
    ensures t.pc.MarkFailed? ==> AfterMarkFailed(s, t).InTransaction?
    ensures t.pc.Release? ==> AfterRelease(s, t).InTransaction?
  {
  }

  lemma CompleteAllocationAccepted(s: State, t: Txn)
    requires RowsOk(s.db) && TxnOk(s.db, s.nextId, t) && t.pc.CompleteAllocation?
    ensures AfterCompleteAllocation(s, t).InTransaction? <==>
      t.derived.sweepMaterial != "" && !AddressIssued(s.db.allocations, AddressOf(DetailsOf(t.plan, t.derived)))
  {
    PrivateRowIssuesNothing(s.db.allocations, t.pick.id, RowAt(t), AddressOf(DetailsOf(t.plan, t.derived)));
    OnePut(s.db.allocations, t.pick.id, RowAt(t));
  }

  lemma PrivateRowIssuesNothing(rows: map<int, AllocationRow>, id: int, row: AllocationRow, a: Address)
    requires row.details.None? && (id in rows ==> rows[id].details.None?)
    ensures AddressIssued(rows[id := row], a) <==> AddressIssued(rows, a)
  {
    if other :| other in rows && rows[other].details.Some? && AddressOf(rows[other].details.value) == a {
      assert other in rows[id := row] && rows[id := row][other] == rows[other];
    }
  }

  lemma CreateTrackingAccepted(s: State, t: Txn)
    requires RowsOk(s.db) && TrackedOneToOne(s.db) && TxnOk(s.db, s.nextId, t) && t.pc.CreateTracking?
    ensures AfterCreateTracking(s, t).InTransaction? <==> TrackingOf(t.plan, t.pick.id, t.derived).Success?
  {
    NoPut(s.db.trackings);
    var a := AddressOf(DetailsOf(t.plan, t.derived));
    assert t.pick.id !in s.db.trackings;
    forall id | id in s.db.trackings ensures AddressOfTracking(s.db.trackings[id].tracking) != a {
      assert Agree(id, s.db.allocations[id], s.db.trackings[id].tracking);
    }
  }

  /******* Waiting *******/

  // How far a transaction has come. A reopened slot skips the cursor statements.
  function Progress(pc: Pc): nat {
    match pc
    case Claim => 0
    case Reopen => 1
    case InsertCursor => 2
    case LockCursor => 3
    case InsertAllocation => 4
    case BumpCursor => 5
    case Derive => 6
    case MarkFailed => 7
    case CompleteAllocation => 7
    case Release => 8
    case CreateTracking => 8
    case CompleteKey => 9
    case Rollback => 10
    case Commit => 10
  }

  lemma LocksTellProgress(db: Db, nextId: int, u: Txn)
    requires TxnOk(db, nextId, u)
    ensures u.keyLocks != {} ==> Progress(u.pc) > 0
    ensures forall space | space in u.cursorLocks ::
      Progress(u.pc) >= 3 && (u.pc == LockCursor ==> space !in db.cursors)
    ensures u.addressLocks != {} ==> Progress(u.pc) >= 8
    ensures u.pc == LockCursor && SpaceOf(u.plan.policy) !in db.cursors ==> SpaceOf(u.plan.policy) in u.cursorLocks
  {
  }

  // A transaction waits only for one that is strictly further on, because keys are locked
  // before cursors and cursors before addresses.
  lemma WaitsForFurther(sys: System, s: State, p: int) returns (q: int)
    requires Inv(sys, s) && Waiting(s, p)
    ensures Other(s, p, q) && Progress(s.procs[q].phase.txn.pc) > Progress(s.procs[p].phase.txn.pc)
  {
    var t := s.procs[p].phase.txn;
    if t.pc.Claim? {
      q :| Other(s, p, q) && t.key.value in s.procs[q].phase.txn.keyLocks;
    } else if t.pc.CompleteAllocation? {
      q :| Other(s, p, q) && AddressOf(DetailsOf(t.plan, t.derived)) in s.procs[q].phase.txn.addressLocks;
    } else if t.pc.InsertCursor? {
      q :| Other(s, p, q) && SpaceOf(t.plan.policy) in s.procs[q].phase.txn.written.cursors;
      ProcessOk(sys, s, q);
      CursorsAreLocked(s.db, s.nextId, s.procs[q].phase.txn);
    } else {
      q :| Other(s, p, q) && SpaceOf(t.plan.policy) in s.procs[q].phase.txn.cursorLocks;
    }
    ProcessOk(sys, s, p);
    ProcessOk(sys, s, q);
    HolderIsFurther(s.db, s.nextId, t, s.procs[q].phase.txn);
  }

  lemma HolderIsFurther(db: Db, nextId: int, t: Txn, u: Txn)
    requires TxnOk(db, nextId, t) && TxnOk(db, nextId, u) && LocksDisjoint(t, u)
    requires || (t.pc.Claim? && t.key.Some? && t.key.value in u.keyLocks)
             || (t.pc.CompleteAllocation? && AddressOf(DetailsOf(t.plan, t.derived)) in u.addressLocks)
             || ((t.pc.InsertCursor? || t.pc.LockCursor?) && SpaceOf(t.plan.policy) in u.cursorLocks)
    ensures Progress(u.pc) > Progress(t.pc)
  {
    LocksTellProgress(db, nextId, t);
    LocksTellProgress(db, nextId, u);
  }

  // So there is no deadlock: whenever a transaction is in progress, one of them need not wait.
  lemma {:induction false} SomeTransactionCanRun(sys: System, s: State, p: int) returns (q: int)
    requires Inv(sys, s) && p in s.procs && s.procs[p].phase.InTransaction?
    ensures q in s.procs && s.procs[q].phase.InTransaction? && !Waiting(s, q)
    decreases 10 - Progress(s.procs[p].phase.txn.pc)
  {
    if Waiting(s, p) {
      var further := WaitsForFurther(sys, s, p);
      q := SomeTransactionCanRun(sys, s, further);
    } else {
      q := p;
    }
  }

  lemma ReopenHasOutcome(s: State, p: int, t: Txn)
    ensures exists phase' :: DoReopen(s, p, t, phase')
  {
    var rows, space, busy := SeenAllocations(s, t), SpaceOf(t.plan.policy), RowsBusy(s, p);
    var ids := set id | id in rows && Reopenable(rows, space, busy, id);
    if some :| some in ids {
      var id := FirstExists(rows, ids, some);
      forall other | other in rows && Reopenable(rows, space, busy, other) ensures other in ids {}
      assert FirstReopenable(rows, space, busy, id);
      assert DoReopen(s, p, t, InTransaction(Reopened(t, id, rows[id])));
    } else {
      forall id | id in rows ensures !Reopenable(rows, space, busy, id) {
        assert id !in ids;
      }
      assert DoReopen(s, p, t, InTransaction(t.(pc := InsertCursor)));
    }
  }

  // A statement that need not wait always has an outcome.
  lemma StatementHasOutcome(sys: System, s: State, p: int, t: Txn)
    requires TxnOk(s.db, s.nextId, t) && t.pc != Commit
    ensures exists phase' :: Execute(sys, s, p, t, phase')
  {
    if t.pc.Reopen? {
      ReopenHasOutcome(s, p, t);
      var phase' :| DoReopen(s, p, t, phase');
      assert Execute(sys, s, p, t, phase');
    } else if t.pc.Claim? {
      if t.key.value in SeenKeys(s, t) {
        assert Execute(sys, s, p, t, FindKey(true));
      } else {
        assert Execute(sys, s, p, t, InTransaction(t.(
          pc := Reopen,
          written := t.written.(keys := t.written.keys[t.key.value := ClaimedRow(t.plan)]),
          keyLocks := t.keyLocks + {t.key.value})));
      }
    } else if t.pc.Derive? {
      assert Execute(sys, s, p, t, InTransaction(t.(pc := MarkFailed, failure := DependencyFailure)));
    } else {
      assert t.pc.InsertCursor? ==> Execute(sys, s, p, t, AfterInsertCursor(s, t));
      assert t.pc.LockCursor? ==> Execute(sys, s, p, t, AfterLockCursor(s, t));
      assert t.pc.InsertAllocation? ==> Execute(sys, s, p, t, AfterInsertAllocation(s, t));
      assert t.pc.BumpCursor? ==> Execute(sys, s, p, t, AfterBumpCursor(s, t));
      assert t.pc.CompleteAllocation? ==> Execute(sys, s, p, t, AfterCompleteAllocation(s, t));
      assert t.pc.CreateTracking? ==> Execute(sys, s, p, t, AfterCreateTracking(s, t));
      assert t.pc.CompleteKey? ==> Execute(sys, s, p, t, AfterCompleteKey(s, t));
      assert t.pc.MarkFailed? ==> Execute(sys, s, p, t, AfterMarkFailed(s, t));
      assert t.pc.Release? ==> Execute(sys, s, p, t, AfterRelease(s, t));
      assert t.pc.Rollback? ==> Execute(sys, s, p, t, Done(Refusal(t.failure)));
    }
  }
}
