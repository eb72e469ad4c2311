# Payrune: verified model of issuance, polling, delivery and encodings

Payrune hands out payment addresses, watches the chains for payments to them and announces
changes of status by webhook. Its guarantees rest on a few transactional tables, a status
machine and some arithmetic and encodings. This project models these in Dafny and proves what
they promise.

`dafny verify dfyconfig.toml` checks everything.

**Address issuance.** `AtomicIssuance` is one issuance as a single step on the tables.
`AllocateUseCase`, over the stores in `AllocationStore` and `TrackingStore` and the database in
`Stores`, is the use case statement by statement for one request; it is proved to make such a
step or none. `IssuanceMachine` interleaves the SQL statements of any number of requests, with
blocking unique inserts, `FOR UPDATE` on cursors and `SKIP LOCKED`; `IssuanceInvariant`,
`IssuanceRefinement` and `IssuanceRuns` prove that every run refines atomic steps, and what
follows for callers; `IssuanceProgress` that every request ends, `IssuanceStalls` when a policy can
issue nothing more.

**Receipt polling.** `PaymentReceiptTracking` is the status machine, `ReceiptHistory` what a
tracking says about all polls behind it, `StatusPath` what its notifications say. `PollingCycle`,
over `ReceiptObservation` for what is asked of the chain and what comes of the answers, is one
cycle statement by statement; `PollingRuns` is any number of workers under leases.

**Webhook delivery.** `Delivery`, `OutboxStore`, `WebhookCycle` and `WebhookRuns`, in the same
division. `LeaseQueue` is the claim order that both queues share; `PollingFairness` and
`WebhookFairness` bound how long a row is passed over.

`CyclesAreRuns` puts the parts together: an issuance, a polling cycle and a dispatch cycle, as
their code leaves the tables, are steps of the interleaved machines.

**Arithmetic and encodings.** `BitcoinTotals`, `EsploraPaging` and `ReceiptObservers` for the
observers; `HdPath` for derivation paths (section "The key tree" of BIP 32); `Hex` (section 8 of
RFC 4648), `SourceRef` and `Create2` (section "Specification" of EIP-1014) for CREATE2.

## What is taken as given

- The schema of `deployments/postgresql/migrations`: the key table is keyed by chain and key
  (migration 000008), trackings are unique by payment address id and by chain and address
  (000003), allocations by chain and address (000002), notifications start with 0 attempts
  (000007). The unique index on slots (000012) is not used: it is proved never to refuse.
- Ids come from sequences: positive, increasing, not given back by a rollback. The row id of a
  tracking, which only breaks ties in the claim order, is stood for by the payment address id.
- The tables a run of issuance starts from are `Consistent`, and the id sequence is past them:
  slots and addresses are distinct, cursors ahead, keys complete, issued rows and trackings one to
  one, no row reserved. Rows that failed derivation may be there. Empty tables are consistent.
- Statements, commits, the chain and the webhook receiver may fail at any point; a commit may
  also be applied while its acknowledgement is lost. Derivation may fail too; otherwise it is an
  arbitrary function of the policy, the slot and the payment address id.
- Requests arrive trimmed, as `internal/adapters/inbound/http/controllers/allocate_payment_address_controller.go:69-70`
  sends them, and the catalogue maps each id to the policy of that id, normalized as
  `internal/adapters/outbound/policy/address_policy_reader.go:24-50` does it, and does not change.
- One clock that does not go back. A cycle reads it before its claim reaches the database.
- In `PollingRuns` and `WebhookRuns`, a worker saves a row before its lease on that row ends:
  the step `Save` has this as its guard. The saves themselves compare only the id. What a save
  after the lease does to a reachable state is said in both modules: whether a payment is still
  remembered or a delivery makes progress, and, by `LateSaveIsHarmlessExactly`, the exact guard
  under which it keeps everything that is proved of the runs. `LateSaveForgetsAPayment` and
  `LateSaveReopensASentRow` are runs in which it does not. The reschedule interval is not negative.

## What the model shows about the code

- `handleDerivationFailure` marks the slot and releases the key, but always returns an error, and
  the unit of work rolls back on every error
  (`internal/adapters/outbound/persistence/postgres/unit_of_work.go:39-42`). Issuance therefore
  never stores a `derivation_failed` row; such rows may stand in the tables at the start, and are
  then reopened first. The fake unit of work of the tests
  (`internal/application/usecases/use_case_test_helpers_test.go:298-321`) does not roll back.
- The listing of an Esplora server is read up to 10000 pages of 25, and then cut off without an
  error: an address with more than 250000 block transactions is read incompletely, and its totals
  lack exactly the money of the rest.
- An address that was once paid in full and then loses the payment keeps the status
  `paid_unconfirmed_reverted` until it is paid again: it can neither expire nor go back.
- Addresses are unique per chain, whatever the network: an address issued on one network of a
  chain is refused on another network of the same chain.
- The two together can stall a policy for good. A refused address leaves no trace in the tables, so
  the next request tries the same slot again. Once the slot at a cursor derives only an address
  that is already issued, as happens to two policies over one extended public key, nothing is ever
  issued for that policy again (`StalledForever`, `SharedAddressStalls`).
- The limit on the attempts of a notification bounds the attempts that are saved. A worker that
  crashes between the call of the receiver and the save leaves the row as it was, and the call is
  made again; these calls are not counted.

## Model

| member | source | states |
|---|---|---|
| IssuanceRuns.RunsAreAtomic | internal/application/usecases/allocate_payment_address_use_case.go:262-407 | In every run of interleaved statements, each change of the committed tables is one whole issuance, for a configured policy at the address derived for its slot and id, or one poll that rewrites one tracking row within its terms; the tables stay consistent, completed keys and issued rows are never altered, cursors never go back |
| IssuanceRuns.SlotsAreExactlyBelowTheCursor | internal/adapters/outbound/persistence/postgres/payment_address_allocation_store.go:276-371 | From tables without gaps, such as empty ones, the slots of every space are in every reachable state exactly those below its cursor, one allocation each, none above 0x7fffffff; aborted transactions leave no gap |
| IssuanceRuns.IssuedAddressesAreDerived | internal/application/usecases/allocate_payment_address_use_case.go:315-372 | In every reachable state, every row issued during the run has the address and the sweep material that derivation gives for its own policy, slot and payment address id, and the chain, network, scheme and asset of that policy, whatever the interleaving |
| IssuanceRuns.TrackingsAreOnTerms | internal/application/usecases/allocate_payment_address_use_case.go:349-372 | In every reachable state, every tracking created during the run requires the positive depth configured for its own chain and network, or one confirmation, and its deadline is the configured positive window after its issue time, or seven days; polls change neither |
| IssuanceRuns.OneAnswerPerKey | internal/application/usecases/allocate_payment_address_use_case.go:41-260 | Over every run, all requests that succeed with one chain and key are the same request and get the same answer, up to the replay flag |
| IssuanceRuns.DifferentRequestConflicts | internal/application/usecases/allocate_payment_address_use_case.go:113-122 | Over every run, a request that has yet to look up or to claim a key standing for another policy, amount or reference ends, if it ends, in the conflict or in a dependency failure; the second lookup after a lost claim included |
| IssuanceRuns.LateComerConflicts | internal/application/usecases/allocate_payment_address_use_case.go:147-189 | A request that arrives when its key already stands for another policy, amount or reference is, in every later state, still looking, or refused with the conflict or a dependency failure, or refused at once for an unsupported chain |
| IssuanceRuns.DifferentRequestIsNeverAnswered | internal/application/usecases/allocate_payment_address_use_case.go:185-189 | From the moment its key stands for another policy, amount or reference, however far it has come, a request is answered in no later state of the run |
| IssuanceRuns.RefusalsAndAnswersAreSound | internal/application/usecases/allocate_payment_address_use_case.go:41-260 | In every reachable state, the refusals for a damaged key table do not occur, and each other one has the ground it names: an unsupported chain, an unknown policy or one of another chain, a disabled policy, an amount that is not positive, a key that stands for a different request, a space without slots left. Every answer tells, field by field, the request, its policy and the issued row its key leads to; its address is that of the row and of the tracking, and for a row issued in the run the one derived for its policy, slot and id |
| IssuanceRuns.SlotIsFree | internal/adapters/outbound/persistence/postgres/payment_address_allocation_store.go:303-371 | The slot taken under the cursor lock is above every stored slot of its space and above every slot another open transaction has written, so the unique slot index never refuses an insert |
| IssuanceRuns.GuardsNeverFire | internal/adapters/outbound/persistence/postgres/payment_address_allocation_store.go:134-208 | A transaction that has its slot is refused by its own statements only for missing sweep material or an address that is already issued: no row-count guard fires, and the receipt terms are refused exactly if the payment window ends at the zero time, which a clock past the zero time excludes |
| IssuanceRuns.SomeTransactionCanRun | internal/application/usecases/allocate_payment_address_use_case.go:280-381 | No deadlock: whenever a transaction is open, some open transaction need not wait |
| IssuanceRuns.WaitsForFurther | internal/adapters/outbound/persistence/postgres/payment_address_allocation_store.go:276-345 | A statement waits only for a transaction that is strictly further on, since keys are locked before cursors and cursors before addresses |
| IssuanceRuns.StatementHasOutcome | internal/application/usecases/allocate_payment_address_use_case.go:280-381 | Every statement that need not wait has an outcome |
| IssuanceProgress.RequestsEnd | internal/application/usecases/allocate_payment_address_use_case.go:41-260 | However requests are interleaved, a request takes at most 16 steps of its own, and once it has taken as many as it had left it is answered or refused |
| IssuanceProgress.CanStep | internal/application/usecases/allocate_payment_address_use_case.go:41-260 | In every state of the invariant a request that has not ended and does not wait has a step of its own that is no failure |
| IssuanceStalls.StalledExactly | internal/adapters/outbound/persistence/postgres/payment_address_allocation_store.go:134-371 | A policy is stalled, that is no failed slot and no fresh slot of it derives an address that is neither empty nor issued on the chain, exactly if no issuance for it is possible on the tables |
| IssuanceStalls.StalledForever | internal/application/usecases/allocate_payment_address_use_case.go:409-477 | A stalled policy stays stalled in every later state of a run: its cursor does not move and no row of its space is added, reopened or issued |
| IssuanceStalls.SharedAddressStalls | internal/adapters/outbound/persistence/postgres/payment_address_allocation_store.go:134-181 | An issuance stalls any other policy of the chain whose cursor is at the same slot and whose derivation gives the same address there, if it has no failed slot to fall back on |
| IssuanceRuns.NextKeepsInv | internal/application/usecases/allocate_payment_address_use_case.go:41-260 | The system invariant, from private rows and locks to answers already given, is kept by every step of every process |
| IssuanceRuns.CommitKeepsOther | internal/adapters/outbound/persistence/postgres/unit_of_work.go:36-48 | A commit takes nothing away from what any other request has read, locked, written or been told |
| IssuanceRefinement.CommitIsAtomic | internal/application/usecases/allocate_payment_address_use_case.go:262-407 | Refinement: the private rows of a transaction that is about to commit are those of one issuance, which is possible on the tables as they are at that moment |
| IssuanceRefinement.OthersSurviveCommit | internal/adapters/outbound/persistence/postgres/unit_of_work.go:36-48 | A commit keeps the invariant of every other open transaction with disjoint locks |
| IssuanceRefinement.CursorValueStable | internal/adapters/outbound/persistence/postgres/payment_address_allocation_store.go:276-302 | What a cursor reads, or would be created with, moves only for the transaction that takes a fresh slot from it; reopening never moves it |
| IssuanceRefinement.StatementTakesFreeLocks | internal/adapters/outbound/persistence/postgres/payment_address_allocation_store.go:210-345 | Row, cursor, key and address locks of different transactions stay disjoint, also when an insert that gives way to a conflict passes a committed cursor row which another transaction has locked |
| IssuanceRuns.StatementKept | internal/application/usecases/allocate_payment_address_use_case.go:280-381 | Every statement of a transaction, whatever the others have committed meanwhile, leaves private rows that are a part of one possible issuance, under locks on all it relies on; it ends only in a second lookup of a committed key or in exhaustion, dependency or internal failure |
| AtomicIssuance.IssueKeepsConsistent | internal/application/usecases/allocate_payment_address_use_case.go:262-407 | One issuance keeps slots distinct and in range, cursors ahead, no row reserved, allocations and trackings one to one and in agreement, addresses unique, keys complete and each leading to its own allocation |
| AtomicIssuance.IssueKeepsDense | internal/adapters/outbound/persistence/postgres/payment_address_allocation_store.go:276-371 | Cursors hand out every slot once and in order, with no gap |
| AtomicIssuance.SlotsAfterIssue | internal/adapters/outbound/persistence/postgres/payment_address_allocation_store.go:276-371 | An issuance adds exactly its own slot to its own space |
| AtomicIssuance.IssueKeepsTrackings | internal/domain/entities/payment_address_allocation.go:106-146 | Every issued allocation has exactly one tracking, and no other allocation has one, with the same address, chain, network, asset, policy and amount |
| AtomicIssuance.IssueIsRecorded | internal/application/usecases/allocate_payment_address_use_case.go:315-381 | Column by column, the allocation an issuance leaves is issued to the request at the slot, the address and the material, under the policy; its tracking asks for the amount, the depth and the deadline of the plan, has seen nothing and is due at once; its key names the request and the allocation |
| IssuancePolicy.PlanHasUsableTerms | internal/domain/policies/payment_address_allocation_issuance.go:49-153 | Whatever is configured, a plan asks for at least one confirmation and a window after issuance; a positive setting counts, otherwise it is one confirmation and seven days; planning succeeds exactly for an enabled policy of the chain with a positive amount |
| Stores.Database.Begin | internal/adapters/outbound/persistence/postgres/unit_of_work.go:28-35 | A transaction starts from the committed tables |
| Stores.Database.Commit | internal/adapters/outbound/persistence/postgres/unit_of_work.go:36-48 | All rows of the transaction replace the committed ones or none do; a lost acknowledgement leaves either, and an error is reported |
| Stores.Transaction.MaxSlotPlusOne | internal/adapters/outbound/persistence/postgres/payment_address_allocation_store.go:285-302 | One more than the highest slot of the space, or zero without rows |
| AllocationStore.PaymentAddressAllocationStore.FindIssuedById | internal/adapters/outbound/persistence/postgres/payment_address_allocation_store.go:23-132 | Finds a row exactly if it exists and is issued |
| AllocationStore.PaymentAddressAllocationStore.ReopenFailedReservation | internal/adapters/outbound/persistence/postgres/payment_address_allocation_store.go:210-274 | Takes over the failed row of the space with the earliest reservation, ties by id, keeping its slot and nothing else of the earlier request; reports none exactly when there is none |
| AllocationStore.PaymentAddressAllocationStore.ReserveFresh | internal/adapters/outbound/persistence/postgres/payment_address_allocation_store.go:276-371 | The new row is reserved for the request at the slot of the cursor, which is left one further on; exhaustion is reported only beyond 0x7fffffff |
| AllocationStore.PaymentAddressAllocationStore.Complete | internal/adapters/outbound/persistence/postgres/payment_address_allocation_store.go:134-181 | Only a reserved row is completed, and only with an address no other row has; it is then issued with the given details, for the slot and the request it was reserved for; a failure changes nothing |
| AllocationStore.PaymentAddressAllocationStore.MarkDerivationFailed | internal/adapters/outbound/persistence/postgres/payment_address_allocation_store.go:183-208 | Only a reserved row is marked as failed, and keeps its slot and its request; a failure changes nothing |
| AllocationStore.PaymentAddressIdempotencyStore.FindByKey | internal/adapters/outbound/persistence/postgres/payment_address_idempotency_store.go:24-85 | Returns the row of the key, or none for an empty or unknown key |
| AllocationStore.PaymentAddressIdempotencyStore.Claim | internal/adapters/outbound/persistence/postgres/payment_address_idempotency_store.go:87-138 | A claim succeeds only for a key without a row and leaves it incomplete; a taken key is told apart from other failures |
| AllocationStore.PaymentAddressIdempotencyStore.Complete | internal/adapters/outbound/persistence/postgres/payment_address_idempotency_store.go:140-179 | Only an incomplete claim is completed, once |
| AllocationStore.PaymentAddressIdempotencyStore.Release | internal/adapters/outbound/persistence/postgres/payment_address_idempotency_store.go:181-214 | Only an incomplete claim is released |
| AllocateUseCase.ReserveAllocation | internal/application/usecases/allocate_payment_address_use_case.go:409-448 | A fresh slot is taken exactly when no failed slot is left; the reserved row is the one an issuance may pick |
| AllocateUseCase.HandleDerivationFailure | internal/application/usecases/allocate_payment_address_use_case.go:450-477 | An error is reported in every case, the given one only after the slot is marked and the key released |
| AllocateUseCase.IssueInTransaction | internal/application/usecases/allocate_payment_address_use_case.go:280-381 | A transaction that reaches its end has made exactly the rows of one issuance possible on the tables it started from, at the address derived for the policy, the slot and the id it settled on; allocation, tracking and key record the plan column by column, with its depth and its deadline |
| AllocateUseCase.IssueAllocation | internal/application/usecases/allocate_payment_address_use_case.go:265-407 | All or nothing: success is one whole issuance, failure leaves every table as it was, also after marking and releasing; only a lost acknowledgement can hide an issuance behind a dependency failure |
| AllocateUseCase.LoadReplayedAllocationResponse | internal/application/usecases/allocate_payment_address_use_case.go:147-260 | A replay tells field by field the request, its policy and the issued row the key leads to, above all the address of that row; a miss means the key has no row, a conflict that the request differs; every refusal has the ground it names and nothing is written |
| AllocateUseCase.ReplayTakenKey | internal/application/usecases/allocate_payment_address_use_case.go:113-122 | After a lost claim the second lookup never reports a missing record, and a replay tells the issued row the key leads to |
| AllocateUseCase.Execute | internal/application/usecases/allocate_payment_address_use_case.go:41-145 | A taken key is answered from the tables or refused and nothing is written; a new answer comes with one issuance for an enabled policy of the chain and a positive amount; every answer has the address of its row and of its tracking, a new one the address derived for its slot and id, watched to the depth and for the window configured for its chain and network; every refusal has the ground it names and none reports a damaged table; the tables stay valid |
| AllocateUseCase.RowsMakeAnIssuance | internal/application/usecases/allocate_payment_address_use_case.go:280-381 | The statements of the transaction, table by table, add up to one issuance |
| PaymentReceiptTracking.ValidateIsExact | internal/domain/valueobjects/payment_receipt_observation.go:10-33 | With 64-bit wrapping addition, exactly the non-negative tuples whose totals add up as integers are accepted, and the last two checks never decide |
| ReceiptHistory.ReplayIsHistory | internal/domain/entities/payment_receipt_tracking.go:90-123 | The stored tracking is a fold of its accepted polls: each time stamp is that of the first poll over its threshold, the totals are the last poll's, and the status depends only on the last poll and on whether any poll was paid in full |
| ReceiptHistory.PaymentIsNeverForgotten | internal/domain/entities/payment_receipt_tracking.go:199-216 | After any poll paid in full the status is one of the paid ones and never unpaid again; the tracking expires exactly when no poll was and the last one came at or after the deadline |
| ReceiptHistory.StampsAreOrdered | internal/domain/entities/payment_receipt_tracking.go:107-118 | First observed, paid and confirmed come in this order |
| LeaseQueue.TakeFirst | internal/adapters/outbound/persistence/postgres/payment_receipt_tracking_store.go:128-137 | Taking first rows yields the rows with fewer than the limit ahead of them, each once |
| LeaseQueue.TakenIsFair | internal/adapters/outbound/persistence/postgres/payment_receipt_tracking_store.go:128-137 | At most the limit, each due before every eligible row left behind, and none left while there was room |
| LeaseQueue.CutIsTaken | internal/adapters/outbound/persistence/postgres/payment_receipt_tracking_store.go:128-137 | Any selection that is minimal by due time and id and fills the limit is that same selection |
| TrackingStore.PaymentReceiptTrackingStore.Create | internal/adapters/outbound/persistence/postgres/payment_receipt_tracking_store.go:23-94 | A tracking is created only for a new address id and an untracked address; otherwise nothing changes |
| TrackingStore.PaymentReceiptTrackingStore.ClaimDue | internal/adapters/outbound/persistence/postgres/payment_receipt_tracking_store.go:96-187 | Claims rows that are due, under no live lease, of the asked statuses, chain and network, and not locked elsewhere, minimal by due time and id, at most the limit; exactly these change, by the lease alone, and each is returned once |
| TrackingStore.PaymentReceiptTrackingStore.Save | internal/adapters/outbound/persistence/postgres/payment_receipt_tracking_store.go:189-247 | Column by column, writes what a poll found, the deadline included, to the row with that address id, clears its lease and leaves the terms of the issuance, comparing neither lease nor status |
| TrackingStore.SavedIsWhole | internal/adapters/outbound/persistence/postgres/payment_receipt_tracking_store.go:204-219 | A save within the terms of the issuance stores the whole tracking |
| ReceiptObservation.HeightCache.FetchFor | internal/application/usecases/run_receipt_polling_cycle_use_case.go:358-384 | Each scope is fetched at most once in a cycle and always answered with the first result: a remembered height keeps its value and a remembered failure stays a failure |
| ReceiptObservation.ObserveTracking | internal/application/usecases/run_receipt_polling_cycle_use_case.go:162-245 | The outcome is read off the answers: invalid exactly without an issue time, height unavailable exactly if the remembered height is a failure, failed exactly if the observer failed, update failed exactly if the answer does not validate, and otherwise the answer itself; whoever is observed is observed once, at the height of its scope |
| PollingCycle.SaveTracking | internal/application/usecases/run_receipt_polling_cycle_use_case.go:311-356 | Tracking and notification are saved together or not at all |
| PollingCycle.SaveOutcome | internal/application/usecases/run_receipt_polling_cycle_use_case.go:190-274 | The stored row has the totals and the height of the observation, or the old tracking with the reason of the failure; the notification appears exactly if the status changed, with both statuses, the totals of that observation and the time of the cycle, for the reference of the allocation; the way it is counted follows; an internal failure never arises |
| PollingCycle.ProcessClaimed | internal/application/usecases/run_receipt_polling_cycle_use_case.go:132-159 | Every claimed tracking is saved exactly once, in order, as the answers of the chain about it say, with its notification, and no other row moves |
| PollingCycle.RunCycle | internal/application/usecases/run_receipt_polling_cycle_use_case.go:54-160 | A cycle without an error claims the due rows, saves each of them exactly once and as the logged answers of the chain say, frees the leases, counts claimed = updated + terminal-failed + processing-error, fetches each scope once and observes at one height per scope |
| PollingCycle.CycleTellsItsChanges | internal/application/usecases/run_receipt_polling_cycle_use_case.go:54-356 | A cycle without an error takes only rows that were due, free and asked for, stores for each the totals the chain showed or the reason there are none, and adds exactly one notification for each row whose status changed, in order, with the totals that caused the change and the time of the cycle |
| PollingCycle.UpdateFailureIsStoredExactly | internal/application/usecases/run_receipt_polling_cycle_use_case.go:226-245 | A cycle stores a failed update for a claimed row exactly if the observer gave an answer for it that does not validate |
| PollingCycle.ObserversNeverFailAnUpdate | internal/application/usecases/run_receipt_polling_cycle_use_case.go:226-245 | A cycle whose answers come from the two observers stores no failed update |
| PollingCycle.Execute | internal/application/usecases/run_receipt_polling_cycle_use_case.go:54-160 | A cycle, whether it fails or not, leaves the tables valid for issuance and every tracking within its terms |
| PollingRuns.OutboxFollowsTheStatus | internal/application/usecases/run_receipt_polling_cycle_use_case.go:311-356 | In every lease-respecting run, the notifications of an address form a path from watching to the stored status without gaps or self-loops; there is one for each accepted poll that changed the status and no other, in order, with the statuses around that poll, its observed, confirmed and unconfirmed totals and its time |
| PollingRuns.StoredRowIsItsHistory | internal/domain/entities/payment_receipt_tracking.go:90-123 | In every such run the stored row is what its history of accepted polls says, with ordered time stamps, whatever failed in between |
| PollingRuns.PaidOrExpired | internal/domain/entities/payment_receipt_tracking.go:144-174 | The stored status is a paid one exactly if some accepted poll ever was paid in full, and expired exactly if none was and the last poll came at or after the deadline |
| PollingRuns.PaidStaysPaid | internal/domain/entities/payment_receipt_tracking.go:199-216 | Once paid in full, an address has a paid status in every later state of the run |
| PollingRuns.HistoryIsKept | internal/application/usecases/run_receipt_polling_cycle_use_case.go:45-52 | Histories only grow, and a confirmed or expired tracking never changes |
| PollingRuns.OneHolder | internal/adapters/outbound/persistence/postgres/payment_receipt_tracking_store.go:96-187 | No row is held by two workers under live leases, and a live holder has an up-to-date copy |
| PollingRuns.ClaimIsFair | internal/adapters/outbound/persistence/postgres/payment_receipt_tracking_store.go:96-187 | Every claim that covers a row takes it, or is full of rows that come before it |
| PollingRuns.NoRowIsLost | internal/adapters/outbound/persistence/postgres/payment_receipt_tracking_store.go:128-137 | Whatever happened to its worker, a row waits no longer than until it is due and its lease has ended: from then on every claim whose filters cover it takes it, or fills its limit with rows that come before it |
| PollingFairness.PassedOverAtMost | internal/adapters/outbound/persistence/postgres/payment_receipt_tracking_store.go:96-187 | From any moment of a run on, as long as workers save what they claim before their leases end, the batches that pass over a ready row have together at most as many places as there are rows before it that nobody works on |
| PollingRuns.NextKeepsInv | internal/application/usecases/run_receipt_polling_cycle_use_case.go:162-356 | Every claim, save, failed poll and crash keeps rows, histories, notifications and leases in agreement |
| PollingRuns.LateSaveKeepsThePathExactly | internal/adapters/outbound/persistence/postgres/payment_receipt_tracking_store.go:204-219 | A save after the lease keeps the path exactly when the copied status is still the stored one |
| PollingRuns.LateSaveRemembersPaymentExactly | internal/domain/entities/payment_receipt_tracking.go:90-123 | In every reachable state, a save after the lease leaves a paid status exactly if the stale copy was already paid in full or this poll sees the full payment |
| PollingRuns.LateRowExactly | internal/domain/entities/payment_receipt_tracking.go:90-123 | A save after the lease leaves a row that tells its history, extended by this poll, exactly if the copy still fits the stored row and the stored time of the last poll is not later than this poll |
| PollingRuns.LateSaveIsHarmlessExactly | internal/adapters/outbound/persistence/postgres/payment_receipt_tracking_store.go:204-219 | In every reachable state, a save after the lease keeps everything that holds in lease-respecting runs exactly if the copy still fits the stored row (for an observation: same status, same time stamps up to those this poll sets anyway; for a failed poll: the same tracking up to the note), the row was not polled later than this worker did, and nobody else holds it; then no terminal row is touched |
| PollingRuns.LateSaveForgetsAPayment | internal/adapters/outbound/persistence/postgres/payment_receipt_tracking_store.go:204-219 | A run in which one late save turns a confirmed payment back into a watched address |
| StatusPath.ChangesArePath | internal/domain/entities/payment_receipt_tracking.go:176-197 | The changes of status in a history of accepted polls form a path |
| StatusPath.ChangesTellThePolls | internal/domain/entities/payment_receipt_tracking.go:176-197 | The changes of a history are exactly the polls whose status differs from the one before, in order, each with the totals and the time of its poll |
| StatusPath.SaveKeepsPathExactly | internal/domain/entities/payment_receipt_tracking.go:176-197 | Appending what a save announces keeps a path exactly when the save started from the stored status |
| Delivery.CountIsExactBelowTheLimit | internal/application/ports/outbound/validation.go:217-264 | Below the limit the 32-bit counter is exact and delivery is given up exactly at the limit; the counter is wrong exactly at the highest 32-bit value |
| OutboxStore.NotificationOutboxStore.EnqueueStatusChanged | internal/adapters/outbound/persistence/postgres/payment_receipt_status_notification_outbox_store.go:20-69 | One new pending row without attempts, due at once, with the event and the reference of its allocation; an unknown allocation enqueues nothing |
| OutboxStore.NotificationOutboxStore.ClaimPending | internal/adapters/outbound/persistence/postgres/payment_receipt_status_notification_outbox_store.go:71-141 | Claims rows that are pending, due, under no live lease and not locked elsewhere, minimal by due time and id, at most the limit; exactly these get the lease, and each is returned once, as stored and with the policy of its allocation |
| OutboxStore.NotificationOutboxStore.SaveDeliveryResult | internal/adapters/outbound/persistence/postgres/payment_receipt_status_notification_outbox_store.go:143-212 | Column by column: a delivery writes its time and keeps the attempts and the due time, a retry writes the attempts and the next due time, giving up writes the attempts; each writes its status, clears the lease and leaves what is to be announced, comparing neither lease nor status |
| WebhookCycle.ProcessNotification | internal/application/usecases/run_receipt_webhook_dispatch_cycle_use_case.go:111-165 | The receiver is called exactly once, with the stored notification, if its policy is configured; the row is sent with the time of the call, or counts one more attempt and is given up exactly at the limit, or is due again one delay after the call |
| WebhookCycle.RunCycle | internal/application/usecases/run_receipt_webhook_dispatch_cycle_use_case.go:33-109 | A cycle without an error takes only rows that were pending, due and free, calls the receiver exactly once per row, in order and with the stored notification, and saves each row as its call was answered, due again one delay after a refused call; claimed = sent + retried + failed |
| WebhookRuns.AttemptsAreBounded | internal/application/ports/outbound/validation.go:217-264 | In every lease-respecting run, pending rows have fewer attempts than the limit, so that the increment cannot overflow, failed rows exactly the limit, and sent rows were accepted by the receiver |
| WebhookRuns.AttemptsRunOut | internal/application/usecases/run_receipt_webhook_dispatch_cycle_use_case.go:111-165 | From any moment on, a notification takes at most limit minus attempts more saved attempts, and then it is sent or failed |
| WebhookRuns.AttemptTells | internal/application/ports/outbound/validation.go:198-264 | One more attempt on an up-to-date copy is counted exactly, brings the row closer to its end, frees the lease and keeps what is to be announced; the row is sent exactly if it was delivered, with the time of the attempt, and still pending exactly below the limit, then due one delay after the attempt |
| WebhookRuns.RetriesWaitTheDelay | internal/application/ports/outbound/validation.go:217-264 | In every lease-respecting run, a pending notification with saved attempts is due exactly one delay after the last of them, so that no claim takes it earlier, and a sent one has the time of its last attempt |
| WebhookRuns.RunAdvances | internal/adapters/outbound/persistence/postgres/payment_receipt_status_notification_outbox_store.go:143-212 | Each saved attempt brings a row closer to its end, nothing takes it back, sent or failed rows never change, and no row ever changes what it announces |
| WebhookRuns.NextKeepsInv | internal/application/usecases/run_receipt_webhook_dispatch_cycle_use_case.go:111-193 | Claims, calls, saves and crashes keep rows, attempts, accepted calls and leases in agreement |
| WebhookRuns.OneHolder | internal/adapters/outbound/persistence/postgres/payment_receipt_status_notification_outbox_store.go:71-141 | No notification is held by two workers under live leases |
| WebhookRuns.ClaimIsFair | internal/adapters/outbound/persistence/postgres/payment_receipt_status_notification_outbox_store.go:83-101 | Every claim that covers a notification takes it, or is full of notifications that come before it |
| WebhookRuns.NoNotificationIsLost | internal/adapters/outbound/persistence/postgres/payment_receipt_status_notification_outbox_store.go:83-101 | Whatever happened to its worker, once a pending notification is due and its lease has ended every claim takes it, or fills its limit with rows that come before it |
| WebhookFairness.PassedOverAtMost | internal/adapters/outbound/persistence/postgres/payment_receipt_status_notification_outbox_store.go:71-141 | From any moment of a run on, as long as workers save what they claim before their leases end, the batches that pass over a ready notification have together at most as many places as there are pending ones before it that nobody works on |
| WebhookRuns.LateSaveAdvancesExactly | internal/adapters/outbound/persistence/postgres/payment_receipt_status_notification_outbox_store.go:143-212 | In every reachable state, a save after the lease makes progress exactly if the row is still pending and, for a refused call, nobody counted an attempt meanwhile; it reopens a sent row exactly after a refused call that was not the last one allowed |
| WebhookRuns.LateSaveIsHarmlessExactly | internal/adapters/outbound/persistence/postgres/payment_receipt_status_notification_outbox_store.go:143-212 | In every reachable state, a save after the lease keeps everything that holds in lease-respecting runs exactly under the same guard and if nobody else holds the row |
| WebhookRuns.LateSaveReopensASentRow | internal/adapters/outbound/persistence/postgres/payment_receipt_status_notification_outbox_store.go:143-212 | A run in which one late save of a refused call turns a sent notification back into a pending one |
| CyclesAreRuns.IssuanceIsAnIssue | internal/domain/entities/payment_receipt_tracking.go:34-88 | What an issuance stores is a fresh tracking, so a run of the polling machine that has reached the tracking table goes on to the table after the issuance |
| CyclesAreRuns.PollingCycleIsARun | internal/application/usecases/run_receipt_polling_cycle_use_case.go:54-160 | An error-free polling cycle is one claim and one save per row of the interleaved machine: it extends any run that has reached its tables to one that ends with the tables and the notifications it leaves |
| CyclesAreRuns.PollingCycleFeedsTheOutbox | internal/application/usecases/run_receipt_polling_cycle_use_case.go:311-356 | The outbox rows that a polling cycle adds are new rows of the webhook machine, one for each announcement |
| CyclesAreRuns.DispatchCycleIsARun | internal/application/usecases/run_receipt_webhook_dispatch_cycle_use_case.go:33-109 | An error-free dispatch cycle is one claim, and one call and one save per row of the interleaved machine, with the same accepted calls |
| BitcoinTotals.InboundValueForAddress | internal/adapters/outbound/bitcoin/esplora_receipt_observer.go:260-272 | The outputs to the address with a positive value, added in 64-bit arithmetic |
| BitcoinTotals.OutputCounts | internal/adapters/outbound/bitcoin/esplora_receipt_observer.go:260-272 | Wherever it stands, an output to the address with a positive value adds exactly that value, and any other output can be dropped |
| BitcoinTotals.NothingForTheAddress | internal/adapters/outbound/bitcoin/esplora_receipt_observer.go:260-272 | Outputs among which none pays to the address count for nothing |
| BitcoinTotals.OnlyOneCounts | internal/adapters/outbound/bitcoin/esplora_receipt_observer.go:260-272 | Among outputs of which one pays to the address, that one alone counts |
| BitcoinTotals.InboundOfConcat | internal/adapters/outbound/bitcoin/esplora_receipt_observer.go:260-272 | The money of a list of outputs is that of its parts |
| BitcoinTotals.TransactionCounts | internal/adapters/outbound/bitcoin/esplora_receipt_observer.go:217-244 | Wherever it stands, a transaction in the mempool or from the issue time on adds its money for the address, one from before adds nothing; the money is confirmed exactly if its block is known, not above the latest one and at least as deep as required |
| BitcoinTotals.AggregateInboundTotals | internal/adapters/outbound/bitcoin/esplora_receipt_observer.go:194-258 | For all transactions, without a bound, the accumulators are the mathematical totals over the first transaction of each id as 64-bit registers hold them, hence exact below 2^63; it fails exactly when one of these has money, a block and no block time |
| BitcoinTotals.DepthOnlyMovesMoney | internal/adapters/outbound/bitcoin/esplora_receipt_observer.go:274-279 | Height and depth do not change what was observed; the confirmed part grows with the height and shrinks with the depth |
| BitcoinTotals.RepetitionsAreSkipped | internal/adapters/outbound/bitcoin/esplora_receipt_observer.go:208-215 | A transaction whose id came before is skipped wherever it stands, so that a block entry hides its mempool copy |
| BitcoinTotals.PermutedListsAgree | internal/adapters/outbound/bitcoin/esplora_receipt_observer.go:246-255 | The order of distinct transactions does not matter |
| EsploraPaging.FetchChainTransactions | internal/adapters/outbound/bitcoin/esplora_receipt_observer.go:298-334 | From a server that lists a history page by page, the transactions are read in order and once each, all of them exactly up to 250000 |
| EsploraPaging.CutLosesExactly | internal/adapters/outbound/bitcoin/esplora_receipt_observer.go:298-334 | Reading a prefix of a listing lowers the totals by exactly the money of the transactions cut off |
| EsploraPaging.LongListingHidesAPayment | internal/adapters/outbound/bitcoin/esplora_receipt_observer.go:298-334 | A listing of 250001 transactions, all of which pay others too, with a payment of which nothing is seen in what is read |
| ReceiptObservers.SafeSubtract | internal/adapters/outbound/ethereum/rpc_receipt_observer.go:361-369 | Succeeds exactly for a non-negative subtrahend not above the minuend, with the difference that added back gives the minuend |
| ReceiptObservers.EthereumObservationsApply | internal/adapters/outbound/ethereum/rpc_receipt_observer.go:86-157 | Whatever the node answers, a reported observation can be applied to any tracking |
| ReceiptObservers.BitcoinObservationsApply | internal/adapters/outbound/bitcoin/esplora_receipt_observer.go:84-137 | A Bitcoin observation whose counted money is below 2^63 reports that money and can be applied to any tracking |
| ReceiptObservers.ObserversAgree | internal/adapters/outbound/ethereum/rpc_receipt_observer.go:86-157 | On the same deposits in blocks up to the latest, whatever else their transactions pay to others, two balance readings and the aggregation by depth report the same observation |
| ReceiptObservers.TotalsAreBalances | internal/adapters/outbound/bitcoin/esplora_receipt_observer.go:217-244 | The totals of listed deposits among outputs to others are the balances at the latest height and at the height where the depth is reached |
| HdPath.RecordedPathIsDerivation | internal/adapters/outbound/bitcoin/hd_xpub_address_deriver.go:95-152 | For every key and every prefix, the recorded path reads back as the derivations of the address key exactly when the kept levels of the prefix read as the true ones; at depth 3 the account of the prefix is not read at all, and fewer than three levels are refused |
| HdPath.AddressIsOnTheExternalBranch | internal/adapters/outbound/bitcoin/hd_xpub_address_deriver.go:119-140 | A key above the branch level derives its addresses on branch 0, a deeper one by the index alone; exactly the indexes that are not hardened can be derived, up to depth 255 |
| HdPath.ExternalBranchIsRecorded | internal/adapters/outbound/bitcoin/hd_xpub_address_deriver.go:142-152 | The relative path names branch 0 above the branch level, the branch of the key at it, and the index |
| HdPath.PrefixIsNormalized | internal/adapters/outbound/bitcoin/hd_xpub_address_deriver.go:154-164 | Spaces around a prefix and one slash at its end make no difference |
| HdPath.ParseUndoesFormat | internal/adapters/outbound/bitcoin/hd_xpub_address_deriver.go:175-180 | Printing a child number and reading it back gives the same number for all 32-bit values |
| HdPath.FormatUndoesParse | internal/adapters/outbound/bitcoin/hd_xpub_address_deriver.go:175-180 | Every text that reads as a child number is the one that is printed for it |
| HdPath.ReplacedParses | internal/adapters/outbound/bitcoin/hd_xpub_address_deriver.go:166-173 | Replacing the account segment replaces the last index and nothing else, and works exactly from three levels on |
| Hex.NormalFormIsCanonical | internal/adapters/outbound/ethereum/address_hex.go:17-35 | The normalized text is the canonical text of its bytes, of the asked size, and normalizes to itself |
| Hex.EncodeUndoesDecode | internal/adapters/outbound/ethereum/address_hex.go:26-34 | Decoding forgets nothing but the case of the letters |
| Hex.DecodeUndoesEncode | internal/adapters/outbound/ethereum/address_hex.go:26-34 | Encoding and decoding give the same bytes |
| Hex.EncodedByte | internal/adapters/outbound/ethereum/address_hex.go:26-34 | Every byte is encoded as two digits, the high one first |
| Hex.SpacingIsIrrelevant | internal/adapters/outbound/ethereum/address_hex.go:17-24 | Spaces around a text make no difference |
| SourceRef.Parse | internal/adapters/outbound/ethereum/chain_address_deriver.go:106-156 | The map-filling loop accepts exactly three well-formed fields with different names and normalizes the three values |
| SourceRef.ParseUndoesBuild | internal/adapters/outbound/ethereum/chain_address_deriver.go:29-57 | Reading a built reference gives the normal forms of what it was built from |
| SourceRef.BuiltTextNamesItsFields | internal/adapters/outbound/ethereum/chain_address_deriver.go:29-57 | After the version, the text of a reference has three fields, in order: the factory, the collector and the init code hash under their own names |
| SourceRef.PartsAreReadByName | internal/adapters/outbound/ethereum/chain_address_deriver.go:117-156 | Three parts are read by their names in whatever order they stand, each value to the component of its name |
| SourceRef.SpacingIsIrrelevant | internal/adapters/outbound/ethereum/chain_address_deriver.go:106-116 | Spaces around a reference make no difference |
| SourceRef.BuildUndoesParse | internal/adapters/outbound/ethereum/chain_address_deriver.go:106-156 | What was read builds the one canonical text of its triple, which reads the same |
| SourceRef.BuildIsInjective | internal/adapters/outbound/ethereum/chain_address_deriver.go:29-57 | Equal references mean equal bytes in all three fields |
| SourceRef.FieldOrderIsIrrelevant | internal/adapters/outbound/ethereum/chain_address_deriver.go:117-137 | Texts with the same fields in another order read the same |
| Create2.IsPortableId | internal/application/ports/outbound/validation.go:266-284 | Accepts exactly 1 to 64 lower-case letters, digits, underscores and hyphens |
| Create2.DeriveAllocationSalt | internal/adapters/outbound/ethereum/create2_salt_deriver.go:48-81 | The keyed hash gets the key of the network and, in all its writes, the message of the allocation |
| Create2.MessageLines | internal/adapters/outbound/ethereum/create2_salt_deriver.go:69-80 | Line by line, the message is the version, the network, the policy id, the payment address id and the slot |
| Create2.IdIsNormalized | internal/adapters/outbound/ethereum/create2_salt_deriver.go:56-64 | Spaces around an id make no difference, a normal form has no upper-case letter of the Latin alphabet, and normalizing it again changes nothing |
| Create2.MessageIsInjective | internal/adapters/outbound/ethereum/create2_salt_deriver.go:69-80 | For portable ids, messages are equal exactly for equal allocations |
| Create2.MessagesAgreeExactly | internal/adapters/outbound/ethereum/create2_salt_deriver.go:69-80 | For all ids, messages are equal exactly if the payment address ids, the slots, and the network and policy ids joined by the line break are equal |
| Create2.OneGuardedFieldSuffices | internal/adapters/outbound/ethereum/create2_salt_deriver.go:69-80 | Keeping line breaks out of one of the two ids already tells all allocations apart |
| Create2.TheGuardIsNeeded | internal/application/ports/outbound/validation.go:266-284 | Without any such check two different allocations would have one message; the portability check refuses both of these ids |
| Create2.BuildPreimage | internal/adapters/outbound/ethereum/chain_address_deriver.go:169-174 | The appended buffer starts with 0xff, is 85 bytes long for fixed-size parts, and holds factory, salt and hash at bytes 1, 21 and 53 |
| Create2.PreimageIsInjective | internal/adapters/outbound/ethereum/chain_address_deriver.go:169-174 | The 85 bytes tell factory, salt and init code hash apart |

## Left out

- HTTP controllers, CORS, logging, JSON bodies, the webhook signature and the bootstrap code: plumbing around the use cases.
- The Cloudflare stores: the same statements as the Postgres stores behind foreign calls.
- Keccak, HMAC-SHA256, elliptic curves, base58 and bech32: no claim is made about collisions, only about what is fed to the hashes.
- "Not configured" checks and the mapping of persisted text to enumerations: rows hold typed values. A claim that fails on a persisted value is one of the arbitrary statement failures.
- The shape check of the policy id in the request: an id outside the catalogue is refused as not found either way.
- Snapshots, serialization failures and lock timeouts of the database: a statement sees the latest committed rows and may fail at any time.
- Liveness beyond deadlock freedom and the claims of crashed rows: nothing is said about how long a lock is held or whether a worker ever runs.
- The callback form of the unit of work: it is modelled as begin, statements, and commit or drop.
- `isPortableID` counts bytes; characters outside ASCII are refused either way.
- ERC-20 call data, hexadecimal quantities of JSON-RPC and the sweep material: formats of foreign interfaces.
- PollingCycle.RunCycle: says nothing about the tables after a database error beyond the terms of the trackings, since a lost acknowledgement leaves the last save undecided.
- WebhookCycle.RunCycle: says nothing about the notifications after a database error, for the same reason.
- ReceiptObservers.ObserversAgree: for deposits only; a withdrawal lowers an Ethereum balance but not a Bitcoin total.
- PollingCycle.ObserversNeverFailAnUpdate: for Bitcoin answers whose counted money is below 2^63, beyond which the 64-bit totals wrap; the money supply is far below that.
