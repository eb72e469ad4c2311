/**
 The two observers. Bitcoin adds up transactions by their own depth; Ethereum reads the
 balance of the address at two heights and subtracts. On the same deposits they agree.
 */
module ReceiptObservers {
  import opened Values
  import opened PaymentReceiptTracking
  import B = BitcoinTotals

  function SafeSubtract(left: int64, right: int64): (r: Result<int64, ()>)
    ensures r.Success? <==> 0 <= right <= left
    ensures r.Success? ==> right + r.value == left
  {
    if left < 0 || right < 0 || right > left then Failure(()) else Success(left - right)
  }

  // The confirmed balance is read where the required depth is just reached, which may be
  // before the first block: then nothing is confirmed, and nothing is read.
  function ObserveEthereum(required: int32, latest: int64, balanceAt: int64 -> Result<int64, ()>)
    : Result<Observation, ()>
  {
    if required <= 0 || latest <= 0 then Failure(())
    else
      var observed := balanceAt(latest);
      var height := Wrap64(Wrap64(latest - required) + 1);
      var confirmed := if height > 0 then balanceAt(height) else Success(0);
      if observed.Failure? || confirmed.Failure? then Failure(())
      else
        var unconfirmed := SafeSubtract(observed.value, confirmed.value);
        if unconfirmed.Failure? then Failure(())
        else Success(Observation(observed.value, confirmed.value, unconfirmed.value, latest))
  }

  // What is reported for the totals of one aggregation.
  function ObserveBitcoin(required: int32, latest: int64, totals: Result<(int64, int64), ()>): Result<Observation, ()> {
    if required <= 0 || latest <= 0 || totals.Failure? then Failure(())
    else Success(Observation(Wrap64(totals.value.0 + totals.value.1), totals.value.0, totals.value.1, latest))
  }

  // Whatever the nodes answer, an Ethereum observation that is reported can be applied.
  lemma EthereumObservationsApply(t: Tracking, required: int32, latest: int64, balanceAt: int64 -> Result<int64, ()>,
      now: Time)
    requires now != ZERO_TIME
    ensures var o := ObserveEthereum(required, latest, balanceAt);
      o.Success? ==> ApplyObservation(t, o.value, now).Success?
  {
    var o := ObserveEthereum(required, latest, balanceAt);
    if o.Success? { ValidateIsExact(o.value); }
  }

  // So can a Bitcoin observation, as long as the money that counts fits 64 bits: the update of
  // a tracking never fails after either observer.
  lemma BitcoinObservationsApply(t: Tracking, q: B.Query, txs: seq<B.Transaction>, required: int32, now: Time)
    requires now != ZERO_TIME && required > 0 && q.latest > 0 && B.Observed(q, txs) < TWO_TO_63
    ensures var o := ObserveBitcoin(required, q.latest, Success(B.Totalled(q, txs)));
      o.Success? && o.value.observed == B.Observed(q, txs) && ApplyObservation(t, o.value, now).Success?
  {
    var o := ObserveBitcoin(required, q.latest, Success(B.Totalled(q, txs)));
    ValidateIsExact(o.value);
  }

  // An observation that one of the two observers can report. A Bitcoin address is taken to
  // receive less than 2^63 in all.
  ghost predicate IsReported(o: Observation) {
    || (exists required: int32, latest: int64, balanceAt: int64 -> Result<int64, ()> ::
          ObserveEthereum(required, latest, balanceAt) == Success(o))
    || (exists q: B.Query, txs: seq<B.Transaction>, required: int32 ::
          B.Observed(q, txs) < TWO_TO_63
            && ObserveBitcoin(required, q.latest, Success(B.Totalled(q, txs))) == Success(o))
  }

  lemma ReportedIsValid(o: Observation)
    requires IsReported(o)
    ensures Validate(o).None?
  {
    if required: int32, latest: int64, balanceAt: int64 -> Result<int64, ()> :|
      ObserveEthereum(required, latest, balanceAt) == Success(o)
    {
      ValidateIsExact(o);
    } else {
      var q: B.Query, txs: seq<B.Transaction>, required: int32 :|
        B.Observed(q, txs) < TWO_TO_63 && ObserveBitcoin(required, q.latest, Success(B.Totalled(q, txs))) == Success(o);
      B.TotalsAreBounded(q, txs);
      ValidateIsExact(o);
    }
  }

  /******* The same deposits on both chains *******/

  // A deposit, and the outputs to others, such as change, that stand around it in its transaction.
  datatype Deposit = Deposit(
    id: string, block: int64, time: int64, amount: int64, before: seq<B.TxOutput>, after: seq<B.TxOutput>)

  ghost predicate OthersElsewhere(ledger: seq<Deposit>, address: string) {
    forall i | 0 <= i < |ledger| :: PaysOthers(ledger[i], address)
  }

  predicate PaysOthers(d: Deposit, address: string) {
    && (forall k | 0 <= k < |d.before| :: d.before[k].address != address)
    && (forall k | 0 <= k < |d.after| :: d.after[k].address != address)
  }

  // Deposits in the blocks up to `latest`, made after the address was issued.
  predicate IsLedger(ledger: seq<Deposit>, issuedAt: int, latest: int64) {
    && (forall i | 0 <= i < |ledger| ::
         1 <= ledger[i].block <= latest && ledger[i].time > 0 && ledger[i].time >= issuedAt && ledger[i].amount > 0)
    && (forall i, j | 0 <= i < j < |ledger| :: ledger[i].id != ledger[j].id)
  }

  function BalanceAt(ledger: seq<Deposit>, height: int): nat {
    if ledger == [] then 0
    else
      var last := ledger[|ledger| - 1];
      BalanceAt(ledger[..|ledger| - 1], height) + if last.block <= height && last.amount > 0 then last.amount else 0
  }

  // A node that answers every reading of the balance.
  function BalanceReader(ledger: seq<Deposit>): int64 -> Result<int64, ()> {
    (h: int64) => Success(Wrap64(BalanceAt(ledger, h)))
  }

  function TransactionOf(address: string, d: Deposit): B.Transaction {
    B.Transaction(d.id, d.before + [B.TxOutput(d.amount, address)] + d.after, true, d.block, d.time)
  }

  function Transactions(address: string, ledger: seq<Deposit>): seq<B.Transaction> {
    seq(|ledger|, i requires 0 <= i < |ledger| => TransactionOf(address, ledger[i]))
  }

  lemma {:induction false} BalancesAreBounded(ledger: seq<Deposit>, low: int, high: int)
    requires low <= high
    ensures BalanceAt(ledger, low) <= BalanceAt(ledger, high)
  {
    if ledger != [] { BalancesAreBounded(ledger[..|ledger| - 1], low, high); }
  }

  // A deposit has the required confirmations exactly when it is at or below the second height.
  lemma DepthIsHeight(latest: int64, required: int64, block: int64)
    requires 1 <= block <= latest && required > 0
    ensures B.Confirmations(latest, block) >= required <==> block <= latest - required + 1
  {
  }

  lemma OnlyTheDepositCounts(address: string, d: Deposit)
    requires PaysOthers(d, address)
    ensures B.Inbound(TransactionOf(address, d).outputs, address) == if d.amount > 0 then d.amount else 0
  {
    B.OutputCounts(d.before, B.TxOutput(d.amount, address), d.after, address);
    B.NothingForTheAddress(d.before + d.after, address);
  }

  lemma {:induction false} TotalsAreBalances(q: B.Query, ledger: seq<Deposit>)
    requires IsLedger(ledger, q.issuedAt, q.latest) && OthersElsewhere(ledger, q.address) && q.required > 0
    ensures var txs := Transactions(q.address, ledger);
      && B.Observed(q, txs) == BalanceAt(ledger, q.latest)
      && B.Confirmed(q, txs) == BalanceAt(ledger, q.latest - q.required + 1)
      && B.NoneMalformed(q, txs)
  {
    if ledger != [] {
      var before, d := ledger[..|ledger| - 1], ledger[|ledger| - 1];
      assert PaysOthers(d, q.address);
      TotalsAreBalances(q, before);
      assert Transactions(q.address, ledger) == Transactions(q.address, before) + [TransactionOf(q.address, d)];
      B.SumsNext(q, Transactions(q.address, before), TransactionOf(q.address, d));
      B.LastMalformed(q, Transactions(q.address, before), TransactionOf(q.address, d));
      OnlyTheDepositCounts(q.address, d);
      DepthIsHeight(q.latest, q.required, d.block);
    }
  }

  lemma NothingBelowTheFirstBlock(ledger: seq<Deposit>, issuedAt: int, latest: int64, height: int)
    requires IsLedger(ledger, issuedAt, latest) && height <= 0
    ensures BalanceAt(ledger, height) == 0
  {
    if ledger != [] { NothingBelowTheFirstBlock(ledger[..|ledger| - 1], issuedAt, latest, height); }
  }

  lemma EthereumReads(required: int32, latest: int64, balanceAt: int64 -> Result<int64, ()>, observed: int64,
      confirmed: int64)
    requires required > 0 && latest > 0 && 0 <= confirmed <= observed
    requires balanceAt(latest) == Success(observed)
    requires if latest - required + 1 > 0 then balanceAt(latest - required + 1) == Success(confirmed)
      else confirmed == 0
    ensures ObserveEthereum(required, latest, balanceAt) ==
            Success(Observation(observed, confirmed, observed - confirmed, latest))
  {
  }

  lemma TransactionsAreDistinct(address: string, ledger: seq<Deposit>)
    requires forall i, j | 0 <= i < j < |ledger| :: ledger[i].id != ledger[j].id
    ensures B.FirstOnly(Transactions(address, ledger)) == Transactions(address, ledger)
  {
    B.DistinctAreKept(Transactions(address, ledger));
  }

  lemma {:induction false} EthereumReadsLedger(ledger: seq<Deposit>, issuedAt: int, required: int32, latest: int64)
    requires required > 0 && latest > 0 && IsLedger(ledger, issuedAt, latest) && BalanceAt(ledger, latest) < TWO_TO_63
    ensures var observed, confirmed := BalanceAt(ledger, latest), BalanceAt(ledger, latest - required + 1);
      && confirmed <= observed
      && ObserveEthereum(required, latest, BalanceReader(ledger)) ==
         Success(Observation(observed, confirmed, observed - confirmed, latest))
  {
    var height := latest - required + 1;
    BalancesAreBounded(ledger, height, latest);
    if height <= 0 { NothingBelowTheFirstBlock(ledger, issuedAt, latest, height); }
    EthereumReads(required, latest, BalanceReader(ledger), BalanceAt(ledger, latest), BalanceAt(ledger, height));
  }

  // The totals of the listed transactions are readings of the balance.
  lemma {:induction false} BitcoinReadsLedger(q: B.Query, ledger: seq<Deposit>)
    requires IsLedger(ledger, q.issuedAt, q.latest) && OthersElsewhere(ledger, q.address) && q.required > 0
    ensures var txs := B.FirstOnly(Transactions(q.address, ledger));
      && B.NoneMalformed(q, txs)
      && B.Observed(q, txs) == BalanceAt(ledger, q.latest)
      && B.Confirmed(q, txs) == BalanceAt(ledger, q.latest - q.required + 1)
  {
    TransactionsAreDistinct(q.address, ledger);
    TotalsAreBalances(q, ledger);
  }

  lemma BitcoinReports(required: int32, latest: int64, totals: (int64, int64), observed: int64)
    requires required > 0 && latest > 0 && observed == totals.0 + totals.1
    ensures ObserveBitcoin(required, latest, Success(totals)) ==
            Success(Observation(observed, totals.0, totals.1, latest))
  {
  }

  lemma {:induction false} BitcoinReportsLedger(q: B.Query, ledger: seq<Deposit>, required: int32)
    requires IsLedger(ledger, q.issuedAt, q.latest) && BalanceAt(ledger, q.latest) < TWO_TO_63
    requires OthersElsewhere(ledger, q.address)
    requires required > 0 && q.required == required && q.latest > 0
    ensures var txs := B.FirstOnly(Transactions(q.address, ledger));
      var observed, confirmed := BalanceAt(ledger, q.latest), BalanceAt(ledger, q.latest - required + 1);
      && B.NoneMalformed(q, txs)
      && 0 <= confirmed <= observed
      && ObserveBitcoin(required, q.latest, Success(B.Totalled(q, txs))) ==
         Success(Observation(observed, confirmed, observed - confirmed, q.latest))
  {
    BitcoinReadsLedger(q, ledger);
    var txs := B.FirstOnly(Transactions(q.address, ledger));
    var totals := B.Totalled(q, txs);
    assert totals.0 == BalanceAt(ledger, q.latest - required + 1);
    assert totals.0 + totals.1 == BalanceAt(ledger, q.latest);
    BitcoinReports(required, q.latest, totals, BalanceAt(ledger, q.latest));
  }

  // Both observers report the same observation for the same deposits: what the balances give
  // is what the totals give, however the deposits are spread over the blocks, and whatever else
  // their transactions pay to others.
  lemma {:induction false} ObserversAgree(q: B.Query, ledger: seq<Deposit>, required: int32)
    requires required > 0 && q.required == required && q.latest > 0
    requires IsLedger(ledger, q.issuedAt, q.latest) && BalanceAt(ledger, q.latest) < TWO_TO_63
    requires OthersElsewhere(ledger, q.address)
    ensures var txs := B.FirstOnly(Transactions(q.address, ledger));
      && B.NoneMalformed(q, txs)
      && ObserveEthereum(required, q.latest, BalanceReader(ledger)) ==
         ObserveBitcoin(required, q.latest, Success(B.Totalled(q, txs)))
  {
    var txs := B.FirstOnly(Transactions(q.address, ledger));
    var bitcoin := ObserveBitcoin(required, q.latest, Success(B.Totalled(q, txs)));
    var ethereum := ObserveEthereum(required, q.latest, BalanceReader(ledger));
    BitcoinReportsLedger(q, ledger, required);
    EthereumReadsLedger(ledger, q.issuedAt, required, q.latest);
    assert ethereum.value.observed == bitcoin.value.observed && ethereum.value.confirmed == bitcoin.value.confirmed;
  }
}
