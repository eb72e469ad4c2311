/** Reading the block transactions of an address from an Esplora server, one page after another. */
module EsploraPaging {
  import opened Values
  import opened BitcoinTotals

  const PAGE_SIZE := 25

  const MAX_PAGES := 10_000

  function Smaller(a: int, b: int): int { if a < b then a else b }

  // Where the listing goes on after a transaction.
  function After(history: seq<Transaction>, id: string): (n: nat)
    ensures n <= |history|
  {
    if history == [] then 0 else if history[0].id == id then 1 else 1 + After(history[1..], id)
  }

  // What a server answers: the next transactions after the given one, or the first ones.
  function Page(history: seq<Transaction>, lastSeen: string): (page: seq<Transaction>)
    ensures |page| <= PAGE_SIZE
  {
    var start := if lastSeen == "" then 0 else After(history, lastSeen);
    history[start..Smaller(start + PAGE_SIZE, |history|)]
  }

  predicate IsHistory(history: seq<Transaction>) {
    && (forall i | 0 <= i < |history| :: history[i].id != "")
    && (forall i, j | 0 <= i < j < |history| :: history[i].id != history[j].id)
  }

  lemma {:induction false} AfterPosition(history: seq<Transaction>, i: nat)
    requires IsHistory(history) && i < |history|
    ensures After(history, history[i].id) == i + 1
  {
    if i > 0 {
      assert IsHistory(history[1..]) by {
        assert forall k | 0 <= k < |history| - 1 :: history[1..][k] == history[k + 1];
      }
      AfterPosition(history[1..], i - 1);
    }
  }

  // What has been read so far, together with the next page, is again a part of the listing.
  lemma PageFollows(history: seq<Transaction>, read: seq<Transaction>, lastSeen: string)
    requires IsHistory(history) && read <= history
    requires lastSeen == if read == [] then "" else read[|read| - 1].id
    ensures read + Page(history, lastSeen) <= history
    ensures |Page(history, lastSeen)| == Smaller(PAGE_SIZE, |history| - |read|)
    ensures |Page(history, lastSeen)| == PAGE_SIZE ==>
      var last := Page(history, lastSeen)[PAGE_SIZE - 1]; last.id != "" && last.id != lastSeen
  {
    if read != [] { AfterPosition(history, |read| - 1); }
    var page := Page(history, lastSeen);
    if |page| == PAGE_SIZE {
      assert page[PAGE_SIZE - 1] == history[|read| + PAGE_SIZE - 1];
    }
  }

  // The transactions are read once each and in order, and all of them are read exactly when
  // they fit the bound on the pages. Beyond it the rest is left out, and nothing tells the
  // caller.
  method FetchChainTransactions(history: seq<Transaction>) returns (r: Result<seq<Transaction>, ()>)
    requires IsHistory(history)
    ensures r.Success? ==> r.value <= history && |r.value| == Smaller(|history|, MAX_PAGES * PAGE_SIZE)
  {
    var transactions: seq<Transaction> := [];
    var lastSeen := "";
    for page := 0 to MAX_PAGES
      invariant |transactions| == PAGE_SIZE * page && transactions <= history
      invariant lastSeen == if transactions == [] then "" else transactions[|transactions| - 1].id
    {
      PageFollows(history, transactions, lastSeen);
      var ok: bool := *;
      if !ok { return Failure(()); }
      var next := Page(history, lastSeen);
      if next == [] { break; }
      transactions := transactions + next;
      if |next| < PAGE_SIZE { break; }
      var nextId := next[|next| - 1].id;
      if nextId == "" || nextId == lastSeen { break; }
      lastSeen := nextId;
    }
    return Success(transactions);
  }

  // The totals of what was read fall short by exactly the money of the transactions that were
  // cut off, so they are complete if and only if none of those counts.
  lemma CutLosesExactly(q: Query, history: seq<Transaction>, mempool: seq<Transaction>, n: nat)
    requires DistinctIds(history + mempool) && n <= |history|
    ensures Observed(q, FirstOnly(history + mempool)) ==
            Observed(q, FirstOnly(history[..n] + mempool)) + Observed(q, history[n..])
    ensures Confirmed(q, FirstOnly(history + mempool)) ==
            Confirmed(q, FirstOnly(history[..n] + mempool)) + Confirmed(q, history[n..])
  {
    CutIsDistinct(history, mempool, n);
    DistinctAreKept(history + mempool);
    DistinctAreKept(history[..n] + mempool);
    assert history == history[..n] + history[n..];
    TotalsOfConcat(q, history, mempool);
    TotalsOfConcat(q, history[..n], history[n..]);
    TotalsOfConcat(q, history[..n], mempool);
  }

  lemma CutIsDistinct(history: seq<Transaction>, mempool: seq<Transaction>, n: nat)
    requires DistinctIds(history + mempool) && n <= |history|
    ensures DistinctIds(history[..n] + mempool)
  {
    var whole, cut := history + mempool, history[..n] + mempool;
    var gap := |history| - n;
    forall i, j | 0 <= i < j < |cut| ensures cut[i].id != cut[j].id || cut[i].id == "" {
      assert cut[i] == whole[if i < n then i else i + gap];
      assert cut[j] == whole[if j < n then j else j + gap];
    }
  }

  // A listing one transaction too long, whose oldest transaction is the only payment; all others
  // pay somebody else.
  function NthTransaction(q: Query, n: nat): Transaction
    requires 0 < q.issuedAt < TWO_TO_63
  {
    var change := [TxOutput(5, q.address + "'")];
    var outputs := if n == MAX_PAGES * PAGE_SIZE then change + [TxOutput(1, q.address)] + [] else change;
    Transaction(seq(n + 1, _ => 'a'), outputs, true, 1, q.issuedAt)
  }

  function LongHistory(q: Query, n: nat): seq<Transaction>
    requires 0 < q.issuedAt < TWO_TO_63
  {
    seq(n, i requires 0 <= i < n => NthTransaction(q, i))
  }

  lemma NthPays(q: Query, n: nat)
    requires 0 < q.issuedAt < TWO_TO_63
    ensures ObservedOf(q, NthTransaction(q, n)) == if n == MAX_PAGES * PAGE_SIZE then 1 else 0
  {
    var change := [TxOutput(5, q.address + "'")];
    assert |q.address + "'"| != |q.address|;
    NothingForTheAddress(change, q.address);
    OutputCounts(change, TxOutput(1, q.address), [], q.address);
    assert change + [] == change;
  }

  lemma {:induction false} NothingBeforeTheLast(q: Query, n: nat)
    requires 0 < q.issuedAt < TWO_TO_63 && n <= MAX_PAGES * PAGE_SIZE
    ensures Observed(q, LongHistory(q, n)) == 0
  {
    if n > 0 {
      NothingBeforeTheLast(q, n - 1);
      NthPays(q, n - 1);
      assert LongHistory(q, n)[..n - 1] == LongHistory(q, n - 1);
    }
  }

  // So an address can be paid and be reported as unpaid.
  lemma LongListingHidesAPayment(q: Query) returns (history: seq<Transaction>)
    requires 0 < q.issuedAt < TWO_TO_63
    ensures IsHistory(history) && |history| == MAX_PAGES * PAGE_SIZE + 1
    ensures Observed(q, history) == 1 && Observed(q, history[..MAX_PAGES * PAGE_SIZE]) == 0
  {
    var most := MAX_PAGES * PAGE_SIZE;
    history := LongHistory(q, most + 1);
    forall i, j | 0 <= i < j < |history| ensures history[i].id != history[j].id {
      assert |history[i].id| == i + 1 && |history[j].id| == j + 1;
    }
    NothingBeforeTheLast(q, most);
    assert history[..most] == LongHistory(q, most);
    NthPays(q, most);
  }
}
