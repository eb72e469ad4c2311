/**
 What has been paid to an address, added up from the transactions that an Esplora server
 lists for it: those in blocks first, then those still in the mempool.
 */
module BitcoinTotals {
  import opened Values

  datatype TxOutput = TxOutput(value: int64, address: string)

  datatype Transaction = Transaction(
    id: string, outputs: seq<TxOutput>, confirmed: bool, blockHeight: int64, blockTime: int64)

  // Everything but the transactions that the totals depend on.
  datatype Query = Query(address: string, issuedAt: int, required: int64, latest: int64)

  // Sums may be wrapped at every step or once at the end.
  lemma WrapAdd(x: int, y: int)
    ensures Wrap64(Wrap64(x) + y) == Wrap64(x + y)
  {
    var period := 2 * TWO_TO_63;
    var k := (x + TWO_TO_63) / period;
    assert x == Wrap64(x) + k * period;
    assert (Wrap64(x) + y + TWO_TO_63 + k * period) % period == (Wrap64(x) + y + TWO_TO_63) % period;
  }

  lemma WrapBoth(x: int, y: int)
    ensures Wrap64(Wrap64(x) + Wrap64(y)) == Wrap64(x + y)
  {
    WrapAdd(x, Wrap64(y));
    WrapAdd(y, x);
  }

  /******* The mathematical totals *******/

  // Outputs without a positive value do not count.
  function Paid(o: TxOutput, address: string): int {
    if o.address == address && o.value > 0 then o.value else 0
  }

  function Inbound(outputs: seq<TxOutput>, address: string): nat {
    if outputs == [] then 0
    else Inbound(outputs[..|outputs| - 1], address) + Paid(outputs[|outputs| - 1], address)
  }

  function Confirmations(latest: int64, blockHeight: int64): int64 {
    if latest <= 0 || blockHeight <= 0 || blockHeight > latest then 0 else Wrap64(latest - blockHeight + 1)
  }

  // A payment from before the address was issued does not count.
  predicate InTime(q: Query, tx: Transaction) {
    !tx.confirmed || tx.blockTime >= q.issuedAt
  }

  predicate IsSettled(q: Query, tx: Transaction) {
    tx.confirmed && Confirmations(q.latest, tx.blockHeight) >= q.required
  }

  // The money of one transaction is added up in 64 bits before anything else is looked at.
  predicate Malformed(q: Query, tx: Transaction) {
    Wrap64(Inbound(tx.outputs, q.address)) != 0 && tx.confirmed && tx.blockTime <= 0
  }

  function ObservedOf(q: Query, tx: Transaction): nat {
    if InTime(q, tx) then Inbound(tx.outputs, q.address) else 0
  }

  function ConfirmedOf(q: Query, tx: Transaction): nat {
    if IsSettled(q, tx) then ObservedOf(q, tx) else 0
  }

  function Observed(q: Query, txs: seq<Transaction>): nat {
    if txs == [] then 0 else Observed(q, txs[..|txs| - 1]) + ObservedOf(q, txs[|txs| - 1])
  }

  function Confirmed(q: Query, txs: seq<Transaction>): nat {
    if txs == [] then 0 else Confirmed(q, txs[..|txs| - 1]) + ConfirmedOf(q, txs[|txs| - 1])
  }

  predicate HasId(txs: seq<Transaction>, id: string) {
    exists i :: 0 <= i < |txs| && txs[i].id == id
  }

  predicate Known(txs: seq<Transaction>, tx: Transaction) {
    tx.id != "" && HasId(txs, tx.id)
  }

  // The first transaction of every id; a transaction without an id is never a repetition.
  function FirstOnly(txs: seq<Transaction>): seq<Transaction> {
    if txs == [] then []
    else
      var before, tx := txs[..|txs| - 1], txs[|txs| - 1];
      FirstOnly(before) + if Known(before, tx) then [] else [tx]
  }

  // A transaction in a block, with money for the address in 64 bits, but no time of the block.
  predicate LacksBlockTime(q: Query, tx: Transaction) {
    tx.confirmed && !(tx.blockTime > 0) && Wrap64(Inbound(tx.outputs, q.address)) != 0
  }

  predicate NoneMalformed(q: Query, txs: seq<Transaction>) {
    forall i | 0 <= i < |txs| :: !Malformed(q, txs[i])
  }

  /******* Which outputs count *******/

  lemma {:induction false} InboundOfConcat(a: seq<TxOutput>, b: seq<TxOutput>, address: string)
    ensures Inbound(a + b, address) == Inbound(a, address) + Inbound(b, address)
  {
    if b == [] {
      assert a + b == a;
    } else {
      var rest := b[..|b| - 1];
      InboundOfConcat(a, rest, address);
      assert (a + b)[..|a + b| - 1] == a + rest && (a + b)[|a + b| - 1] == b[|b| - 1];
    }
  }

  // An output to the address with a positive value adds exactly that value, wherever it stands;
  // any other output can be dropped.
  lemma OutputCounts(before: seq<TxOutput>, o: TxOutput, after: seq<TxOutput>, address: string)
    ensures o.address == address && o.value > 0 ==>
      Inbound(before + [o] + after, address) == Inbound(before + after, address) + o.value
    ensures o.address != address || o.value <= 0 ==>
      Inbound(before + [o] + after, address) == Inbound(before + after, address)
  {
    assert [o][..0] == [];
    InboundOfConcat(before, [o], address);
    InboundOfConcat(before + [o], after, address);
    InboundOfConcat(before, after, address);
  }

  // No output pays to the address.
  ghost predicate NoneFor(outputs: seq<TxOutput>, address: string) {
    forall o | o in outputs :: o.address != address || o.value <= 0
  }

  // One output pays to the address, and no other one does.
  ghost predicate OnlyOneFor(outputs: seq<TxOutput>, address: string, k: nat) {
    && k < |outputs| && outputs[k].address == address && outputs[k].value > 0
    && NoneFor(outputs[..k] + outputs[k + 1..], address)
  }

  lemma {:induction false} NothingForTheAddress(outputs: seq<TxOutput>, address: string)
    requires NoneFor(outputs, address)
    ensures Inbound(outputs, address) == 0
  {
    if outputs != [] {
      var before, last := outputs[..|outputs| - 1], outputs[|outputs| - 1];
      assert outputs == before + [last] + [] && before + [] == before;
      NothingForTheAddress(before, address);
      OutputCounts(before, last, [], address);
    }
  }

  lemma OnlyOneCounts(outputs: seq<TxOutput>, address: string, k: nat)
    requires OnlyOneFor(outputs, address, k)
    ensures Inbound(outputs, address) == outputs[k].value
  {
    var before, after := outputs[..k], outputs[k + 1..];
    assert outputs == before + [outputs[k]] + after;
    OutputCounts(before, outputs[k], after, address);
    NothingForTheAddress(before + after, address);
  }

  /******* The loops *******/

  method InboundValueForAddress(tx: Transaction, address: string) returns (total: int64)
    ensures total == Wrap64(Inbound(tx.outputs, address))
  {
    total := 0;
    for n := 0 to |tx.outputs|
      invariant total == Wrap64(Inbound(tx.outputs[..n], address))
    {
      assert tx.outputs[..n + 1][..n] == tx.outputs[..n];
      var output := tx.outputs[n];
      if output.address == address && output.value > 0 {
        WrapAdd(Inbound(tx.outputs[..n], address), output.value);
        total := Wrap64(total + output.value);
      }
    }
    assert tx.outputs[..|tx.outputs|] == tx.outputs;
  }

  ghost predicate SeenIn(seen: set<string>, txs: seq<Transaction>) {
    forall id :: id in seen <==> id != "" && HasId(txs, id)
  }

  // The accumulators of one aggregation.
  class Totals {
    var confirmed: int64
    var unconfirmed: int64
    var seen: set<string>

    constructor ()
      ensures confirmed == 0 && unconfirmed == 0 && seen == {}
    {
      confirmed, unconfirmed, seen := 0, 0, {};
    }

    // The accumulators are the mathematical totals, as 64 bits hold them.
    ghost predicate Sums(q: Query, txs: seq<Transaction>)
      reads `confirmed, `unconfirmed
    {
      && NoneMalformed(q, txs)
      && confirmed == Wrap64(Confirmed(q, txs))
      && unconfirmed == Wrap64(Observed(q, txs) - Confirmed(q, txs))
    }

    ghost predicate HasSeen(txs: seq<Transaction>)
      reads `seen
    {
      SeenIn(seen, txs)
    }

    // `whole` is everything that will be added up in the end.
    method AddTransaction(q: Query, ghost first: seq<Transaction>, tx: Transaction, ghost whole: seq<Transaction>)
      returns (ok: bool)
      requires Sums(q, first) && first + [tx] <= whole
      modifies `confirmed, `unconfirmed
      ensures ok ==> Sums(q, first + [tx])
      ensures !ok ==> !NoneMalformed(q, whole)
    {
      LastMalformed(q, first, tx);
      assert whole[|first|] == tx;
      var inbound := InboundValueForAddress(tx, q.address);
      MoneyNext(q, first, tx, inbound);
      if inbound == 0 { return true; }
      if !tx.confirmed {
        unconfirmed := Wrap64(unconfirmed + inbound);
        return true;
      }
      if tx.blockTime <= 0 { return false; }
      if tx.blockTime < q.issuedAt { return true; }
      if Confirmations(q.latest, tx.blockHeight) >= q.required {
        confirmed := Wrap64(confirmed + inbound);
        return true;
      }
      unconfirmed := Wrap64(unconfirmed + inbound);
      return true;
    }

    ghost predicate Adds(q: Query, txs: seq<Transaction>)
      reads this
    {
      HasSeen(txs) && Sums(q, FirstOnly(txs))
    }

    method ProcessTransaction(q: Query, ghost before: seq<Transaction>, tx: Transaction, ghost whole: seq<Transaction>)
      returns (ok: bool)
      requires Adds(q, before) && FirstOnly(before + [tx]) <= whole
      modifies this
      ensures ok ==> Adds(q, before + [tx])
      ensures !ok ==> !NoneMalformed(q, whole)
    {
      FirstOnlyNext(before, tx);
      SeenNext(seen, before, tx);
      if tx.id != "" {
        if tx.id in seen {
          assert seen + {tx.id} == seen;
          return true;
        }
        seen := seen + {tx.id};
      }
      ok := AddTransaction(q, FirstOnly(before), tx, whole);
    }

    method ProcessNext(q: Query, ghost all: seq<Transaction>, ghost n: nat, tx: Transaction) returns (ok: bool)
      requires n < |all| && all[n] == tx && Adds(q, all[..n])
      modifies this
      ensures ok ==> Adds(q, all[..n + 1]) == true
      ensures !ok ==> !NoneMalformed(q, FirstOnly(all))
    {
      FirstOnlyPrefix(all, n + 1);
      assert all[..n + 1] == all[..n] + [tx];
      ok := ProcessTransaction(q, all[..n], tx, FirstOnly(all));
    }

    // The two lists are worked through one after the other, up to the first malformed entry.
    // The invariants are equations so that the loops carry `Adds` along without unfolding it.
    method ProcessLists(q: Query, chain: seq<Transaction>, mempool: seq<Transaction>) returns (ok: bool)
      requires Adds(q, [])
      modifies this
      ensures ok ==> Adds(q, chain + mempool) == true
      ensures !ok ==> !NoneMalformed(q, FirstOnly(chain + mempool))
    {
      ghost var all := chain + mempool;
      for n := 0 to |chain|
        invariant Adds(q, all[..n]) == true
      {
        ok := ProcessNext(q, all, n, chain[n]);
        if !ok { return; }
      }
      for n := |chain| to |chain| + |mempool|
        invariant Adds(q, all[..n]) == true
      {
        ok := ProcessNext(q, all, n, mempool[n - |chain|]);
        if !ok { return; }
      }
      assert all[..|all|] == all;
      ok := true;
    }
  }

  // Confirmed and unconfirmed money as reported. Below 2^63 these are the totals themselves.
  function Totalled(q: Query, txs: seq<Transaction>): (r: (int64, int64))
    ensures 0 <= Confirmed(q, txs) <= Observed(q, txs)
    ensures Observed(q, txs) < TWO_TO_63 ==> r == (Confirmed(q, txs), Observed(q, txs) - Confirmed(q, txs))
  {
    TotalsAreBounded(q, txs);
    (Wrap64(Confirmed(q, txs)), Wrap64(Observed(q, txs) - Confirmed(q, txs)))
  }

  method AggregateInboundTotals(q: Query, chain: seq<Transaction>, mempool: seq<Transaction>)
    returns (r: Result<(int64, int64), ()>)
    ensures var txs := FirstOnly(chain + mempool);
      && (r.Success? <==> NoneMalformed(q, txs))
      && (r.Failure? <==> exists i :: 0 <= i < |txs| && LacksBlockTime(q, txs[i]))
      && (r.Success? ==> r.value == Totalled(q, txs))
  {
    var totals := new Totals();
    var ok := totals.ProcessLists(q, chain, mempool);
    return if ok then Success((totals.confirmed, totals.unconfirmed)) else Failure(());
  }

  lemma FirstOnlyNext(before: seq<Transaction>, tx: Transaction)
    ensures FirstOnly(before + [tx]) == if Known(before, tx) then FirstOnly(before) else FirstOnly(before) + [tx]
  {
    assert (before + [tx])[..|before|] == before;
    assert FirstOnly(before) + [] == FirstOnly(before);
  }

  lemma SumsNext(q: Query, txs: seq<Transaction>, tx: Transaction)
    ensures Observed(q, txs + [tx]) == Observed(q, txs) + ObservedOf(q, tx)
    ensures Confirmed(q, txs + [tx]) == Confirmed(q, txs) + ConfirmedOf(q, tx)
  {
    assert (txs + [tx])[..|txs|] == txs;
  }

  // The money of one more transaction, as it is added to one accumulator or to none.
  lemma MoneyNext(q: Query, txs: seq<Transaction>, tx: Transaction, inbound: int64)
    requires inbound == Wrap64(Inbound(tx.outputs, q.address))
    ensures var all := txs + [tx];
      var confirmed, unconfirmed := Confirmed(q, txs), Observed(q, txs) - Confirmed(q, txs);
      var confirmed', unconfirmed' := Wrap64(Confirmed(q, all)), Wrap64(Observed(q, all) - Confirmed(q, all));
      && (InTime(q, tx) && IsSettled(q, tx) ==>
           confirmed' == Wrap64(Wrap64(confirmed) + inbound) && unconfirmed' == Wrap64(unconfirmed))
      && (InTime(q, tx) && !IsSettled(q, tx) ==>
           confirmed' == Wrap64(confirmed) && unconfirmed' == Wrap64(Wrap64(unconfirmed) + inbound))
      && (!InTime(q, tx) || inbound == 0 ==> confirmed' == Wrap64(confirmed) && unconfirmed' == Wrap64(unconfirmed))
  {
    SumsNext(q, txs, tx);
    var confirmed, unconfirmed := Confirmed(q, txs), Observed(q, txs) - Confirmed(q, txs);
    var money := Inbound(tx.outputs, q.address);
    if InTime(q, tx) {
      if IsSettled(q, tx) { WrapBoth(confirmed, money); } else { WrapBoth(unconfirmed, money); }
    }
  }

  lemma {:induction false} FirstOnlyPrefix(all: seq<Transaction>, n: nat)
    requires n <= |all|
    ensures FirstOnly(all[..n]) <= FirstOnly(all)
    decreases |all|
  {
    if n < |all| {
      var before := all[..|all| - 1];
      assert before[..n] == all[..n];
      FirstOnlyPrefix(before, n);
    } else {
      assert all[..n] == all;
    }
  }

  lemma SameIds(before: seq<Transaction>, tx: Transaction, id: string)
    ensures HasId(before + [tx], id) <==> tx.id == id || HasId(before, id)
  {
    var all := before + [tx];
    if i :| 0 <= i < |before| && before[i].id == id { assert all[i].id == id; }
    if tx.id == id { assert all[|before|].id == id; }
  }

  // One more transaction is one more id that was seen, unless it has none.
  lemma SeenNext(seen: set<string>, before: seq<Transaction>, tx: Transaction)
    requires SeenIn(seen, before)
    ensures SeenIn(if tx.id == "" then seen else seen + {tx.id}, before + [tx]) == true
  {
    forall id ensures HasId(before + [tx], id) <==> tx.id == id || HasId(before, id) {
      SameIds(before, tx, id);
    }
  }

  lemma LastMalformed(q: Query, txs: seq<Transaction>, tx: Transaction)
    ensures NoneMalformed(q, txs + [tx]) <==> NoneMalformed(q, txs) && !Malformed(q, tx)
  {
    var all := txs + [tx];
    assert all[|txs|] == tx;
    assert forall i | 0 <= i < |txs| :: all[i] == txs[i];
  }

  lemma {:induction false} TotalsAreBounded(q: Query, txs: seq<Transaction>)
    ensures Confirmed(q, txs) <= Observed(q, txs)
  {
    if txs != [] { TotalsAreBounded(q, txs[..|txs| - 1]); }
  }

  /******* What the totals mean *******/

  // A transaction in the mempool, or in a block from the issue time on, counts with all its money
  // for the address; one from before counts for nothing. What counts is confirmed exactly when its
  // block is known, not above the latest one, and at least as deep as required.
  lemma TransactionCounts(q: Query, before: seq<Transaction>, tx: Transaction, after: seq<Transaction>)
    ensures var whole, rest, money := before + [tx] + after, before + after, Inbound(tx.outputs, q.address);
      && (tx.confirmed && tx.blockTime < q.issuedAt ==>
           Observed(q, whole) == Observed(q, rest) && Confirmed(q, whole) == Confirmed(q, rest))
      && (!tx.confirmed ==>
           Observed(q, whole) == Observed(q, rest) + money && Confirmed(q, whole) == Confirmed(q, rest))
      && (tx.confirmed && tx.blockTime >= q.issuedAt && q.required > 0 ==>
           && Observed(q, whole) == Observed(q, rest) + money
           && Confirmed(q, whole) == Confirmed(q, rest) +
                (if 1 <= tx.blockHeight <= q.latest && q.latest - tx.blockHeight + 1 >= q.required then money else 0))
  {
    SumsNext(q, before, tx);
    TotalsOfConcat(q, before + [tx], after);
    TotalsOfConcat(q, before, after);
  }

  // Neither the height nor the required depth changes what was observed, and the confirmed part
  // can only grow with the height and shrink with the depth.
  lemma {:induction false} DepthOnlyMovesMoney(q: Query, r: Query, txs: seq<Transaction>)
    requires r.address == q.address && r.issuedAt == q.issuedAt
    ensures Observed(r, txs) == Observed(q, txs)
    ensures q.latest <= r.latest && r.required <= q.required ==> Confirmed(q, txs) <= Confirmed(r, txs)
  {
    if txs != [] {
      DepthOnlyMovesMoney(q, r, txs[..|txs| - 1]);
    }
  }

  // A transaction whose id came before is skipped, wherever it stands: a block entry hides its
  // copy in the mempool, even when the entry itself does not count.
  lemma {:induction false} RepetitionsAreSkipped(before: seq<Transaction>, tx: Transaction, after: seq<Transaction>)
    requires Known(before, tx)
    ensures FirstOnly(before + [tx] + after) == FirstOnly(before + after)
  {
    if after == [] {
      assert before + [tx] + after == before + [tx] && before + after == before;
      FirstOnlyNext(before, tx);
    } else {
      var rest, last := after[..|after| - 1], after[|after| - 1];
      RepetitionsAreSkipped(before, tx, rest);
      assert before + [tx] + after == (before + [tx] + rest) + [last] && before + after == (before + rest) + [last];
      FirstOnlyNext(before + [tx] + rest, last);
      FirstOnlyNext(before + rest, last);
      SameKnown(before, tx, rest, last.id);
    }
  }

  lemma SameKnown(before: seq<Transaction>, tx: Transaction, rest: seq<Transaction>, id: string)
    requires HasId(before, tx.id)
    ensures HasId(before + [tx] + rest, id) <==> HasId(before + rest, id)
  {
    var long, short := before + [tx] + rest, before + rest;
    if i :| 0 <= i < |long| && long[i].id == id {
      if i == |before| {
        var j :| 0 <= j < |before| && before[j].id == tx.id;
        assert short[j].id == id;
      } else {
        assert short[if i < |before| then i else i - 1].id == id;
      }
    }
    if i :| 0 <= i < |short| && short[i].id == id {
      assert long[if i < |before| then i else i + 1].id == id;
    }
  }

  predicate DistinctIds(txs: seq<Transaction>) {
    forall i, j | 0 <= i < j < |txs| :: txs[i].id != txs[j].id || txs[i].id == ""
  }

  lemma {:induction false} DistinctAreKept(txs: seq<Transaction>)
    requires DistinctIds(txs)
    ensures FirstOnly(txs) == txs
  {
    if txs != [] {
      var before, tx := txs[..|txs| - 1], txs[|txs| - 1];
      DistinctAreKept(before);
      assert !Known(before, tx);
      assert before + [tx] == txs;
    }
  }

  lemma {:induction false} TotalsOfConcat(q: Query, a: seq<Transaction>, b: seq<Transaction>)
    ensures Observed(q, a + b) == Observed(q, a) + Observed(q, b)
    ensures Confirmed(q, a + b) == Confirmed(q, a) + Confirmed(q, b)
  {
    if b == [] {
      assert a + b == a;
    } else {
      var rest, last := b[..|b| - 1], b[|b| - 1];
      TotalsOfConcat(q, a, rest);
      assert a + b == (a + rest) + [last] && b == rest + [last];
      SumsNext(q, a + rest, last);
      SumsNext(q, rest, last);
    }
  }

  lemma TakeOut(a: seq<Transaction>, b: seq<Transaction>, k: nat)
    requires a != [] && multiset(a) == multiset(b) && k < |b| && b[k] == a[|a| - 1]
    ensures multiset(a[..|a| - 1]) == multiset(b[..k] + b[k + 1..])
  {
    var last := a[|a| - 1];
    assert a == a[..|a| - 1] + [last];
    assert b == b[..k] + [last] + b[k + 1..];
    assert multiset(a[..|a| - 1]) == multiset(a) - multiset{last};
    assert multiset(b[..k] + b[k + 1..]) == multiset(b) - multiset{last};
  }

  lemma TotalsWithout(q: Query, b: seq<Transaction>, k: nat)
    requires k < |b|
    ensures Observed(q, b) == Observed(q, b[..k] + b[k + 1..]) + ObservedOf(q, b[k])
    ensures Confirmed(q, b) == Confirmed(q, b[..k] + b[k + 1..]) + ConfirmedOf(q, b[k])
  {
    var left, right := b[..k], b[k + 1..];
    assert b == (left + [b[k]]) + right;
    SumsNext(q, left, b[k]);
    TotalsOfConcat(q, left + [b[k]], right);
    TotalsOfConcat(q, left, right);
  }

  // The order in which distinct transactions are listed does not matter.
  lemma {:induction false} OrderIsIrrelevant(q: Query, a: seq<Transaction>, b: seq<Transaction>)
    requires multiset(a) == multiset(b)
    ensures Observed(q, a) == Observed(q, b) && Confirmed(q, a) == Confirmed(q, b)
  {
    if a == [] {
      assert |b| == |multiset(b)| == 0;
    } else {
      assert a[|a| - 1] in multiset(b);
      var k :| 0 <= k < |b| && b[k] == a[|a| - 1];
      TakeOut(a, b, k);
      OrderIsIrrelevant(q, a[..|a| - 1], b[..k] + b[k + 1..]);
      TotalsWithout(q, b, k);
    }
  }

  lemma PermutedListsAgree(q: Query, a: seq<Transaction>, b: seq<Transaction>)
    requires multiset(a) == multiset(b) && DistinctIds(a) && DistinctIds(b)
    ensures Observed(q, FirstOnly(a)) == Observed(q, FirstOnly(b))
      && Confirmed(q, FirstOnly(a)) == Confirmed(q, FirstOnly(b))
  {
    DistinctAreKept(a);
    DistinctAreKept(b);
    OrderIsIrrelevant(q, a, b);
  }
}
