/**
 The stored tracking is updated one poll at a time. This module shows what it says about
 the whole sequence of accepted polls behind it.
 */
module ReceiptHistory {
  import opened Values
  import opened PaymentReceiptTracking

  // One accepted poll: what the chain showed, and the clock of the polling cycle.
  datatype Seen = Seen(o: Observation, at: Time)

  function Step(t: Tracking, p: Seen): Tracking {
    match Poll(t, p.o, p.at)
    case Success(u) => u
    case Failure(_) => t
  }

  function Replay(t: Tracking, polls: seq<Seen>): Tracking {
    if polls == [] then t else Step(Replay(t, polls[..|polls| - 1]), polls[|polls| - 1])
  }

  // Every poll was valid, and was made while the tracking was still being polled.
  ghost predicate Accepted(t: Tracking, polls: seq<Seen>) {
    polls != [] ==>
      var before, p := polls[..|polls| - 1], polls[|polls| - 1];
      && Accepted(t, before)
      && Pollable(Replay(t, before).status)
      && Validate(p.o).None?
      && p.at != ZERO_TIME
  }

  // A tracking as it is issued.
  ghost predicate Fresh(t: Tracking) {
    && t.status == Watching
    && t.expected > 0
    && t.observed == t.confirmed == t.unconfirmed == t.lastHeight == 0
    && t.firstObservedAt.None? && t.paidAt.None? && t.confirmedAt.None?
  }

  // `when` is the time of the first poll for which `reached` holds, if there is one.
  ghost predicate IsFirst(polls: seq<Seen>, reached: Seen -> bool, when: Option<Time>) {
    match when
    case None => forall i | 0 <= i < |polls| :: !reached(polls[i])
    case Some(at) =>
      exists i | 0 <= i < |polls| ::
        && reached(polls[i]) && polls[i].at == at
        && forall j | 0 <= j < i :: !reached(polls[j])
  }

  ghost function Arrived(): Seen -> bool { (p: Seen) => p.o.observed > 0 }

  ghost function Paid(t: Tracking): Seen -> bool { (p: Seen) => p.o.observed >= t.expected }

  ghost function Settled(t: Tracking): Seen -> bool { (p: Seen) => p.o.confirmed >= t.expected }

  ghost predicate EverPaid(t: Tracking, polls: seq<Seen>) {
    exists i :: 0 <= i < |polls| && Paid(t)(polls[i])
  }

  // The payment window has an end, and it is over.
  predicate Overdue(t: Tracking, at: Time) { t.expiresAt.Some? && t.expiresAt.value <= at }

  // The status, read off the last poll and off whether any poll was ever paid in full.
  ghost function StatusAfter(t: Tracking, polls: seq<Seen>): Status
    requires polls != []
  {
    var last := polls[|polls| - 1];
    if last.o.confirmed >= t.expected then PaidConfirmed
    else if last.o.observed >= t.expected then PaidUnconfirmed
    else if EverPaid(t, polls) then PaidUnconfirmedReverted
    else if Overdue(t, last.at) then FailedExpired
    else if last.o.observed == 0 then Watching
    else PartiallyPaid
  }

  lemma FirstExtends(polls: seq<Seen>, p: Seen, reached: Seen -> bool, when: Option<Time>)
    requires IsFirst(polls, reached, when)
    ensures IsFirst(polls + [p], reached, Stamp(when, reached(p), p.at))
  {
    var all := polls + [p];
    assert forall i | 0 <= i < |polls| :: all[i] == polls[i];
    match when {
      case Some(at) =>
        var i :| 0 <= i < |polls| && reached(polls[i]) && polls[i].at == at
          && forall j | 0 <= j < i :: !reached(polls[j]);
        assert reached(all[i]) && all[i].at == at;
      case None =>
        assert all[|polls|] == p;
    }
  }

  // The tracking after a history of accepted polls: the three time stamps are those of the
  // first poll over each threshold, the totals are the last poll's, and the status depends on
  // the last poll and on `EverPaid` alone.
  ghost predicate TellsHistory(t: Tracking, polls: seq<Seen>, u: Tracking) {
    && TermsOf(u) == TermsOf(t)
    && IsFirst(polls, Arrived(), u.firstObservedAt)
    && IsFirst(polls, Paid(t), u.paidAt)
    && IsFirst(polls, Settled(t), u.confirmedAt)
    && (polls != [] ==>
      var last := polls[|polls| - 1];
      && u.observed == last.o.observed && u.confirmed == last.o.confirmed
      && u.unconfirmed == last.o.unconfirmed && u.lastHeight == last.o.height
      && u.status == StatusAfter(t, polls))
  }

  lemma SameTerms(t: Tracking, u: Tracking)
    requires TermsOf(t) == TermsOf(u)
    ensures t.expected == u.expected && t.expiresAt == u.expiresAt
  {
    assert TermsOf(t).expected == TermsOf(u).expected && TermsOf(t).expiresAt == TermsOf(u).expiresAt;
  }

  lemma StepTellsHistory(t: Tracking, before: seq<Seen>, b: Tracking, p: Seen)
    requires TellsHistory(t, before, b) && Validate(p.o).None? && p.at != ZERO_TIME
    ensures TellsHistory(t, before + [p], Step(b, p))
  {
    SameTerms(t, b);
    FirstExtends(before, p, Arrived(), b.firstObservedAt);
    FirstExtends(before, p, Paid(t), b.paidAt);
    FirstExtends(before, p, Settled(t), b.confirmedAt);
    ValidateIsExact(p.o);
    PaidAtTellsEverPaid(t, before + [p], Stamp(b.paidAt, p.o.observed >= t.expected, p.at));
  }

  lemma {:induction false} ReplayIsHistory(t: Tracking, polls: seq<Seen>)
    requires Fresh(t) && Accepted(t, polls)
    ensures TellsHistory(t, polls, Replay(t, polls))
  {
    if polls != [] {
      var before, p := polls[..|polls| - 1], polls[|polls| - 1];
      assert before + [p] == polls;
      ReplayIsHistory(t, before);
      StepTellsHistory(t, before, Replay(t, before), p);
    }
  }

  lemma PaidAtTellsEverPaid(t: Tracking, polls: seq<Seen>, paidAt: Option<Time>)
    requires IsFirst(polls, Paid(t), paidAt)
    ensures paidAt.Some? <==> EverPaid(t, polls)
  {
  }

  // Once any accepted poll reached the expected amount, no later one can bring the tracking
  // back to an unpaid status, and only a tracking that was never paid can expire.
  lemma PaymentIsNeverForgotten(t: Tracking, polls: seq<Seen>)
    requires Fresh(t) && Accepted(t, polls) && polls != []
    ensures var u := Replay(t, polls);
      && (EverPaid(t, polls) <==> u.status in {PaidUnconfirmed, PaidUnconfirmedReverted, PaidConfirmed})
      && (u.status == FailedExpired <==> !EverPaid(t, polls) && Overdue(t, polls[|polls| - 1].at))
  {
    ReplayIsHistory(t, polls);
    var last := polls[|polls| - 1];
    AcceptedIsValid(t, polls, |polls| - 1);
    if last.o.observed >= t.expected { assert Paid(t)(last); }
  }

  lemma {:induction false} AcceptedIsValid(t: Tracking, polls: seq<Seen>, i: nat)
    requires Accepted(t, polls) && i < |polls|
    ensures 0 <= polls[i].o.confirmed && 0 <= polls[i].o.unconfirmed
    ensures polls[i].o.confirmed + polls[i].o.unconfirmed == polls[i].o.observed
  {
    if i < |polls| - 1 {
      AcceptedIsValid(t, polls[..|polls| - 1], i);
    } else {
      ValidateIsExact(polls[i].o);
    }
  }

  // Confirmed money is observed money, so the stamps come in order: first seen, paid, settled.
  lemma StampsAreOrdered(t: Tracking, polls: seq<Seen>)
    requires Fresh(t) && Accepted(t, polls)
    requires forall i, j | 0 <= i < j < |polls| :: polls[i].at <= polls[j].at
    ensures var u := Replay(t, polls);
      && (u.confirmedAt.Some? ==> u.paidAt.Some? && u.paidAt.value <= u.confirmedAt.value)
      && (u.paidAt.Some? ==> u.firstObservedAt.Some? && u.firstObservedAt.value <= u.paidAt.value)
  {
    ReplayIsHistory(t, polls);
    forall i: nat | i < |polls| ensures polls[i].o.confirmed <= polls[i].o.observed {
      AcceptedIsValid(t, polls, i);
    }
    var u := Replay(t, polls);
    FirstOfWeaker(polls, Settled(t), Paid(t), u.confirmedAt, u.paidAt);
    FirstOfWeaker(polls, Paid(t), Arrived(), u.paidAt, u.firstObservedAt);
  }

  lemma FirstOfWeaker(polls: seq<Seen>, strong: Seen -> bool, weak: Seen -> bool, s: Option<Time>, w: Option<Time>)
    requires IsFirst(polls, strong, s) && IsFirst(polls, weak, w)
    requires forall i | 0 <= i < |polls| :: strong(polls[i]) ==> weak(polls[i])
    requires forall i, j | 0 <= i < j < |polls| :: polls[i].at <= polls[j].at
    ensures s.Some? ==> w.Some? && w.value <= s.value
  {
    if s.Some? {
      var i :| 0 <= i < |polls| && strong(polls[i]) && polls[i].at == s.value;
      assert weak(polls[i]);
    }
  }

  lemma {:induction false} AcceptedPrefix(t: Tracking, polls: seq<Seen>, n: nat)
    requires Accepted(t, polls) && n <= |polls|
    ensures Accepted(t, polls[..n])
    decreases |polls|
  {
    if n < |polls| {
      var before := polls[..|polls| - 1];
      assert before[..n] == polls[..n];
      AcceptedPrefix(t, before, n);
    } else {
      assert polls[..n] == polls;
    }
  }

  // Time stamps are never moved or taken back.
  predicate StampsExtend(before: Tracking, after: Tracking) {
    && (before.firstObservedAt.Some? ==> after.firstObservedAt == before.firstObservedAt)
    && (before.paidAt.Some? ==> after.paidAt == before.paidAt)
    && (before.confirmedAt.Some? ==> after.confirmedAt == before.confirmedAt)
  }

  lemma {:induction false} StampsAreKept(t: Tracking, polls: seq<Seen>, n: nat)
    requires n <= |polls|
    ensures StampsExtend(Replay(t, polls[..n]), Replay(t, polls))
    decreases |polls|
  {
    if n < |polls| {
      var before := polls[..|polls| - 1];
      assert before[..n] == polls[..n];
      StampsAreKept(t, before, n);
    } else {
      assert polls[..n] == polls;
    }
  }

  // The paid statuses are the ones with a payment time stamp.
  lemma PaidStatusHasStamp(t: Tracking, polls: seq<Seen>)
    requires Fresh(t) && Accepted(t, polls)
    ensures var u := Replay(t, polls);
      u.paidAt.Some? <==> u.status in {PaidUnconfirmed, PaidUnconfirmedReverted, PaidConfirmed}
  {
    ReplayIsHistory(t, polls);
    PaidAtTellsEverPaid(t, polls, Replay(t, polls).paidAt);
    if polls != [] { PaymentIsNeverForgotten(t, polls); }
  }

  // Histories start where issuance leaves off.
  lemma IssuedIsFresh(
    id: int, policyId: string, chain: string, network: string, address: string, assetReference: string,
    issuedAt: Time, expected: int64, requiredConfirmations: int, expiresAt: Time)
    ensures var r := NewTracking(
      id, policyId, chain, network, address, assetReference, issuedAt, expected, requiredConfirmations, expiresAt);
      r.Success? ==>
        && Fresh(r.value) && r.value.paymentAddressId == id > 0 && r.value.expected == expected > 0
        && r.value.chain == chain && r.value.network == network && r.value.address == address != ""
        && r.value.policyId == policyId && r.value.assetReference == assetReference
        && r.value.issuedAt == issuedAt != ZERO_TIME && r.value.requiredConfirmations == requiredConfirmations > 0
        && r.value.expiresAt == Some(expiresAt) && r.value.lastFailure.None?
  {
  }
}
