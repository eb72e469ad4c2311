/** The status notifications of one address, in the order they were enqueued. */
module StatusPath {
  import opened Values
  import opened PaymentReceiptTracking
  import opened PollOutcome
  import opened ReceiptHistory

  // Each event starts where the one before it ended, none stays where it is, and the last one
  // ends at `to`.
  ghost predicate IsPath(events: seq<StatusChanged>, from: Status, to: Status) {
    && (forall i | 0 <= i < |events| :: events[i].previous != events[i].current)
    && (forall i | 0 <= i < |events| :: events[i].previous == StatusBefore(events, from, i))
    && to == StatusBefore(events, from, |events|)
  }

  function StatusBefore(events: seq<StatusChanged>, from: Status, i: nat): Status
    requires i <= |events|
  {
    if i == 0 then from else events[i - 1].current
  }

  function EventsFor(outbox: seq<StatusChanged>, id: int): seq<StatusChanged> {
    if outbox == [] then []
    else
      var last := outbox[|outbox| - 1];
      EventsFor(outbox[..|outbox| - 1], id) + if last.paymentAddressId == id then [last] else []
  }

  function Announced(t: Tracking, outcome: Outcome, now: Time): seq<StatusChanged>
    requires Acceptable(t, outcome, now)
  {
    match EventOf(t, outcome, now)
    case Some(event) => [event]
    case None => []
  }

  // What a history of accepted polls has to announce: every change of status, when it happened
  // and with the totals that caused it.
  ghost function Changes(t: Tracking, polls: seq<Seen>): seq<StatusChanged>
  {
    if polls == [] then []
    else
      var before, p := polls[..|polls| - 1], polls[|polls| - 1];
      var b := Replay(t, before);
      Changes(t, before) + if Acceptable(b, Observed(p.o), p.at) then Announced(b, Observed(p.o), p.at) else []
  }

  // The status after the first `n` polls.
  ghost function StatusAt(t: Tracking, polls: seq<Seen>, n: nat): Status
    requires n <= |polls|
  {
    if n == 0 then Watching else StatusAfter(t, polls[..n])
  }

  // The event tells of the `j`th poll: the statuses around it, its totals and its time.
  ghost predicate TellsPoll(event: StatusChanged, t: Tracking, polls: seq<Seen>, j: nat) {
    && j < |polls|
    && event.paymentAddressId == t.paymentAddressId
    && event.previous == StatusAt(t, polls, j) && event.current == StatusAt(t, polls, j + 1)
    && event.observed == polls[j].o.observed && event.confirmed == polls[j].o.confirmed
    && event.unconfirmed == polls[j].o.unconfirmed
    && event.changedAt == polls[j].at
  }

  // The status after the `j`th poll is not the one before it.
  ghost predicate ChangesAt(t: Tracking, polls: seq<Seen>, j: nat) {
    j < |polls| && StatusAt(t, polls, j) != StatusAt(t, polls, j + 1)
  }

  predicate Ascending(at: seq<nat>) { forall i, k | 0 <= i < k < |at| :: at[i] < at[k] }

  // `at` are the polls that changed the status, in order, and each event tells of one of them.
  ghost predicate AreChanges(at: seq<nat>, t: Tracking, polls: seq<Seen>) {
    Ascending(at) && forall j: nat :: j in at <==> ChangesAt(t, polls, j)
  }

  ghost predicate EventsTell(events: seq<StatusChanged>, t: Tracking, polls: seq<Seen>, at: seq<nat>) {
    |at| == |events| && forall k | 0 <= k < |at| :: TellsPoll(events[k], t, polls, at[k])
  }

  ghost predicate TellThePolls(events: seq<StatusChanged>, t: Tracking, polls: seq<Seen>, at: seq<nat>) {
    AreChanges(at, t, polls) && EventsTell(events, t, polls, at)
  }

  lemma StatusAtPrefix(t: Tracking, before: seq<Seen>, p: Seen, n: nat)
    requires n <= |before|
    ensures StatusAt(t, before + [p], n) == StatusAt(t, before, n)
  {
    assert (before + [p])[..n] == before[..n];
  }

  lemma StatusOfReplay(t: Tracking, polls: seq<Seen>)
    requires Fresh(t) && Accepted(t, polls)
    ensures Replay(t, polls).status == StatusAt(t, polls, |polls|)
  {
    assert polls[..|polls|] == polls;
    ReplayIsHistory(t, polls);
  }

  lemma NextIsAccepted(t: Tracking, before: seq<Seen>, p: Seen)
    requires Fresh(t) && Accepted(t, before + [p])
    ensures Accepted(t, before) == true && Acceptable(Replay(t, before), Observed(p.o), p.at)
    ensures Replay(t, before + [p]) == Settle(Replay(t, before), Observed(p.o), p.at)
    ensures Changes(t, before + [p]) == Changes(t, before) + Announced(Replay(t, before), Observed(p.o), p.at)
  {
    assert (before + [p])[..|before|] == before && (before + [p])[|before|] == p;
  }

  lemma SameAddress(t: Tracking, before: seq<Seen>)
    requires Fresh(t) && Accepted(t, before)
    ensures Replay(t, before).paymentAddressId == t.paymentAddressId
  {
    ReplayIsHistory(t, before);
    assert TermsOf(Replay(t, before)).paymentAddressId == TermsOf(t).paymentAddressId;
  }

  // One more poll is announced exactly when it changes the status, with what it showed.
  lemma AnnouncedTells(t: Tracking, before: seq<Seen>, p: Seen)
    requires Fresh(t) && Accepted(t, before + [p]) == true && Accepted(t, before)
    requires Acceptable(Replay(t, before), Observed(p.o), p.at)
    ensures var announced := Announced(Replay(t, before), Observed(p.o), p.at);
      var polls := before + [p];
      && |announced| <= 1
      && (announced != [] <==> ChangesAt(t, polls, |before|))
      && (announced != [] ==> TellsPoll(announced[0], t, polls, |before|))
  {
    NextIsAccepted(t, before, p);
    StatusOfReplay(t, before);
    StatusOfReplay(t, before + [p]);
    StatusAtPrefix(t, before, p, |before|);
    SameAddress(t, before);
  }

  lemma EarlierStillTells(event: StatusChanged, t: Tracking, before: seq<Seen>, p: Seen, j: nat)
    requires TellsPoll(event, t, before, j)
    ensures TellsPoll(event, t, before + [p], j)
  {
    StatusAtPrefix(t, before, p, j);
    StatusAtPrefix(t, before, p, j + 1);
  }

  lemma EarlierStillChanges(t: Tracking, before: seq<Seen>, p: Seen, j: nat)
    requires j != |before|
    ensures ChangesAt(t, before + [p], j) <==> ChangesAt(t, before, j)
  {
    if j < |before| {
      StatusAtPrefix(t, before, p, j);
      StatusAtPrefix(t, before, p, j + 1);
    }
  }

  lemma AscendingNext(at: seq<nat>, n: nat)
    requires Ascending(at) && forall j | j in at :: j < n
    ensures Ascending(at + [n])
  {
    assert forall k | 0 <= k < |at| :: at[k] in at;
  }

  lemma ChangesNext(at: seq<nat>, t: Tracking, before: seq<Seen>, p: Seen)
    requires AreChanges(at, t, before)
    ensures AreChanges(if ChangesAt(t, before + [p], |before|) then at + [|before|] else at, t, before + [p]) == true
  {
    var polls, n := before + [p], |before|;
    var all := if ChangesAt(t, polls, n) then at + [n] else at;
    forall j | j in at ensures j < n { assert ChangesAt(t, before, j); }
    AscendingNext(at, n);
    forall j: nat ensures j in all <==> ChangesAt(t, polls, j) {
      if j != n { EarlierStillChanges(t, before, p, j); }
    }
  }

  lemma EventsTellNext(events: seq<StatusChanged>, t: Tracking, before: seq<Seen>, p: Seen, at: seq<nat>)
    requires EventsTell(events, t, before, at)
    ensures EventsTell(events, t, before + [p], at) == true
  {
    forall k | 0 <= k < |at| ensures TellsPoll(events[k], t, before + [p], at[k]) {
      EarlierStillTells(events[k], t, before, p, at[k]);
    }
  }

  lemma OneMoreTells(events: seq<StatusChanged>, event: StatusChanged, t: Tracking, polls: seq<Seen>, at: seq<nat>,
      j: nat)
    requires EventsTell(events, t, polls, at) && TellsPoll(event, t, polls, j) == true
    ensures EventsTell(events + [event], t, polls, at + [j]) == true
  {
  }

  // What a history of accepted polls announces, poll by poll.
  lemma {:induction false} ChangesTellThePolls(t: Tracking, polls: seq<Seen>) returns (at: seq<nat>)
    requires Fresh(t) && Accepted(t, polls)
    ensures TellThePolls(Changes(t, polls), t, polls, at) == true
  {
    at := [];
    if polls != [] {
      var before, p := polls[..|polls| - 1], polls[|polls| - 1];
      assert before + [p] == polls;
      NextIsAccepted(t, before, p);
      at := ChangesTellThePolls(t, before);
      var announced := Announced(Replay(t, before), Observed(p.o), p.at);
      AnnouncedTells(t, before, p);
      ChangesNext(at, t, before, p);
      EventsTellNext(Changes(t, before), t, before, p, at);
      if announced != [] {
        OneMoreTells(Changes(t, before), announced[0], t, polls, at, |before|);
        assert announced == [announced[0]];
        at := at + [|before|];
      } else {
        assert Changes(t, before) + announced == Changes(t, before);
      }
    }
  }

  lemma PathAppend(events: seq<StatusChanged>, from: Status, to: Status, event: StatusChanged)
    requires IsPath(events, from, to) && event.previous == to != event.current
    ensures IsPath(events + [event], from, event.current)
  {
    var all := events + [event];
    forall i | 0 <= i <= |events| ensures StatusBefore(all, from, i) == StatusBefore(events, from, i) {}
  }

  lemma PathExtends(events: seq<StatusChanged>, from: Status, t: Tracking, outcome: Outcome, now: Time)
    requires Acceptable(t, outcome, now) && IsPath(events, from, t.status)
    ensures IsPath(events + Announced(t, outcome, now), from, Settle(t, outcome, now).status)
  {
    var announced := Announced(t, outcome, now);
    if announced != [] {
      PathAppend(events, from, t.status, announced[0]);
    } else {
      assert events + announced == events;
    }
  }

  lemma {:induction false} ChangesArePath(t: Tracking, polls: seq<Seen>)
    requires Accepted(t, polls)
    ensures IsPath(Changes(t, polls), t.status, Replay(t, polls).status)
  {
    if polls != [] {
      var before, p := polls[..|polls| - 1], polls[|polls| - 1];
      ChangesArePath(t, before);
      PathExtends(Changes(t, before), t.status, Replay(t, before), Observed(p.o), p.at);
    }
  }

  // A save overwrites whatever is stored. The path survives it exactly when the status it
  // started from is still the stored one.
  lemma SaveKeepsPathExactly(
    events: seq<StatusChanged>, from: Status, stored: Status, copy: Tracking, outcome: Outcome, now: Time)
    requires Acceptable(copy, outcome, now) && IsPath(events, from, stored)
    ensures IsPath(events + Announced(copy, outcome, now), from, Settle(copy, outcome, now).status) <==>
      copy.status == stored
  {
    var all := events + Announced(copy, outcome, now);
    if copy.status == stored {
      PathExtends(events, from, copy, outcome, now);
    } else if EventOf(copy, outcome, now).Some? {
      assert all[|events|].previous == copy.status;
      assert StatusBefore(all, from, |events|) == stored;
    } else {
      assert all == events;
    }
  }

  lemma {:induction false} EventsForAppend(outbox: seq<StatusChanged>, more: seq<StatusChanged>, id: int)
    requires |more| <= 1
    ensures EventsFor(outbox + more, id) ==
            EventsFor(outbox, id) + if more != [] && more[0].paymentAddressId == id then more else []
  {
    if more != [] {
      assert (outbox + more)[..|outbox|] == outbox && (outbox + more)[|outbox|] == more[0];
    } else {
      assert outbox + more == outbox;
    }
  }
}
