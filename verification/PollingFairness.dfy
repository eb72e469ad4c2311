/**
 How long a row can be passed over. As long as workers save what they claim, the rows that come
 before it are taken at most once, so the claims that leave it out add up to no more.
 */
module PollingFairness {
  import opened LeaseQueue
  import opened TrackingStore
  import opened PollingRuns

  ghost predicate Unclaimed(s: State, id: int) {
    forall h | Live(s, h) :: h.id != id
  }

  // The rows that come before this one in the queue and that nobody works on.
  ghost function WaitingAhead(s: State, id: int): set<int>
    requires id in s.rows
  {
    set other | other in s.rows && ComesFirst(s.rows, other, id) && Unclaimed(s, other)
  }

  // The claim asked for rows like this one, and left it out.
  ghost predicate PassesOver(s: State, a: Action, id: int)
    requires id in s.rows
  {
    a.Claim? && Covers(a.q, id, s.rows[id]) && id !in Due(s.rows, a.q)
  }

  // A step without failures, in which the row is left alone: no live lease runs out or is given
  // up, a lease outlives its claim, and rows come back to the queue, or enter it, behind the row.
  ghost predicate Orderly(s: State, a: Action, id: int)
    requires id in s.rows
  {
    match a
    case Tick(clock) => forall h | Live(s, h) :: clock < h.until
    case Issue(t) => s.rows[id].nextPollAt < t.issuedAt
    case Claim(_, q) => s.clock < q.now + q.ttl && id !in Due(s.rows, q)
    case Save(h, _, interval) => h.id != id && s.rows[id].nextPollAt < h.now + interval
    case Crash(h) => !Live(s, h)
  }

  // Nobody comes to wait before the row in an orderly step.
  lemma NobodyCutsIn(s: State, a: Action, s': State, id: int, other: int)
    requires Next(s, a, s') && id in s.rows && Orderly(s, a, id)
    ensures id in s'.rows && s'.rows[id].nextPollAt == s.rows[id].nextPollAt
    ensures other in WaitingAhead(s', id) ==> other in WaitingAhead(s, id)
  {
    if other in WaitingAhead(s', id) {
      forall h | Live(s, h) ensures Live(s', h) || h.id != other {}
    }
  }

  // A full batch of rows that come first.
  lemma BatchComesFirst(s: State, a: Action, id: int)
    requires id in s.rows && PassesOver(s, a, id)
    ensures |Due(s.rows, a.q)| == a.q.limit
    ensures forall other | other in Due(s.rows, a.q) :: ComesFirst(s.rows, other, id)
  {
    var eligible := Eligible(s.rows, a.q.now, a.q.chain, a.q.network, POLLABLE_STATUSES) - a.q.skipped;
    assert id in eligible;
    TrackingStore.BatchComesFirst(s.rows, eligible, a.q.limit, id);
  }

  lemma TakenWereWaiting(s: State, a: Action, id: int, other: int)
    requires LeasesExclusive(s) && id in s.rows && PassesOver(s, a, id) && a.q.now <= s.clock
    requires other in Due(s.rows, a.q)
    ensures other in WaitingAhead(s, id)
  {
    BatchComesFirst(s, a, id);
    forall g | Live(s, g) ensures g.id != other { ClaimedIsFree(s, a.q, g); }
  }

  lemma TakenAreClaimed(s: State, a: Action, s': State, id: int, other: int)
    requires Next(s, a, s') && id in s.rows && Orderly(s, a, id) && a.Claim?
    requires other in Due(s.rows, a.q)
    ensures !Unclaimed(s', other)
  {
    var h := Holding(a.worker, other, s.rows[other].tracking, a.q.now, a.q.now + a.q.ttl);
    assert h in Holdings(s.rows, a.worker, a.q);
    assert Live(s', h);
  }

  // The places that a claim gives to rows before this one.
  ghost function PlacesLost(s: State, a: Action, id: int): nat {
    if id in s.rows && PassesOver(s, a, id) then a.q.limit else 0
  }

  lemma PassingCounts(s: State, a: Action, s': State, id: int)
    requires Inv(s) && Next(s, a, s') && id in s.rows && Orderly(s, a, id)
    ensures id in s'.rows
    ensures |WaitingAhead(s', id)| + PlacesLost(s, a, id) <= |WaitingAhead(s, id)|
  {
    var before := WaitingAhead(s, id);
    NobodyCutsIn(s, a, s', id, id);
    var after := WaitingAhead(s', id);
    forall other | other in after ensures other in before { NobodyCutsIn(s, a, s', id, other); }
    if PassesOver(s, a, id) {
      var taken := Due(s.rows, a.q);
      forall other | other in taken ensures other in before && other !in after {
        TakenWereWaiting(s, a, id, other);
        TakenAreClaimed(s, a, s', id, other);
      }
      DisjointCount(after, before, taken);
      BatchComesFirst(s, a, id);
    } else {
      DisjointCount(after, before, {});
    }
  }

  // A run together with the action of each of its steps.
  ghost predicate StepBy(run: seq<State>, actions: seq<Action>, i: nat) {
    i < |actions| && i + 1 < |run| && Next(run[i], actions[i], run[i + 1])
  }

  ghost predicate IsTrace(run: seq<State>, actions: seq<Action>) {
    |run| == |actions| + 1 && forall i: nat | i < |actions| :: StepBy(run, actions, i)
  }

  ghost predicate OrderlyAt(run: seq<State>, actions: seq<Action>, id: int, k: nat) {
    k < |actions| && k < |run| && id in run[k].rows && Orderly(run[k], actions[k], id)
  }

  ghost function AllPlacesLost(run: seq<State>, actions: seq<Action>, id: int, i: nat, j: nat): nat
    requires i <= j <= |actions| < |run|
    decreases j
  {
    if i == j then 0 else AllPlacesLost(run, actions, id, i, j - 1) + PlacesLost(run[j - 1], actions[j - 1], id)
  }

  // From any moment of a run on, as long as nothing fails, the batches that pass over a row have
  // together at most as many places as there are rows before it. So it waits for a bounded number
  // of claims, and the next one takes it.
  lemma {:induction false} PassedOverAtMost(run: seq<State>, actions: seq<Action>, i: nat, j: nat, id: int)
    requires IsRun(run) && IsTrace(run, actions) && i <= j < |run| && id in run[i].rows
    requires forall k: nat | i <= k < j :: OrderlyAt(run, actions, id, k)
    ensures id in run[j].rows
    ensures AllPlacesLost(run, actions, id, i, j) + |WaitingAhead(run[j], id)| <= |WaitingAhead(run[i], id)|
  {
    if i < j {
      PassedOverAtMost(run, actions, i, j - 1, id);
      RunsKeepInv(run, j - 1);
      assert StepBy(run, actions, j - 1);
      assert OrderlyAt(run, actions, id, j - 1);
      PassingCounts(run[j - 1], actions[j - 1], run[j], id);
    }
  }
}
