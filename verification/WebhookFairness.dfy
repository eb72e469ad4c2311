/**
 How long a notification can be passed over. As long as workers save what they claim, those that
 come before it are taken at most once, so the claims that leave it out add up to no more.
 */
module WebhookFairness {
  import opened Values
  import opened Tables
  import opened LeaseQueue
  import opened OutboxStore
  import opened Delivery
  import opened WebhookRuns

  ghost predicate Unclaimed(s: State, id: int) {
    forall h | Live(s, h) :: h.id != id
  }

  // The rows that come before this one in the queue and that nobody works on.
  ghost function WaitingAhead(s: State, id: int): set<int>
    requires id in s.rows
  {
    set other | other in s.rows && s.rows[other].status == Pending
                && ComesFirst(s.rows, other, id) && Unclaimed(s, other)
  }

  // The claim asked for rows like this one, and left it out.
  ghost predicate PassesOver(s: State, a: Action, id: int)
    requires id in s.rows
  {
    a.Claim? && Covers(a.q, id, s.rows[id]) && id !in Due(s.rows, a.q)
  }

  // A step without failures, in which the row is left alone: no live lease runs out or is given
  // up, a lease outlives its claim, and rows come back to the queue, or enter it, behind the row.
  ghost predicate Orderly(limits: Limits, s: State, a: Action, id: int)
    requires id in s.rows
  {
    match a
    case Tick(clock) => forall h | Live(s, h) :: clock < h.until
    case Enqueue(_, row) => s.rows[id].nextAttemptAt < row.nextAttemptAt
    case Claim(_, q) => s.clock < q.now + q.ttl && id !in Due(s.rows, q)
    case Notify(_, _) => true
    case Save(h, at) => h.id != id && CanSave(limits, s, h, at) && Settles(AfterSave(limits, s, h, at), h.id, id)
    case Crash(h) => !Live(s, h)
  }

  // The notification is done with, or its next attempt is due after the other one.
  ghost predicate Settles(s: State, id: int, other: int) {
    id in s.rows && other in s.rows
    && (s.rows[id].status == Pending ==> s.rows[other].nextAttemptAt < s.rows[id].nextAttemptAt)
  }

  // Nobody comes to wait before the row in an orderly step.
  lemma NobodyCutsIn(limits: Limits, s: State, a: Action, s': State, id: int, other: int)
    requires Next(limits, s, a, s') && id in s.rows && Orderly(limits, s, a, id)
    ensures id in s'.rows && s'.rows[id].nextAttemptAt == s.rows[id].nextAttemptAt
    ensures other in WaitingAhead(s', id) ==> other in WaitingAhead(s, id)
  {
    if other in WaitingAhead(s', id) {
      forall h | Live(s, h) ensures h.id != other {
        if a.Notify? && a.h == h { assert Live(s', h.(answer := Some(a.ok))); }
      }
    }
  }

  // A full batch of rows that come first.
  lemma BatchComesFirst(s: State, a: Action, id: int)
    requires id in s.rows && PassesOver(s, a, id)
    ensures |Due(s.rows, a.q)| == a.q.limit
    ensures forall other | other in Due(s.rows, a.q) :: ComesFirst(s.rows, other, id)
  {
    var eligible := Eligible(s.rows, a.q.now) - a.q.skipped;
    assert id in eligible;
    OutboxStore.BatchComesFirst(s.rows, eligible, a.q.limit, id);
  }

  lemma TakenWereWaiting(s: State, a: Action, id: int, other: int)
    requires LeasesExclusive(s) && id in s.rows && PassesOver(s, a, id) && a.q.now <= s.clock
    requires other in Due(s.rows, a.q)
    ensures other in WaitingAhead(s, id)
  {
    BatchComesFirst(s, a, id);
    forall g | Live(s, g) ensures g.id != other { assert IsCurrent(s, g); }
  }

  lemma TakenAreClaimed(limits: Limits, s: State, a: Action, s': State, id: int, other: int)
    requires Next(limits, s, a, s') && id in s.rows && Orderly(limits, s, a, id) && a.Claim?
    requires other in Due(s.rows, a.q)
    ensures !Unclaimed(s', other)
  {
    var h := HoldingOf(s.rows, a.worker, a.q, other);
    assert h in Holdings(s.rows, a.worker, a.q);
    assert Live(s', h);
  }

  // The places that a claim gives to rows before this one.
  ghost function PlacesLost(s: State, a: Action, id: int): nat {
    if id in s.rows && PassesOver(s, a, id) then a.q.limit else 0
  }

  lemma PassingCounts(limits: Limits, s: State, a: Action, s': State, id: int)
    requires Inv(limits, s) && Next(limits, s, a, s') && id in s.rows && Orderly(limits, s, a, id)
    ensures id in s'.rows
    ensures |WaitingAhead(s', id)| + PlacesLost(s, a, id) <= |WaitingAhead(s, id)|
  {
    var before := WaitingAhead(s, id);
    NobodyCutsIn(limits, s, a, s', id, id);
    var after := WaitingAhead(s', id);
    forall other | other in after ensures other in before { NobodyCutsIn(limits, s, a, s', id, other); }
    if PassesOver(s, a, id) {
      var taken := Due(s.rows, a.q);
      forall other | other in taken ensures other in before && other !in after {
        TakenWereWaiting(s, a, id, other);
        TakenAreClaimed(limits, s, a, s', id, other);
      }
      DisjointCount(after, before, taken);
      BatchComesFirst(s, a, id);
    } else {
      DisjointCount(after, before, {});
    }
  }

  // A run together with the action of each of its steps.
  ghost predicate StepBy(limits: Limits, run: seq<State>, actions: seq<Action>, i: nat) {
    i < |actions| && i + 1 < |run| && Next(limits, run[i], actions[i], run[i + 1])
  }

  ghost predicate IsTrace(limits: Limits, run: seq<State>, actions: seq<Action>) {
    |run| == |actions| + 1 && forall i: nat | i < |actions| :: StepBy(limits, run, actions, i)
  }

  ghost predicate OrderlyAt(limits: Limits, run: seq<State>, actions: seq<Action>, id: int, k: nat) {
    k < |actions| && k < |run| && id in run[k].rows && Orderly(limits, run[k], actions[k], id)
  }

  ghost function AllPlacesLost(run: seq<State>, actions: seq<Action>, id: int, i: nat, j: nat): nat
    requires i <= j <= |actions| < |run|
    decreases j
  {
    if i == j then 0 else AllPlacesLost(run, actions, id, i, j - 1) + PlacesLost(run[j - 1], actions[j - 1], id)
  }

  // From any moment of a run on, as long as nothing fails, the batches that pass over a row have
  // together at most as many places as there are rows before it. So it waits for a bounded number
  // of claims, and the next one takes it.
  lemma {:induction false} PassedOverAtMost(
    limits: Limits, run: seq<State>, actions: seq<Action>, i: nat, j: nat, id: int)
    requires ValidLimits(limits) && IsRun(limits, run) && IsTrace(limits, run, actions)
    requires i <= j < |run| && id in run[i].rows
    requires forall k: nat | i <= k < j :: OrderlyAt(limits, run, actions, id, k)
    ensures id in run[j].rows
    ensures AllPlacesLost(run, actions, id, i, j) + |WaitingAhead(run[j], id)| <= |WaitingAhead(run[i], id)|
  {
    if i < j {
      PassedOverAtMost(limits, run, actions, i, j - 1, id);
      RunsKeepInv(limits, run, j - 1);
      assert StepBy(limits, run, actions, j - 1);
      assert OrderlyAt(limits, run, actions, id, j - 1);
      PassingCounts(limits, run[j - 1], actions[j - 1], run[j], id);
    }
  }
}
