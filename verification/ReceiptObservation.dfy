/**
 How a polling cycle asks the chain: the latest height once for each chain and network, and
 then every tracking at that height. What is saved for a tracking follows from the answers.
 */
module ReceiptObservation {
  import opened Values
  import opened PaymentReceiptTracking
  import opened PollOutcome
  import opened Stores

  function ScopeOf(t: Tracking): Scope { Scope(t.chain, t.network) }

  // A fetch of a height, and an observation of an address, each with what came of it.
  datatype Fetch = Fetch(scope: Scope, height: Option<int64>)

  datatype Sighting = Sighting(t: Tracking, height: int64, answer: Option<Observation>)

  // What was asked about one tracking.
  datatype Sight = NotAsked | Asked(height: int64, answer: Option<Observation>)

  // What is saved, read off the answers alone.
  function OutcomeOf(t: Tracking, sight: Sight): Outcome {
    if t.issuedAt == ZERO_TIME then Unobserved(TrackingInvalid)
    else if sight.NotAsked? then Unobserved(LatestBlockHeightUnavailable)
    else if sight.answer.None? then Unobserved(ObservationFailed)
    else if Validate(sight.answer.value).Some? then Unobserved(TrackingUpdateFailed)
    else Observed(sight.answer.value)
  }

  // Each outcome has its own cause, and an observation is what the chain answered.
  predicate HasCause(t: Tracking, sight: Sight, outcome: Outcome) {
    && (outcome == Unobserved(TrackingInvalid) <==> t.issuedAt == ZERO_TIME)
    && (outcome == Unobserved(LatestBlockHeightUnavailable) <==> t.issuedAt != ZERO_TIME && sight.NotAsked?)
    && (outcome == Unobserved(ObservationFailed) <==> t.issuedAt != ZERO_TIME && sight.Asked? && sight.answer.None?)
    && (outcome == Unobserved(TrackingUpdateFailed) <==>
         t.issuedAt != ZERO_TIME && sight.Asked? && sight.answer.Some? && Validate(sight.answer.value).Some?)
    && (outcome.Observed? <==>
         t.issuedAt != ZERO_TIME && sight.Asked? && sight.answer.Some? && Validate(sight.answer.value).None?)
    && (outcome.Observed? ==> outcome.o == sight.answer.value)
  }

  // The chain, seen through the network: every answer is possible. The ghost fields record
  // each question with its answer.
  class BlockchainReceiptObserver {
    ghost var fetches: seq<Fetch>
    ghost var sightings: seq<Sighting>

    constructor ()
      ensures fetches == [] && sightings == []
    {
      fetches, sightings := [], [];
    }

    method FetchLatestBlockHeight(scope: Scope) returns (r: Option<int64>)
      modifies `fetches
      ensures fetches == old(fetches) + [Fetch(scope, r)]
    {
      var height: int64 := *;
      var ok := DriverSucceeds();
      r := if ok then Some(height) else None;
      fetches := fetches + [Fetch(scope, r)];
    }

    method ObserveAddress(t: Tracking, height: int64) returns (r: Option<Observation>)
      modifies `sightings
      ensures sightings == old(sightings) + [Sighting(t, height, r)]
    {
      var observed: int64, confirmed: int64, unconfirmed: int64, at: int64 := *, *, *, *;
      var ok := DriverSucceeds();
      r := if ok then Some(Observation(observed, confirmed, unconfirmed, at)) else None;
      sightings := sightings + [Sighting(t, height, r)];
    }
  }

  // Later answers add to earlier ones, and change none of them, failures included.
  ghost predicate AnswersGrow(before: map<Scope, Option<int64>>, after: map<Scope, Option<int64>>) {
    forall s | s in before :: s in after && after[s] == before[s]
  }

  // The answers are those of the fetches, and no scope was fetched twice.
  ghost predicate Recorded(fetches: seq<Fetch>, answers: map<Scope, Option<int64>>) {
    && (forall k | 0 <= k < |fetches| :: fetches[k].scope in answers && answers[fetches[k].scope] == fetches[k].height)
    && (forall s | s in answers :: exists k :: 0 <= k < |fetches| && fetches[k].scope == s)
    && (forall j, k | 0 <= j < k < |fetches| :: fetches[j].scope != fetches[k].scope)
  }

  lemma RecordNext(fetches: seq<Fetch>, answers: map<Scope, Option<int64>>, scope: Scope, height: Option<int64>)
    requires Recorded(fetches, answers) && scope !in answers
    ensures Recorded(fetches + [Fetch(scope, height)], answers[scope := height])
  {
    var all, after := fetches + [Fetch(scope, height)], answers[scope := height];
    assert all[|fetches|] == Fetch(scope, height) && forall k | 0 <= k < |fetches| :: all[k] == fetches[k];
    forall s | s in after ensures exists k :: 0 <= k < |all| && all[k].scope == s {
      if s != scope {
        var k :| 0 <= k < |fetches| && fetches[k].scope == s;
        assert all[k].scope == s;
      }
    }
  }

  // The heights and the failures that one cycle remembers.
  class HeightCache {
    var heights: map<Scope, int64>
    var failures: set<Scope>

    constructor ()
      ensures Answers() == map[] && Remembers([])
    {
      heights, failures := map[], {};
    }

    ghost function Answers(): map<Scope, Option<int64>>
      reads this
    {
      map s | s in heights.Keys + failures :: if s in heights then Some(heights[s]) else None
    }

    ghost predicate Remembers(fetches: seq<Fetch>)
      reads this
    {
      heights.Keys !! failures && Recorded(fetches, Answers())
    }

    method FetchFor(observer: BlockchainReceiptObserver, scope: Scope) returns (r: Option<int64>)
      requires Remembers(observer.fetches)
      modifies this, observer`fetches
      ensures Remembers(observer.fetches)
      ensures AnswersGrow(old(Answers()), Answers()) && Answers().Keys == old(Answers()).Keys + {scope}
      ensures scope in Answers() && r == Answers()[scope]
    {
      if scope in heights { return Some(heights[scope]); }
      if scope in failures { return None; }
      r := observer.FetchLatestBlockHeight(scope);
      RecordNext(old(observer.fetches), Answers(), scope, r);
      if r.None? {
        failures := failures + {scope};
      } else {
        heights := heights[scope := r.value];
      }
      assert Answers() == old(Answers())[scope := r];
    }
  }

  // A tracking is asked about exactly when it has an issue time and its scope has a height,
  // and then at that height.
  predicate SightFits(t: Tracking, sight: Sight, answers: map<Scope, Option<int64>>) {
    if t.issuedAt == ZERO_TIME then sight.NotAsked?
    else
      && Scope(t.chain, t.network) in answers
      && match answers[Scope(t.chain, t.network)]
         case None => sight.NotAsked?
         case Some(height) => sight.Asked? && sight.height == height
  }

  function Logged(t: Tracking, sight: Sight): seq<Sighting> {
    if sight.NotAsked? then [] else [Sighting(t, sight.height, sight.answer)]
  }

  // Asks about one tracking and decides what is to be saved for it.
  method ObserveTracking(observer: BlockchainReceiptObserver, cache: HeightCache, t: Tracking, now: Time)
    returns (outcome: Outcome, ghost sight: Sight)
    requires cache.Remembers(observer.fetches) && now != ZERO_TIME
    modifies cache, observer
    ensures cache.Remembers(observer.fetches) && AnswersGrow(old(cache.Answers()), cache.Answers())
    ensures cache.Answers().Keys == old(cache.Answers()).Keys + if t.issuedAt == ZERO_TIME then {} else {ScopeOf(t)}
    ensures SightFits(t, sight, cache.Answers())
    ensures observer.sightings == old(observer.sightings) + Logged(t, sight)
    ensures outcome == OutcomeOf(t, sight) && Acceptable(t, outcome, now) && HasCause(t, sight, outcome)
  {
    sight := NotAsked;
    if t.issuedAt == ZERO_TIME { return Unobserved(TrackingInvalid), sight; }
    var height := cache.FetchFor(observer, ScopeOf(t));
    if height.None? { return Unobserved(LatestBlockHeightUnavailable), sight; }
    var seen := observer.ObserveAddress(t, height.value);
    sight := Asked(height.value, seen);
    if seen.None? { return Unobserved(ObservationFailed), sight; }
    if ApplyObservation(t, seen.value, now).Failure? { return Unobserved(TrackingUpdateFailed), sight; }
    return Observed(seen.value), sight;
  }

  /******* A whole batch *******/

  predicate Visited(claimed: seq<Tracking>, n: nat, s: Scope)
    requires n <= |claimed|
  {
    exists i :: 0 <= i < n && claimed[i].issuedAt != ZERO_TIME && Scope(claimed[i].chain, claimed[i].network) == s
  }

  function LogOf(claimed: seq<Tracking>, sights: seq<Sight>): seq<Sighting>
    requires |sights| <= |claimed|
    decreases |sights|
  {
    if sights == [] then []
    else LogOf(claimed, sights[..|sights| - 1]) + Logged(claimed[|sights| - 1], sights[|sights| - 1])
  }

  lemma NothingAsked(claimed: seq<Tracking>)
    ensures Asks([], map[], [], claimed, [])
  {
  }

  // The scopes with an answer are those of the trackings seen so far.
  ghost predicate AnswersCover(answers: set<Scope>, claimed: seq<Tracking>, n: nat)
    requires n <= |claimed|
  {
    forall s :: s in answers <==> Visited(claimed, n, s)
  }

  lemma CoverNext(before: set<Scope>, claimed: seq<Tracking>, n: nat)
    requires n < |claimed| && AnswersCover(before, claimed, n)
    ensures AnswersCover(before + (if claimed[n].issuedAt == ZERO_TIME then {} else {ScopeOf(claimed[n])}), claimed,
      n + 1)
  {
    forall s ensures Visited(claimed, n + 1, s) <==>
                     Visited(claimed, n, s) || (claimed[n].issuedAt != ZERO_TIME && ScopeOf(claimed[n]) == s) {}
  }

  ghost predicate SightsFit(claimed: seq<Tracking>, sights: seq<Sight>, answers: map<Scope, Option<int64>>)
    requires |sights| <= |claimed|
  {
    forall i | 0 <= i < |sights| :: SightFits(claimed[i], sights[i], answers)
  }

  lemma FitNext(
    claimed: seq<Tracking>, sights: seq<Sight>, sight: Sight, before: map<Scope, Option<int64>>,
    answers: map<Scope, Option<int64>>)
    requires |sights| < |claimed| && SightsFit(claimed, sights, before) && AnswersGrow(before, answers)
    requires SightFits(claimed[|sights|], sight, answers)
    ensures SightsFit(claimed, sights + [sight], answers)
  {
    var all := sights + [sight];
    forall i | 0 <= i < |all| ensures SightFits(claimed[i], all[i], answers) {
      if i < |sights| { assert SightFits(claimed[i], sights[i], before); }
    }
  }

  // What was asked in the course of a batch: each scope of a tracking with an issue time once,
  // failures included, and each tracking at the one height of its scope.
  ghost predicate Asks(
    fetches: seq<Fetch>, answers: map<Scope, Option<int64>>, sightings: seq<Sighting>, claimed: seq<Tracking>,
    sights: seq<Sight>)
  {
    && |sights| <= |claimed| && Recorded(fetches, answers)
    && AnswersCover(answers.Keys, claimed, |sights|)
    && SightsFit(claimed, sights, answers)
    && sightings == LogOf(claimed, sights)
  }

  ghost predicate Asking(observer: BlockchainReceiptObserver, cache: HeightCache, claimed: seq<Tracking>,
      sights: seq<Sight>)
    reads observer, cache
  {
    cache.Remembers(observer.fetches) && Asks(observer.fetches, cache.Answers(), observer.sightings, claimed, sights)
  }

  lemma AsksNext(
    fetches: seq<Fetch>, before: map<Scope, Option<int64>>, answers: map<Scope, Option<int64>>,
    sightings: seq<Sighting>, claimed: seq<Tracking>, sights: seq<Sight>, sight: Sight, fetches': seq<Fetch>)
    requires Asks(fetches, before, sightings, claimed, sights) && |sights| < |claimed|
    requires Recorded(fetches', answers) && AnswersGrow(before, answers)
    requires var t := claimed[|sights|];
      answers.Keys == (before.Keys + if t.issuedAt == ZERO_TIME then {} else {ScopeOf(t)})
        && SightFits(t, sight, answers)
    ensures Asks(fetches', answers, sightings + Logged(claimed[|sights|], sight), claimed, sights + [sight])
  {
    assert (sights + [sight])[..|sights|] == sights;
    CoverNext(before.Keys, claimed, |sights|);
    FitNext(claimed, sights, sight, before, answers);
  }

  method ObserveNext(
    observer: BlockchainReceiptObserver, cache: HeightCache, claimed: seq<Tracking>, n: nat, ghost sights: seq<Sight>,
    now: Time)
    returns (outcome: Outcome, ghost sight: Sight)
    requires n == |sights| < |claimed| && Asking(observer, cache, claimed, sights) && now != ZERO_TIME
    modifies observer, cache
    ensures Asking(observer, cache, claimed, sights + [sight])
    ensures outcome == OutcomeOf(claimed[n], sight) && Acceptable(claimed[n], outcome, now)
  {
    ghost var fetches, before, sightings := observer.fetches, cache.Answers(), observer.sightings;
    outcome, sight := ObserveTracking(observer, cache, claimed[n], now);
    AsksNext(fetches, before, cache.Answers(), sightings, claimed, sights, sight, observer.fetches);
  }

  lemma {:induction false} AskedIsLogged(claimed: seq<Tracking>, sights: seq<Sight>, i: nat)
    requires i < |sights| <= |claimed| && sights[i].Asked?
    ensures Sighting(claimed[i], sights[i].height, sights[i].answer) in LogOf(claimed, sights)
    decreases |sights|
  {
    if i < |sights| - 1 { AskedIsLogged(claimed, sights[..|sights| - 1], i); }
  }

  // The update of a tracking fails exactly when the chain's answer does not add up. So when all
  // answers of a cycle do, none fails.
  lemma UpdateFailsExactly(claimed: seq<Tracking>, sights: seq<Sight>, i: nat)
    requires i < |sights| <= |claimed| && claimed[i].issuedAt != ZERO_TIME
    ensures OutcomeOf(claimed[i], sights[i]) == Unobserved(TrackingUpdateFailed) <==>
            sights[i].Asked? && sights[i].answer.Some? && Validate(sights[i].answer.value).Some?
    ensures (forall k | k in LogOf(claimed, sights) :: k.answer.Some? ==> Validate(k.answer.value).None?) ==>
            OutcomeOf(claimed[i], sights[i]) != Unobserved(TrackingUpdateFailed)
  {
    if sights[i].Asked? { AskedIsLogged(claimed, sights, i); }
  }
}
