/**
 Every request ends. Each step of its own brings it closer to its end, nobody else's step moves
 it, and unless it waits for a lock there is a step that it can take.
 */
module IssuanceProgress {
  import opened Tables
  import opened IssuanceMachine
  import opened IssuanceRuns

  const MOST_STEPS := 16

  // The most steps of its own that a request still has before it. A lost claim goes back to the
  // lookups, but to no second transaction.
  function StepsLeft(phase: Phase): (n: nat)
    ensures n == 0 <==> phase.Done?
    ensures n <= MOST_STEPS
  {
    match phase
    case FindKey(again) => if again then 3 else 16
    case FindIssued(_, _) => 2
    case ReadReplayPolicy(_, _) => 1
    case ReadPolicy => 15
    case InTransaction(t) => 14 - Progress(t.pc)
    case Done(_) => 0
  }

  predicate Own(a: Action, p: int) {
    match a
    case Look(q) => q == p
    case Run(q) => q == p
    case Break(q) => q == p
    case CommitTxn(q, _) => q == p
    case _ => false
  }

  lemma StatementAdvances(sys: System, s: State, p: int, t: Txn, phase': Phase)
    requires Execute(sys, s, p, t, phase')
    ensures StepsLeft(phase') < StepsLeft(InTransaction(t))
  {
  }

  lemma OwnStepAdvances(sys: System, s: State, a: Action, s': State, p: int)
    requires Next(sys, s, a, s') && Own(a, p)
    ensures p in s.procs && p in s'.procs && StepsLeft(s'.procs[p].phase) < StepsLeft(s.procs[p].phase)
  {
    if a.Run? {
      var t := s.procs[p].phase.txn;
      var phase' :| Execute(sys, s, p, t, phase')
        && s' == s.(procs := WithPhase(s, p, phase'), nextId := NextIdAfter(s, t));
      StatementAdvances(sys, s, p, t, phase');
    }
  }

  lemma OtherStepKeeps(sys: System, s: State, a: Action, s': State, p: int)
    requires Next(sys, s, a, s') && !Own(a, p) && p in s.procs
    ensures p in s'.procs && s'.procs[p] == s.procs[p]
  {
  }

  // A run together with the action of each of its steps.
  ghost predicate StepBy(sys: System, run: seq<State>, actions: seq<Action>, i: nat) {
    i < |actions| && i + 1 < |run| && Next(sys, run[i], actions[i], run[i + 1])
  }

  ghost predicate IsTrace(sys: System, run: seq<State>, actions: seq<Action>) {
    |run| == |actions| + 1 && forall i: nat | i < |actions| :: StepBy(sys, run, actions, i)
  }

  lemma {:induction false} TraceExists(sys: System, run: seq<State>, n: nat) returns (actions: seq<Action>)
    requires IsRun(sys, run) && n < |run|
    ensures IsTrace(sys, run[..n + 1], actions)
  {
    actions := [];
    if n > 0 {
      var before := TraceExists(sys, run, n - 1);
      assert StepAt(sys, run, n - 1);
      var a :| Next(sys, run[n - 1], a, run[n]);
      actions := before + [a];
      var shorter, longer := run[..n], run[..n + 1];
      forall i: nat | i < |actions| ensures StepBy(sys, longer, actions, i) {
        if i < |before| { assert StepBy(sys, shorter, before, i); }
      }
    }
  }

  // The number of steps that a request takes itself between two states of a run.
  function OwnSteps(actions: seq<Action>, p: int, i: nat, j: nat): nat
    requires i <= j <= |actions|
    decreases j
  {
    if i == j then 0 else OwnSteps(actions, p, i, j - 1) + if Own(actions[j - 1], p) then 1 else 0
  }

  lemma OneStep(sys: System, run: seq<State>, actions: seq<Action>, i: nat, p: int)
    requires IsTrace(sys, run, actions) && i + 1 < |run| && p in run[i].procs
    ensures p in run[i + 1].procs
    ensures var before, after := StepsLeft(run[i].procs[p].phase), StepsLeft(run[i + 1].procs[p].phase);
      after + (if Own(actions[i], p) then 1 else 0) <= before
  {
    assert StepBy(sys, run, actions, i);
    if Own(actions[i], p) {
      OwnStepAdvances(sys, run[i], actions[i], run[i + 1], p);
    } else {
      OtherStepKeeps(sys, run[i], actions[i], run[i + 1], p);
    }
  }

  // However the requests are interleaved, a request takes at most 16 steps of its own, and once
  // it has taken as many as it had left it is answered or refused.
  lemma {:induction false} RequestsEnd(sys: System, run: seq<State>, actions: seq<Action>, i: nat, j: nat, p: int)
    requires IsTrace(sys, run, actions) && i <= j < |run| && p in run[i].procs
    ensures p in run[j].procs
    ensures OwnSteps(actions, p, i, j) + StepsLeft(run[j].procs[p].phase) <= StepsLeft(run[i].procs[p].phase)
    ensures OwnSteps(actions, p, i, j) <= MOST_STEPS
    ensures OwnSteps(actions, p, i, j) >= StepsLeft(run[i].procs[p].phase) ==> run[j].procs[p].phase.Done?
  {
    if i < j {
      RequestsEnd(sys, run, actions, i, j - 1, p);
      OneStep(sys, run, actions, j - 1, p);
    }
  }

  lemma LookHasOutcome(sys: System, s: State, p: int)
    requires Inv(sys, s) && p in s.procs && !s.procs[p].phase.InTransaction? && !s.procs[p].phase.Done?
    ensures exists phase' :: Prepare(sys, s, s.procs[p].input, s.procs[p].phase, phase')
  {
    var input, phase := s.procs[p].input, s.procs[p].phase;
    ProcessOk(sys, s, p);
    match phase {
      case FindKey(again) =>
        var key := KeyOf(input);
        if key.None? || key.value !in s.db.keys {
          var phase' := if again then Done(Refusal(ClaimConflictWithoutCompletedRecord)) else ReadPolicy;
          assert Prepare(sys, s, input, phase, phase');
        } else {
          var record := s.db.keys[key.value];
          var phase' :=
            if record.paymentAddressId.None? then Done(Refusal(IdempotencyRecordIncomplete))
            else if !SameRequest(record, input) then Done(Refusal(IdempotencyKeyConflict))
            else FindIssued(again, record);
          assert Prepare(sys, s, input, phase, phase');
        }
      case FindIssued(again, record) =>
        var found := record.paymentAddressId;
        var phase' :=
          if found.None? || found.value !in s.db.allocations || s.db.allocations[found.value].status != Issued
          then Done(Refusal(CompletedRecordMissingIssuedAllocation))
          else ReadReplayPolicy(found.value, s.db.allocations[found.value]);
        assert Prepare(sys, s, input, phase, phase');
      case ReadReplayPolicy(id, row) =>
        var phase' :=
          if row.space.policyId !in sys.catalogue then Done(Refusal(AddressPolicyNotFound))
          else Done(Answer(ResponseOf(sys.catalogue[row.space.policyId], id, row, true)));
        assert Prepare(sys, s, input, phase, phase');
      case ReadPolicy =>
        var phase' :=
          if input.policyId !in sys.catalogue then Done(Refusal(AddressPolicyNotFound))
          else PlanPhase(sys, input, 1, 1);
        assert Prepare(sys, s, input, phase, phase');
    }
  }

  // A request that has not ended can take a step, without any failure, unless it waits.
  lemma CanStep(sys: System, s: State, p: int) returns (a: Action, s': State)
    requires Inv(sys, s) && p in s.procs && !s.procs[p].phase.Done? && !Waiting(s, p)
    ensures Own(a, p) && !a.Break? && Next(sys, s, a, s')
  {
    ProcessOk(sys, s, p);
    if !s.procs[p].phase.InTransaction? {
      LookHasOutcome(sys, s, p);
      var phase' :| Prepare(sys, s, s.procs[p].input, s.procs[p].phase, phase');
      a, s' := Look(p), s.(procs := WithPhase(s, p, phase'));
    } else {
      var t := s.procs[p].phase.txn;
      if t.pc.Commit? {
        a := CommitTxn(p, true);
        s' := s.(
          db := Overlay(s.db, t.written),
          procs := WithPhase(s, p, Done(Answer(
            ResponseOf(t.plan.policy, t.pick.id, t.written.allocations[t.pick.id], false)))));
      } else {
        StatementHasOutcome(sys, s, p, t);
        var phase' :| Execute(sys, s, p, t, phase');
        a, s' := Run(p), s.(procs := WithPhase(s, p, phase'), nextId := NextIdAfter(s, t));
      }
    }
  }
}
