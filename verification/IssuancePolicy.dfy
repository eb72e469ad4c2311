/** What a request is going to reserve and on which receipt terms, decided before any table is touched. */
module IssuancePolicy {
  import opened Values

  datatype Policy = Policy(
    id: string, chain: string, network: string, scheme: string, assetReference: string, decimals: int,
    enabled: bool, spaceRef: string)

  datatype Terms = Terms(confirmations: map<Scope, int>, expiresAfter: map<Scope, int>)

  datatype Plan = Plan(
    policy: Policy, amount: int64, customerReference: string, issuedAt: Time, confirmations: int, expiresAt: Time)

  datatype PlanError = IssuedAtRequired | ChainMismatch | NotEnabled | ExpectedAmountInvalid

  const DEFAULT_CONFIRMATIONS := 1

  // Seven days, in nanoseconds.
  const DEFAULT_EXPIRES_AFTER := 7 * 24 * 3600 * 1_000_000_000

  // Non-positive settings are dropped, so that their scopes fall back on the defaults.
  function NewTerms(confirmations: map<Scope, int>, expiresAfter: map<Scope, int>): Terms {
    Terms(map s | s in confirmations && confirmations[s] > 0 :: confirmations[s],
          map s | s in expiresAfter && expiresAfter[s] > 0 :: expiresAfter[s])
  }

  function Lookup(settings: map<Scope, int>, scope: Scope, default: int): int {
    if scope in settings && settings[scope] > 0 then settings[scope] else default
  }

  function MakePlan(
    terms: Terms, policy: Policy, requestedChain: string, amount: int64, customerReference: string, issuedAt: Time)
    : (r: Result<Plan, PlanError>)
  {
    if issuedAt == ZERO_TIME then Failure(IssuedAtRequired)
    else if policy.chain != requestedChain then Failure(ChainMismatch)
    else if !policy.enabled then Failure(NotEnabled)
    else if amount <= 0 then Failure(ExpectedAmountInvalid)
    else
      var scope := Scope(policy.chain, policy.network);
      Success(Plan(
        policy, amount, customerReference, issuedAt,
        Lookup(terms.confirmations, scope, DEFAULT_CONFIRMATIONS),
        issuedAt + Lookup(terms.expiresAfter, scope, DEFAULT_EXPIRES_AFTER)))
  }

  // The value is the positive setting of the scope, or the default where there is none.
  predicate IsSetting(settings: map<Scope, int>, scope: Scope, default: int, value: int) {
    && (scope in settings && settings[scope] > 0 ==> value == settings[scope])
    && (scope !in settings || settings[scope] <= 0 ==> value == default)
  }

  // The plan asks for the depth and the payment window of its own scope.
  predicate OnTerms(terms: Terms, plan: Plan) {
    var scope := Scope(plan.policy.chain, plan.policy.network);
    && plan.issuedAt != ZERO_TIME
    && IsSetting(terms.confirmations, scope, 1, plan.confirmations)
    && IsSetting(terms.expiresAfter, scope, DEFAULT_EXPIRES_AFTER, plan.expiresAt - plan.issuedAt)
  }

  lemma PlanIsOnTerms(
    terms: Terms, policy: Policy, chain: string, amount: int64, reference: string, issuedAt: Time)
    ensures var r := MakePlan(terms, policy, chain, amount, reference, issuedAt);
      r.Success? ==> OnTerms(terms, r.value) && r.value.issuedAt == issuedAt
  {
  }

  // Whatever was configured, a plan asks for at least one confirmation and for a window
  // that ends after issuance; a setting counts exactly when it is positive.
  lemma PlanHasUsableTerms(
    confirmations: map<Scope, int>, expiresAfter: map<Scope, int>, policy: Policy, chain: string, amount: int64,
    reference: string, issuedAt: Time)
    ensures var r := MakePlan(NewTerms(confirmations, expiresAfter), policy, chain, amount, reference, issuedAt);
      var scope := Scope(policy.chain, policy.network);
      && (r.Success? <==> issuedAt != ZERO_TIME && policy.chain == chain && policy.enabled && amount > 0)
      && (r.Success? ==>
        var p := r.value;
        && p.policy == policy && p.amount == amount && p.customerReference == reference && p.issuedAt == issuedAt
        && p.confirmations >= 1 && p.expiresAt > issuedAt
        && (scope in confirmations && confirmations[scope] > 0 <==>
             scope in NewTerms(confirmations, expiresAfter).confirmations)
        && (scope in confirmations && confirmations[scope] > 0 ==> p.confirmations == confirmations[scope])
        && (!(scope in confirmations && confirmations[scope] > 0) ==> p.confirmations == 1)
        && (scope in expiresAfter && expiresAfter[scope] > 0 ==> p.expiresAt == issuedAt + expiresAfter[scope])
        && (!(scope in expiresAfter && expiresAfter[scope] > 0) ==> p.expiresAt == issuedAt + DEFAULT_EXPIRES_AFTER))
  {
    var terms := NewTerms(confirmations, expiresAfter);
    assert forall s | s in terms.confirmations :: terms.confirmations[s] > 0;
    assert forall s | s in terms.expiresAfter :: terms.expiresAfter[s] > 0;
  }
}
