/**
 The payment status machine: what one observation of the chain, one failed poll or
 an expired payment window does to a receipt tracking.
 */
module PaymentReceiptTracking {
  import opened Values

  datatype Status =
    | Watching
    | PartiallyPaid
    | PaidUnconfirmed
    | PaidUnconfirmedReverted
    | PaidConfirmed
    | FailedExpired

  datatype FailureReason =
    | TrackingInvalid
    | LatestBlockHeightUnavailable
    | ObservationFailed
    | TrackingUpdateFailed
    | PaymentWindowExpired

  datatype Error =
    | ObservedTotalInvalid
    | ConfirmedTotalInvalid
    | UnconfirmedTotalInvalid
    | LatestBlockHeightInvalid
    | TotalMismatch
    | ConfirmedExceedsObserved
    | UnconfirmedExceedsObserved
    | ObservedAtRequired
    | PaymentAddressIdInvalid
    | AddressRequired
    | IssuedAtRequired
    | ExpectedAmountInvalid
    | RequiredConfirmationsInvalid
    | ExpiresAtRequired
    | EventInvalid

  datatype Observation = Observation(observed: int64, confirmed: int64, unconfirmed: int64, height: int64)

  datatype Tracking = Tracking(
    paymentAddressId: int,
    policyId: string,
    chain: string,
    network: string,
    address: string,
    assetReference: string,
    issuedAt: Time,
    expected: int64,
    requiredConfirmations: int,
    status: Status,
    observed: int64,
    confirmed: int64,
    unconfirmed: int64,
    lastHeight: int64,
    firstObservedAt: Option<Time>,
    paidAt: Option<Time>,
    confirmedAt: Option<Time>,
    expiresAt: Option<Time>,
    lastFailure: Option<FailureReason>)

  datatype StatusChanged = StatusChanged(
    paymentAddressId: int,
    previous: Status,
    current: Status,
    observed: int64,
    confirmed: int64,
    unconfirmed: int64,
    changedAt: Time)

  // The statuses that a polling cycle asks the store for.
  predicate Pollable(s: Status) {
    s.Watching? || s.PartiallyPaid? || s.PaidUnconfirmed? || s.PaidUnconfirmedReverted?
  }

  // The checks run in this order; the sum is taken in 64-bit arithmetic.
  function Validate(o: Observation): (e: Option<Error>) {
    if o.observed < 0 then Some(ObservedTotalInvalid)
    else if o.confirmed < 0 then Some(ConfirmedTotalInvalid)
    else if o.unconfirmed < 0 then Some(UnconfirmedTotalInvalid)
    else if o.height < 0 then Some(LatestBlockHeightInvalid)
    else if Wrap64(o.confirmed + o.unconfirmed) != o.observed then Some(TotalMismatch)
    else if o.confirmed > o.observed then Some(ConfirmedExceedsObserved)
    else if o.unconfirmed > o.observed then Some(UnconfirmedExceedsObserved)
    else None
  }

  // Wrapping cannot make a bad triple pass: a sum that overflows turns negative. So the
  // check is the mathematical one, and the last two comparisons never decide.
  lemma ValidateIsExact(o: Observation)
    ensures Validate(o).None? <==>
            0 <= o.confirmed && 0 <= o.unconfirmed && 0 <= o.height && o.confirmed + o.unconfirmed == o.observed
    ensures Validate(o) != Some(ConfirmedExceedsObserved)
    ensures Validate(o) != Some(UnconfirmedExceedsObserved)
  {
    var sum := o.confirmed + o.unconfirmed;
    if 0 <= o.confirmed && 0 <= o.unconfirmed && sum >= TWO_TO_63 {
      assert (sum + TWO_TO_63) % (2 * TWO_TO_63) == sum - TWO_TO_63;
      assert Wrap64(sum) < 0;
    }
  }

  // What issuance fixed about a tracking; polls change only the rest.
  function TermsOf(t: Tracking): Tracking {
    t.(status := Watching, observed := 0, confirmed := 0, unconfirmed := 0, lastHeight := 0,
       firstObservedAt := None, paidAt := None, confirmedAt := None, lastFailure := None)
  }

  function NewTracking(
    paymentAddressId: int, policyId: string, chain: string, network: string, address: string,
    assetReference: string, issuedAt: Time, expected: int64, requiredConfirmations: int, expiresAt: Time)
    : (r: Result<Tracking, Error>)
  {
    if expiresAt == ZERO_TIME then Failure(ExpiresAtRequired)
    else if paymentAddressId <= 0 then Failure(PaymentAddressIdInvalid)
    else if address == "" then Failure(AddressRequired)
    else if issuedAt == ZERO_TIME then Failure(IssuedAtRequired)
    else if expected <= 0 then Failure(ExpectedAmountInvalid)
    else if requiredConfirmations <= 0 then Failure(RequiredConfirmationsInvalid)
    else Success(Tracking(
      paymentAddressId, policyId, chain, network, address, assetReference, issuedAt, expected,
      requiredConfirmations, Watching, 0, 0, 0, 0, None, None, None, Some(expiresAt), None))
  }

  // A time stamp is written once, by the first observation that meets its threshold.
  function Stamp(current: Option<Time>, reached: bool, at: Time): Option<Time> {
    if current.None? && reached then Some(at) else current
  }

  function DecideStatus(expected: int64, paidAt: Option<Time>, o: Observation): Status {
    if o.confirmed >= expected then PaidConfirmed
    else if o.observed >= expected then PaidUnconfirmed
    else if paidAt.Some? then PaidUnconfirmedReverted
    else if o.observed == 0 then Watching
    else PartiallyPaid
  }

  function ApplyObservation(t: Tracking, o: Observation, at: Time): Result<Tracking, Error> {
    if Validate(o).Some? then Failure(Validate(o).value)
    else if at == ZERO_TIME then Failure(ObservedAtRequired)
    else
      var paidAt := Stamp(t.paidAt, o.observed >= t.expected, at);
      Success(t.(
        observed := o.observed,
        confirmed := o.confirmed,
        unconfirmed := o.unconfirmed,
        lastHeight := o.height,
        lastFailure := None,
        firstObservedAt := Stamp(t.firstObservedAt, o.observed > 0, at),
        paidAt := paidAt,
        confirmedAt := Stamp(t.confirmedAt, o.confirmed >= t.expected, at),
        status := DecideStatus(t.expected, paidAt, o)))
  }

  function MarkPollingFailure(t: Tracking, reason: FailureReason): Tracking {
    t.(lastFailure := Some(reason))
  }

  predicate IsExpired(t: Tracking, now: Time) {
    t.expiresAt.Some? && now != ZERO_TIME && t.expiresAt.value <= now
  }

  // Only a tracking that was never paid in full can run out of its payment window.
  function ExpireIfDue(t: Tracking, now: Time): (Tracking, bool) {
    if t.paidAt.Some? || !IsExpired(t, now) then (t, false)
    else (t.(status := FailedExpired, lastFailure := Some(PaymentWindowExpired)), true)
  }

  function StatusChangedEvent(t: Tracking, previous: Status, at: Time): Result<Option<StatusChanged>, Error> {
    if previous == t.status then Success(None)
    else if t.paymentAddressId <= 0 || t.observed < 0 || t.confirmed < 0 || t.unconfirmed < 0 || at == ZERO_TIME then
      Failure(EventInvalid)
    else
      Success(Some(StatusChanged(t.paymentAddressId, previous, t.status, t.observed, t.confirmed, t.unconfirmed, at)))
  }

  // What a successful poll leaves behind: the observation is applied first, and the
  // window is checked on the outcome.
  function Poll(t: Tracking, o: Observation, now: Time): Result<Tracking, Error> {
    match ApplyObservation(t, o, now)
    case Failure(e) => Failure(e)
    case Success(u) => Success(ExpireIfDue(u, now).0)
  }
}
