/** The outcome of one poll: the tracking it leaves, how it is counted, and what it announces. */
module PollOutcome {
  import opened Values
  import opened PaymentReceiptTracking

  // What became of one claimed tracking.
  datatype Outcome = Unobserved(reason: FailureReason) | Observed(o: Observation)

  datatype Kind = Updated | TerminalFailed | ProcessingError

  predicate Acceptable(t: Tracking, outcome: Outcome, now: Time) {
    outcome.Observed? ==> Poll(t, outcome.o, now).Success?
  }

  function Settle(t: Tracking, outcome: Outcome, now: Time): Tracking
    requires Acceptable(t, outcome, now)
  {
    match outcome
    case Unobserved(reason) => MarkPollingFailure(t, reason)
    case Observed(o) => Poll(t, o, now).value
  }

  function KindOf(t: Tracking, outcome: Outcome, now: Time): Kind
    requires Acceptable(t, outcome, now)
  {
    if outcome.Unobserved? then ProcessingError
    else if Settle(t, outcome, now).status == FailedExpired then TerminalFailed
    else Updated
  }

  // A poll that changed the status announces the change; a failed one announces nothing.
  function EventOf(t: Tracking, outcome: Outcome, now: Time): Option<StatusChanged>
    requires Acceptable(t, outcome, now)
  {
    var u := Settle(t, outcome, now);
    if outcome.Unobserved? || u.status == t.status then None
    else Some(StatusChanged(t.paymentAddressId, t.status, u.status, u.observed, u.confirmed, u.unconfirmed, now))
  }

  // What a poll leaves of the tracking, column by column: a failed one its reason and nothing else,
  // the others their totals and height, and no reason but that the window is over.
  predicate TellsOutcome(t: Tracking, outcome: Outcome, after: Tracking) {
    match outcome
    case Unobserved(reason) => after == t.(lastFailure := Some(reason))
    case Observed(o) =>
      && TermsOf(after) == TermsOf(t)
      && after.observed == o.observed && after.confirmed == o.confirmed && after.unconfirmed == o.unconfirmed
      && after.lastHeight == o.height
      && after.lastFailure == if after.status == FailedExpired then Some(PaymentWindowExpired) else None
  }

  // What is announced of a poll: the statuses around it, its totals and its time.
  predicate TellsChange(event: StatusChanged, t: Tracking, outcome: Outcome, now: Time, after: Tracking) {
    && outcome.Observed? && event.paymentAddressId == t.paymentAddressId
    && event.previous == t.status && event.current == after.status
    && event.observed == outcome.o.observed && event.confirmed == outcome.o.confirmed
    && event.unconfirmed == outcome.o.unconfirmed && event.changedAt == now
  }

  lemma SettleTells(t: Tracking, outcome: Outcome, now: Time)
    requires Acceptable(t, outcome, now)
    ensures TellsOutcome(t, outcome, Settle(t, outcome, now))
    ensures EventOf(t, outcome, now).Some? <==> Settle(t, outcome, now).status != t.status
    ensures EventOf(t, outcome, now).Some? ==>
      TellsChange(EventOf(t, outcome, now).value, t, outcome, now, Settle(t, outcome, now))
  {
    SettleKeepsTerms(t, outcome, now);
  }

  lemma SettleKeepsTerms(t: Tracking, outcome: Outcome, now: Time)
    requires Acceptable(t, outcome, now)
    ensures TermsOf(Settle(t, outcome, now)) == TermsOf(t)
  {
  }
}
