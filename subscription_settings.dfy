/** The subscription section of the configuration: name suffix and delivery policy settings. */
module SubscriptionSettings {
  import opened Wrappers
  import opened Errors
  import opened Guard

  const MinimumAcceptableMessageRetentionDurationDays := 7
  const MinimumAcceptableAckDeadlineSeconds := 30
  const MinimumAcceptableMaxDeliveryAttempts := 5
  const MinimumAcceptableMinBackoffSeconds := 5
  const MinimumAcceptableMaxBackoffSeconds := 600

  /** `Sufix` keeps the configuration key's own spelling. */
  datatype SubscriptionConfiguration = SubscriptionConfiguration(
    sufix: Option<string>,
    messageRetentionDurationDays: int,
    ackDeadlineSeconds: int,
    maxDeliveryAttempts: int,
    minBackoffSeconds: int,
    maxBackoffSeconds: int)

  /** A section created with no settings: no suffix, 7 days, 30 s, 5 attempts, 10 s to 600 s. */
  const Default := SubscriptionConfiguration(None, 7, 30, 5, 10, 600)

  const SufixMissingMessage := "Sufix must be provided if Subscription is configured."
  const RetentionTooShortMessage :=
    "MessageRetentionDurationDays must be provided if Subscription is configured and must be greater or equal than 7 days."
  const AckDeadlineTooShortMessage :=
    "AckDeadlineSeconds must be provided if Subscription is configured and must be greater or equal than 30 seconds."
  const TooFewDeliveryAttemptsMessage :=
    "MaxDeliveryAttempts must be provided if Subscription is configured and must be greater or equal than 5."
  const MinBackoffTooShortMessage :=
    "MinBackoffSeconds must be provided if Subscription is configured and must be greater or equal than 5 seconds."
  const MaxBackoffTooShortMessage :=
    "MaxBackoffSeconds must be provided if Subscription is configured and must be greater or equal than 600 seconds."

  /** The maximum backoff must reach its floor and must not be below the minimum backoff. */
  predicate MaxBackoffAcceptable(c: SubscriptionConfiguration) {
    c.maxBackoffSeconds >= MinimumAcceptableMaxBackoffSeconds && c.maxBackoffSeconds >= c.minBackoffSeconds
  }

  /** Every rule `c` breaks, in field order. */
  function Violations(c: SubscriptionConfiguration): seq<Error> {
    (if IsNullOrWhiteSpace(c.sufix) then [ArgumentError(SufixMissingMessage, None)] else [])
    + (if c.messageRetentionDurationDays < MinimumAcceptableMessageRetentionDurationDays
       then [ArgumentError(RetentionTooShortMessage, None)] else [])
    + (if c.ackDeadlineSeconds < MinimumAcceptableAckDeadlineSeconds
       then [ArgumentError(AckDeadlineTooShortMessage, None)] else [])
    + (if c.maxDeliveryAttempts < MinimumAcceptableMaxDeliveryAttempts
       then [ArgumentError(TooFewDeliveryAttemptsMessage, None)] else [])
    + (if c.minBackoffSeconds < MinimumAcceptableMinBackoffSeconds
       then [ArgumentError(MinBackoffTooShortMessage, None)] else [])
    + (if !MaxBackoffAcceptable(c) then [ArgumentError(MaxBackoffTooShortMessage, None)] else [])
  }

  /** `Validate`: the first rule broken, in field order, is reported; otherwise the section passes. */
  function Validate(c: SubscriptionConfiguration): (r: Outcome<Error>)
    ensures r.Pass? <==> !IsNullOrWhiteSpace(c.sufix)
                         && c.messageRetentionDurationDays >= MinimumAcceptableMessageRetentionDurationDays
                         && c.ackDeadlineSeconds >= MinimumAcceptableAckDeadlineSeconds
                         && c.maxDeliveryAttempts >= MinimumAcceptableMaxDeliveryAttempts
                         && c.minBackoffSeconds >= MinimumAcceptableMinBackoffSeconds
                         && c.maxBackoffSeconds >= MinimumAcceptableMaxBackoffSeconds
                         && c.minBackoffSeconds <= c.maxBackoffSeconds
    ensures r.Pass? <==> Violations(c) == []
    ensures r.Fail? ==> r.error == Violations(c)[0]
  {
    if IsNullOrWhiteSpace(c.sufix) then Fail(ArgumentError(SufixMissingMessage, None))
    else if c.messageRetentionDurationDays < MinimumAcceptableMessageRetentionDurationDays then
      Fail(ArgumentError(RetentionTooShortMessage, None))
    else if c.ackDeadlineSeconds < MinimumAcceptableAckDeadlineSeconds then
      Fail(ArgumentError(AckDeadlineTooShortMessage, None))
    else if c.maxDeliveryAttempts < MinimumAcceptableMaxDeliveryAttempts then
      Fail(ArgumentError(TooFewDeliveryAttemptsMessage, None))
    else if c.minBackoffSeconds < MinimumAcceptableMinBackoffSeconds then
      Fail(ArgumentError(MinBackoffTooShortMessage, None))
    else if !MaxBackoffAcceptable(c) then
      Fail(ArgumentError(MaxBackoffTooShortMessage, None))
    else
      Pass
  }

  /**
   * The defaults meet every floor and keep the minimum backoff below the maximum, so a default
   * section needs only a suffix; without one it is rejected.
   */
  lemma DefaultNeedsOnlySufix(sufix: string)
    requires !IsNullOrWhiteSpace(Some(sufix))
    ensures Default.minBackoffSeconds <= Default.maxBackoffSeconds
    ensures Default.sufix == None
    ensures Validate(Default) == Fail(ArgumentError(SufixMissingMessage, None))
    ensures Validate(Default.(sufix := Some(sufix))) == Pass
  {
  }

  /** The cases the section's own tests pin down, each differing from the last in one field. */
  lemma ValidateExamples()
    ensures Validate(Default.(sufix := Some("   "))) == Fail(ArgumentError(SufixMissingMessage, None))
    ensures Validate(SubscriptionConfiguration(Some("app"), 5, 30, 5, 10, 600))
            == Fail(ArgumentError(RetentionTooShortMessage, None))
    ensures Validate(SubscriptionConfiguration(Some("app"), 7, 20, 5, 10, 600))
            == Fail(ArgumentError(AckDeadlineTooShortMessage, None))
    ensures Validate(SubscriptionConfiguration(Some("app"), 7, 30, 3, 10, 600))
            == Fail(ArgumentError(TooFewDeliveryAttemptsMessage, None))
    ensures Validate(SubscriptionConfiguration(Some("app"), 7, 30, 5, 4, 600))
            == Fail(ArgumentError(MinBackoffTooShortMessage, None))
    ensures Validate(SubscriptionConfiguration(Some("app"), 7, 30, 5, 10, 5))
            == Fail(ArgumentError(MaxBackoffTooShortMessage, None))
    ensures Validate(SubscriptionConfiguration(Some("app"), 7, 30, 5, 10, 600)) == Pass
  {
    assert "app"[0] !in WhiteSpace;
  }
}

/** Which resources the consumers and the bus may create on start-up. */
module Modes {
  /** `ResourceInitialization`; `Disabled` is the source's `None`. */
  datatype ResourceInitialization = All | TopicsOnly | SubscriptionsOnly | Disabled
}
