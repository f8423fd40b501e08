/**
 * The older tree's configuration (`MessageBus.PubSub.Configuration`): the bus-level settings, their
 * validation, and the topic and subscription ids it hands out. The ids hold the configuration
 * itself and compute every name and descriptor from it on each read.
 */
module LegacyConfiguration {
  import opened Wrappers
  import opened Errors
  import opened Guard
  import opened Modes
  import R = Resources
  import P = Publishing
  import S = SubscriptionSettings
  import TopicIds
  import SubscriptionIds

  const TopicsMissingMessage := "Topics must be provided and non-empty if Publishing is configured."

  function TopicNotConfiguredMessage(topic: Option<string>): string {
    "The topic " + Text(topic) + " is not configured in Publishing section"
  }

  datatype PubSubConfiguration = PubSubConfiguration(
    alias: Option<string>,
    projectId: Option<string>,
    resourceInitialization: ResourceInitialization,
    useEmulator: bool,
    publishing: Option<P.PublishingConfiguration>,
    subscription: Option<S.SubscriptionConfiguration>)
  {
    predicate ShouldInitializeTopics() {
      resourceInitialization == All || resourceInitialization == TopicsOnly
    }

    predicate ShouldInitializeSubscriptions() {
      resourceInitialization == All || resourceInitialization == SubscriptionsOnly
    }

    /**
     * `Validate` as written: the project id, then the publishing section (retention before topics),
     * then the subscription section's suffix, and then the *publishing* retention once more, which
     * dereferences a missing publishing section; the subscription's own retention is never read.
     */
    function Validate(): (r: Outcome<Error>)
      ensures r.Pass? <==> !IsNullOrWhiteSpace(projectId)
                           && (publishing.Some? ==> publishing.value.messageRetentionDurationDays >= 7
                                                    && |publishing.value.topics| > 0)
                           && (subscription.Some? ==> !IsNullOrWhiteSpace(subscription.value.sufix) && publishing.Some?)
      ensures projectId.None? ==> r == Fail(ArgumentNullError("ProjectId"))
      ensures projectId.Some? && IsNullOrWhiteSpace(projectId) ==>
                r == Fail(ArgumentError(BlankValueMessage, Some("ProjectId")))
      ensures !IsNullOrWhiteSpace(projectId) && publishing.Some? && publishing.value.messageRetentionDurationDays < 7 ==>
                r == Fail(ArgumentError(P.RetentionTooShortMessage, None))
      ensures !IsNullOrWhiteSpace(projectId) && publishing.Some? && publishing.value.messageRetentionDurationDays >= 7
              && |publishing.value.topics| == 0 ==>
                r == Fail(ArgumentError(TopicsMissingMessage, None))
      ensures r.Fail? && r.error.ArgumentError? && r.error.paramName.None? && r.error.message != P.RetentionTooShortMessage
              && r.error.message != TopicsMissingMessage ==>
                r.error.message == S.SufixMissingMessage && subscription.Some?
      ensures r == Fail(NullReference) <==>
                !IsNullOrWhiteSpace(projectId) && publishing.None?
                && subscription.Some? && !IsNullOrWhiteSpace(subscription.value.sufix)
    {
      if FrameworkThrowIfNullOrWhiteSpace(projectId, "ProjectId").Fail? then
        FrameworkThrowIfNullOrWhiteSpace(projectId, "ProjectId")
      else if publishing.Some? && publishing.value.messageRetentionDurationDays < 7 then
        Fail(ArgumentError(P.RetentionTooShortMessage, None))
      else if publishing.Some? && |publishing.value.topics| == 0 then
        Fail(ArgumentError(TopicsMissingMessage, None))
      else if subscription.Some? && IsNullOrWhiteSpace(subscription.value.sufix) then
        Fail(ArgumentError(S.SufixMissingMessage, None))
      else if subscription.Some? && publishing.None? then
        Fail(NullReference)
      else if subscription.Some? && publishing.value.messageRetentionDurationDays < 7 then
        Fail(ArgumentError(P.RetentionTooShortMessage, None))
      else
        Pass
    }

    /**
     * `Validate` as evidently intended: the subscription branch checks the subscription's own
     * retention, so a missing publishing section is never dereferenced.
     */
    function ValidateIntended(): (r: Outcome<Error>)
      ensures r.Pass? <==> !IsNullOrWhiteSpace(projectId)
                           && (publishing.Some? ==> publishing.value.messageRetentionDurationDays >= 7
                                                    && |publishing.value.topics| > 0)
                           && (subscription.Some? ==> !IsNullOrWhiteSpace(subscription.value.sufix)
                                                      && subscription.value.messageRetentionDurationDays >= 7)
      ensures r != Fail(NullReference)
      ensures !IsNullOrWhiteSpace(projectId)
              && (publishing.Some? ==> publishing.value.messageRetentionDurationDays >= 7 && |publishing.value.topics| > 0)
              && subscription.Some? && !IsNullOrWhiteSpace(subscription.value.sufix)
              && subscription.value.messageRetentionDurationDays < 7 ==>
                r == Fail(ArgumentError(S.RetentionTooShortMessage, None))
    {
      if FrameworkThrowIfNullOrWhiteSpace(projectId, "ProjectId").Fail? then
        FrameworkThrowIfNullOrWhiteSpace(projectId, "ProjectId")
      else if publishing.Some? && publishing.value.messageRetentionDurationDays < 7 then
        Fail(ArgumentError(P.RetentionTooShortMessage, None))
      else if publishing.Some? && |publishing.value.topics| == 0 then
        Fail(ArgumentError(TopicsMissingMessage, None))
      else if subscription.Some? && IsNullOrWhiteSpace(subscription.value.sufix) then
        Fail(ArgumentError(S.SufixMissingMessage, None))
      else if subscription.Some? && subscription.value.messageRetentionDurationDays < 7 then
        Fail(ArgumentError(S.RetentionTooShortMessage, None))
      else
        Pass
    }

    /** `GetTopicId`: needs a publishing section that lists the topic; builds a fresh id each call. */
    function GetTopicId(topicId: Option<string>): (r: Result<TopicId, Error>)
      ensures r.Success? <==> publishing.Some? && P.HasTopic(publishing.value, topicId)
      ensures publishing.None? ==> r == Failure(ArgumentNullError("Publishing"))
      ensures publishing.Some? && !P.HasTopic(publishing.value, topicId) ==>
                r == Failure(ArgumentError(TopicNotConfiguredMessage(topicId), None))
      ensures r.Success? ==> r.value == TopicId(Text(projectId), topicId.value, this) && r.value.Wellformed()
    {
      if publishing.None? then Failure(ArgumentNullError("Publishing"))
      else if !P.HasTopic(publishing.value, topicId) then
        Failure(ArgumentError(TopicNotConfiguredMessage(topicId), None))
      else
        Success(TopicId(Text(projectId), topicId.value, this))
    }

    /**
     * `GetSubscriptionId`: a blank topic, then a missing subscription section, then `GetTopicId`'s
     * errors; the id carries no explicit subscription name.
     */
    function GetSubscriptionId(topic: Option<string>): (r: Result<SubscriptionId, Error>)
      ensures r.Success? <==> !IsNullOrWhiteSpace(topic) && subscription.Some? && GetTopicId(topic).Success?
      ensures topic.None? ==> r == Failure(ArgumentNullError("topic"))
      ensures topic.Some? && IsNullOrWhiteSpace(topic) ==> r == Failure(ArgumentError(BlankValueMessage, Some("topic")))
      ensures !IsNullOrWhiteSpace(topic) && subscription.None? ==> r == Failure(ArgumentNullError("Subscription"))
      ensures !IsNullOrWhiteSpace(topic) && subscription.Some? && GetTopicId(topic).Failure? ==>
                r == Failure(GetTopicId(topic).error)
      ensures r.Success? ==>
                r.value == SubscriptionId(Text(projectId), GetTopicId(topic).value, this, None) && r.value.Wellformed()
    {
      if FrameworkThrowIfNullOrWhiteSpace(topic, "topic").Fail? then
        Failure(FrameworkThrowIfNullOrWhiteSpace(topic, "topic").error)
      else if subscription.None? then Failure(ArgumentNullError("Subscription"))
      else if GetTopicId(topic).Failure? then Failure(GetTopicId(topic).error)
      else Success(SubscriptionId(Text(projectId), GetTopicId(topic).value, this, None))
    }
  }

  /**
   * The older `TopicId`. Its members read the configuration's publishing section, which every id
   * that `GetTopicId` builds has (`Wellformed`).
   */
  datatype TopicId = TopicId(projectId: string, topic: string, configuration: PubSubConfiguration) {
    predicate Wellformed() {
      configuration.publishing.Some?
    }

    /** `prefix.topic` when the prefix is non-blank, else the topic itself. */
    function TopicName(): R.TopicName
      requires Wellformed()
    {
      R.TopicName(projectId, TopicIds.ManagedTopicId(configuration.publishing.value.prefix, topic))
    }

    /** The topic to create: named `TopicName()`, with the publishing section's retention. */
    function GetTopic(): (r: R.Topic)
      requires Wellformed()
      ensures r.name == TopicName()
      ensures r.retentionDays == Some(configuration.publishing.value.messageRetentionDurationDays)
    {
      R.Topic(TopicName(), Some(configuration.publishing.value.messageRetentionDurationDays))
    }

    /** The short topic id. */
    function ToString(): string
      requires Wellformed()
    {
      TopicName().topicId
    }
  }

  /**
   * The older `SubscriptionId`. The dead-letter names come from the topic and the suffix alone,
   * whatever explicit subscription name is given.
   */
  datatype SubscriptionId = SubscriptionId(
    projectId: string,
    topicId: TopicId,
    configuration: PubSubConfiguration,
    subscriptionName: Option<string>)
  {
    predicate Wellformed() {
      topicId.Wellformed() && configuration.subscription.Some?
    }

    /** `{topic}.{suffix}`: the base of every managed name. */
    function ManagedName(): string
      requires Wellformed()
    {
      topicId.ToString() + "." + Text(configuration.subscription.value.sufix)
    }

    /** The explicit name when it is non-blank, else `{topic}.{suffix}`. */
    function SubscriptionName(): (r: R.SubscriptionName)
      requires Wellformed()
      ensures r.projectId == projectId
      ensures !IsNullOrWhiteSpace(subscriptionName) ==> r.subscriptionId == subscriptionName.value
      ensures IsNullOrWhiteSpace(subscriptionName) ==> r.subscriptionId == ManagedName()
    {
      R.SubscriptionName(projectId, if IsNullOrWhiteSpace(subscriptionName) then ManagedName() else subscriptionName.value)
    }

    function DeadLetterSubscriptionName(): R.SubscriptionName
      requires Wellformed()
    {
      R.SubscriptionName(projectId, ManagedName() + ".dl")
    }

    function DeadLetter(): R.TopicName
      requires Wellformed()
    {
      R.TopicName(projectId, ManagedName() + ".dl")
    }

    /** The dead-letter topic, with the subscription section's retention. */
    function GetDeadLetterTopic(): (r: R.Topic)
      requires Wellformed()
      ensures r.name == DeadLetter()
      ensures r.retentionDays == Some(configuration.subscription.value.messageRetentionDurationDays)
    {
      R.Topic(DeadLetter(), Some(configuration.subscription.value.messageRetentionDurationDays))
    }

    /** The dead-letter subscription: on the dead-letter topic, no retention and no dead-letter policy. */
    function GetDeadLetterSubscription(): (r: R.Subscription)
      requires Wellformed()
      ensures r.name == DeadLetterSubscriptionName() && r.topic == DeadLetter()
      ensures r.deadLetterPolicy == None && r.retentionDays == None
      ensures r.ackDeadlineSeconds == configuration.subscription.value.ackDeadlineSeconds && r.neverExpires
      ensures r.retryPolicy == Some(SubscriptionIds.RetryOf(configuration.subscription.value))
    {
      var c := configuration.subscription.value;
      R.Subscription(DeadLetterSubscriptionName(), DeadLetter(), None, c.ackDeadlineSeconds, true, None,
                     Some(SubscriptionIds.RetryOf(c)))
    }

    /** The subscription: on the topic, dead-lettering to `DeadLetter()`, no retention. */
    function GetSubscription(): (r: R.Subscription)
      requires Wellformed()
      ensures r.name == SubscriptionName() && r.topic == topicId.TopicName()
      ensures r.deadLetterPolicy
              == Some(R.DeadLetterPolicy(DeadLetter().ToString(), configuration.subscription.value.maxDeliveryAttempts))
      ensures r.retentionDays == None
      ensures r.ackDeadlineSeconds == configuration.subscription.value.ackDeadlineSeconds && r.neverExpires
      ensures r.retryPolicy == Some(SubscriptionIds.RetryOf(configuration.subscription.value))
    {
      var c := configuration.subscription.value;
      R.Subscription(SubscriptionName(), topicId.TopicName(), None, c.ackDeadlineSeconds, true,
                     Some(R.DeadLetterPolicy(DeadLetter().ToString(), c.maxDeliveryAttempts)),
                     Some(SubscriptionIds.RetryOf(c)))
    }

    /** The full subscription name. */
    function ToString(): string
      requires Wellformed()
    {
      SubscriptionName().ToString()
    }
  }

  /** Both generations decide what to initialize by the same truth table. */
  lemma ModesTruthTable(c: PubSubConfiguration)
    ensures c.ShouldInitializeTopics() && c.ShouldInitializeSubscriptions() <==> c.resourceInitialization == All
    ensures !c.ShouldInitializeTopics() && !c.ShouldInitializeSubscriptions() <==> c.resourceInitialization == Disabled
    ensures c.ShouldInitializeTopics() && !c.ShouldInitializeSubscriptions() <==> c.resourceInitialization == TopicsOnly
    ensures !c.ShouldInitializeTopics() && c.ShouldInitializeSubscriptions() <==> c.resourceInitialization == SubscriptionsOnly
  {
  }

  /** The subscription section's retention has no bearing on the as-written `Validate`. */
  lemma ValidateIgnoresSubscriptionRetention(c: PubSubConfiguration, days: int)
    requires c.subscription.Some?
    ensures c.(subscription := Some(c.subscription.value.(messageRetentionDurationDays := days))).Validate() == c.Validate()
  {
  }

  /**
   * A configuration with a valid subscription section and no publishing section: the as-written
   * `Validate` raises NullReferenceException, the intended one accepts it.
   */
  lemma ValidateDereferencesMissingPublishing()
    ensures var c := PubSubConfiguration(None, Some("p"), SubscriptionsOnly, false, None,
                                         Some(S.SubscriptionConfiguration(Some("app"), 7, 30, 5, 10, 600)));
            c.Validate() == Fail(NullReference) && c.ValidateIntended() == Pass
  {
    assert "p"[0] !in WhiteSpace;
    assert "app"[0] !in WhiteSpace;
  }

  /**
   * A valid publishing section and a subscription section retaining messages for one day: the
   * as-written `Validate` accepts it, the intended one rejects the retention.
   */
  lemma ValidateAcceptsShortSubscriptionRetention()
    ensures var c := PubSubConfiguration(None, Some("p"), All, false, Some(P.PublishingConfiguration(None, 7, ["t"])),
                                         Some(S.SubscriptionConfiguration(Some("app"), 1, 30, 5, 10, 600)));
            c.Validate() == Pass && c.ValidateIntended() == Fail(ArgumentError(S.RetentionTooShortMessage, None))
  {
    assert "p"[0] !in WhiteSpace;
    assert "app"[0] !in WhiteSpace;
  }

  /** The dead-letter resources are named after the topic and suffix, never after an explicit name. */
  lemma DeadLetterNamesIgnoreExplicitName(s: SubscriptionId, name: Option<string>)
    requires s.Wellformed()
    ensures s.(subscriptionName := name).DeadLetter() == s.DeadLetter()
    ensures s.(subscriptionName := name).DeadLetterSubscriptionName() == s.DeadLetterSubscriptionName()
    ensures s.(subscriptionName := name).GetDeadLetterTopic() == s.GetDeadLetterTopic()
  {
  }

  /**
   * The two generations derive the same resources from one valid configuration: the same topic,
   * the same names and the same dead-letter topic; the older subscriptions differ from the newer
   * ones only in leaving the retention unset.
   */
  lemma {:induction false} GenerationsAgree(c: PubSubConfiguration, topic: string)
    requires !IsNullOrWhiteSpace(c.projectId) && !IsNullOrWhiteSpace(Some(topic))
    requires c.publishing.Some? && P.Validate(c.publishing.value, Some(topic)).Pass?
    requires c.subscription.Some? && S.Validate(c.subscription.value).Pass?
    ensures var legacy := c.GetSubscriptionId(Some(topic));
            var t := TopicIds.NewManaged(c.projectId, Some(topic), c.publishing);
            legacy.Success? && t.Success?
            && SubscriptionIds.NewManaged(Some(t.value), c.subscription).Success?
            && var n := SubscriptionIds.NewManaged(Some(t.value), c.subscription).value;
               && legacy.value.topicId.GetTopic() == t.value.topic
               && legacy.value.SubscriptionName() == n.subscription.name
               && legacy.value.GetDeadLetterTopic() == n.deadLetterTopic.value
               && legacy.value.GetSubscription() == n.subscription.(retentionDays := None)
               && legacy.value.GetDeadLetterSubscription() == n.deadLetterSubscription.value.(retentionDays := None)
  {
    var legacy := c.GetSubscriptionId(Some(topic));
    var t := TopicIds.NewManaged(c.projectId, Some(topic), c.publishing);
    assert P.HasTopic(c.publishing.value, Some(topic));
    assert legacy.Success? && t.Success?;
    var n := SubscriptionIds.NewManaged(Some(t.value), c.subscription).value;
    assert SubscriptionIds.ManagedShape(n, t.value, c.subscription.value);
    assert legacy.value.topicId.TopicName() == t.value.topicName;
    assert legacy.value.ManagedName() == n.subscription.name.subscriptionId;
  }
}
