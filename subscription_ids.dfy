/**
 * The newer tree's subscription descriptor: the subscription to create and, when managed, its
 * dead-letter topic and dead-letter subscription.
 */
module SubscriptionIds {
  import opened Wrappers
  import opened Errors
  import opened Guard
  import opened Resources
  import opened TopicIds
  import opened SubscriptionSettings

  /** `deadLetterTopic` and `deadLetterSubscription` are null (`None`) for an unmanaged subscription. */
  datatype SubscriptionId = SubscriptionId(
    topicId: TopicId,
    subscription: Subscription,
    deadLetterTopic: Option<Topic>,
    deadLetterSubscription: Option<Subscription>)
  {
    /** The short subscription id. */
    function ToString(): string {
      subscription.name.subscriptionId
    }
  }

  const DeadLetterSuffix := ".dl"

  /** A managed subscription is named after its topic's short id and the configured suffix. */
  function ManagedSubscriptionName(topicId: TopicId, config: SubscriptionConfiguration): SubscriptionName {
    SubscriptionName(topicId.topicName.projectId, topicId.topicName.topicId + "." + Text(config.sufix))
  }

  function RetryOf(config: SubscriptionConfiguration): RetryPolicy {
    RetryPolicy(config.minBackoffSeconds, config.maxBackoffSeconds)
  }

  /** The dead-letter topic of `subscriptionName`; it keeps the subscription retention when a section is given. */
  function GetDeadLetterTopic(config: Option<SubscriptionConfiguration>, subscriptionName: SubscriptionName): (r: Topic)
    ensures r.name == TopicName(subscriptionName.projectId, subscriptionName.subscriptionId + DeadLetterSuffix)
    ensures r.retentionDays.Some? <==> config.Some?
    ensures config.Some? ==> r.retentionDays == Some(config.value.messageRetentionDurationDays)
  {
    Topic(TopicName(subscriptionName.projectId, subscriptionName.subscriptionId + DeadLetterSuffix),
          if config.Some? then Some(config.value.messageRetentionDurationDays) else None)
  }

  /**
   * The dead-letter subscription of `subscriptionName`, reading `deadLetterTopic`: never a
   * dead-letter policy of its own; the section's retention, deadline and backoff when one is given.
   */
  function GetDeadLetterSubscription(deadLetterTopic: Topic, config: Option<SubscriptionConfiguration>,
                                     subscriptionName: SubscriptionName): (r: Subscription)
    ensures r.name == SubscriptionName(subscriptionName.projectId, subscriptionName.subscriptionId + DeadLetterSuffix)
    ensures r.topic == deadLetterTopic.name && r.deadLetterPolicy == None
    ensures config.None? ==> r == BareSubscription(r.name, r.topic)
    ensures config.Some? ==>
              && r.retentionDays == Some(config.value.messageRetentionDurationDays)
              && r.ackDeadlineSeconds == config.value.ackDeadlineSeconds
              && r.neverExpires
              && r.retryPolicy == Some(RetryOf(config.value))
  {
    var name := SubscriptionName(subscriptionName.projectId, subscriptionName.subscriptionId + DeadLetterSuffix);
    if config.None? then BareSubscription(name, deadLetterTopic.name)
    else
      Subscription(name, deadLetterTopic.name, Some(config.value.messageRetentionDurationDays),
                   config.value.ackDeadlineSeconds, true, None, Some(RetryOf(config.value)))
  }

  function GetSubscription(topicId: TopicId, config: SubscriptionConfiguration, subscriptionName: SubscriptionName,
                           deadLetterTopic: Topic): Subscription {
    Subscription(subscriptionName, topicId.topicName, Some(config.messageRetentionDurationDays),
                 config.ackDeadlineSeconds, true,
                 Some(DeadLetterPolicy(deadLetterTopic.name.ToString(), config.maxDeliveryAttempts)),
                 Some(RetryOf(config)))
  }

  /** What a managed descriptor built from `topicId` and `config` carries. */
  predicate ManagedShape(s: SubscriptionId, topicId: TopicId, config: SubscriptionConfiguration) {
    var project := topicId.topicName.projectId;
    var subscriptionId := topicId.topicName.topicId + "." + Text(config.sufix);
    var retry := Some(RetryPolicy(config.minBackoffSeconds, config.maxBackoffSeconds));
    && s.topicId == topicId
    && s.deadLetterTopic.Some? && s.deadLetterSubscription.Some?
    // names: `topic.suffix`, and `topic.suffix.dl` for both dead-letter resources
    && s.subscription.name == SubscriptionName(project, subscriptionId)
    && s.deadLetterTopic.value.name == TopicName(project, subscriptionId + ".dl")
    && s.deadLetterSubscription.value.name == SubscriptionName(project, subscriptionId + ".dl")
    // the subscription: on the topic, with every policy taken from the section
    && s.subscription.topic == topicId.topicName
    && s.subscription.retentionDays == Some(config.messageRetentionDurationDays)
    && s.subscription.ackDeadlineSeconds == config.ackDeadlineSeconds
    && s.subscription.neverExpires
    && s.subscription.retryPolicy == retry
    && s.subscription.deadLetterPolicy
       == Some(DeadLetterPolicy(s.deadLetterTopic.value.name.ToString(), config.maxDeliveryAttempts))
    // the dead-letter pair: the subscription reads the topic, has no dead-letter policy itself
    && s.deadLetterTopic.value.retentionDays == Some(config.messageRetentionDurationDays)
    && s.deadLetterSubscription.value.topic == s.deadLetterTopic.value.name
    && s.deadLetterSubscription.value.deadLetterPolicy == None
    && s.deadLetterSubscription.value.retentionDays == Some(config.messageRetentionDurationDays)
    && s.deadLetterSubscription.value.ackDeadlineSeconds == config.ackDeadlineSeconds
    && s.deadLetterSubscription.value.retryPolicy == retry
  }

  /**
   * The managed constructor: a missing topic or section raises, then the section is validated, and
   * a valid section yields the full set of four resources.
   */
  function NewManaged(topicId: Option<TopicId>, config: Option<SubscriptionConfiguration>): (r: Result<SubscriptionId, Error>)
    ensures r.Success? <==> topicId.Some? && config.Some? && Validate(config.value).Pass?
    ensures topicId.None? ==> r == Failure(ArgumentNullError("topicId"))
    ensures topicId.Some? && config.None? ==> r == Failure(ArgumentNullError("config"))
    ensures topicId.Some? && config.Some? && Validate(config.value).Fail? ==>
              r == Failure(Validate(config.value).error)
    ensures r.Success? ==> ManagedShape(r.value, topicId.value, config.value)
  {
    if topicId.None? then Failure(ArgumentNullError("topicId"))
    else if config.None? then Failure(ArgumentNullError("config"))
    else if Validate(config.value).Fail? then Failure(Validate(config.value).error)
    else
      var name := ManagedSubscriptionName(topicId.value, config.value);
      var deadLetterTopic := GetDeadLetterTopic(config, name);
      var deadLetterSubscription := GetDeadLetterSubscription(deadLetterTopic, config, name);
      var subscription := GetSubscription(topicId.value, config.value, name, deadLetterTopic);
      Success(SubscriptionId(topicId.value, subscription, Some(deadLetterTopic), Some(deadLetterSubscription)))
  }

  /**
   * The unmanaged constructor: the given name, verbatim, in the topic's project and bound to the
   * topic, with no policy and no dead-letter resources.
   */
  function NewUnmanaged(topicId: Option<TopicId>, subscription: Option<string>): (r: Result<SubscriptionId, Error>)
    ensures r.Failure? <==> topicId.None?
    ensures r.Failure? ==> r.error == ArgumentNullError("topicId")
    ensures r.Success? ==>
              && r.value.topicId == topicId.value
              && r.value.subscription
                 == BareSubscription(SubscriptionName(topicId.value.topicName.projectId, Text(subscription)),
                                     topicId.value.topicName)
              && r.value.deadLetterTopic == None && r.value.deadLetterSubscription == None
  {
    if topicId.None? then Failure(ArgumentNullError("topicId"))
    else
      var name := SubscriptionName(topicId.value.topicName.projectId, Text(subscription));
      Success(SubscriptionId(topicId.value, BareSubscription(name, topicId.value.topicName), None, None))
  }

  const ServiceAccountPrefix := "serviceAccount:service-"
  const ServiceAccountSuffix := "@gcp-sa-pubsub.iam.gserviceaccount.com"

  /** The broker's own service account in the project numbered `projectNumber`, as an IAM member. */
  function ServiceAccount(projectNumber: string): (r: string)
    ensures |r| == |ServiceAccountPrefix| + |projectNumber| + |ServiceAccountSuffix|
    ensures r[..|ServiceAccountPrefix|] == ServiceAccountPrefix
    ensures r[|ServiceAccountPrefix|..|r| - |ServiceAccountSuffix|] == projectNumber
    ensures r[|r| - |ServiceAccountSuffix|..] == ServiceAccountSuffix
  {
    ServiceAccountPrefix + projectNumber + ServiceAccountSuffix
  }

  /** The service account names its project: distinct project numbers give distinct members. */
  lemma ServiceAccountInjective(a: string, b: string)
    requires ServiceAccount(a) == ServiceAccount(b)
    ensures a == b
  {
  }

  /** Dead letters never loop back: the dead-letter topic is never the subscription's own topic. */
  lemma {:induction false} DeadLetterTopicIsNotTheTopic(s: SubscriptionId, topicId: TopicId, config: SubscriptionConfiguration)
    requires ManagedShape(s, topicId, config)
    ensures s.deadLetterTopic.value.name != topicId.topicName
    ensures s.deadLetterTopic.value.name.ToString() != topicId.topicName.ToString()
    ensures s.deadLetterTopic.value.name.ToString() != s.deadLetterSubscription.value.name.ToString()
    ensures s.subscription.name.ToString() != s.deadLetterSubscription.value.name.ToString()
  {
    var dl := s.deadLetterTopic.value.name;
    assert |dl.topicId| > |topicId.topicName.topicId|;
    assert |dl.ToString()| > |topicId.topicName.ToString()|;
    TopicAndSubscriptionNamesDiffer(dl.projectId, dl.topicId, dl.topicId);
    assert |s.deadLetterSubscription.value.name.ToString()| > |s.subscription.name.ToString()|;
  }

  /**
   * With one suffix, distinct topics of a project get distinct managed subscriptions, so consumers
   * of different topics never share a subscription.
   */
  lemma {:induction false} ManagedSubscriptionNameInjective(t1: TopicId, t2: TopicId, config: SubscriptionConfiguration)
    requires t1.topicName.projectId == t2.topicName.projectId
    requires ManagedSubscriptionName(t1, config) == ManagedSubscriptionName(t2, config)
    ensures t1.topicName == t2.topicName
  {
    var tail := "." + Text(config.sufix);
    var a := t1.topicName.topicId;
    var b := t2.topicName.topicId;
    assert a + tail == b + tail by {
      assert a + "." + Text(config.sufix) == a + tail;
      assert b + "." + Text(config.sufix) == b + tail;
    }
    assert |a| == |b|;
    assert a == (a + tail)[..|a|];
    assert b == (b + tail)[..|b|];
  }

  /** The managed descriptor of the descriptor's own tests: topic `my-topic`, suffix `app`. */
  function ExampleDescriptor(): Result<SubscriptionId, Error> {
    NewManaged(Some(TopicId(TopicName("my-project", "my-topic"), Topic(TopicName("my-project", "my-topic"), None))),
               Some(SubscriptionConfiguration(Some("app"), 7, 30, 5, 10, 600)))
  }

  lemma ExampleNames()
    ensures ExampleDescriptor().Success?
    ensures ExampleDescriptor().value.subscription.name == SubscriptionName("my-project", "my-topic.app")
    ensures ExampleDescriptor().value.deadLetterSubscription.value.name == SubscriptionName("my-project", "my-topic.app.dl")
    ensures ExampleDescriptor().value.deadLetterTopic.value.name == TopicName("my-project", "my-topic.app.dl")
  {
    assert Validate(SubscriptionConfiguration(Some("app"), 7, 30, 5, 10, 600)).Pass? by { assert "app"[0] !in WhiteSpace; }
  }

  /** The subscription's full name the descriptor's own tests pin down. */
  lemma ExampleSubscriptionFullName()
    ensures ExampleDescriptor().Success?
            && ExampleDescriptor().value.subscription.name.ToString() == "projects/my-project/subscriptions/my-topic.app"
  {
    ExampleNames();
    ExampleSubscriptionSpelledOut();
  }

  /** The full name of the example subscription, spelled out. */
  lemma ExampleSubscriptionSpelledOut()
    ensures SubscriptionName("my-project", "my-topic.app").ToString() == "projects/my-project/subscriptions/my-topic.app"
  {
  }

  /** The dead-letter subscription's full name the descriptor's own tests pin down. */
  lemma ExampleDeadLetterSubscriptionFullName()
    ensures ExampleDescriptor().Success?
            && ExampleDescriptor().value.deadLetterSubscription.value.name.ToString()
               == "projects/my-project/subscriptions/my-topic.app.dl"
  {
    ExampleNames();
    ExampleDeadLetterSubscriptionSpelledOut();
  }

  /** The full name of the example dead-letter subscription, spelled out. */
  lemma ExampleDeadLetterSubscriptionSpelledOut()
    ensures SubscriptionName("my-project", "my-topic.app.dl").ToString()
            == "projects/my-project/subscriptions/my-topic.app.dl"
  {
  }

  /**
   * The subscription's policies the descriptor's own tests pin down: the dead-letter policy's topic
   * and attempts, the retention of the subscription and of the dead-letter topic, and the backoff.
   */
  lemma ExampleDeadLetterPolicyTopic()
    ensures ExampleDescriptor().Success?
    ensures ExampleDescriptor().value.subscription.deadLetterPolicy
            == Some(DeadLetterPolicy("projects/my-project/topics/my-topic.app.dl", 5))
    ensures ExampleDescriptor().value.subscription.topic == TopicName("my-project", "my-topic")
    ensures ExampleDescriptor().value.subscription.retentionDays == Some(7)
    ensures ExampleDescriptor().value.subscription.retryPolicy == Some(RetryPolicy(10, 600))
    ensures ExampleDescriptor().value.deadLetterTopic.value.retentionDays == Some(7)
  {
    ExampleNames();
    ExampleDeadLetterTopicSpelledOut();
  }

  /** The full name of the example dead-letter topic, spelled out. */
  lemma ExampleDeadLetterTopicSpelledOut()
    ensures TopicName("my-project", "my-topic.app.dl").ToString() == "projects/my-project/topics/my-topic.app.dl"
  {
  }
}
