/**
 * The broker's resource names and the descriptors the core hands to it: topics, subscriptions and
 * their retention, acknowledgement, retry and dead-letter policies. Durations are whole days
 * (retention) or whole seconds (ack deadline, backoff); an absent policy is `None`.
 */
module Resources {
  import opened Wrappers

  /** A topic's name: its full form is `projects/{project}/topics/{topic}`. */
  datatype TopicName = TopicName(projectId: string, topicId: string) {
    function ToString(): string {
      "projects/" + projectId + "/topics/" + topicId
    }
  }

  /** A subscription's name: its full form is `projects/{project}/subscriptions/{subscription}`. */
  datatype SubscriptionName = SubscriptionName(projectId: string, subscriptionId: string) {
    function ToString(): string {
      "projects/" + projectId + "/subscriptions/" + subscriptionId
    }
  }

  datatype Topic = Topic(name: TopicName, retentionDays: Option<int>)

  datatype RetryPolicy = RetryPolicy(minimumBackoffSeconds: int, maximumBackoffSeconds: int)

  /** Where undeliverable messages go (a topic's full name) and after how many attempts. */
  datatype DeadLetterPolicy = DeadLetterPolicy(deadLetterTopic: string, maxDeliveryAttempts: int)

  /**
   * A subscription descriptor. `ackDeadlineSeconds` is 0 when unset; `neverExpires` says whether an
   * empty expiration policy (a subscription that never expires) is attached.
   */
  datatype Subscription = Subscription(
    name: SubscriptionName,
    topic: TopicName,
    retentionDays: Option<int>,
    ackDeadlineSeconds: int,
    neverExpires: bool,
    deadLetterPolicy: Option<DeadLetterPolicy>,
    retryPolicy: Option<RetryPolicy>)

  /** A subscription carrying only its name and its topic, every policy left unset. */
  function BareSubscription(name: SubscriptionName, topic: TopicName): Subscription {
    Subscription(name, topic, None, 0, false, None, None)
  }

  /**
   * Topics and subscriptions live in separate namespaces: a topic and a subscription of the same
   * project never share a full name, whatever their short ids, so a dead-letter topic and its
   * dead-letter subscription may carry the same short id.
   */
  lemma {:induction false} TopicAndSubscriptionNamesDiffer(projectId: string, topicId: string, subscriptionId: string)
    ensures TopicName(projectId, topicId).ToString() != SubscriptionName(projectId, subscriptionId).ToString()
  {
    var t := TopicName(projectId, topicId).ToString();
    var s := SubscriptionName(projectId, subscriptionId).ToString();
    var k := |"projects/" + projectId + "/"|;
    assert t[k] == 't' by {
      assert t == ("projects/" + projectId + "/") + ("topics/" + topicId);
    }
    assert s[k] == 's' by {
      assert s == ("projects/" + projectId + "/") + ("subscriptions/" + subscriptionId);
    }
  }

  /** Full topic names determine the short topic id within a project. */
  lemma {:induction false} TopicNameInjective(projectId: string, a: string, b: string)
    requires TopicName(projectId, a).ToString() == TopicName(projectId, b).ToString()
    ensures a == b
  {
    var prefix := "projects/" + projectId + "/topics/";
    assert TopicName(projectId, a).ToString() == prefix + a;
    assert TopicName(projectId, b).ToString() == prefix + b;
    assert a == (prefix + a)[|prefix|..];
    assert b == (prefix + b)[|prefix|..];
  }
}
