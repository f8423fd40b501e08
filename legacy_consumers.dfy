/**
 * The older tree's `PubSubConsumer`: it provisions only when the configuration asks for
 * subscriptions, creates the same four resources for both the primary and the dead-letter
 * consumer, and then, for the primary, grants the publisher role on the dead-letter topic (a
 * failure propagates) and the subscriber role on the subscription (a failure is only logged).
 */
module LegacyConsumers {
  import opened Wrappers
  import opened Errors
  import opened Resources
  import opened Brokers
  import Iam
  import Environment
  import Consumers
  import SubscriptionIds
  import LegacyConfiguration

  /**
   * The primary's two grants on freshly provisioned resources whose dead-letter topic policy is not
   * refused: the log is the four creates, the publisher grant and the subscriber grant (only the
   * policy read when the subscription's policy is refused); the publisher role is held, and the
   * subscriber role too unless refused, in which case the subscription's policy is unchanged.
   */
  lemma {:induction false} GrantsOnProvisioned(b: Broker, id: LegacyConfiguration.SubscriptionId, member: string)
    requires id.Wellformed()
    requires Consumers.ProvisionSucceeds(b, id.topicId.GetTopic(), id.GetDeadLetterTopic(),
                                         id.GetDeadLetterSubscription(), id.GetSubscription())
    requires id.DeadLetter().ToString() !in b.iamDenied
    ensures var deadLetter := id.DeadLetter().ToString();
            var subscription := id.SubscriptionName().ToString();
            var steps := Consumers.ProvisionSteps(id.topicId.GetTopic(), id.GetDeadLetterTopic(),
                                                  id.GetDeadLetterSubscription(), id.GetSubscription());
            var provisioned := Consumers.AfterProvision(b, id.topicId.GetTopic(), id.GetDeadLetterTopic(),
                                                        id.GetDeadLetterSubscription(), id.GetSubscription());
            var after := Environment.RoleBindingsGranted(provisioned, deadLetter, subscription, member);
            && after.calls == b.calls + steps + Consumers.GrantStep(b.PolicyOf(deadLetter), deadLetter, Iam.PublisherRole, member)
                              + (if subscription in b.iamDenied then [GetPolicyCall(subscription)]
                                 else Consumers.GrantStep(b.PolicyOf(subscription), subscription, Iam.SubscriberRole, member))
            && Iam.Grants(after.PolicyOf(deadLetter), Iam.PublisherRole, member)
            && (subscription !in b.iamDenied ==> Iam.Grants(after.PolicyOf(subscription), Iam.SubscriberRole, member))
            && (subscription in b.iamDenied ==> after.PolicyOf(subscription) == b.PolicyOf(subscription))
  {
    var deadLetter := id.DeadLetter().ToString();
    var subscription := id.SubscriptionName().ToString();
    var provisioned := Consumers.AfterProvision(b, id.topicId.GetTopic(), id.GetDeadLetterTopic(),
                                                id.GetDeadLetterSubscription(), id.GetSubscription());
    Consumers.AfterProvisionPassed(b, id.topicId.GetTopic(), id.GetDeadLetterTopic(),
                                   id.GetDeadLetterSubscription(), id.GetSubscription());
    TopicAndSubscriptionNamesDiffer(id.projectId, id.DeadLetter().topicId, id.SubscriptionName().subscriptionId);
    Environment.RoleBindingsGrantedCalls(provisioned, deadLetter, subscription, member);
    Environment.RoleBindingsGrantedPolicies(provisioned, deadLetter, subscription, member);
    Iam.AppendRoleGrants(b.PolicyOf(deadLetter), Iam.PublisherRole, member);
    var published := provisioned.(policies := Environment.GrantedPolicies(provisioned, deadLetter,
                                                                          Iam.PublisherRole, member));
    assert published.PolicyOf(subscription) == b.PolicyOf(subscription);
  }

  /**
   * The broker `InitializeProcessing` leaves on `b` when subscriptions are initialized: the creates
   * made, and, for a primary consumer whose four creates all passed, the grants up to the first
   * that failed.
   */
  function InitializedBroker(id: LegacyConfiguration.SubscriptionId, isDeadLetter: bool, b: Broker,
                             projectNumber: string): Broker
    requires id.Wellformed()
  {
    var topic := id.topicId.GetTopic();
    var deadLetterTopic := id.GetDeadLetterTopic();
    var deadLetterSubscription := id.GetDeadLetterSubscription();
    var subscription := id.GetSubscription();
    var provisioned := Consumers.AfterProvision(b, topic, deadLetterTopic, deadLetterSubscription, subscription);
    if !isDeadLetter && Consumers.ProvisionSucceeds(b, topic, deadLetterTopic, deadLetterSubscription, subscription)
    then Environment.RoleBindingsGranted(provisioned, id.DeadLetter().ToString(), id.SubscriptionName().ToString(),
                                         SubscriptionIds.ServiceAccount(projectNumber))
    else provisioned
  }

  /**
   * How `InitializeProcessing` with subscriptions initialized ended on `b` in `r` and `after`:
   * - it passes exactly when provisioning succeeds and, for a primary, the dead-letter topic's
   *   policy is not refused;
   * - a dead-letter consumer's log is only the creates made, and it changes no policy;
   * - on a pass the four resources exist, and a primary's log is the four creates, the publisher
   *   grant and the subscriber grant (only the policy read when the subscription's policy is
   *   refused), with the publisher role held and the subscriber role held unless refused;
   * - at most the four resources are added, exactly those on a pass, and `after` is
   *   `InitializedBroker`.
   */
  ghost predicate InitializedOutcome(b: Broker, r: Outcome<Error>, after: Broker, id: LegacyConfiguration.SubscriptionId,
                                     isDeadLetter: bool, projectNumber: string)
    requires id.Wellformed()
  {
    var topic := id.topicId.GetTopic();
    var deadLetterTopic := id.GetDeadLetterTopic();
    var deadLetterSubscription := id.GetDeadLetterSubscription();
    var subscription := id.GetSubscription();
    var steps := Consumers.ProvisionSteps(topic, deadLetterTopic, deadLetterSubscription, subscription);
    var provisioned := Consumers.ProvisionSucceeds(b, topic, deadLetterTopic, deadLetterSubscription, subscription);
    var member := SubscriptionIds.ServiceAccount(projectNumber);
    var deadLetter := id.DeadLetter().ToString();
    var subscriptionName := id.SubscriptionName().ToString();
    && |b.calls| < |after.calls|
    && (provisioned ==> |after.calls| >= |b.calls| + 4 && after.calls[..|b.calls| + 4] == b.calls + steps)
    && (isDeadLetter ==> (r.Pass? <==> provisioned))
    && (!isDeadLetter ==> (r.Pass? <==> provisioned && deadLetter !in b.iamDenied))
    && (isDeadLetter ==>
          && after.calls == b.calls + steps[..Consumers.ProvisionStepsMade(b, topic, deadLetterTopic,
                                                                         deadLetterSubscription, subscription)]
          && after.policies == b.policies)
    && (r.Pass? ==> Consumers.Provisioned(after, topic, deadLetterTopic, deadLetterSubscription, subscription))
    && (!isDeadLetter && r.Pass? ==>
          && after.calls == b.calls + steps + Consumers.GrantStep(b.PolicyOf(deadLetter), deadLetter, Iam.PublisherRole, member)
                            + (if subscriptionName in b.iamDenied then [GetPolicyCall(subscriptionName)]
                               else Consumers.GrantStep(b.PolicyOf(subscriptionName), subscriptionName, Iam.SubscriberRole, member))
          && Iam.Grants(after.PolicyOf(deadLetter), Iam.PublisherRole, member)
          && (subscriptionName !in b.iamDenied ==> Iam.Grants(after.PolicyOf(subscriptionName), Iam.SubscriberRole, member))
          && (subscriptionName in b.iamDenied ==> after.PolicyOf(subscriptionName) == b.PolicyOf(subscriptionName)))
    && Consumers.ProvisionBounded(b, after, topic, deadLetterTopic, deadLetterSubscription, subscription)
    && (r.Pass? ==> && after.topics == b.topics + {topic.name.ToString(), deadLetterTopic.name.ToString()}
                    && after.subscriptions == b.subscriptions + {deadLetterSubscription.name.ToString(),
                                                                 subscription.name.ToString()})
    && after == InitializedBroker(id, isDeadLetter, b, projectNumber)
  }

  class PubSubConsumer {
    const subscriptionId: LegacyConfiguration.SubscriptionId
    const isDeadLetter: bool
    /** The streaming client, by the subscription it pulls from; `None` for a null client. */
    var subscriberClient: Option<SubscriptionName>
    /** How many times a client was stopped and disposed. */
    var clientStops: nat
    /** Whether the base service stop ran. */
    var stopped: bool

    /** The id was built by `GetSubscriptionId`, so its names can be computed. */
    predicate Valid() {
      subscriptionId.Wellformed()
    }

    constructor (subscriptionId: LegacyConfiguration.SubscriptionId, isDeadLetter: bool)
      requires subscriptionId.Wellformed()
      ensures this.subscriptionId == subscriptionId && this.isDeadLetter == isDeadLetter
      ensures Valid()
      ensures subscriberClient == None && clientStops == 0 && !stopped
    {
      this.subscriptionId := subscriptionId;
      this.isDeadLetter := isDeadLetter;
      subscriberClient := None;
      clientStops := 0;
      stopped := false;
    }

    /** The subscription this consumer pulls from. */
    function PulledSubscription(): (r: SubscriptionName)
      requires Valid()
      reads this
      ensures r == if isDeadLetter then subscriptionId.DeadLetterSubscriptionName() else subscriptionId.SubscriptionName()
      ensures r.projectId == subscriptionId.projectId
    {
      if isDeadLetter then subscriptionId.DeadLetterSubscriptionName() else subscriptionId.SubscriptionName()
    }

    /**
     * The primary consumer's two grants to the project's service agent: the publisher role on the
     * dead-letter topic, whose failure propagates, then the subscriber role on the subscription,
     * whose failure is only logged.
     */
    method GrantRoles(b: Broker, projectNumber: string) returns (r: Outcome<Error>, after: Broker)
      requires Valid()
      ensures var member := SubscriptionIds.ServiceAccount(projectNumber);
              var deadLetter := subscriptionId.DeadLetter().ToString();
              var subscription := subscriptionId.SubscriptionName().ToString();
              var published := b.(policies := Environment.GrantedPolicies(b, deadLetter, Iam.PublisherRole, member));
              && (r.Pass? <==> b.PolicyAccessible(deadLetter))
              && after.calls == b.calls + Environment.GrantCalls(b, deadLetter, Iam.PublisherRole, member)
                                + (if b.PolicyAccessible(deadLetter)
                                   then Environment.GrantCalls(published, subscription, Iam.SubscriberRole, member) else [])
              && (r.Fail? ==> r.error.Rpc? && after.policies == b.policies)
              && (r.Pass? ==> && Iam.Grants(after.PolicyOf(deadLetter), Iam.PublisherRole, member)
                              && (b.PolicyAccessible(subscription) ==>
                                    Iam.Grants(after.PolicyOf(subscription), Iam.SubscriberRole, member))
                              && (!b.PolicyAccessible(subscription) ==>
                                    after.PolicyOf(subscription) == b.PolicyOf(subscription)))
              && (forall k :: k != deadLetter && k != subscription ==> after.PolicyOf(k) == b.PolicyOf(k))
      ensures after.topics == b.topics && after.subscriptions == b.subscriptions
      ensures after.faulty == b.faulty && after.iamDenied == b.iamDenied && after.nextId == b.nextId
      ensures PullFree(b, after)
      ensures after == Environment.RoleBindingsGranted(b, subscriptionId.DeadLetter().ToString(),
                                                       subscriptionId.SubscriptionName().ToString(),
                                                       SubscriptionIds.ServiceAccount(projectNumber))
    {
      var member := SubscriptionIds.ServiceAccount(projectNumber);
      var deadLetter := subscriptionId.DeadLetter().ToString();
      r, after := Environment.GrantRole(b, deadLetter, Iam.PublisherRole, member);
      if r.Fail? {
        return;
      }
      var granted := after;
      var subscription := subscriptionId.SubscriptionName().ToString();
      var swallowed;
      swallowed, after := Environment.GrantRole(granted, subscription, Iam.SubscriberRole, member);
      TopicAndSubscriptionNamesDiffer(subscriptionId.projectId, subscriptionId.DeadLetter().topicId,
                                      subscriptionId.SubscriptionName().subscriptionId);
      assert after.PolicyOf(deadLetter) == granted.PolicyOf(deadLetter);
      PullFreeTransitive(b, granted, after);
    }

    /**
     * `InitializeProcessing`: nothing unless subscriptions are initialized; otherwise the four
     * creates, each AlreadyExists swallowed, and for a primary consumer the two role grants to the
     * project's service agent. The emulator setting does not skip the grants.
     */
    method InitializeProcessing(b: Broker, projectNumber: string) returns (r: Outcome<Error>, after: Broker)
      requires Valid()
      ensures !subscriptionId.configuration.ShouldInitializeSubscriptions() ==> r == Pass && after == b
      ensures subscriptionId.configuration.ShouldInitializeSubscriptions() ==>
                InitializedOutcome(b, r, after, subscriptionId, isDeadLetter, projectNumber)
      ensures r.Fail? ==> r.error.Rpc?
      ensures after.faulty == b.faulty && after.iamDenied == b.iamDenied && after.nextId == b.nextId
      ensures PullFree(b, after)
    {
      if !subscriptionId.configuration.ShouldInitializeSubscriptions() {
        return Pass, b;
      }
      r, after := Consumers.Provision(b, subscriptionId.topicId.GetTopic(), subscriptionId.GetDeadLetterTopic(),
                                      subscriptionId.GetDeadLetterSubscription(), subscriptionId.GetSubscription());
      if r.Fail? || isDeadLetter {
        return;
      }
      Consumers.AfterProvisionPassed(b, subscriptionId.topicId.GetTopic(), subscriptionId.GetDeadLetterTopic(),
                                     subscriptionId.GetDeadLetterSubscription(), subscriptionId.GetSubscription());
      if subscriptionId.DeadLetter().ToString() !in b.iamDenied {
        GrantsOnProvisioned(b, subscriptionId, SubscriptionIds.ServiceAccount(projectNumber));
      }
      var provisioned := after;
      r, after := GrantRoles(provisioned, projectNumber);
      assert after.calls[..|b.calls| + 4] == provisioned.calls[..|b.calls| + 4];
      PullFreeTransitive(b, provisioned, after);
    }

    /** `StartProcessing`: opens a client on the consumer's subscription and starts pulling. */
    method StartProcessing(b: Broker) returns (after: Broker)
      requires Valid()
      modifies this
      ensures subscriberClient == Some(PulledSubscription())
      ensures after == b.(calls := b.calls + [StreamingPullCall(PulledSubscription().ToString())])
      ensures clientStops == old(clientStops) && stopped == old(stopped)
    {
      subscriberClient := Some(PulledSubscription());
      after := StreamingPull(b, PulledSubscription().ToString());
    }

    /**
     * `StopProcessing`: stops and disposes the client when there is one, but keeps the reference, so
     * every later stop stops it again.
     */
    method StopProcessing()
      modifies this
      ensures subscriberClient == old(subscriberClient)
      ensures clientStops == old(clientStops) + (if subscriberClient.Some? then 1 else 0)
      ensures stopped == old(stopped)
    {
      if subscriberClient.Some? {
        clientStops := clientStops + 1;
      }
    }

    /** `ExecuteAsync`: initialize, then start pulling; a failed initialization propagates. */
    method ExecuteAsync(b: Broker, projectNumber: string) returns (r: Outcome<Error>, after: Broker)
      requires Valid()
      modifies this
      ensures r.Pass? ==> subscriberClient == Some(PulledSubscription()) && |after.calls| > |b.calls|
                          && after.calls[|after.calls| - 1] == StreamingPullCall(PulledSubscription().ToString())
      ensures r.Fail? ==> subscriberClient == old(subscriberClient) && r.error.Rpc?
      ensures |b.calls| <= |after.calls| && after.calls[..|b.calls|] == b.calls
      ensures r.Fail? ==> NoPull(after.calls[|b.calls|..])
      ensures r.Pass? ==> NoPull(after.calls[|b.calls|..|after.calls| - 1])
      ensures subscriptionId.configuration.ShouldInitializeSubscriptions() ==>
                var initialized := InitializedBroker(subscriptionId, isDeadLetter, b, projectNumber);
                && InitializedOutcome(b, r, initialized, subscriptionId, isDeadLetter, projectNumber)
                && after == if r.Pass? then StreamingPull(initialized, PulledSubscription().ToString()) else initialized
      ensures !subscriptionId.configuration.ShouldInitializeSubscriptions() ==>
                r == Pass && after == b.(calls := b.calls + [StreamingPullCall(PulledSubscription().ToString())])
      ensures clientStops == old(clientStops) && stopped == old(stopped)
    {
      r, after := InitializeProcessing(b, projectNumber);
      if r.Fail? {
        return;
      }
      var initialized := after;
      after := StartProcessing(initialized);
      PullAppended(b, initialized, PulledSubscription().ToString());
    }

    /** `StopAsync`: stop processing, then stop the host service. */
    method StopAsync()
      modifies this
      ensures subscriberClient == old(subscriberClient) && stopped
      ensures clientStops == old(clientStops) + (if subscriberClient.Some? then 1 else 0)
    {
      StopProcessing();
      stopped := true;
    }
  }
}
