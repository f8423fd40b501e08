/**
 * The newer tree's `PubSubConsumer` and the lifecycle of its base `MessageConsumer`: initialize,
 * then start pulling; on shutdown, stop pulling, then stop the host service.
 */
module Consumers {
  import opened Wrappers
  import opened Errors
  import opened Resources
  import opened Brokers
  import Iam
  import Environment
  import SubscriptionIds

  /** The four create calls of provisioning, in the order they are made. */
  function ProvisionSteps(topic: Topic, deadLetterTopic: Topic, deadLetterSubscription: Subscription,
                          subscription: Subscription): seq<Call> {
    [CreateTopicCall(topic), CreateTopicCall(deadLetterTopic),
     CreateSubscriptionCall(deadLetterSubscription), CreateSubscriptionCall(subscription)]
  }

  /** The creates of `ProvisionSteps` succeed on `b`, an existing resource counting as created. */
  predicate ProvisionSucceeds(b: Broker, topic: Topic, deadLetterTopic: Topic, deadLetterSubscription: Subscription,
                              subscription: Subscription) {
    var topics := b.topics + {topic.name.ToString(), deadLetterTopic.name.ToString()};
    var subscriptions := b.subscriptions + {deadLetterSubscription.name.ToString()};
    && topic.name.ToString() !in b.faulty && deadLetterTopic.name.ToString() !in b.faulty
    && deadLetterSubscription.name.ToString() !in b.faulty && subscription.name.ToString() !in b.faulty
    && (deadLetterSubscription.name.ToString() in b.subscriptions || deadLetterSubscription.topic.ToString() in topics)
    && (subscription.name.ToString() in subscriptions || subscription.topic.ToString() in topics)
  }

  /** The four resources exist on `after`. */
  predicate Provisioned(after: Broker, topic: Topic, deadLetterTopic: Topic, deadLetterSubscription: Subscription,
                        subscription: Subscription) {
    && topic.name.ToString() in after.topics && deadLetterTopic.name.ToString() in after.topics
    && deadLetterSubscription.name.ToString() in after.subscriptions
    && subscription.name.ToString() in after.subscriptions
  }

  /** One grant on a resource whose policy can be read and written and holds `policy`. */
  function GrantStep(policy: seq<Iam.Binding>, resource: string, role: string, member: string): seq<Call> {
    [GetPolicyCall(resource)]
    + if Iam.Grants(policy, role, member) then [] else [SetPolicyCall(resource, Iam.WithRole(policy, role, member))]
  }

  /**
   * The calls of the two role grants on freshly provisioned resources whose policies are still
   * `b`'s: the publisher role on the dead-letter topic, then the subscriber role on the subscription.
   */
  function RoleGrantCalls(b: Broker, deadLetter: string, subscription: string, member: string): seq<Call> {
    GrantStep(b.PolicyOf(deadLetter), deadLetter, Iam.PublisherRole, member)
    + GrantStep(b.PolicyOf(subscription), subscription, Iam.SubscriberRole, member)
  }

  /** `member` holds both roles on `after`, and every other resource's policy is `b`'s. */
  ghost predicate RolesGranted(b: Broker, after: Broker, deadLetter: string, subscription: string, member: string) {
    && Iam.Grants(after.PolicyOf(deadLetter), Iam.PublisherRole, member)
    && Iam.Grants(after.PolicyOf(subscription), Iam.SubscriberRole, member)
    && forall k :: k != deadLetter && k != subscription ==> after.PolicyOf(k) == b.PolicyOf(k)
  }

  /**
   * A managed primary consumer's initialization on `b` passed and left `after`: its four resources
   * exist, its log is the four creates followed, when roles are granted, by the two grants; without
   * grants no policy changed, with them the service agent `member` holds both roles.
   */
  ghost predicate PrimaryInitialized(b: Broker, after: Broker, subscriptionId: SubscriptionIds.SubscriptionId,
                               grantsRoles: bool, member: string)
    requires subscriptionId.deadLetterTopic.Some? && subscriptionId.deadLetterSubscription.Some?
  {
    var steps := ProvisionSteps(subscriptionId.topicId.topic, subscriptionId.deadLetterTopic.value,
                                subscriptionId.deadLetterSubscription.value, subscriptionId.subscription);
    var deadLetter := subscriptionId.deadLetterTopic.value.name.ToString();
    var subscription := subscriptionId.subscription.name.ToString();
    && Provisioned(after, subscriptionId.topicId.topic, subscriptionId.deadLetterTopic.value,
                   subscriptionId.deadLetterSubscription.value, subscriptionId.subscription)
    && after.topics == b.topics + {subscriptionId.topicId.topic.name.ToString(), deadLetter}
    && after.subscriptions
       == b.subscriptions + {subscriptionId.deadLetterSubscription.value.name.ToString(), subscription}
    && after.faulty == b.faulty && after.iamDenied == b.iamDenied && after.nextId == b.nextId
    && (!grantsRoles ==> after.calls == b.calls + steps && after.policies == b.policies)
    && (grantsRoles ==> && after.calls == b.calls + steps + RoleGrantCalls(b, deadLetter, subscription, member)
                        && RolesGranted(b, after, deadLetter, subscription, member))
  }

  /**
   * How a managed primary consumer's initialization on `b` ended in `r` and `after`: it made a call;
   * it passed exactly when provisioning succeeds and, when roles are granted, both policies may be
   * read and written; a pass leaves `PrimaryInitialized`; at most the four resources were added;
   * and whatever the outcome, `after` is what the creates made, followed, only once all four passed
   * and roles are granted, by the grants up to the first that failed.
   */
  ghost predicate PrimaryOutcome(b: Broker, r: Outcome<Error>, after: Broker,
                                 subscriptionId: SubscriptionIds.SubscriptionId, grantsRoles: bool, member: string)
    requires subscriptionId.deadLetterTopic.Some? && subscriptionId.deadLetterSubscription.Some?
  {
    && |b.calls| < |after.calls|
    && (r.Pass? <==>
          && ProvisionSucceeds(b, subscriptionId.topicId.topic, subscriptionId.deadLetterTopic.value,
                               subscriptionId.deadLetterSubscription.value, subscriptionId.subscription)
          && (!grantsRoles || (&& subscriptionId.deadLetterTopic.value.name.ToString() !in b.iamDenied
                               && subscriptionId.subscription.name.ToString() !in b.iamDenied)))
    && (r.Pass? ==> PrimaryInitialized(b, after, subscriptionId, grantsRoles, member))
    && ProvisionBounded(b, after, subscriptionId.topicId.topic, subscriptionId.deadLetterTopic.value,
                        subscriptionId.deadLetterSubscription.value, subscriptionId.subscription)
    && after == PrimaryBroker(b, subscriptionId, grantsRoles, member)
  }

  /** The broker a managed primary consumer's initialization leaves on `b`, as `PrimaryOutcome` states it. */
  function PrimaryBroker(b: Broker, subscriptionId: SubscriptionIds.SubscriptionId, grantsRoles: bool,
                         member: string): Broker
    requires subscriptionId.deadLetterTopic.Some? && subscriptionId.deadLetterSubscription.Some?
  {
    var topic := subscriptionId.topicId.topic;
    var deadLetterTopic := subscriptionId.deadLetterTopic.value;
    var deadLetterSubscription := subscriptionId.deadLetterSubscription.value;
    var provisioned := AfterProvision(b, topic, deadLetterTopic, deadLetterSubscription, subscriptionId.subscription);
    if grantsRoles && ProvisionSucceeds(b, topic, deadLetterTopic, deadLetterSubscription, subscriptionId.subscription)
    then Environment.RoleBindingsGranted(provisioned, deadLetterTopic.name.ToString(),
                                         subscriptionId.subscription.name.ToString(), member)
    else provisioned
  }

  /**
   * How many of the four creates provisioning makes on `b`: every one up to and including the
   * first that fails, or all four.
   */
  function ProvisionStepsMade(b: Broker, topic: Topic, deadLetterTopic: Topic, deadLetterSubscription: Subscription,
                              subscription: Subscription): nat {
    var topics := b.topics + {topic.name.ToString(), deadLetterTopic.name.ToString()};
    if topic.name.ToString() in b.faulty then 1
    else if deadLetterTopic.name.ToString() in b.faulty then 2
    else if || deadLetterSubscription.name.ToString() in b.faulty
            || (deadLetterSubscription.name.ToString() !in b.subscriptions
                && deadLetterSubscription.topic.ToString() !in topics) then 3
    else 4
  }

  /**
   * The broker provisioning leaves on `b`: the creates made are logged, and each create that passed
   * added its resource; policies and everything else are `b`'s.
   */
  function AfterProvision(b: Broker, topic: Topic, deadLetterTopic: Topic, deadLetterSubscription: Subscription,
                          subscription: Subscription): Broker {
    var made := ProvisionStepsMade(b, topic, deadLetterTopic, deadLetterSubscription, subscription);
    var steps := ProvisionSteps(topic, deadLetterTopic, deadLetterSubscription, subscription);
    b.(calls := b.calls + steps[..made],
       topics := b.topics + (if made >= 2 then {topic.name.ToString()} else {})
                 + (if made >= 3 then {deadLetterTopic.name.ToString()} else {}),
       subscriptions := b.subscriptions + (if made == 4 then {deadLetterSubscription.name.ToString()} else {})
                        + (if ProvisionSucceeds(b, topic, deadLetterTopic, deadLetterSubscription, subscription)
                           then {subscription.name.ToString()} else {}))
  }

  /** `after` holds `b`'s resources and at most the four provisioned ones besides. */
  predicate ProvisionBounded(b: Broker, after: Broker, topic: Topic, deadLetterTopic: Topic,
                             deadLetterSubscription: Subscription, subscription: Subscription) {
    && b.topics <= after.topics <= b.topics + {topic.name.ToString(), deadLetterTopic.name.ToString()}
    && b.subscriptions <= after.subscriptions
       <= b.subscriptions + {deadLetterSubscription.name.ToString(), subscription.name.ToString()}
  }

  /**
   * Provisioning: the topic, the dead-letter topic, the dead-letter subscription and the
   * subscription are created in that order, each AlreadyExists swallowed and the first other
   * failure raised, so that on success all four exist.
   */
  method Provision(b: Broker, topic: Topic, deadLetterTopic: Topic, deadLetterSubscription: Subscription,
                   subscription: Subscription)
    returns (r: Outcome<Error>, after: Broker)
    ensures var steps := ProvisionSteps(topic, deadLetterTopic, deadLetterSubscription, subscription);
            after.calls == b.calls + steps[..ProvisionStepsMade(b, topic, deadLetterTopic, deadLetterSubscription, subscription)]
    ensures r.Pass? <==> ProvisionSucceeds(b, topic, deadLetterTopic, deadLetterSubscription, subscription)
    ensures r.Pass? ==> Provisioned(after, topic, deadLetterTopic, deadLetterSubscription, subscription)
    ensures r.Fail? ==> r.error.Rpc?
    ensures b.topics <= after.topics && b.subscriptions <= after.subscriptions
    ensures after.policies == b.policies && after.faulty == b.faulty && after.iamDenied == b.iamDenied && after.nextId == b.nextId
    ensures PullFree(b, after)
    ensures ProvisionBounded(b, after, topic, deadLetterTopic, deadLetterSubscription, subscription)
    ensures r.Pass? ==> && after.topics == b.topics + {topic.name.ToString(), deadLetterTopic.name.ToString()}
                        && after.subscriptions
                           == b.subscriptions + {deadLetterSubscription.name.ToString(), subscription.name.ToString()}
    ensures after == AfterProvision(b, topic, deadLetterTopic, deadLetterSubscription, subscription)
  {
    var steps := ProvisionSteps(topic, deadLetterTopic, deadLetterSubscription, subscription);
    r, after := Environment.CreateTopic(b, topic);
    assert after.calls == b.calls + steps[..1];
    if r.Fail? {
      return;
    }
    r, after := Environment.CreateTopic(after, deadLetterTopic);
    assert after.calls == b.calls + steps[..2];
    if r.Fail? {
      return;
    }
    r, after := Environment.CreateSubscription(after, deadLetterSubscription);
    assert after.calls == b.calls + steps[..3];
    if r.Fail? {
      return;
    }
    r, after := Environment.CreateSubscription(after, subscription);
    assert after.calls == b.calls + steps[..4];
  }

  /**
   * An initialization that leaves `PrimaryBroker` and passes exactly when provisioning succeeds and
   * the policies to grant on are not refused meets `PrimaryOutcome`: the exact broker gives the
   * provisioned resources, the grant calls and the roles held.
   */
  lemma {:induction false} PrimaryOutcomeOfBroker(b: Broker, r: Outcome<Error>, after: Broker,
                                                  subscriptionId: SubscriptionIds.SubscriptionId, grantsRoles: bool,
                                                  member: string)
    requires subscriptionId.deadLetterTopic.Some? && subscriptionId.deadLetterSubscription.Some?
    requires subscriptionId.deadLetterTopic.value.name.projectId == subscriptionId.subscription.name.projectId
    requires after == PrimaryBroker(b, subscriptionId, grantsRoles, member)
    requires r.Pass? <==>
               && ProvisionSucceeds(b, subscriptionId.topicId.topic, subscriptionId.deadLetterTopic.value,
                                    subscriptionId.deadLetterSubscription.value, subscriptionId.subscription)
               && (!grantsRoles || (&& subscriptionId.deadLetterTopic.value.name.ToString() !in b.iamDenied
                                    && subscriptionId.subscription.name.ToString() !in b.iamDenied))
    ensures PrimaryOutcome(b, r, after, subscriptionId, grantsRoles, member)
  {
    var topic := subscriptionId.topicId.topic;
    var deadLetterTopic := subscriptionId.deadLetterTopic.value;
    var deadLetterSubscription := subscriptionId.deadLetterSubscription.value;
    var deadLetter := deadLetterTopic.name.ToString();
    var subscription := subscriptionId.subscription.name.ToString();
    var provisioned := AfterProvision(b, topic, deadLetterTopic, deadLetterSubscription, subscriptionId.subscription);
    AfterProvisionBounded(b, topic, deadLetterTopic, deadLetterSubscription, subscriptionId.subscription);
    if ProvisionSucceeds(b, topic, deadLetterTopic, deadLetterSubscription, subscriptionId.subscription) {
      AfterProvisionPassed(b, topic, deadLetterTopic, deadLetterSubscription, subscriptionId.subscription);
      if grantsRoles {
        Environment.RoleBindingsGrantedCalls(provisioned, deadLetter, subscription, member);
        if r.Pass? {
          RolesGrantedOnProvisioned(b, subscriptionId, member);
        }
      }
    }
  }

  /** Provisioning adds at most its four resources, always makes a call and changes nothing else. */
  lemma {:induction false} AfterProvisionBounded(b: Broker, topic: Topic, deadLetterTopic: Topic,
                                                 deadLetterSubscription: Subscription, subscription: Subscription)
    ensures var after := AfterProvision(b, topic, deadLetterTopic, deadLetterSubscription, subscription);
            && ProvisionBounded(b, after, topic, deadLetterTopic, deadLetterSubscription, subscription)
            && |b.calls| < |after.calls| && PullFree(b, after)
            && after.policies == b.policies && after.faulty == b.faulty && after.iamDenied == b.iamDenied
            && after.nextId == b.nextId
  {
    var after := AfterProvision(b, topic, deadLetterTopic, deadLetterSubscription, subscription);
    var steps := ProvisionSteps(topic, deadLetterTopic, deadLetterSubscription, subscription);
    var made := ProvisionStepsMade(b, topic, deadLetterTopic, deadLetterSubscription, subscription);
    assert after.calls[|b.calls|..] == steps[..made];
  }

  /** Provisioning that succeeds logs the four creates and adds exactly the four resources. */
  lemma {:induction false} AfterProvisionPassed(b: Broker, topic: Topic, deadLetterTopic: Topic,
                                                deadLetterSubscription: Subscription, subscription: Subscription)
    requires ProvisionSucceeds(b, topic, deadLetterTopic, deadLetterSubscription, subscription)
    ensures var after := AfterProvision(b, topic, deadLetterTopic, deadLetterSubscription, subscription);
            && after.calls == b.calls + ProvisionSteps(topic, deadLetterTopic, deadLetterSubscription, subscription)
            && after.topics == b.topics + {topic.name.ToString(), deadLetterTopic.name.ToString()}
            && after.subscriptions == b.subscriptions + {deadLetterSubscription.name.ToString(), subscription.name.ToString()}
            && Provisioned(after, topic, deadLetterTopic, deadLetterSubscription, subscription)
  {
    var steps := ProvisionSteps(topic, deadLetterTopic, deadLetterSubscription, subscription);
    assert steps[..4] == steps;
  }

  /**
   * The two grants on freshly provisioned resources whose policies are not refused: the log is
   * `RoleGrantCalls` on the broker before provisioning, and the service agent holds both roles.
   */
  lemma {:induction false} RolesGrantedOnProvisioned(b: Broker, subscriptionId: SubscriptionIds.SubscriptionId,
                                                     member: string)
    requires subscriptionId.deadLetterTopic.Some? && subscriptionId.deadLetterSubscription.Some?
    requires subscriptionId.deadLetterTopic.value.name.projectId == subscriptionId.subscription.name.projectId
    requires ProvisionSucceeds(b, subscriptionId.topicId.topic, subscriptionId.deadLetterTopic.value,
                               subscriptionId.deadLetterSubscription.value, subscriptionId.subscription)
    requires subscriptionId.deadLetterTopic.value.name.ToString() !in b.iamDenied
    requires subscriptionId.subscription.name.ToString() !in b.iamDenied
    ensures var deadLetter := subscriptionId.deadLetterTopic.value.name.ToString();
            var subscription := subscriptionId.subscription.name.ToString();
            var provisioned := AfterProvision(b, subscriptionId.topicId.topic, subscriptionId.deadLetterTopic.value,
                                              subscriptionId.deadLetterSubscription.value, subscriptionId.subscription);
            var after := Environment.RoleBindingsGranted(provisioned, deadLetter, subscription, member);
            && after.calls == provisioned.calls + RoleGrantCalls(b, deadLetter, subscription, member)
            && RolesGranted(b, after, deadLetter, subscription, member)
  {
    var deadLetter := subscriptionId.deadLetterTopic.value.name.ToString();
    var subscription := subscriptionId.subscription.name.ToString();
    var provisioned := AfterProvision(b, subscriptionId.topicId.topic, subscriptionId.deadLetterTopic.value,
                                      subscriptionId.deadLetterSubscription.value, subscriptionId.subscription);
    AfterProvisionPassed(b, subscriptionId.topicId.topic, subscriptionId.deadLetterTopic.value,
                         subscriptionId.deadLetterSubscription.value, subscriptionId.subscription);
    TopicAndSubscriptionNamesDiffer(subscriptionId.subscription.name.projectId, subscriptionId.deadLetterTopic.value.name.topicId,
                                    subscriptionId.subscription.name.subscriptionId);
    Environment.RoleBindingsGrantedCalls(provisioned, deadLetter, subscription, member);
    Environment.RoleBindingsGrantedPolicies(provisioned, deadLetter, subscription, member);
    var published := provisioned.(policies := Environment.GrantedPolicies(provisioned, deadLetter,
                                                                          Iam.PublisherRole, member));
    assert published.PolicyOf(subscription) == b.PolicyOf(subscription);
  }

  /**
   * A failed initialization of a managed primary consumer stops at its first failure: a failed
   * create ends the log and no policy changes; once all four creates passed, a refused
   * dead-letter topic policy ends the log after its read, and a refused subscription policy ends
   * it after that read with only the dead-letter topic's grant made.
   */
  lemma {:induction false} PrimaryFailureStops(b: Broker, r: Outcome<Error>, after: Broker,
                                               subscriptionId: SubscriptionIds.SubscriptionId, grantsRoles: bool,
                                               member: string)
    requires subscriptionId.deadLetterTopic.Some? && subscriptionId.deadLetterSubscription.Some?
    requires subscriptionId.deadLetterTopic.value.name.projectId == subscriptionId.subscription.name.projectId
    requires PrimaryOutcome(b, r, after, subscriptionId, grantsRoles, member) && r.Fail?
    ensures var topic := subscriptionId.topicId.topic;
            var deadLetterTopic := subscriptionId.deadLetterTopic.value;
            var deadLetterSubscription := subscriptionId.deadLetterSubscription.value;
            var steps := ProvisionSteps(topic, deadLetterTopic, deadLetterSubscription, subscriptionId.subscription);
            var deadLetter := deadLetterTopic.name.ToString();
            var subscription := subscriptionId.subscription.name.ToString();
            && (!ProvisionSucceeds(b, topic, deadLetterTopic, deadLetterSubscription, subscriptionId.subscription) ==>
                  && after.calls == b.calls + steps[..ProvisionStepsMade(b, topic, deadLetterTopic, deadLetterSubscription,
                                                                         subscriptionId.subscription)]
                  && after.policies == b.policies)
            && (ProvisionSucceeds(b, topic, deadLetterTopic, deadLetterSubscription, subscriptionId.subscription) ==>
                  && grantsRoles
                  && after.topics == b.topics + {topic.name.ToString(), deadLetter}
                  && after.subscriptions == b.subscriptions + {deadLetterSubscription.name.ToString(), subscription}
                  && (deadLetter in b.iamDenied ==>
                        after.calls == b.calls + steps + [GetPolicyCall(deadLetter)] && after.policies == b.policies)
                  && (deadLetter !in b.iamDenied ==>
                        && subscription in b.iamDenied
                        && after.calls == b.calls + steps + GrantStep(b.PolicyOf(deadLetter), deadLetter, Iam.PublisherRole, member)
                                          + [GetPolicyCall(subscription)]
                        && Iam.Grants(after.PolicyOf(deadLetter), Iam.PublisherRole, member)
                        && after.PolicyOf(subscription) == b.PolicyOf(subscription)))
  {
    var topic := subscriptionId.topicId.topic;
    var deadLetterTopic := subscriptionId.deadLetterTopic.value;
    var deadLetterSubscription := subscriptionId.deadLetterSubscription.value;
    var deadLetter := deadLetterTopic.name;
    var subscription := subscriptionId.subscription.name;
    if ProvisionSucceeds(b, topic, deadLetterTopic, deadLetterSubscription, subscriptionId.subscription) {
      var provisioned := AfterProvision(b, topic, deadLetterTopic, deadLetterSubscription, subscriptionId.subscription);
      TopicAndSubscriptionNamesDiffer(subscription.projectId, deadLetter.topicId, subscription.subscriptionId);
      assert provisioned.PolicyAccessible(deadLetter.ToString()) <==> deadLetter.ToString() !in b.iamDenied;
      assert provisioned.PolicyAccessible(subscription.ToString()) <==> subscription.ToString() !in b.iamDenied;
      GrantsStopAtRefusal(provisioned, deadLetter.ToString(), subscription.ToString(), member);
    }
  }

  /**
   * The two role grants on `b` when one of the two policies is refused: a refused dead-letter
   * topic policy ends the log after its read with no policy changed; a refused subscription policy
   * ends it after that read with only the dead-letter grant made.
   */
  lemma {:induction false} GrantsStopAtRefusal(b: Broker, deadLetter: string, subscription: string, member: string)
    requires deadLetter != subscription
    requires !b.PolicyAccessible(deadLetter) || !b.PolicyAccessible(subscription)
    ensures var after := Environment.RoleBindingsGranted(b, deadLetter, subscription, member);
            && (!b.PolicyAccessible(deadLetter) ==>
                  after.calls == b.calls + [GetPolicyCall(deadLetter)] && after.policies == b.policies)
            && (b.PolicyAccessible(deadLetter) ==>
                  && after.calls == b.calls + GrantStep(b.PolicyOf(deadLetter), deadLetter, Iam.PublisherRole, member)
                                    + [GetPolicyCall(subscription)]
                  && Iam.Grants(after.PolicyOf(deadLetter), Iam.PublisherRole, member)
                  && after.PolicyOf(subscription) == b.PolicyOf(subscription))
  {
    if b.PolicyAccessible(deadLetter) {
      Iam.AppendRoleGrants(b.PolicyOf(deadLetter), Iam.PublisherRole, member);
    }
  }

  /**
   * A managed primary's passed initialization still meets `PrimaryOutcome` once the pull is
   * appended: dropping the pull that ends `after`'s log gives back the initialized broker.
   */
  lemma PrimaryOutcomeBeforePull(b: Broker, initialized: Broker, after: Broker,
                                 subscriptionId: SubscriptionIds.SubscriptionId, grantsRoles: bool, member: string,
                                 subscription: string)
    requires subscriptionId.deadLetterTopic.Some? && subscriptionId.deadLetterSubscription.Some?
    requires PrimaryOutcome(b, Pass, initialized, subscriptionId, grantsRoles, member)
    requires after == initialized.(calls := initialized.calls + [StreamingPullCall(subscription)])
    ensures after.(calls := after.calls[..|after.calls| - 1]) == initialized
    ensures PrimaryOutcome(b, Pass, after.(calls := after.calls[..|after.calls| - 1]), subscriptionId, grantsRoles, member)
  {
    assert after.calls[..|after.calls| - 1] == initialized.calls;
  }

  /** The awaited dead-letter subscription gets ten attempts, ten seconds apart. */
  const DeadLetterWaitAttempts := 10
  const DeadLetterWaitDelaySeconds := 10

  class PubSubConsumer {
    const subscriptionId: SubscriptionIds.SubscriptionId
    const environment: Environment.EnvironmentId
    const isDeadLetterConsumer: bool
    /** The streaming client, by the subscription it pulls from; `None` for a null client. */
    var subscriberClient: Option<SubscriptionName>
    /** How many times a client was stopped and disposed. */
    var clientStops: nat
    /** Whether the host was asked to stop the application. */
    var stopRequested: bool
    /** Whether the base service stop ran. */
    var stopped: bool

    /**
     * Every descriptor the core builds has both dead-letter resources or neither, and its
     * dead-letter topic lives in the subscription's project.
     */
    predicate Valid() {
      && subscriptionId.deadLetterTopic.Some? == subscriptionId.deadLetterSubscription.Some?
      && (subscriptionId.deadLetterTopic.Some? ==>
            subscriptionId.deadLetterTopic.value.name.projectId == subscriptionId.subscription.name.projectId)
    }

    constructor (subscriptionId: SubscriptionIds.SubscriptionId, environment: Environment.EnvironmentId,
                 isDeadLetterConsumer: bool)
      requires subscriptionId.deadLetterTopic.Some? == subscriptionId.deadLetterSubscription.Some?
      requires subscriptionId.deadLetterTopic.Some? ==>
                 subscriptionId.deadLetterTopic.value.name.projectId == subscriptionId.subscription.name.projectId
      ensures this.subscriptionId == subscriptionId && this.environment == environment
      ensures this.isDeadLetterConsumer == isDeadLetterConsumer
      ensures Valid()
      ensures subscriberClient == None && clientStops == 0 && !stopRequested && !stopped
    {
      this.subscriptionId := subscriptionId;
      this.environment := environment;
      this.isDeadLetterConsumer := isDeadLetterConsumer;
      subscriberClient := None;
      clientStops := 0;
      stopRequested := false;
      stopped := false;
    }

    /**
     * The managed primary consumer's half of `InitializeProcessing`: the four creates, the role
     * grants, and then the initialization signal; the first failure propagates and skips the rest.
     */
    method InitializePrimary(b: Broker, projectNumber: string) returns (r: Outcome<Error>, after: Broker)
      requires Valid()
      modifies environment
      ensures environment.hasCallback == old(environment.hasCallback)
      ensures PullFree(b, after)
      ensures subscriptionId.deadLetterTopic.None? ==>
                r.Fail? && after.calls == b.calls + [CreateTopicCall(subscriptionId.topicId.topic)]
      ensures subscriptionId.deadLetterTopic.Some? ==>
                PrimaryOutcome(b, r, after, subscriptionId, !environment.useEmulator && !environment.unmanaged,
                               SubscriptionIds.ServiceAccount(projectNumber))
      ensures environment.callbacksStarted
              == old(environment.callbacksStarted) + (if r.Pass? && environment.hasCallback then 1 else 0)
    {
      if subscriptionId.deadLetterTopic.None? {
        // the topic is created, then the missing dead-letter topic is rejected before any request
        r, after := Environment.CreateTopic(b, subscriptionId.topicId.topic);
        r := Fail(if r.Fail? then r.error else NullReference);
        assert after.calls[|b.calls|..] == [CreateTopicCall(subscriptionId.topicId.topic)];
        return;
      }
      r, after := Provision(b, subscriptionId.topicId.topic, subscriptionId.deadLetterTopic.value,
                            subscriptionId.deadLetterSubscription.value, subscriptionId.subscription);
      if r.Fail? {
        PrimaryOutcomeOfBroker(b, r, after, subscriptionId, !environment.useEmulator && !environment.unmanaged,
                               SubscriptionIds.ServiceAccount(projectNumber));
        return;
      }
      var provisioned := after;
      r, after := Environment.AddRoleBindings(environment, provisioned, subscriptionId, projectNumber);
      PullFreeTransitive(b, provisioned, after);
      PrimaryOutcomeOfBroker(b, r, after, subscriptionId, !environment.useEmulator && !environment.unmanaged,
                             SubscriptionIds.ServiceAccount(projectNumber));
      if r.Fail? {
        return;
      }
      environment.Initialized();
    }

    /**
     * `InitializeProcessing`: an unmanaged environment provisions nothing and signals
     * initialization; a managed dead-letter consumer only waits for its dead-letter subscription and
     * never signals; a managed primary consumer provisions its four resources, grants the roles,
     * and then signals. The subscription-initialization setting is never read.
     */
    method InitializeProcessing(b: Broker, projectNumber: string, get: nat -> Environment.GetResult)
      returns (r: Outcome<Error>, after: Broker)
      requires Valid()
      modifies this, environment
      ensures subscriberClient == old(subscriberClient) && clientStops == old(clientStops) && stopped == old(stopped)
      ensures environment.hasCallback == old(environment.hasCallback)
      ensures PullFree(b, after)
      ensures environment.unmanaged ==>
                && r == Pass && after == b && stopRequested == old(stopRequested)
                && environment.callbacksStarted == old(environment.callbacksStarted) + (if environment.hasCallback then 1 else 0)
      ensures !environment.unmanaged && isDeadLetterConsumer ==>
                && environment.callbacksStarted == old(environment.callbacksStarted)
                && (subscriptionId.deadLetterSubscription.None? ==> r == Fail(NullReference) && after == b)
                && (subscriptionId.deadLetterSubscription.Some? ==>
                      var w := Environment.Wait(get, 1, DeadLetterWaitAttempts);
                      var name := subscriptionId.deadLetterSubscription.value.name.ToString();
                      && after == b.(calls := b.calls + Repeat(GetSubscriptionCall(name),
                                                               Environment.AttemptsMade(w, DeadLetterWaitAttempts)))
                      && (r.Pass? <==> !w.Raised?)
                      && stopRequested == (old(stopRequested) || w.StopRequested?))
      ensures !environment.unmanaged && !isDeadLetterConsumer ==>
                && stopRequested == old(stopRequested)
                && (subscriptionId.deadLetterTopic.None? ==>
                      r.Fail? && after.calls == b.calls + [CreateTopicCall(subscriptionId.topicId.topic)])
                && (subscriptionId.deadLetterTopic.Some? ==>
                      PrimaryOutcome(b, r, after, subscriptionId, !environment.useEmulator,
                                     SubscriptionIds.ServiceAccount(projectNumber)))
                && environment.callbacksStarted
                   == old(environment.callbacksStarted) + (if r.Pass? && environment.hasCallback then 1 else 0)
    {
      if environment.unmanaged {
        environment.Initialized();
        return Pass, b;
      }
      if isDeadLetterConsumer {
        if subscriptionId.deadLetterSubscription.None? {
          return Fail(NullReference), b;
        }
        var outcome, next, _ := Environment.EnsureSubscriptionExists(
          b, subscriptionId.deadLetterSubscription.value.name, DeadLetterWaitAttempts, DeadLetterWaitDelaySeconds, get);
        after := next;
        assert after.calls[|b.calls|..] == Repeat(GetSubscriptionCall(subscriptionId.deadLetterSubscription.value.name.ToString()),
                                                  Environment.AttemptsMade(outcome, DeadLetterWaitAttempts));
        match outcome {
          case Raised(_, error) =>
            r := Fail(error);
          case StopRequested =>
            stopRequested := true;
            r := Pass;
          case Proceed(_) =>
            r := Pass;
        }
        return;
      }
      r, after := InitializePrimary(b, projectNumber);
    }

    /** `StartProcessing`: pull from the dead-letter subscription when this is the dead-letter consumer. */
    method StartProcessing(b: Broker) returns (r: Outcome<Error>, after: Broker)
      modifies this
      ensures r.Pass? <==> !isDeadLetterConsumer || subscriptionId.deadLetterSubscription.Some?
      ensures r.Pass? ==>
                var name := if isDeadLetterConsumer then subscriptionId.deadLetterSubscription.value.name
                            else subscriptionId.subscription.name;
                subscriberClient == Some(name) && after == b.(calls := b.calls + [StreamingPullCall(name.ToString())])
      ensures r.Fail? ==> r == Fail(NullReference) && subscriberClient == old(subscriberClient) && after == b
      ensures clientStops == old(clientStops) && stopRequested == old(stopRequested) && stopped == old(stopped)
    {
      if isDeadLetterConsumer && subscriptionId.deadLetterSubscription.None? {
        return Fail(NullReference), b;
      }
      var name := if isDeadLetterConsumer then subscriptionId.deadLetterSubscription.value.name
                  else subscriptionId.subscription.name;
      subscriberClient := Some(name);
      after := StreamingPull(b, name.ToString());
      r := Pass;
    }

    /** `StopProcessing`: stops and drops the client when there is one, so a second stop does nothing. */
    method StopProcessing()
      modifies this
      ensures subscriberClient == None
      ensures clientStops == old(clientStops) + (if old(subscriberClient).Some? then 1 else 0)
      ensures stopRequested == old(stopRequested) && stopped == old(stopped)
    {
      if subscriberClient.Some? {
        clientStops := clientStops + 1;
        subscriberClient := None;
      }
    }

    /**
     * `ExecuteAsync`: initialize, then start; a failed initialization propagates and nothing is
     * pulled. A dead-letter wait that ran out of attempts has only asked the host to stop, so
     * pulling still starts. An unmanaged dead-letter consumer has no dead-letter subscription to
     * pull from.
     */
    method ExecuteAsync(b: Broker, projectNumber: string, get: nat -> Environment.GetResult)
      returns (r: Outcome<Error>, after: Broker)
      requires Valid()
      modifies this, environment
      ensures |b.calls| <= |after.calls| && after.calls[..|b.calls|] == b.calls
      ensures r.Fail? ==> subscriberClient == old(subscriberClient) && NoPull(after.calls[|b.calls|..])
      ensures r.Pass? ==> && subscriberClient.Some? && |after.calls| > |b.calls|
                          && after.calls[|after.calls| - 1] == StreamingPullCall(subscriberClient.value.ToString())
                          && NoPull(after.calls[|b.calls|..|after.calls| - 1])
      ensures !environment.unmanaged && !isDeadLetterConsumer && subscriptionId.deadLetterTopic.None? ==>
                r.Fail? && after.calls == b.calls + [CreateTopicCall(subscriptionId.topicId.topic)]
      ensures !environment.unmanaged && !isDeadLetterConsumer && subscriptionId.deadLetterTopic.Some? ==>
                && PrimaryOutcome(b, r, if r.Pass? then after.(calls := after.calls[..|after.calls| - 1]) else after,
                                  subscriptionId, !environment.useEmulator, SubscriptionIds.ServiceAccount(projectNumber))
                && (r.Pass? ==> && subscriberClient == Some(subscriptionId.subscription.name)
                                && after.calls[|after.calls| - 1] == StreamingPullCall(subscriptionId.subscription.name.ToString()))
      ensures !environment.unmanaged && isDeadLetterConsumer && subscriptionId.deadLetterSubscription.Some? ==>
                var w := Environment.Wait(get, 1, DeadLetterWaitAttempts);
                var name := subscriptionId.deadLetterSubscription.value.name;
                && (r.Pass? <==> !w.Raised?)
                && after == b.(calls := b.calls + Repeat(GetSubscriptionCall(name.ToString()),
                                                         Environment.AttemptsMade(w, DeadLetterWaitAttempts))
                                      + (if w.Raised? then [] else [StreamingPullCall(name.ToString())]))
                && stopRequested == (old(stopRequested) || w.StopRequested?)
                && (r.Pass? ==> subscriberClient == Some(name))
      ensures (!isDeadLetterConsumer || subscriptionId.deadLetterSubscription.Some?) && environment.unmanaged ==>
                r.Pass? && after == b.(calls := b.calls + [StreamingPullCall(subscriberClient.value.ToString())])
      ensures isDeadLetterConsumer && subscriptionId.deadLetterSubscription.None? ==>
                r == Fail(NullReference) && after == b && subscriberClient == old(subscriberClient)
    {
      r, after := InitializeProcessing(b, projectNumber, get);
      if r.Fail? {
        return;
      }
      var initialized := after;
      r, after := StartProcessing(initialized);
      if r.Pass? {
        PullAppended(b, initialized, subscriberClient.value.ToString());
        if !environment.unmanaged && !isDeadLetterConsumer && subscriptionId.deadLetterTopic.Some? {
          PrimaryOutcomeBeforePull(b, initialized, after, subscriptionId, !environment.useEmulator,
                                   SubscriptionIds.ServiceAccount(projectNumber), subscriptionId.subscription.name.ToString());
        }
      }
    }

    /** `StopAsync`: stop processing, then stop the host service. */
    method StopAsync()
      modifies this
      ensures subscriberClient == None && stopped
      ensures clientStops == old(clientStops) + (if old(subscriberClient).Some? then 1 else 0)
    {
      StopProcessing();
      stopped := true;
    }
  }
}
