/**
 * The newer tree's `EnvironmentId`: one broker account seen from a consumer or the bus. It
 * publishes, creates topics and subscriptions (an existing one is as good as a new one), grants the
 * service agent its roles, waits for a subscription another process creates, and deletes resources.
 */
module Environment {
  import opened Wrappers
  import opened Errors
  import opened Resources
  import opened Brokers
  import Iam
  import SubscriptionIds

  class EnvironmentId {
    const useEmulator: bool
    const unmanaged: bool
    const verbosityMode: bool
    /** Whether an `OnInitialized` callback is set. */
    var hasCallback: bool
    /** How many times the callback was started. */
    var callbacksStarted: nat

    constructor (useEmulator: bool, unmanaged: bool, verbosityMode: bool)
      ensures this.useEmulator == useEmulator && this.unmanaged == unmanaged
      ensures this.verbosityMode == verbosityMode
      ensures !hasCallback && callbacksStarted == 0
    {
      this.useEmulator := useEmulator;
      this.unmanaged := unmanaged;
      this.verbosityMode := verbosityMode;
      hasCallback := false;
      callbacksStarted := 0;
    }

    /** Setting `OnInitialized`. */
    method SetOnInitialized()
      modifies this
      ensures hasCallback && callbacksStarted == old(callbacksStarted)
    {
      hasCallback := true;
    }

    /** `Initialized`: starts the callback when one is set, and does nothing otherwise. */
    method Initialized()
      modifies this
      ensures hasCallback == old(hasCallback)
      ensures callbacksStarted == old(callbacksStarted) + (if hasCallback then 1 else 0)
    {
      if hasCallback {
        callbacksStarted := callbacksStarted + 1;
      }
    }
  }

  /**
   * `Publish`: one publish call carrying the messages as given; a missing topic's NotFound is
   * logged and raised again, as is every other failure.
   */
  method Publish(b: Broker, topicName: TopicName, messages: seq<Bytes>)
    returns (r: Result<seq<MessageId>, Error>, after: Broker)
    ensures after.calls == b.calls + [PublishCall(topicName.ToString(), messages)]
    ensures after.SameResources(b)
    ensures r.Success? <==> topicName.ToString() in b.topics && topicName.ToString() !in b.faulty
    ensures r.Success? ==> |r.value| == |messages| && after.nextId == b.nextId + |messages|
                           && forall i :: 0 <= i < |messages| ==> b.nextId <= r.value[i] < after.nextId
    ensures r.Success? ==> forall i, j :: 0 <= i < j < |messages| ==> r.value[i] < r.value[j]
    ensures topicName.ToString() !in b.topics && topicName.ToString() !in b.faulty ==> r == Failure(Rpc(NotFound))
    ensures topicName.ToString() in b.faulty ==> r == Failure(Rpc(OtherStatus))
    ensures r.Failure? ==> r.error.Rpc? && after.nextId == b.nextId
  {
    var (answer, next) := Brokers.Publish(b, topicName.ToString(), messages);
    after := next;
    match answer
    case Success(ids) =>
      r := Success(ids);
    case Failure(status) =>
      r := Failure(Rpc(status));
  }

  /** `CreateTopic`: one create call; AlreadyExists is swallowed, every other failure raised. */
  method CreateTopic(b: Broker, topic: Topic) returns (r: Outcome<Error>, after: Broker)
    ensures after.calls == b.calls + [CreateTopicCall(topic)]
    ensures r.Pass? <==> topic.name.ToString() !in b.faulty
    ensures r.Pass? ==> after.topics == b.topics + {topic.name.ToString()}
    ensures r.Fail? ==> r == Fail(Rpc(OtherStatus)) && after.topics == b.topics
    ensures after.subscriptions == b.subscriptions && after.policies == b.policies
    ensures after.faulty == b.faulty && after.iamDenied == b.iamDenied && after.nextId == b.nextId
  {
    var (answer, next) := Brokers.CreateTopic(b, topic);
    after := next;
    if answer.Fail? && answer.error != AlreadyExists {
      r := Fail(Rpc(answer.error));
    } else {
      r := Pass;
    }
  }

  /**
   * `CreateSubscription`: one create call; AlreadyExists is swallowed, every other failure
   * (a missing topic among them) raised.
   */
  method CreateSubscription(b: Broker, subscription: Subscription) returns (r: Outcome<Error>, after: Broker)
    ensures after.calls == b.calls + [CreateSubscriptionCall(subscription)]
    ensures var name := subscription.name.ToString();
            r.Pass? <==> name !in b.faulty && (name in b.subscriptions || subscription.topic.ToString() in b.topics)
    ensures r.Pass? ==> after.subscriptions == b.subscriptions + {subscription.name.ToString()}
    ensures r.Fail? ==> r.error.Rpc? && r.error.status != AlreadyExists && after.subscriptions == b.subscriptions
    ensures after.topics == b.topics && after.policies == b.policies
    ensures after.faulty == b.faulty && after.iamDenied == b.iamDenied && after.nextId == b.nextId
  {
    var (answer, next) := Brokers.CreateSubscription(b, subscription);
    after := next;
    if answer.Fail? && answer.error != AlreadyExists {
      r := Fail(Rpc(answer.error));
    } else {
      r := Pass;
    }
  }

  /** The policies once `member` holds `role` on `resource`: unchanged when the policy already grants it. */
  function GrantedPolicies(b: Broker, resource: string, role: string, member: string): map<string, seq<Iam.Binding>> {
    if Iam.Grants(b.PolicyOf(resource), role, member) then b.policies
    else b.policies[resource := Iam.WithRole(b.PolicyOf(resource), role, member)]
  }

  /**
   * The calls one grant makes on `b`: a read of the policy, then a write of the extended policy
   * when the read succeeds and the role is not yet granted.
   */
  function GrantCalls(b: Broker, resource: string, role: string, member: string): seq<Call> {
    [GetPolicyCall(resource)]
    + if b.PolicyAccessible(resource) && !Iam.Grants(b.PolicyOf(resource), role, member)
      then [SetPolicyCall(resource, Iam.WithRole(b.PolicyOf(resource), role, member))]
      else []
  }

  /**
   * The broker one grant leaves on `b`: its calls logged and, when the policy could be read and
   * written, the role granted; everything else as on `b`.
   */
  function GrantedBroker(b: Broker, resource: string, role: string, member: string): Broker {
    b.(calls := b.calls + GrantCalls(b, resource, role, member),
       policies := if b.PolicyAccessible(resource) then GrantedPolicies(b, resource, role, member) else b.policies)
  }

  /**
   * The broker the two role grants leave on `b`: the publisher role on `deadLetter`, then, only if
   * that grant passed, the subscriber role on `subscription`.
   */
  function RoleBindingsGranted(b: Broker, deadLetter: string, subscription: string, member: string): Broker {
    var published := GrantedBroker(b, deadLetter, Iam.PublisherRole, member);
    if b.PolicyAccessible(deadLetter) then GrantedBroker(published, subscription, Iam.SubscriberRole, member)
    else published
  }

  /**
   * Granting `role` on `resource` to `member`: read the policy, `AppendRole` on it, and write it
   * back only when that added the member. Afterwards the member holds the role and every earlier
   * grant is kept; a policy that already grants the role is never written.
   */
  method GrantRole(b: Broker, resource: string, role: string, member: string)
    returns (r: Outcome<Error>, after: Broker)
    ensures r.Pass? <==> b.PolicyAccessible(resource)
    ensures r.Fail? ==> r.error.Rpc? && after.policies == b.policies
    ensures r.Pass? ==> Iam.Grants(after.PolicyOf(resource), role, member)
    ensures r.Pass? ==> after.policies == GrantedPolicies(b, resource, role, member)
    ensures after.calls == b.calls + GrantCalls(b, resource, role, member)
    ensures PullFree(b, after)
    ensures after.topics == b.topics && after.subscriptions == b.subscriptions
    ensures after.faulty == b.faulty && after.iamDenied == b.iamDenied && after.nextId == b.nextId
    ensures after == GrantedBroker(b, resource, role, member)
  {
    var (got, next) := GetPolicy(b, resource);
    after := next;
    if got.Failure? {
      r := Fail(Rpc(got.error));
      return;
    }
    var policy := new Iam.Policy(got.value);
    var added := policy.AppendRole(role, member);
    Iam.AppendRoleGrants(got.value, role, member);
    r := Pass;
    if added {
      var (written, last) := SetPolicy(after, resource, policy.bindings);
      after := last;
      match written
      case Fail(status) =>
        r := Fail(Rpc(status));
      case Pass =>
    } else {
      Iam.AppendRoleChangesIffAbsent(got.value, role, member);
    }
    assert after.calls[|b.calls|..] == GrantCalls(b, resource, role, member);
  }

  /**
   * `AddRoleBindings`: nothing under the emulator or for an unmanaged environment; otherwise the
   * publisher role on the dead-letter topic and then the subscriber role on the subscription, both
   * for the project's service agent, the first failure raised. A descriptor without a dead-letter
   * topic is dereferenced before any call.
   */
  method AddRoleBindings(env: EnvironmentId, b: Broker, subscriptionId: SubscriptionIds.SubscriptionId,
                         projectNumber: string)
    returns (r: Outcome<Error>, after: Broker)
    ensures env.useEmulator || env.unmanaged ==> r == Pass && after == b
    ensures !env.useEmulator && !env.unmanaged && subscriptionId.deadLetterTopic.None? ==>
              r == Fail(NullReference) && after == b
    ensures !env.useEmulator && !env.unmanaged && subscriptionId.deadLetterTopic.Some? ==>
              |after.calls| > |b.calls| && after.calls[|b.calls|]
                                            == GetPolicyCall(subscriptionId.deadLetterTopic.value.name.ToString())
    ensures r.Pass? && !env.useEmulator && !env.unmanaged ==>
              var member := SubscriptionIds.ServiceAccount(projectNumber);
              var deadLetter := subscriptionId.deadLetterTopic.value.name.ToString();
              var subscription := subscriptionId.subscription.name.ToString();
              && Iam.Grants(after.PolicyOf(subscription), Iam.SubscriberRole, member)
              && (deadLetter != subscription ==> Iam.Grants(after.PolicyOf(deadLetter), Iam.PublisherRole, member))
    ensures !env.useEmulator && !env.unmanaged && subscriptionId.deadLetterTopic.Some? ==>
              (r.Pass? <==> b.PolicyAccessible(subscriptionId.deadLetterTopic.value.name.ToString())
                            && b.PolicyAccessible(subscriptionId.subscription.name.ToString()))
    ensures !env.useEmulator && !env.unmanaged && subscriptionId.deadLetterTopic.Some? ==>
              var member := SubscriptionIds.ServiceAccount(projectNumber);
              var deadLetter := subscriptionId.deadLetterTopic.value.name.ToString();
              var subscription := subscriptionId.subscription.name.ToString();
              var published := b.(policies := GrantedPolicies(b, deadLetter, Iam.PublisherRole, member));
              && after.calls == b.calls + GrantCalls(b, deadLetter, Iam.PublisherRole, member)
                                + (if b.PolicyAccessible(deadLetter)
                                   then GrantCalls(published, subscription, Iam.SubscriberRole, member) else [])
              && (forall k :: k != deadLetter && k != subscription ==> after.PolicyOf(k) == b.PolicyOf(k))
    ensures !env.useEmulator && !env.unmanaged && subscriptionId.deadLetterTopic.Some? ==>
              var member := SubscriptionIds.ServiceAccount(projectNumber);
              var deadLetter := subscriptionId.deadLetterTopic.value.name.ToString();
              var subscription := subscriptionId.subscription.name.ToString();
              && after == RoleBindingsGranted(b, deadLetter, subscription, member)
              && (r.Fail? && !b.PolicyAccessible(deadLetter) ==> after.policies == b.policies)
              && (r.Fail? && b.PolicyAccessible(deadLetter) ==>
                    after.policies == GrantedPolicies(b, deadLetter, Iam.PublisherRole, member))
    ensures r.Fail? && r != Fail(NullReference) ==> r.error.Rpc?
    ensures |b.calls| <= |after.calls| && after.calls[..|b.calls|] == b.calls
    ensures after.topics == b.topics && after.subscriptions == b.subscriptions && after.faulty == b.faulty && after.iamDenied == b.iamDenied
    ensures after.nextId == b.nextId
    ensures PullFree(b, after)
  {
    if env.useEmulator || env.unmanaged {
      return Pass, b;
    }
    var member := SubscriptionIds.ServiceAccount(projectNumber);
    if subscriptionId.deadLetterTopic.None? {
      return Fail(NullReference), b;
    }
    var deadLetter := subscriptionId.deadLetterTopic.value.name.ToString();
    var subscription := subscriptionId.subscription.name.ToString();
    r, after := GrantRole(b, deadLetter, Iam.PublisherRole, member);
    if r.Pass? {
      r, after := GrantRole(after, subscription, Iam.SubscriberRole, member);
    }
    RoleBindingsGrantedCalls(b, deadLetter, subscription, member);
    RoleBindingsGrantedPolicies(b, deadLetter, subscription, member);
  }

  /**
   * The log the two role grants leave: the publisher grant's calls and, only when it passed, the
   * subscriber grant's, none of them a pull.
   */
  lemma {:induction false} RoleBindingsGrantedCalls(b: Broker, deadLetter: string, subscription: string, member: string)
    ensures var after := RoleBindingsGranted(b, deadLetter, subscription, member);
            var published := b.(policies := GrantedPolicies(b, deadLetter, Iam.PublisherRole, member));
            && after.calls == b.calls + GrantCalls(b, deadLetter, Iam.PublisherRole, member)
                              + (if b.PolicyAccessible(deadLetter)
                                 then GrantCalls(published, subscription, Iam.SubscriberRole, member) else [])
            && PullFree(b, after)
  {
    var published := GrantedBroker(b, deadLetter, Iam.PublisherRole, member);
    var after := RoleBindingsGranted(b, deadLetter, subscription, member);
    var first := GrantCalls(b, deadLetter, Iam.PublisherRole, member);
    var second := GrantCalls(published, subscription, Iam.SubscriberRole, member);
    assert NoPull(first) && NoPull(second);
    if b.PolicyAccessible(deadLetter) {
      assert after.calls == b.calls + first + second;
      assert after.calls[|b.calls|..] == first + second;
    } else {
      assert after.calls[|b.calls|..] == first;
    }
  }

  /**
   * The policies the two role grants leave: no policy but the two targets changed; a refused
   * dead-letter topic policy leaves every policy as it was, a refused subscription policy only the
   * publisher grant made; with both accessible, both roles held.
   */
  lemma {:induction false} RoleBindingsGrantedPolicies(b: Broker, deadLetter: string, subscription: string, member: string)
    ensures var after := RoleBindingsGranted(b, deadLetter, subscription, member);
            && (forall k :: k != deadLetter && k != subscription ==> after.PolicyOf(k) == b.PolicyOf(k))
            && (!b.PolicyAccessible(deadLetter) ==> after.policies == b.policies)
            && (b.PolicyAccessible(deadLetter) && !b.PolicyAccessible(subscription) ==>
                  after.policies == GrantedPolicies(b, deadLetter, Iam.PublisherRole, member))
            && (b.PolicyAccessible(deadLetter) && b.PolicyAccessible(subscription) ==>
                  && Iam.Grants(after.PolicyOf(subscription), Iam.SubscriberRole, member)
                  && (deadLetter != subscription ==> Iam.Grants(after.PolicyOf(deadLetter), Iam.PublisherRole, member)))
  {
    var published := GrantedBroker(b, deadLetter, Iam.PublisherRole, member);
    if b.PolicyAccessible(deadLetter) {
      Iam.AppendRoleGrants(b.PolicyOf(deadLetter), Iam.PublisherRole, member);
      Iam.AppendRoleGrants(published.PolicyOf(subscription), Iam.SubscriberRole, member);
      assert Iam.Grants(published.PolicyOf(deadLetter), Iam.PublisherRole, member);
    }
  }

  /** What one get of the awaited subscription answered. */
  datatype GetResult =
    | Found          // the subscription
    | Missing        // a null answer
    | NotFoundError  // NotFound raised
    | OtherError     // any other failure raised

  /** A found subscription or a failure other than NotFound ends the wait. */
  predicate Decisive(g: GetResult) {
    g.Found? || g.OtherError?
  }

  datatype WaitOutcome =
    | Proceed(attempt: nat)               // found on this attempt
    | Raised(attempt: nat, error: Error)  // this attempt's failure propagates
    | StopRequested                       // every attempt missed: the host is asked to stop

  /** The outcome of waiting from `attempt` on, the answer to each attempt given by `get`. */
  function Wait(get: nat -> GetResult, attempt: nat, maxAttempts: int): (r: WaitOutcome)
    ensures r.Proceed? ==> attempt <= r.attempt <= maxAttempts && get(r.attempt) == Found
                           && forall a :: attempt <= a < r.attempt ==> !Decisive(get(a))
    ensures r.Raised? ==> attempt <= r.attempt <= maxAttempts && get(r.attempt) == OtherError
                          && r.error == Rpc(OtherStatus)
                          && forall a :: attempt <= a < r.attempt ==> !Decisive(get(a))
    ensures r.StopRequested? <==> forall a :: attempt <= a <= maxAttempts ==> !Decisive(get(a))
    decreases maxAttempts - attempt + 1
  {
    if attempt > maxAttempts then StopRequested
    else
      match get(attempt)
      case Found => Proceed(attempt)
      case OtherError => Raised(attempt, Rpc(OtherStatus))
      case _ => Wait(get, attempt + 1, maxAttempts)
  }

  /** The number of gets a wait that ended with `r` issued. */
  function AttemptsMade(r: WaitOutcome, maxAttempts: int): nat {
    match r
    case Proceed(a) => a
    case Raised(a, _) => a
    case StopRequested => if maxAttempts < 0 then 0 else maxAttempts
  }

  /** The number of delays it slept: one after every get that did not end the wait, but the last. */
  function DelaysMade(r: WaitOutcome, maxAttempts: int): nat {
    match r
    case Proceed(a) => if a == 0 then 0 else a - 1
    case Raised(a, _) => if a == 0 then 0 else a - 1
    case StopRequested => if maxAttempts < 1 then 0 else maxAttempts - 1
  }

  /**
   * `EnsureSubscriptionExists`: gets the subscription up to `maxAttempts` times, sleeping
   * `delayInSeconds` between attempts; a found subscription ends the wait, NotFound and a null
   * answer try again, any other failure propagates, and running out of attempts asks the host to stop.
   */
  method EnsureSubscriptionExists(b: Broker, name: SubscriptionName, maxAttempts: int, delayInSeconds: int,
                                  get: nat -> GetResult)
    returns (outcome: WaitOutcome, after: Broker, delays: nat)
    ensures outcome == Wait(get, 1, maxAttempts)
    ensures after == b.(calls := b.calls + Repeat(GetSubscriptionCall(name.ToString()), AttemptsMade(outcome, maxAttempts)))
    ensures delays == DelaysMade(outcome, maxAttempts)
  {
    var call := GetSubscriptionCall(name.ToString());
    after := b;
    delays := 0;
    var attempt: nat := 1;
    while attempt <= maxAttempts
      invariant 1 <= attempt <= if maxAttempts < 1 then 1 else maxAttempts + 1
      invariant Wait(get, 1, maxAttempts) == Wait(get, attempt, maxAttempts)
      invariant after == b.(calls := b.calls + Repeat(call, attempt - 1))
      invariant delays == if attempt > maxAttempts && attempt > 1 then attempt - 2 else attempt - 1
      decreases maxAttempts - attempt
    {
      after := after.Log(call);
      var answer := get(attempt);
      if answer == Found {
        return Proceed(attempt), after, delays;
      }
      if answer == OtherError {
        return Raised(attempt, Rpc(OtherStatus)), after, delays;
      }
      // NotFound is logged and retried; a null answer falls through to the same retry
      if attempt < maxAttempts {
        delays := delays + 1;
      }
      attempt := attempt + 1;
    }
    outcome := StopRequested;
  }

  /** Every attempt missed exactly when the wait asks the host to stop. */
  lemma {:induction false} StopRequestedIffAllMissed(get: nat -> GetResult, maxAttempts: int)
    ensures Wait(get, 1, maxAttempts) == StopRequested <==>
              forall a :: 1 <= a <= maxAttempts ==> get(a) == Missing || get(a) == NotFoundError
  {
    var r := Wait(get, 1, maxAttempts);
    if r == StopRequested {
      forall a | 1 <= a <= maxAttempts
        ensures get(a) == Missing || get(a) == NotFoundError
      {
        assert !Decisive(get(a));
      }
    }
  }

  /** A wait issues at most `maxAttempts` gets and sleeps once fewer than it gets. */
  lemma WaitIsBounded(get: nat -> GetResult, maxAttempts: int)
    ensures var r := Wait(get, 1, maxAttempts);
            && AttemptsMade(r, maxAttempts) <= (if maxAttempts < 0 then 0 else maxAttempts)
            && DelaysMade(r, maxAttempts) == (if AttemptsMade(r, maxAttempts) == 0 then 0 else AttemptsMade(r, maxAttempts) - 1)
  {
  }

  /**
   * `DeleteSubscriptions`: the dead-letter subscription first when there is one, then the
   * subscription; failures are swallowed, so what could be deleted is gone and the rest is kept.
   */
  method DeleteSubscriptions(b: Broker, subscriptionId: SubscriptionIds.SubscriptionId) returns (after: Broker)
    ensures var targets := (if subscriptionId.deadLetterSubscription.Some?
                            then [subscriptionId.deadLetterSubscription.value.name.ToString()] else [])
                           + [subscriptionId.subscription.name.ToString()];
            && after.calls == b.calls + (if |targets| == 2 then [DeleteSubscriptionCall(targets[0])] else [])
                                      + [DeleteSubscriptionCall(targets[|targets| - 1])]
            && after.subscriptions == b.subscriptions - (set t | t in targets && t !in b.faulty)
    ensures after.topics == b.topics && after.policies == b.policies
    ensures after.faulty == b.faulty && after.iamDenied == b.iamDenied && after.nextId == b.nextId
  {
    after := b;
    if subscriptionId.deadLetterSubscription.Some? {
      var (_, next) := DeleteSubscription(after, subscriptionId.deadLetterSubscription.value.name.ToString());
      after := next;
    }
    var (_, last) := DeleteSubscription(after, subscriptionId.subscription.name.ToString());
    after := last;
  }

  /**
   * `DeleteTopics`: the dead-letter topic first when there is one, then the topic; failures are
   * logged and swallowed.
   */
  method DeleteTopics(b: Broker, subscriptionId: SubscriptionIds.SubscriptionId) returns (after: Broker)
    ensures var targets := (if subscriptionId.deadLetterTopic.Some?
                            then [subscriptionId.deadLetterTopic.value.name.ToString()] else [])
                           + [subscriptionId.topicId.topicName.ToString()];
            && after.calls == b.calls + (if |targets| == 2 then [DeleteTopicCall(targets[0])] else [])
                                      + [DeleteTopicCall(targets[|targets| - 1])]
            && after.topics == b.topics - (set t | t in targets && t !in b.faulty)
    ensures after.subscriptions == b.subscriptions && after.policies == b.policies
    ensures after.faulty == b.faulty && after.iamDenied == b.iamDenied && after.nextId == b.nextId
  {
    after := b;
    if subscriptionId.deadLetterTopic.Some? {
      var (_, next) := DeleteTopic(after, subscriptionId.deadLetterTopic.value.name.ToString());
      after := next;
    }
    var (_, last) := DeleteTopic(after, subscriptionId.topicId.topicName.ToString());
    after := last;
  }
}
