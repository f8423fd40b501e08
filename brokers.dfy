/**
 * The Pub/Sub service as the core sees it: the topics and subscriptions that exist (by full name),
 * each resource's IAM policy, the resources whose calls fail with a status the core does not tell
 * apart, the resources whose IAM calls are refused (the caller may not read or write their
 * policy), and the log of every call made to it, oldest first. Each call is a function from the
 * state before it to its answer and the state after it.
 */
module Brokers {
  import opened Wrappers
  import opened Errors
  import opened Resources
  import Iam

  /** A message body. */
  type Bytes = seq<bv8>

  /** The ids the service gives published messages, in publish order. */
  type MessageId = nat

  datatype Call =
    | CreateTopicCall(topic: Topic)
    | CreateSubscriptionCall(subscription: Subscription)
    | DeleteTopicCall(resource: string)
    | DeleteSubscriptionCall(resource: string)
    | PublishCall(resource: string, messages: seq<Bytes>)
    | GetSubscriptionCall(resource: string)
    | GetPolicyCall(resource: string)
    | SetPolicyCall(resource: string, bindings: seq<Iam.Binding>)
    | StreamingPullCall(resource: string)

  datatype Broker = Broker(
    topics: set<string>,
    subscriptions: set<string>,
    policies: map<string, seq<Iam.Binding>>,
    faulty: set<string>,
    iamDenied: set<string>,
    nextId: MessageId,
    calls: seq<Call>)
  {
    predicate Exists(resource: string) {
      resource in topics || resource in subscriptions
    }

    /** A policy read and a policy write on `resource` both succeed. */
    predicate PolicyAccessible(resource: string) {
      Exists(resource) && resource !in faulty && resource !in iamDenied
    }

    /** The bindings of a resource's policy; a resource never written to has an empty policy. */
    function PolicyOf(resource: string): seq<Iam.Binding> {
      if resource in policies then policies[resource] else []
    }

    function Log(call: Call): Broker {
      this.(calls := calls + [call])
    }

    /** Everything but the call log and the id counter is the same in `other`. */
    predicate SameResources(other: Broker) {
      other.topics == topics && other.subscriptions == subscriptions && other.policies == policies
      && other.faulty == faulty && other.iamDenied == iamDenied
    }
  }

  /** None of `calls` is a streaming pull. */
  predicate NoPull(calls: seq<Call>) {
    forall k :: 0 <= k < |calls| ==> !calls[k].StreamingPullCall?
  }

  /** `after`'s log is `b`'s followed by calls none of which pulls. */
  predicate PullFree(b: Broker, after: Broker) {
    |b.calls| <= |after.calls| && after.calls[..|b.calls|] == b.calls && NoPull(after.calls[|b.calls|..])
  }

  /** A pull-free stretch followed by one pull: the log ends in that pull and holds no other. */
  lemma PullAppended(b: Broker, initialized: Broker, subscription: string)
    requires PullFree(b, initialized)
    ensures var after := StreamingPull(initialized, subscription);
            && |b.calls| < |after.calls| && after.calls[..|b.calls|] == b.calls
            && after.calls[|after.calls| - 1] == StreamingPullCall(subscription)
            && NoPull(after.calls[|b.calls|..|after.calls| - 1])
            && after.calls[..|after.calls| - 1] == initialized.calls
  {
    var after := StreamingPull(initialized, subscription);
    assert after.calls[..|after.calls| - 1] == initialized.calls;
    assert after.calls[|b.calls|..|after.calls| - 1] == initialized.calls[|b.calls|..];
  }

  /** Two pull-free stretches of a log make one. */
  lemma PullFreeTransitive(b: Broker, mid: Broker, after: Broker)
    requires PullFree(b, mid) && PullFree(mid, after)
    ensures PullFree(b, after)
  {
    assert after.calls[..|mid.calls|] == mid.calls;
    assert after.calls[..|b.calls|] == mid.calls[..|b.calls|];
    assert after.calls[|b.calls|..] == mid.calls[|b.calls|..] + after.calls[|mid.calls|..];
  }

  /** `n` copies of one call. */
  function Repeat(call: Call, n: nat): (r: seq<Call>)
    ensures |r| == n
    ensures forall i :: 0 <= i < n ==> r[i] == call
    decreases n
  {
    if n == 0 then [] else Repeat(call, n - 1) + [call]
  }

  function CreateTopic(b: Broker, topic: Topic): (Outcome<Status>, Broker) {
    var name := topic.name.ToString();
    var b := b.Log(CreateTopicCall(topic));
    if name in b.faulty then (Fail(OtherStatus), b)
    else if name in b.topics then (Fail(AlreadyExists), b)
    else (Pass, b.(topics := b.topics + {name}))
  }

  /** Creating a subscription needs its topic to exist. */
  function CreateSubscription(b: Broker, subscription: Subscription): (Outcome<Status>, Broker) {
    var name := subscription.name.ToString();
    var b := b.Log(CreateSubscriptionCall(subscription));
    if name in b.faulty then (Fail(OtherStatus), b)
    else if name in b.subscriptions then (Fail(AlreadyExists), b)
    else if subscription.topic.ToString() !in b.topics then (Fail(NotFound), b)
    else (Pass, b.(subscriptions := b.subscriptions + {name}))
  }

  function DeleteTopic(b: Broker, name: string): (Outcome<Status>, Broker) {
    var b := b.Log(DeleteTopicCall(name));
    if name in b.faulty then (Fail(OtherStatus), b)
    else if name !in b.topics then (Fail(NotFound), b)
    else (Pass, b.(topics := b.topics - {name}))
  }

  function DeleteSubscription(b: Broker, name: string): (Outcome<Status>, Broker) {
    var b := b.Log(DeleteSubscriptionCall(name));
    if name in b.faulty then (Fail(OtherStatus), b)
    else if name !in b.subscriptions then (Fail(NotFound), b)
    else (Pass, b.(subscriptions := b.subscriptions - {name}))
  }

  /** The ids `first`, `first + 1`, ... for `count` messages. */
  function IdsFrom(first: MessageId, count: nat): (r: seq<MessageId>)
    ensures |r| == count
    ensures forall i :: 0 <= i < count ==> r[i] == first + i
    decreases count
  {
    if count == 0 then [] else [first] + IdsFrom(first + 1, count - 1)
  }

  /** Publishing to a missing topic answers NotFound; otherwise every message gets the next id. */
  function Publish(b: Broker, topic: string, messages: seq<Bytes>): (Result<seq<MessageId>, Status>, Broker) {
    var b := b.Log(PublishCall(topic, messages));
    if topic in b.faulty then (Failure(OtherStatus), b)
    else if topic !in b.topics then (Failure(NotFound), b)
    else (Success(IdsFrom(b.nextId, |messages|)), b.(nextId := b.nextId + |messages|))
  }

  function GetPolicy(b: Broker, resource: string): (Result<seq<Iam.Binding>, Status>, Broker) {
    var b := b.Log(GetPolicyCall(resource));
    if resource in b.faulty || resource in b.iamDenied then (Failure(OtherStatus), b)
    else if !b.Exists(resource) then (Failure(NotFound), b)
    else (Success(b.PolicyOf(resource)), b)
  }

  function SetPolicy(b: Broker, resource: string, bindings: seq<Iam.Binding>): (Outcome<Status>, Broker) {
    var b := b.Log(SetPolicyCall(resource, bindings));
    if resource in b.faulty || resource in b.iamDenied then (Fail(OtherStatus), b)
    else if !b.Exists(resource) then (Fail(NotFound), b)
    else (Pass, b.(policies := b.policies[resource := bindings]))
  }

  function StreamingPull(b: Broker, subscription: string): Broker {
    b.Log(StreamingPullCall(subscription))
  }
}
