/**
 * Publishing: the base `MessageBus` serializes a batch and hands it to the newer tree's
 * `PubSubMessageBus.Send`, which publishes through the topic's cached id and, when topics are
 * initialized, creates a missing topic and publishes once more.
 */
module Buses {
  import opened Wrappers
  import opened Errors
  import opened Guard
  import opened Resources
  import opened Brokers
  import Environment
  import TopicIds
  import Registry

  /**
   * The serialized batch: one payload per message, in the messages' order, or the first
   * serialization failure, after which no later message is serialized.
   */
  function Payloads<T>(messages: seq<T>, serialize: T -> Result<Bytes, Error>): (r: Result<seq<Bytes>, Error>)
    ensures r.Success? <==> forall i :: 0 <= i < |messages| ==> serialize(messages[i]).Success?
    ensures r.Success? ==> && |r.value| == |messages|
                           && forall i :: 0 <= i < |messages| ==> r.value[i] == serialize(messages[i]).value
    ensures r.Failure? ==> exists i :: && 0 <= i < |messages| && serialize(messages[i]) == Failure(r.error)
                                       && forall j :: 0 <= j < i ==> serialize(messages[j]).Success?
  {
    if messages == [] then Success([])
    else match serialize(messages[0])
      case Failure(error) => Failure(error)
      case Success(first) =>
        var rest := Payloads(messages[1..], serialize);
        if rest.Failure? then
          assert forall j :: 1 <= j < |messages| ==> messages[j] == messages[1..][j - 1];
          var k :| && 0 <= k < |messages[1..]| && serialize(messages[1..][k]) == Failure(rest.error)
                   && forall j :: 0 <= j < k ==> serialize(messages[1..][j]).Success?;
          assert serialize(messages[k + 1]) == Failure(rest.error);
          Failure(rest.error)
        else Success([first] + rest.value)
  }

  /**
   * What sending `payloads` to `topicId` does to the broker `b`, ending in `r` and `after`: the
   * batch is published; on NotFound, the topic is created and the batch published again when
   * topics are initialized, and the NotFound raised otherwise. A failed create, like every other
   * failure, propagates. Ids are fresh and increasing, and nothing but the call log, the id
   * counter and, when the create ran and passed, the created topic changes.
   */
  predicate Sent(b: Broker, topicId: TopicIds.TopicId, payloads: seq<Bytes>, initializeTopics: bool,
                 r: Result<seq<MessageId>, Error>, after: Broker)
  {
    var name := topicId.topicName.ToString();
    var created := topicId.topic.name.ToString();
    && (name in b.topics && name !in b.faulty ==>
          r.Success? && after.calls == b.calls + [PublishCall(name, payloads)])
    && (name in b.faulty ==> r == Failure(Rpc(OtherStatus)) && after.calls == b.calls + [PublishCall(name, payloads)])
    && (name !in b.topics && name !in b.faulty && !initializeTopics ==>
          r == Failure(Rpc(NotFound)) && after.calls == b.calls + [PublishCall(name, payloads)])
    && (name !in b.topics && name !in b.faulty && initializeTopics ==>
          && (r.Success? <==> created !in b.faulty && created == name)
          && after.calls == b.calls + [PublishCall(name, payloads), CreateTopicCall(topicId.topic)]
                            + (if created !in b.faulty then [PublishCall(name, payloads)] else []))
    && (r.Success? ==> && |r.value| == |payloads| && after.nextId == b.nextId + |payloads|
                       && (forall i :: 0 <= i < |payloads| ==> b.nextId <= r.value[i] < after.nextId)
                       && (forall i, j :: 0 <= i < j < |payloads| ==> r.value[i] < r.value[j]))
    && (r.Failure? ==> r.error.Rpc? && after.nextId == b.nextId)
    && after.topics == b.topics + (if name !in b.topics && name !in b.faulty && initializeTopics && created !in b.faulty
                                   then {created} else {})
    && after.subscriptions == b.subscriptions && after.policies == b.policies
    && after.faulty == b.faulty && after.iamDenied == b.iamDenied
  }

  /** The body of `Send` once the topic's id is known. */
  method SendToTopic(b: Broker, topicId: TopicIds.TopicId, payloads: seq<Bytes>, initializeTopics: bool)
    returns (r: Result<seq<MessageId>, Error>, after: Broker)
    ensures Sent(b, topicId, payloads, initializeTopics, r, after)
  {
    r, after := Environment.Publish(b, topicId.topicName, payloads);
    if r.Failure? && r.error == Rpc(NotFound) && initializeTopics {
      var created;
      created, after := Environment.CreateTopic(after, topicId.topic);
      if created.Fail? {
        return Failure(created.error), after;
      }
      r, after := Environment.Publish(after, topicId.topicName, payloads);
    }
  }

  /** The first id of a batch of one, or the batch's failure. */
  function FirstId(ids: Result<seq<MessageId>, Error>): Result<Option<MessageId>, Error> {
    match ids
    case Failure(error) => Failure(error)
    case Success(values) => Success(if |values| == 0 then None else Some(values[0]))
  }

  class PubSubMessageBus {
    const configuration: Registry.PubSubConfiguration

    constructor (configuration: Registry.PubSubConfiguration)
      ensures this.configuration == configuration
    {
      this.configuration := configuration;
    }

    /**
     * `Send`: looks up the environment and then the topic id for `topic` (no subscription), and
     * sends through that id. A topic the configuration cannot name fails before any broker call;
     * the environment lookup runs first, so even then its entry is added.
     */
    method Send(b: Broker, topic: Option<string>, payloads: seq<Bytes>)
      returns (r: Result<seq<MessageId>, Error>, after: Broker)
      modifies configuration
      ensures var resolved := old(configuration.ResolveTopicId(topic, None));
              && (resolved.Failure? ==> r == Failure(resolved.error) && after == b)
              && (resolved.Success? ==>
                    Sent(b, resolved.value, payloads, configuration.settings.ShouldInitializeTopics(), r, after))
              && configuration.topicCache ==
                   (if !IsNullOrWhiteSpace(topic) && topic.value !in old(configuration.topicCache) && resolved.Success?
                    then old(configuration.topicCache)[topic.value := resolved.value] else old(configuration.topicCache))
      ensures Registry.EnvironmentAdded(old(configuration.environmentCache), configuration.environmentCache,
                                        Registry.CacheKey(topic, None), old(configuration.UnmanagedFor(topic, None)))
      ensures configuration.subscriptionCache == old(configuration.subscriptionCache)
    {
      var _ := configuration.GetEnvironmentId(topic, None);
      var topicId := configuration.GetTopicId(topic, None);
      if topicId.Failure? {
        return Failure(topicId.error), b;
      }
      r, after := SendToTopic(b, topicId.value, payloads, configuration.settings.ShouldInitializeTopics());
    }

    /**
     * `PublishBatch`: serializes every message, in order, and sends them as one batch; a failed
     * serialization propagates before the topic is looked up.
     */
    method PublishBatch<T>(b: Broker, topic: Option<string>, messages: seq<T>, serialize: T -> Result<Bytes, Error>)
      returns (r: Result<seq<MessageId>, Error>, after: Broker)
      modifies configuration
      ensures Payloads(messages, serialize).Failure? ==>
                && r == Failure(Payloads(messages, serialize).error) && after == b
                && unchanged(configuration)
      ensures var resolved := old(configuration.ResolveTopicId(topic, None));
              var payloads := Payloads(messages, serialize);
              payloads.Success? ==>
              && (resolved.Failure? ==> r == Failure(resolved.error) && after == b)
              && (resolved.Success? ==>
                    Sent(b, resolved.value, payloads.value, configuration.settings.ShouldInitializeTopics(), r, after))
              && configuration.topicCache ==
                   (if !IsNullOrWhiteSpace(topic) && topic.value !in old(configuration.topicCache) && resolved.Success?
                    then old(configuration.topicCache)[topic.value := resolved.value] else old(configuration.topicCache))
              && Registry.EnvironmentAdded(old(configuration.environmentCache), configuration.environmentCache,
                                           Registry.CacheKey(topic, None), old(configuration.UnmanagedFor(topic, None)))
              && configuration.subscriptionCache == old(configuration.subscriptionCache)
    {
      var payloads := Payloads(messages, serialize);
      if payloads.Failure? {
        return Failure(payloads.error), b;
      }
      r, after := Send(b, topic, payloads.value);
    }

    /**
     * `Publish`: sends a batch of one and answers the first id, or none when the batch got no ids;
     * one id comes back per payload, so a successful send always answers one.
     */
    method Publish<T>(b: Broker, topic: Option<string>, message: T, serialize: T -> Result<Bytes, Error>)
      returns (r: Result<Option<MessageId>, Error>, after: Broker)
      modifies configuration
      ensures serialize(message).Failure? ==>
                r == Failure(serialize(message).error) && after == b && unchanged(configuration)
      ensures var resolved := old(configuration.ResolveTopicId(topic, None));
              serialize(message).Success? ==>
              && (resolved.Failure? ==> r == Failure(resolved.error) && after == b)
              && (resolved.Success? ==>
                    exists ids :: && Sent(b, resolved.value, [serialize(message).value],
                                          configuration.settings.ShouldInitializeTopics(), ids, after)
                                  && r == FirstId(ids))
              && configuration.topicCache ==
                   (if !IsNullOrWhiteSpace(topic) && topic.value !in old(configuration.topicCache) && resolved.Success?
                    then old(configuration.topicCache)[topic.value := resolved.value] else old(configuration.topicCache))
              && Registry.EnvironmentAdded(old(configuration.environmentCache), configuration.environmentCache,
                                           Registry.CacheKey(topic, None), old(configuration.UnmanagedFor(topic, None)))
              && configuration.subscriptionCache == old(configuration.subscriptionCache)
      ensures r.Success? ==> r.value.Some? && b.nextId <= r.value.value
    {
      var ids;
      ids, after := PublishBatch(b, topic, [message], serialize);
      if serialize(message).Success? {
        assert Payloads([message], serialize).value == [serialize(message).value];
      }
      r := FirstId(ids);
    }
  }
}
