/**
 * The older tree's `PubSubMessageBus`: one publisher per configured topic, built once from the
 * publishing section, and a `Send` of one message that creates a missing topic when topics are
 * initialized and otherwise answers no id at all.
 */
module LegacyBuses {
  import opened Wrappers
  import opened Errors
  import opened Resources
  import opened Brokers
  import Environment
  import LegacyConfiguration
  import TopicIds

  /** The topic each configured topic's publisher writes to: its managed name. */
  function PublisherName(c: LegacyConfiguration.PubSubConfiguration, topic: string): (r: TopicName)
    requires c.publishing.Some? && topic in c.publishing.value.topics
    ensures c.GetTopicId(Some(topic)).Success? && r == c.GetTopicId(Some(topic)).value.TopicName()
    ensures r == c.GetTopicId(Some(topic)).value.GetTopic().name
  {
    c.GetTopicId(Some(topic)).value.TopicName()
  }

  /**
   * A bus as its constructor leaves it: a publishing section, and a publisher for exactly the
   * configured topics, each on its managed name, which the name constructor accepted.
   */
  datatype PubSubMessageBus = PubSubMessageBus(configuration: LegacyConfiguration.PubSubConfiguration,
                                               publishers: map<string, TopicName>)
  {
    predicate Valid() {
      && configuration.publishing.Some?
      && publishers.Keys == set t | t in configuration.publishing.value.topics
      && forall t :: t in publishers ==> t in configuration.publishing.value.topics
                                           && publishers[t] == PublisherName(configuration, t)
                                           && publishers[t].projectId != "" && publishers[t].topicId != ""
    }
  }

  /**
   * The client library's `TopicName` constructor, which every publisher's name goes through: a
   * missing project raises ArgumentNullException and an empty project or topic id raises
   * ArgumentException, the project being checked first. Blank but non-empty ids pass.
   */
  function NewTopicName(projectId: Option<string>, topicId: string): (r: Result<TopicName, Error>)
    ensures r.Success? <==> projectId.Some? && projectId.value != "" && topicId != ""
    ensures projectId.None? ==> r == Failure(ArgumentNullError("projectId"))
    ensures projectId == Some("") ==> r == Failure(EmptyResourceId("projectId"))
    ensures projectId.Some? && projectId.value != "" && topicId == "" ==> r == Failure(EmptyResourceId("topicId"))
    ensures r.Success? ==> r.value == TopicName(projectId.value, topicId)
  {
    if projectId.None? then Failure(ArgumentNullError("projectId"))
    else if projectId.value == "" then Failure(EmptyResourceId("projectId"))
    else if topicId == "" then Failure(EmptyResourceId("topicId"))
    else Success(TopicName(projectId.value, topicId))
  }

  /** A configured topic whose managed name is empty: the empty topic under a blank prefix. */
  predicate HasEmptyManagedName(publishing: LegacyConfiguration.P.PublishingConfiguration) {
    exists t :: t in publishing.topics && TopicIds.ManagedTopicId(publishing.prefix, t) == ""
  }

  /**
   * `BuildPublishers`: one publisher per configured topic, in list order. A missing publishing
   * section is dereferenced; otherwise the first topic's name rejects a missing or empty project,
   * and a configured topic whose managed name is empty is rejected when its turn comes.
   */
  method BuildPublishers(configuration: LegacyConfiguration.PubSubConfiguration)
    returns (r: Result<PubSubMessageBus, Error>)
    ensures configuration.publishing.None? ==> r == Failure(NullReference)
    ensures configuration.publishing.Some? ==>
              var publishing := configuration.publishing.value;
              var projectId := configuration.projectId;
              && (r.Success? <==> |publishing.topics| == 0
                                  || (projectId.Some? && projectId.value != "" && !HasEmptyManagedName(publishing)))
              && (|publishing.topics| > 0 && projectId.None? ==> r == Failure(ArgumentNullError("projectId")))
              && (|publishing.topics| > 0 && projectId == Some("") ==> r == Failure(EmptyResourceId("projectId")))
              && (projectId.Some? && projectId.value != "" && HasEmptyManagedName(publishing) ==>
                    r == Failure(EmptyResourceId("topicId")))
    ensures r.Success? ==> r.value.configuration == configuration && r.value.Valid()
  {
    if configuration.publishing.None? {
      return Failure(NullReference);
    }
    var publishing := configuration.publishing.value;
    var topics := publishing.topics;
    var publishers: map<string, TopicName> := map[];
    var i := 0;
    while i < |topics|
      invariant 0 <= i <= |topics|
      invariant i > 0 ==> configuration.projectId.Some? && configuration.projectId.value != ""
      invariant forall j :: 0 <= j < i ==> TopicIds.ManagedTopicId(publishing.prefix, topics[j]) != ""
      invariant publishers.Keys == set j | 0 <= j < i :: topics[j]
      invariant forall t :: t in publishers ==> t in topics && publishers[t] == PublisherName(configuration, t)
    {
      var topicId := configuration.GetTopicId(Some(topics[i]));
      match topicId
      case Failure(_) =>
        assert false;
      case Success(id) =>
        var name := NewTopicName(configuration.projectId, TopicIds.ManagedTopicId(publishing.prefix, topics[i]));
        match name
        case Failure(error) =>
          if configuration.projectId.Some? && configuration.projectId.value != "" {
            EmptyManagedNameFound(configuration, i);
          }
          return Failure(error);
        case Success(topicName) =>
          publishers := publishers[topics[i] := topicName];
      i := i + 1;
    }
    assert (set j | 0 <= j < |topics| :: topics[j]) == set t | t in topics;
    r := Success(PubSubMessageBus(configuration, publishers));
  }

  /** A topic whose managed name is empty is one of the configured topics at a known index. */
  lemma EmptyManagedNameFound(configuration: LegacyConfiguration.PubSubConfiguration, i: nat)
    requires configuration.publishing.Some? && i < |configuration.publishing.value.topics|
    requires var p := configuration.publishing.value; TopicIds.ManagedTopicId(p.prefix, p.topics[i]) == ""
    ensures HasEmptyManagedName(configuration.publishing.value)
  {
    var p := configuration.publishing.value;
    assert p.topics[i] in p.topics;
  }

  /** `CreateTopic`: creates the topic's managed descriptor, AlreadyExists swallowed. */
  method CreateTopic(b: Broker, configuration: LegacyConfiguration.PubSubConfiguration, topic: string)
    returns (r: Outcome<Error>, after: Broker)
    ensures configuration.GetTopicId(Some(topic)).Failure? ==>
              r == Fail(configuration.GetTopicId(Some(topic)).error) && after == b
    ensures configuration.GetTopicId(Some(topic)).Success? ==>
              var created := configuration.GetTopicId(Some(topic)).value.GetTopic();
              && after.calls == b.calls + [CreateTopicCall(created)]
              && (r.Pass? <==> created.name.ToString() !in b.faulty)
              && (r.Pass? ==> after.topics == b.topics + {created.name.ToString()})
              && (r.Fail? ==> r == Fail(Rpc(OtherStatus)) && after.topics == b.topics)
    ensures after.subscriptions == b.subscriptions && after.policies == b.policies
    ensures after.faulty == b.faulty && after.iamDenied == b.iamDenied && after.nextId == b.nextId
  {
    var topicId := configuration.GetTopicId(Some(topic));
    match topicId
    case Failure(error) =>
      return Fail(error), b;
    case Success(id) =>
      r, after := Environment.CreateTopic(b, id.GetTopic());
  }

  const PublisherNotFoundPrefix := "Publisher not found for topic '"

  /**
   * `Send`: publishes one message through the topic's publisher. A topic without a publisher
   * raises InvalidOperation. On NotFound the topic is created and the message published once more
   * when topics are initialized; otherwise the NotFound is only logged and no id is answered.
   */
  method Send(b: Broker, bus: PubSubMessageBus, topic: string, message: Bytes)
    returns (r: Result<Option<MessageId>, Error>, after: Broker)
    requires bus.Valid()
    ensures topic !in bus.publishers ==>
              r == Failure(InvalidOperation(PublisherNotFoundPrefix + topic + "'")) && after == b
    ensures topic in bus.publishers ==>
              var name := bus.publishers[topic].ToString();
              && (name in b.topics && name !in b.faulty ==>
                    r == Success(Some(b.nextId)) && after.calls == b.calls + [PublishCall(name, [message])])
              && (name in b.faulty ==>
                    r == Failure(Rpc(OtherStatus)) && after.calls == b.calls + [PublishCall(name, [message])])
              && (name !in b.topics && name !in b.faulty && !bus.configuration.ShouldInitializeTopics() ==>
                    r == Success(None) && after.calls == b.calls + [PublishCall(name, [message])])
              && (name !in b.topics && name !in b.faulty && bus.configuration.ShouldInitializeTopics() ==>
                    var created := bus.configuration.GetTopicId(Some(topic)).value.GetTopic();
                    && r == Success(Some(b.nextId))
                    && after.calls == b.calls + [PublishCall(name, [message]), CreateTopicCall(created),
                                                 PublishCall(name, [message])])
    ensures r.Success? && r.value.Some? ==> after.nextId == b.nextId + 1
    ensures r.Failure? || r.value.None? ==> after.nextId == b.nextId
    ensures after.topics == b.topics + (if && topic in bus.publishers && bus.publishers[topic].ToString() !in b.topics
                                          && bus.publishers[topic].ToString() !in b.faulty
                                          && bus.configuration.ShouldInitializeTopics()
                                       then {bus.publishers[topic].ToString()} else {})
    ensures after.subscriptions == b.subscriptions && after.policies == b.policies && after.faulty == b.faulty
    ensures after.iamDenied == b.iamDenied
  {
    if topic !in bus.publishers {
      return Failure(InvalidOperation(PublisherNotFoundPrefix + topic + "'")), b;
    }
    var publisher := bus.publishers[topic];
    var ids;
    ids, after := Environment.Publish(b, publisher, [message]);
    match ids {
      case Success(values) =>
        return Success(Some(values[0])), after;
      case Failure(error) =>
        if error != Rpc(NotFound) {
          return Failure(error), after;
        }
    }
    if !bus.configuration.ShouldInitializeTopics() {
      return Success(None), after;
    }
    var created;
    created, after := CreateTopic(after, bus.configuration, topic);
    match created {
      case Fail(error) =>
        return Failure(error), after;
      case Pass =>
    }
    ids, after := Environment.Publish(after, publisher, [message]);
    match ids {
      case Success(values) =>
        r := Success(Some(values[0]));
      case Failure(error) =>
        r := Failure(error);
    }
  }
}
