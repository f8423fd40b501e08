/** The newer tree's topic descriptor: a topic's name and the topic to create. */
module TopicIds {
  import opened Wrappers
  import opened Errors
  import opened Guard
  import opened Resources
  import Publishing

  datatype TopicId = TopicId(topicName: TopicName, topic: Topic) {
    /** The short topic id. */
    function ToString(): string {
      topicName.topicId
    }
  }

  /** The short id of a managed topic: the topic itself, behind `prefix.` when a prefix is set. */
  function ManagedTopicId(prefix: Option<string>, topic: string): string {
    if IsNullOrWhiteSpace(prefix) then topic else prefix.value + "." + topic
  }

  /**
   * The managed constructor: a blank project or topic, a missing section or a topic the section
   * rejects raises; otherwise the topic is named by `ManagedTopicId` and keeps the section's retention.
   */
  function NewManaged(projectId: Option<string>, topic: Option<string>,
                      config: Option<Publishing.PublishingConfiguration>): (r: Result<TopicId, Error>)
    ensures r.Success? <==> !IsNullOrWhiteSpace(projectId) && !IsNullOrWhiteSpace(topic)
                            && config.Some? && Publishing.Validate(config.value, topic).Pass?
    ensures IsNullOrWhiteSpace(projectId) ==> r == Failure(ArgumentError(BlankValueMessage, Some("projectId")))
    ensures !IsNullOrWhiteSpace(projectId) && IsNullOrWhiteSpace(topic) ==>
              r == Failure(ArgumentError(BlankValueMessage, Some("topic")))
    ensures !IsNullOrWhiteSpace(projectId) && !IsNullOrWhiteSpace(topic) && config.None? ==>
              r == Failure(ArgumentNullError("PublishingConfiguration"))
    ensures !IsNullOrWhiteSpace(projectId) && !IsNullOrWhiteSpace(topic) && config.Some?
            && Publishing.Validate(config.value, topic).Fail? ==>
              r == Failure(Publishing.Validate(config.value, topic).error)
    ensures r.Success? ==>
              && r.value.topicName == TopicName(projectId.value, ManagedTopicId(config.value.prefix, topic.value))
              && r.value.topic == Topic(r.value.topicName, Some(config.value.messageRetentionDurationDays))
  {
    if ThrowIfNullOrWhiteSpace(projectId, "projectId").Fail? then
      Failure(ThrowIfNullOrWhiteSpace(projectId, "projectId").error)
    else if ThrowIfNullOrWhiteSpace(topic, "topic").Fail? then
      Failure(ThrowIfNullOrWhiteSpace(topic, "topic").error)
    else if config.None? then
      Failure(ArgumentNullError("PublishingConfiguration"))
    else if Publishing.Validate(config.value, topic).Fail? then
      Failure(Publishing.Validate(config.value, topic).error)
    else
      var name := TopicName(projectId.value, ManagedTopicId(config.value.prefix, topic.value));
      Success(TopicId(name, Topic(name, Some(config.value.messageRetentionDurationDays))))
  }

  /** The unmanaged constructor: the topic's own name, verbatim, and no retention. */
  function NewUnmanaged(projectId: Option<string>, topic: Option<string>): (r: Result<TopicId, Error>)
    ensures r.Success? <==> !IsNullOrWhiteSpace(projectId) && !IsNullOrWhiteSpace(topic)
    ensures IsNullOrWhiteSpace(projectId) ==> r == Failure(ArgumentError(BlankValueMessage, Some("projectId")))
    ensures !IsNullOrWhiteSpace(projectId) && IsNullOrWhiteSpace(topic) ==>
              r == Failure(ArgumentError(BlankValueMessage, Some("topic")))
    ensures r.Success? ==> r.value == TopicId(TopicName(projectId.value, topic.value), Topic(TopicName(projectId.value, topic.value), None))
  {
    if ThrowIfNullOrWhiteSpace(projectId, "projectId").Fail? then
      Failure(ThrowIfNullOrWhiteSpace(projectId, "projectId").error)
    else if ThrowIfNullOrWhiteSpace(topic, "topic").Fail? then
      Failure(ThrowIfNullOrWhiteSpace(topic, "topic").error)
    else
      var name := TopicName(projectId.value, topic.value);
      Success(TopicId(name, Topic(name, None)))
  }

  /**
   * Under one prefix, distinct logical topics get distinct broker topics: the managed name keeps the
   * logical topic as its suffix, so two topics configured side by side never collide.
   */
  lemma {:induction false} ManagedTopicIdInjective(prefix: Option<string>, a: string, b: string)
    requires ManagedTopicId(prefix, a) == ManagedTopicId(prefix, b)
    ensures a == b
  {
    if !IsNullOrWhiteSpace(prefix) {
      var head := prefix.value + ".";
      assert ManagedTopicId(prefix, a) == head + a;
      assert ManagedTopicId(prefix, b) == head + b;
      assert a == (head + a)[|head|..];
      assert b == (head + b)[|head|..];
    }
  }

  /** The unmanaged example of the descriptor's own tests. */
  lemma UnmanagedExample()
    ensures var r := NewUnmanaged(Some("my-project"), Some("my-topic"));
            r.Success? && r.value.ToString() == "my-topic" && r.value.topic.retentionDays == None
            && r.value.topic.name.ToString() == "projects/my-project/topics/my-topic"
  {
    assert "my-project"[0] !in WhiteSpace;
    assert "my-topic"[0] !in WhiteSpace;
    assert TopicName("my-project", "my-topic").ToString() == "projects/my-project/topics/my-topic";
  }

  /** The managed example of the descriptor's own tests, with a prefix. */
  lemma ManagedExample()
    ensures var c := Publishing.PublishingConfiguration(Some("prefix"), 10, ["my-topic"]);
            var r := NewManaged(Some("my-project"), Some("my-topic"), Some(c));
            r.Success? && r.value.ToString() == "prefix.my-topic"
            && r.value.topic.name.ToString() == "projects/my-project/topics/prefix.my-topic"
            && r.value.topic.retentionDays == Some(10)
  {
    var c := Publishing.PublishingConfiguration(Some("prefix"), 10, ["my-topic"]);
    assert !IsNullOrWhiteSpace(Some("my-project")) by { assert "my-project"[0] !in WhiteSpace; }
    assert !IsNullOrWhiteSpace(Some("my-topic")) by { assert "my-topic"[0] !in WhiteSpace; }
    assert !IsNullOrWhiteSpace(Some("prefix")) by { assert "prefix"[0] !in WhiteSpace; }
    assert Publishing.Validate(c, Some("my-topic")).Pass? by { assert "my-topic" in c.topics; }
    assert ManagedTopicId(Some("prefix"), "my-topic") == "prefix.my-topic";
    PrefixedExampleFullName();
  }

  /** The full name of the prefixed example topic, spelled out. */
  lemma PrefixedExampleFullName()
    ensures TopicName("my-project", "prefix.my-topic").ToString() == "projects/my-project/topics/prefix.my-topic"
  {
  }

  /** The managed example of the descriptor's own tests, without a prefix. */
  lemma ManagedExampleWithoutPrefix()
    ensures var c := Publishing.PublishingConfiguration(None, 10, ["my-topic"]);
            var r := NewManaged(Some("my-project"), Some("my-topic"), Some(c));
            r.Success? && r.value.ToString() == "my-topic" && r.value.topic.retentionDays == Some(10)
            && r.value.topic.name.ToString() == "projects/my-project/topics/my-topic"
  {
    var c := Publishing.PublishingConfiguration(None, 10, ["my-topic"]);
    assert !IsNullOrWhiteSpace(Some("my-project")) by { assert "my-project"[0] !in WhiteSpace; }
    assert !IsNullOrWhiteSpace(Some("my-topic")) by { assert "my-topic"[0] !in WhiteSpace; }
    assert Publishing.Validate(c, Some("my-topic")).Pass? by { assert "my-topic" in c.topics; }
    BareExampleFullName();
  }

  /** The full name of the example topic without a prefix, spelled out. */
  lemma BareExampleFullName()
    ensures TopicName("my-project", "my-topic").ToString() == "projects/my-project/topics/my-topic"
  {
  }
}
