/** The publishing section of the configuration: topic prefix, retention and the logical topics. */
module Publishing {
  import opened Wrappers
  import opened Errors
  import opened Guard

  const DefaultMessageRetentionDurationDays := 7

  /**
   * `Topics` is a list, never null here. A null list would fail `Validate`'s emptiness check as an
   * empty one does, but `HasTopic`, the older `GetTopicId` and the older publisher building would
   * dereference it and throw.
   */
  datatype PublishingConfiguration = PublishingConfiguration(
    prefix: Option<string>,
    messageRetentionDurationDays: int,
    topics: seq<string>)

  /** A section created with no settings: no prefix, the default retention and no topics. */
  const Default := PublishingConfiguration(None, DefaultMessageRetentionDurationDays, [])

  const TopicsMissingMessage := "Topics must be provided when Publishing configuration section is configured."

  const RetentionTooShortMessage :=
    "MessageRetentionDurationDays must be provided if Publishing is configured and must be greater or equal than 7 days."

  function TopicNotConfiguredMessage(topic: string): string {
    "The topic '" + topic + "' is not configured in Publishing.Topics configuration section"
  }

  /** `HasTopic`: some entry of the list equals `topic` exactly; a null topic matches no entry. */
  function HasTopic(c: PublishingConfiguration, topic: Option<string>): (r: bool)
    ensures r <==> topic.Some? && exists i :: 0 <= i < |c.topics| && c.topics[i] == topic.value
  {
    topic.Some? && topic.value in c.topics
  }

  /** Every rule `topic` and `c` break, in the order `Validate` checks them. */
  function Violations(c: PublishingConfiguration, topic: Option<string>): seq<Error> {
    (if |c.topics| == 0 then [ArgumentError(TopicsMissingMessage, None)] else [])
    + (if !IsNullOrWhiteSpace(topic) && !HasTopic(c, topic)
       then [ArgumentError(TopicNotConfiguredMessage(topic.value), None)] else [])
    + (if c.messageRetentionDurationDays < DefaultMessageRetentionDurationDays
       then [ArgumentError(RetentionTooShortMessage, None)] else [])
  }

  /**
   * `Validate(topic)`: the topics list must be non-empty, a non-blank topic must be listed, and the
   * retention must be at least seven days; the first rule broken is the one reported.
   */
  function Validate(c: PublishingConfiguration, topic: Option<string>): (r: Outcome<Error>)
    ensures r.Pass? <==> |c.topics| > 0 && (IsNullOrWhiteSpace(topic) || HasTopic(c, topic))
                         && c.messageRetentionDurationDays >= DefaultMessageRetentionDurationDays
    ensures r.Pass? <==> Violations(c, topic) == []
    ensures r.Fail? ==> r.error == Violations(c, topic)[0]
  {
    if |c.topics| == 0 then
      Fail(ArgumentError(TopicsMissingMessage, None))
    else if !IsNullOrWhiteSpace(topic) && !HasTopic(c, topic) then
      Fail(ArgumentError(TopicNotConfiguredMessage(topic.value), None))
    else if c.messageRetentionDurationDays < DefaultMessageRetentionDurationDays then
      Fail(ArgumentError(RetentionTooShortMessage, None))
    else
      Pass
  }

  /** An empty topic list is reported whatever else is wrong, and a blank topic is never looked up. */
  lemma ValidateOrder(c: PublishingConfiguration, topic: Option<string>)
    ensures |c.topics| == 0 ==> Validate(c, topic) == Fail(ArgumentError(TopicsMissingMessage, None))
    ensures IsNullOrWhiteSpace(topic) ==> Validate(c, topic) == Validate(c, None)
    ensures |c.topics| > 0 && topic.Some? && !IsNullOrWhiteSpace(topic) && topic.value !in c.topics ==>
              Validate(c, topic) == Fail(ArgumentError(TopicNotConfiguredMessage(topic.value), None))
  {
  }

  /** The cases the configuration's own tests pin down. */
  lemma ValidateExamples()
    ensures Validate(Default, None) == Fail(ArgumentError(TopicsMissingMessage, None))
    ensures Validate(PublishingConfiguration(None, 5, ["my-topic"]), None)
            == Fail(ArgumentError(RetentionTooShortMessage, None))
    ensures Validate(PublishingConfiguration(None, 5, ["another-topic"]), Some("topic-name"))
            == Fail(ArgumentError(TopicNotConfiguredMessage("topic-name"), None))
    ensures Validate(PublishingConfiguration(None, 7, ["my-topic"]), Some("my-topic")) == Pass
  {
    assert "my-topic" in ["my-topic"];
    assert !IsNullOrWhiteSpace(Some("topic-name")) by { assert "topic-name"[0] !in WhiteSpace; }
    assert "topic-name" !in ["another-topic"] by { assert "topic-name"[0] != "another-topic"[0]; }
  }
}
