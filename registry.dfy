/**
 * The newer tree's `PubSubConfiguration`: the account's settings, their validation, and the three
 * caches that hand out one environment, topic id and subscription id per key.
 */
module Registry {
  import opened Wrappers
  import opened Errors
  import opened Guard
  import opened Modes
  import P = Publishing
  import S = SubscriptionSettings
  import TopicIds
  import SubscriptionIds
  import Environment
  import LegacyConfiguration

  datatype Settings = Settings(
    alias: Option<string>,
    projectId: Option<string>,
    resourceInitialization: ResourceInitialization,
    useEmulator: bool,
    verbosityMode: bool,
    publishing: Option<P.PublishingConfiguration>,
    subscription: Option<S.SubscriptionConfiguration>)
  {
    predicate ShouldInitializeTopics() {
      resourceInitialization == All || resourceInitialization == TopicsOnly
    }

    predicate ShouldInitializeSubscriptions() {
      resourceInitialization == All || resourceInitialization == SubscriptionsOnly
    }

    /** The publishing section is present and valid for no particular topic. */
    predicate PublishingValid() {
      publishing.Some? && P.Validate(publishing.value, None).Pass?
    }

    predicate SubscriptionValid() {
      subscription.Some? && S.Validate(subscription.value).Pass?
    }

    /**
     * `Validate`: the project id, then the publishing section when topics are initialized, then the
     * subscription section when subscriptions are; a section that is not initialized is not read.
     */
    function Validate(): (r: Outcome<Error>)
      ensures r.Pass? <==> !IsNullOrWhiteSpace(projectId)
                           && (ShouldInitializeTopics() ==> PublishingValid())
                           && (ShouldInitializeSubscriptions() ==> SubscriptionValid())
      ensures IsNullOrWhiteSpace(projectId) ==> r == Fail(ArgumentError(BlankValueMessage, Some("ProjectId")))
      ensures !IsNullOrWhiteSpace(projectId) && ShouldInitializeTopics() && publishing.None? ==>
                r == Fail(ArgumentNullError("Publishing"))
      ensures !IsNullOrWhiteSpace(projectId) && ShouldInitializeTopics() && publishing.Some? && !PublishingValid() ==>
                r == P.Validate(publishing.value, None)
      ensures !IsNullOrWhiteSpace(projectId) && (ShouldInitializeTopics() ==> PublishingValid())
              && ShouldInitializeSubscriptions() && subscription.None? ==>
                r == Fail(ArgumentNullError("Subscription"))
      ensures !IsNullOrWhiteSpace(projectId) && (ShouldInitializeTopics() ==> PublishingValid())
              && ShouldInitializeSubscriptions() && subscription.Some? ==>
                r == S.Validate(subscription.value)
    {
      if ThrowIfNullOrWhiteSpace(projectId, "ProjectId").Fail? then
        ThrowIfNullOrWhiteSpace(projectId, "ProjectId")
      else if ShouldInitializeTopics() && publishing.None? then
        Fail(ArgumentNullError("Publishing"))
      else if ShouldInitializeTopics() && P.Validate(publishing.value, None).Fail? then
        P.Validate(publishing.value, None)
      else if ShouldInitializeSubscriptions() && subscription.None? then
        Fail(ArgumentNullError("Subscription"))
      else if ShouldInitializeSubscriptions() then
        S.Validate(subscription.value)
      else
        Pass
    }
  }

  /** A section whose resources are not initialized does not affect validation. */
  lemma ValidateIgnoresDisabledSections(s: Settings, publishing: Option<P.PublishingConfiguration>,
                                        subscription: Option<S.SubscriptionConfiguration>)
    ensures !s.ShouldInitializeTopics() ==> s.(publishing := publishing).Validate() == s.Validate()
    ensures !s.ShouldInitializeSubscriptions() ==> s.(subscription := subscription).Validate() == s.Validate()
    ensures s.resourceInitialization == Disabled ==> (s.Validate().Pass? <==> !IsNullOrWhiteSpace(s.projectId))
  {
  }

  /** Both generations decide what to initialize by the same truth table. */
  lemma SameModesAsOlder(s: Settings, older: LegacyConfiguration.PubSubConfiguration)
    requires s.resourceInitialization == older.resourceInitialization
    ensures s.ShouldInitializeTopics() == older.ShouldInitializeTopics()
    ensures s.ShouldInitializeSubscriptions() == older.ShouldInitializeSubscriptions()
  {
  }

  function ExampleSettings(): Settings {
    Settings(None, Some("my-project"), All, false, false, None, None)
  }

  /** A blank project id, then a missing publishing section, then a missing subscription section. */
  lemma ValidateExamples()
    ensures ExampleSettings().(projectId := Some("   ")).Validate()
            == Fail(ArgumentError(BlankValueMessage, Some("ProjectId")))
    ensures ExampleSettings().Validate() == Fail(ArgumentNullError("Publishing"))
    ensures ExampleSettings().(publishing := Some(P.PublishingConfiguration(None, 7, ["my-topic"]))).Validate()
            == Fail(ArgumentNullError("Subscription"))
  {
    assert "my-project"[0] !in WhiteSpace;
    assert IsNullOrWhiteSpace(Some("   "));
  }

  /** The key of the environment and subscription caches: `{topic}::{subscription}`, null as empty. */
  function CacheKey(topic: Option<string>, subscription: Option<string>): string {
    Text(topic) + "::" + Text(subscription)
  }

  /** A null subscription and an empty one share a key; a topic alone gives `topic::`. */
  lemma CacheKeyOfNoSubscription(topic: string)
    ensures CacheKey(Some(topic), None) == CacheKey(Some(topic), Some("")) == topic + "::"
  {
  }

  /**
   * Keys tell topics and subscriptions apart as long as topics carry no `:` (the broker's topic
   * ids never do).
   */
  lemma {:induction false} CacheKeyInjective(t1: Option<string>, s1: Option<string>, t2: Option<string>, s2: Option<string>)
    requires ':' !in Text(t1) && ':' !in Text(t2)
    requires CacheKey(t1, s1) == CacheKey(t2, s2)
    ensures Text(t1) == Text(t2) && Text(s1) == Text(s2)
  {
    var a, b := Text(t1), Text(t2);
    var k := CacheKey(t1, s1);
    assert k == a + (":" + ":" + Text(s1)) && k == b + (":" + ":" + Text(s2));
    // both are the position of the first `:` in the key
    assert k[|a|] == ':' && forall i :: 0 <= i < |a| ==> k[i] == a[i] != ':';
    assert k[|b|] == ':' && forall i :: 0 <= i < |b| ==> k[i] == b[i] != ':';
    assert |a| == |b|;
    assert a == k[..|a|] == b;
    assert Text(s1) == k[|a| + 2..] == Text(s2);
  }

  /**
   * `after` is `before` with one more key, `key`, whose environment is unmanaged exactly when
   * `unmanaged` says so, and every earlier entry kept.
   */
  predicate EnvironmentAdded(before: map<string, Environment.EnvironmentId>, after: map<string, Environment.EnvironmentId>,
                             key: string, unmanaged: bool)
  {
    && after.Keys == before.Keys + {key}
    && (forall k :: k in before ==> after[k] == before[k])
    && after[key].unmanaged == unmanaged
  }

  class PubSubConfiguration {
    const settings: Settings
    var environmentCache: map<string, Environment.EnvironmentId>
    var topicCache: map<string, TopicIds.TopicId>
    var subscriptionCache: map<string, SubscriptionIds.SubscriptionId>

    constructor (settings: Settings)
      ensures this.settings == settings
      ensures environmentCache == map[] && topicCache == map[] && subscriptionCache == map[]
    {
      this.settings := settings;
      environmentCache := map[];
      topicCache := map[];
      subscriptionCache := map[];
    }

    /**
     * Whether the environment for `topic::subscription` is unmanaged: the cached one's flag, or,
     * for a new one, whether a subscription name is given.
     */
    function UnmanagedFor(topic: Option<string>, subscription: Option<string>): bool
      reads this
    {
      var key := CacheKey(topic, subscription);
      if key in environmentCache then environmentCache[key].unmanaged else !IsNullOrWhiteSpace(subscription)
    }

    /** The id a topic-cache miss builds: literal when unmanaged, managed from the publishing section otherwise. */
    function BuildTopicId(topic: Option<string>, unmanaged: bool): Result<TopicIds.TopicId, Error> {
      if unmanaged then TopicIds.NewUnmanaged(settings.projectId, topic)
      else TopicIds.NewManaged(settings.projectId, topic, settings.publishing)
    }

    /** The answer `GetTopicId` gives in the current state. */
    function ResolveTopicId(topic: Option<string>, subscription: Option<string>): Result<TopicIds.TopicId, Error>
      reads this
    {
      if IsNullOrWhiteSpace(topic) then Failure(ArgumentError(BlankValueMessage, Some("topic")))
      else if topic.value in topicCache then Success(topicCache[topic.value])
      else BuildTopicId(topic, UnmanagedFor(topic, subscription))
    }

    /** The id a subscription-cache miss builds on `topicId`. */
    function BuildSubscriptionId(topicId: TopicIds.TopicId, subscription: Option<string>, unmanaged: bool)
      : Result<SubscriptionIds.SubscriptionId, Error>
    {
      if unmanaged then SubscriptionIds.NewUnmanaged(Some(topicId), subscription)
      else SubscriptionIds.NewManaged(Some(topicId), settings.subscription)
    }

    /** The answer `GetSubscriptionId` gives in the current state. */
    function ResolveSubscriptionId(topic: Option<string>, subscription: Option<string>)
      : Result<SubscriptionIds.SubscriptionId, Error>
      reads this
    {
      if IsNullOrWhiteSpace(topic) then Failure(ArgumentError(BlankValueMessage, Some("topic")))
      else if CacheKey(topic, subscription) in subscriptionCache then Success(subscriptionCache[CacheKey(topic, subscription)])
      else match ResolveTopicId(topic, subscription)
        case Failure(error) => Failure(error)
        case Success(topicId) => BuildSubscriptionId(topicId, subscription, UnmanagedFor(topic, subscription))
    }

    /**
     * `GetEnvironmentId`: the environment stored under `topic::subscription`, built on first use;
     * it is unmanaged exactly when a subscription name is given.
     */
    method GetEnvironmentId(topic: Option<string>, subscription: Option<string>) returns (e: Environment.EnvironmentId)
      modifies this
      ensures environmentCache == old(environmentCache)[CacheKey(topic, subscription) := e]
      ensures EnvironmentAdded(old(environmentCache), environmentCache, CacheKey(topic, subscription),
                               old(UnmanagedFor(topic, subscription)))
      ensures CacheKey(topic, subscription) in old(environmentCache) ==>
                e == old(environmentCache)[CacheKey(topic, subscription)]
      ensures CacheKey(topic, subscription) !in old(environmentCache) ==>
                && fresh(e)
                && e.unmanaged == !IsNullOrWhiteSpace(subscription)
                && e.useEmulator == settings.useEmulator && e.verbosityMode == settings.verbosityMode
                && !e.hasCallback && e.callbacksStarted == 0
      ensures topicCache == old(topicCache) && subscriptionCache == old(subscriptionCache)
    {
      var key := CacheKey(topic, subscription);
      if key in environmentCache {
        e := environmentCache[key];
        return;
      }
      e := new Environment.EnvironmentId(settings.useEmulator, !IsNullOrWhiteSpace(subscription), settings.verbosityMode);
      environmentCache := environmentCache[key := e];
    }

    /**
     * `GetTopicId`: rejects a blank topic; otherwise the id stored under the topic alone, built on
     * first use (literal for an unmanaged environment, managed from the publishing section
     * otherwise) and stored only when that succeeds. A miss first looks up the environment.
     */
    method GetTopicId(topic: Option<string>, subscription: Option<string>) returns (r: Result<TopicIds.TopicId, Error>)
      modifies this
      ensures r == old(ResolveTopicId(topic, subscription))
      ensures IsNullOrWhiteSpace(topic) ==> r == Failure(ArgumentError(BlankValueMessage, Some("topic")))
      ensures !IsNullOrWhiteSpace(topic) && topic.value in old(topicCache) ==> r == Success(old(topicCache)[topic.value])
      ensures !IsNullOrWhiteSpace(topic) && topic.value !in old(topicCache) ==>
                && r == BuildTopicId(topic, old(UnmanagedFor(topic, subscription)))
                && EnvironmentAdded(old(environmentCache), environmentCache, CacheKey(topic, subscription),
                                    old(UnmanagedFor(topic, subscription)))
                && topicCache == if r.Success? then old(topicCache)[topic.value := r.value] else old(topicCache)
      ensures IsNullOrWhiteSpace(topic) || topic.value in old(topicCache) ==>
                environmentCache == old(environmentCache) && topicCache == old(topicCache)
      ensures r.Success? ==> !IsNullOrWhiteSpace(topic) && topic.value in topicCache && topicCache[topic.value] == r.value
      ensures subscriptionCache == old(subscriptionCache)
    {
      var guard := ThrowIfNullOrWhiteSpace(topic, "topic");
      if guard.Fail? {
        return Failure(guard.error);
      }
      var t := topic.value;
      if t in topicCache {
        return Success(topicCache[t]);
      }
      var environment := GetEnvironmentId(topic, subscription);
      r := BuildTopicId(topic, environment.unmanaged);
      if r.Success? {
        topicCache := topicCache[t := r.value];
      }
    }

    /**
     * `GetSubscriptionId`: rejects a blank topic; otherwise the id stored under
     * `topic::subscription`, built on first use on the topic's id (literal for an unmanaged
     * environment, managed from the subscription section otherwise) and stored only when that
     * succeeds. A miss resolves the topic id first, and a failure there propagates.
     */
    method GetSubscriptionId(topic: Option<string>, subscription: Option<string>)
      returns (r: Result<SubscriptionIds.SubscriptionId, Error>)
      modifies this
      ensures r == old(ResolveSubscriptionId(topic, subscription))
      ensures IsNullOrWhiteSpace(topic) || CacheKey(topic, subscription) in old(subscriptionCache) ==>
                && environmentCache == old(environmentCache) && topicCache == old(topicCache)
                && subscriptionCache == old(subscriptionCache)
      ensures !IsNullOrWhiteSpace(topic) && CacheKey(topic, subscription) !in old(subscriptionCache) ==>
                var topicId := old(ResolveTopicId(topic, subscription));
                var unmanaged := old(UnmanagedFor(topic, subscription));
                && (topicId.Failure? ==> r == Failure(topicId.error))
                && (topicId.Success? ==> r == BuildSubscriptionId(topicId.value, subscription, unmanaged))
                && EnvironmentAdded(old(environmentCache), environmentCache, CacheKey(topic, subscription), unmanaged)
                && topicCache == (if topic.value !in old(topicCache) && topicId.Success?
                                  then old(topicCache)[topic.value := topicId.value] else old(topicCache))
                && subscriptionCache == (if r.Success? then old(subscriptionCache)[CacheKey(topic, subscription) := r.value]
                                         else old(subscriptionCache))
    {
      var guard := ThrowIfNullOrWhiteSpace(topic, "topic");
      if guard.Fail? {
        return Failure(guard.error);
      }
      var key := CacheKey(topic, subscription);
      if key in subscriptionCache {
        return Success(subscriptionCache[key]);
      }
      var topicId := GetTopicId(topic, subscription);
      var environment := GetEnvironmentId(topic, subscription);
      if topicId.Failure? {
        return Failure(topicId.error);
      }
      r := BuildSubscriptionId(topicId.value, subscription, environment.unmanaged);
      if r.Success? {
        subscriptionCache := subscriptionCache[key := r.value];
      }
    }
  }
}
