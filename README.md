# Messbus core, modelled in Dafny

Messbus wraps Google Cloud Pub/Sub for .NET services. A configuration names:

- a Google project,
- the topics a service publishes to,
- the subscription settings its consumers use,
- a resource-initialization mode that says whether topics and subscriptions are created at start-up.

The bus publishes serialized messages. A consumer provisions:

- its topic,
- a dead-letter topic,
- a dead-letter subscription,
- its own subscription.

It then grants the Pub/Sub service agent the publisher and subscriber roles, and pulls messages. Each message is deserialized and handed to a handler, and the answer is Ack or Nack.

The repository holds two generations of this code, and the model keeps them apart:

- **The older tree**, `src/MessageBus` and `src/MessageBus.PubSub`, with `Configuration/TopicId.cs` and `Configuration/SubscriptionId.cs`. Its modules are `LegacyConfiguration`, `LegacyConsumers` and `LegacyBuses`.
- **The newer tree**, `src/Messbus` and `src/Messbus.PubSub`, built on `src/MessageBus.PubSub/Internal/*`:
  - `TopicId`, `SubscriptionId` and `EnvironmentId`;
  - a configuration registry that caches ids per topic and subscription.

  Its modules are `TopicIds`, `SubscriptionIds`, `Environment`, `Registry`, `Consumers` and `Buses`.
- **Shared** by both: `Guard`, `Publishing`, `SubscriptionSettings`, `Iam`, `Deliveries` and `Resources`.

The Pub/Sub service is a value, `Brokers.Broker`. It holds:

- the sets of existing topics and subscriptions, by full resource name;
- each resource's IAM policy;
- a set of `faulty` resources, on which every call fails with a non-specific status;
- a set of `iamDenied` resources, on which policy reads and writes are refused;
- the next message id;
- a log of every call made, oldest first.

Operations that talk to the service take a broker and return the broker after the call. Their contracts state:

- which calls were made, in which order;
- which resources exist afterwards;
- when the operation fails, and with which error.

Objects the source updates in place are classes with `modifies` clauses:

- the environment's initialization callback;
- the policy a role is appended to;
- the message context;
- the registry's caches;
- the consumers' subscriber clients.

Nullable strings are `Option<string>`. Blank means null, empty, or only whitespace.

Quirks of the code are modelled as written:

- The newer consumer still starts pulling after its subscription wait gave up and asked the host to stop.
- The older `StopProcessing` keeps the stopped client, so every later stop stops it again.
- The older bus answers no message id, rather than raising, when a topic is missing and topics are not initialized. The newer bus raises the NotFound.
- The older consumer makes its role grants even when the emulator is configured.
- The older consumer lets a failed publisher grant propagate but only logs a failed subscriber grant.
- The newer consumer never reads the subscription half of the initialization mode: the environment decides.

## Model

| member | source | states |
|---|---|---|
| Guard.ThrowIfNullOrWhiteSpace | src/MessageBus.PubSub/Guard.cs:5-9 | passes exactly when the value is present and holds a non-whitespace character; otherwise an ArgumentException with the blank-value message naming the parameter |
| Guard.FrameworkThrowIfNullOrWhiteSpace | src/MessageBus.PubSub/Configuration/PubSubConfiguration.cs:96 | a null value raises ArgumentNullException naming the parameter; a present value is judged as by the guard |
| Guard.BlankValuesRejected | src/MessageBus.PubSub/Guard.cs:7-8 | null, empty and all-space values are each rejected with the blank-value message |
| Resources.TopicAndSubscriptionNamesDiffer | src/MessageBus.PubSub/Internal/SubscriptionId.cs:76-114 | a topic's full name never equals a subscription's full name in the same project, even when the short ids coincide (as the dead-letter topic and subscription do) |
| Resources.TopicNameInjective | src/MessageBus.PubSub/Internal/TopicId.cs:21-23 | two topics of one project with the same full name have the same short id |
| Publishing.HasTopic | src/MessageBus.PubSub/Configuration/PublishingConfiguration.cs:11-14 | true exactly when a topic is given and it occurs in the configured topic list |
| Publishing.Validate | src/MessageBus.PubSub/Configuration/PublishingConfiguration.cs:16-26 | passes exactly when the topic list is non-empty and a given non-blank topic is configured; a failure is the first violated rule, in source order |
| Publishing.ValidateOrder | src/MessageBus.PubSub/Configuration/PublishingConfiguration.cs:18-22 | an empty topic list is reported before anything else; a blank topic is not checked; a non-blank unconfigured topic is reported with its name |
| Publishing.ValidateExamples | test/Messbus.PubSub.Tests/Configuration/PublishingConfigurationTests.cs:7-49 | the defaults, a short retention and an unknown topic give the three errors the tests expect; a configuration with its topic listed passes, a case the tests do not cover |
| SubscriptionSettings.Validate | test/MessageBus.PubSub.Tests/Configuration/SubscriptionConfigurationTests.cs:7-135 | passes exactly when the suffix is non-blank and retention, ack deadline, delivery attempts and both backoffs meet their minimums with max backoff not below min; a failure is the first violated rule |
| SubscriptionSettings.DefaultNeedsOnlySufix | src/MessageBus.PubSub/Configuration/SubscriptionConfiguration.cs:5-10 | the defaults fail only for the missing suffix and pass once any non-blank suffix is set |
| SubscriptionSettings.ValidateExamples | test/MessageBus.PubSub.Tests/Configuration/SubscriptionConfigurationTests.cs:7-135 | each test's configuration gives the expected error or success |
| TopicIds.NewManaged | src/MessageBus.PubSub/Internal/TopicId.cs:12-26 | succeeds exactly when project and topic are non-blank and a publishing section is given that validates for the topic; errors in that order; the name is the prefixed topic and the descriptor carries the configured retention |
| TopicIds.NewUnmanaged | src/MessageBus.PubSub/Internal/TopicId.cs:28-45 | succeeds exactly when project and topic are non-blank; the name is the topic as given and the descriptor has no retention |
| TopicIds.ManagedTopicIdInjective | src/MessageBus.PubSub/Internal/TopicId.cs:21-23 | under one prefix, distinct topics get distinct managed ids |
| TopicIds.UnmanagedExample | test/Messbus.PubSub.Tests/Configuration/TopicIdTests.cs:8-22 | an unmanaged id keeps the topic name unchanged |
| TopicIds.ManagedExample | test/Messbus.PubSub.Tests/Configuration/TopicIdTests.cs:24-46 | prefix "prefix" gives "projects/my-project/topics/prefix.my-topic" with 10 days' retention |
| TopicIds.ManagedExampleWithoutPrefix | test/Messbus.PubSub.Tests/Configuration/TopicIdTests.cs:48-70 | with no prefix the short id is "my-topic", the full name "projects/my-project/topics/my-topic", and the retention 10 days |
| SubscriptionIds.GetDeadLetterTopic | src/MessageBus.PubSub/Internal/SubscriptionId.cs:76-87 | the dead-letter topic is the subscription's id plus ".dl", with retention exactly when settings are given |
| SubscriptionIds.GetDeadLetterSubscription | src/MessageBus.PubSub/Internal/SubscriptionId.cs:89-114 | named like the dead-letter topic, subscribed to it, with no dead-letter policy of its own, and with the settings' deadline and retry when given |
| SubscriptionIds.NewManaged | src/MessageBus.PubSub/Internal/SubscriptionId.cs:24-35 | succeeds exactly when topic id and settings are present and the settings validate; the result has the managed subscription, dead-letter topic and dead-letter subscription |
| SubscriptionIds.NewUnmanaged | src/MessageBus.PubSub/Internal/SubscriptionId.cs:16-22 | fails exactly when the topic id is missing, with ArgumentNullException naming it; otherwise the subscription is the given name, verbatim, in the topic's project and bound to the topic, with no dead-letter resources |
| SubscriptionIds.ServiceAccount | src/MessageBus.PubSub/Internal/SubscriptionId.cs:140-145 | the member is the service-agent prefix, the project number, then the agent domain |
| SubscriptionIds.ServiceAccountInjective | src/MessageBus.PubSub/Internal/SubscriptionId.cs:144 | distinct project numbers give distinct members |
| SubscriptionIds.DeadLetterTopicIsNotTheTopic | src/MessageBus.PubSub/Internal/SubscriptionId.cs:80 | a managed id's dead-letter topic differs from its topic, and its four resources have pairwise distinct full names where they could clash |
| SubscriptionIds.ManagedSubscriptionNameInjective | src/MessageBus.PubSub/Internal/SubscriptionId.cs:116-119 | within one project and settings, distinct topics get distinct managed subscriptions |
| SubscriptionIds.ExampleNames | test/Messbus.PubSub.Tests/Configuration/SubscriptionIdTests.cs:58-62 | topic "my-topic" with suffix "app" gives "my-topic.app", "my-topic.app.dl" and the ".dl" topic |
| SubscriptionIds.ExampleSubscriptionFullName | test/Messbus.PubSub.Tests/Configuration/SubscriptionIdTests.cs:59 | the subscription's full name is "projects/my-project/subscriptions/my-topic.app" |
| SubscriptionIds.ExampleDeadLetterSubscriptionFullName | test/Messbus.PubSub.Tests/Configuration/SubscriptionIdTests.cs:61 | the dead-letter subscription's full name is exactly "projects/my-project/subscriptions/my-topic.app.dl" |
| SubscriptionIds.ExampleDeadLetterPolicyTopic | test/Messbus.PubSub.Tests/Configuration/SubscriptionIdTests.cs:62-73 | the example subscription reads "my-topic", keeps messages 7 days, backs off between 10 and 600 seconds, and its dead-letter policy is "projects/my-project/topics/my-topic.app.dl" with 5 attempts; the dead-letter topic keeps messages 7 days |
| LegacyConfiguration.PubSubConfiguration.Validate | src/MessageBus.PubSub/Configuration/PubSubConfiguration.cs:94-115 | as written: passes exactly when the project is non-blank, a present publishing section is valid, and a present subscription has a suffix and a present publishing retention of at least 7 days; a subscription without publishing raises NullReferenceException |
| LegacyConfiguration.PubSubConfiguration.ValidateIntended | src/MessageBus.PubSub/Configuration/PubSubConfiguration.cs:94-115 | passes exactly when the project is non-blank, a present publishing section keeps at least 7 days and lists a topic, and a present subscription has a suffix and keeps at least 7 days; never a NullReferenceException |
| LegacyConfiguration.PubSubConfiguration.GetTopicId | src/MessageBus.PubSub/Configuration/PubSubConfiguration.cs:56-64 | succeeds exactly when a publishing section lists the topic; a missing section and an unlisted topic give their own errors |
| LegacyConfiguration.PubSubConfiguration.GetSubscriptionId | src/MessageBus.PubSub/Configuration/PubSubConfiguration.cs:66-74 | succeeds exactly when the topic is non-blank, a subscription section exists and the topic id resolves; each failure in source order |
| LegacyConfiguration.TopicId.GetTopic | src/MessageBus.PubSub/Configuration/TopicId.cs:13-22 | the descriptor is named by the topic id and keeps the publishing retention |
| LegacyConfiguration.SubscriptionId.SubscriptionName | src/MessageBus.PubSub/Configuration/SubscriptionId.cs:14-15 | an explicit non-blank name wins; otherwise the managed name |
| LegacyConfiguration.SubscriptionId.GetDeadLetterTopic | src/MessageBus.PubSub/Configuration/SubscriptionId.cs:25-30 | the dead-letter topic with the subscription's retention |
| LegacyConfiguration.SubscriptionId.GetDeadLetterSubscription | src/MessageBus.PubSub/Configuration/SubscriptionId.cs:32-45 | subscribed to the dead-letter topic, no dead-letter policy, the settings' deadline and retry, never expiring |
| LegacyConfiguration.SubscriptionId.GetSubscription | src/MessageBus.PubSub/Configuration/SubscriptionId.cs:47-64 | on the topic, dead-lettering to the dead-letter topic, with the settings' deadline and retry, never expiring |
| LegacyConfiguration.ModesTruthTable | src/MessageBus.PubSub/Configuration/PubSubConfiguration.cs:76-92 | the four modes are exactly the four combinations of "initialize topics" and "initialize subscriptions" |
| LegacyConfiguration.ValidateIgnoresSubscriptionRetention | src/MessageBus.PubSub/Configuration/PubSubConfiguration.cs:107-113 | as written, the subscription's own retention never changes the verdict |
| LegacyConfiguration.ValidateDereferencesMissingPublishing | src/MessageBus.PubSub/Configuration/PubSubConfiguration.cs:112 | a valid subscription without publishing raises NullReferenceException as written and passes as intended |
| LegacyConfiguration.ValidateAcceptsShortSubscriptionRetention | src/MessageBus.PubSub/Configuration/PubSubConfiguration.cs:112-113 | a one-day subscription retention passes as written and is rejected as intended |
| LegacyConfiguration.DeadLetterNamesIgnoreExplicitName | src/MessageBus.PubSub/Configuration/SubscriptionId.cs:19-23 | the dead-letter names do not depend on an explicit subscription name |
| LegacyConfiguration.GenerationsAgree | src/MessageBus.PubSub/Configuration/SubscriptionId.cs:14-64 | for a valid configuration, the older and newer ids name the same four resources; the older topic equals the newer one, and the older subscription and dead-letter subscription equal the newer ones except that their retention is unset |
| Registry.Settings.Validate | src/Messbus.PubSub/Configuration/PubSubConfiguration.cs:133-148 | passes exactly when the project is non-blank and each section the mode initializes is present and valid; errors in source order |
| Registry.ValidateIgnoresDisabledSections | src/Messbus.PubSub/Configuration/PubSubConfiguration.cs:137-147 | a section the mode does not initialize never changes the verdict; with initialization disabled only the project matters |
| Registry.SameModesAsOlder | src/Messbus.PubSub/Configuration/PubSubConfiguration.cs:115-131 | the newer mode predicates agree with the older ones |
| Registry.ValidateExamples | test/MessageBus.PubSub.Tests/Configuration/PubSubConfigurationTests.cs:7-56 | a blank project, a missing publishing section, and a missing subscription section give their errors (ArgumentNullException naming `Subscription` for the last); no passing case is stated |
| Registry.CacheKeyOfNoSubscription | src/Messbus.PubSub/Configuration/PubSubConfiguration.cs:63 | a missing and an empty subscription share the key "topic::" |
| Registry.CacheKeyInjective | src/Messbus.PubSub/Configuration/PubSubConfiguration.cs:63-79 | for topics without ':', equal keys mean equal topic and subscription texts |
| Registry.PubSubConfiguration.constructor | src/Messbus.PubSub/Configuration/PubSubConfiguration.cs:12-14 | keeps the settings; all three caches start empty |
| Registry.PubSubConfiguration.GetEnvironmentId | src/Messbus.PubSub/Configuration/PubSubConfiguration.cs:61-80 | a cached environment is returned as is; otherwise a fresh one is built from the settings, unmanaged exactly when a subscription name is given, and cached under the key; every earlier entry and the other caches unchanged |
| Registry.PubSubConfiguration.GetTopicId | src/Messbus.PubSub/Configuration/PubSubConfiguration.cs:82-95 | the answer equals `ResolveTopicId` on the old state: a blank topic is rejected with no cache touched; a cached id is returned with no cache touched; a miss adds the environment entry (unmanaged exactly when a subscription name is given, unless already cached), builds the unmanaged or managed id accordingly, and caches it exactly when it was built; the subscription cache is unchanged |
| Registry.PubSubConfiguration.GetSubscriptionId | src/Messbus.PubSub/Configuration/PubSubConfiguration.cs:97-113 | the answer equals `ResolveSubscriptionId` on the old state: a blank topic or a cached key changes no cache; a miss propagates the topic id's failure, or builds the unmanaged or managed id on it; the environment entry is added, the topic cache gains the topic id exactly when it was newly built, and the subscription cache gains the id exactly when it was built |
| Iam.FirstBinding | src/MessageBus.PubSub/Internal/EnvironmentId.cs:330 | the index of the first binding for the role, or none exactly when no binding has it |
| Iam.Policy.constructor | src/MessageBus.PubSub/Internal/EnvironmentId.cs:328 | holds the given bindings |
| Iam.Policy.AppendRole | src/MessageBus.PubSub/Internal/EnvironmentId.cs:328-348 | reports a change exactly when the member did not already hold the role; the new bindings are the role appended as specified by WithRole |
| Iam.FirstBindingIs | src/MessageBus.PubSub/Internal/EnvironmentId.cs:330 | the first index carrying the role is the one found |
| Iam.AppendRoleGrants | src/MessageBus.PubSub/Internal/EnvironmentId.cs:328-348 | after appending, the member holds the role |
| Iam.AppendRoleChangesIffAbsent | src/MessageBus.PubSub/Internal/EnvironmentId.cs:341-347 | the bindings are unchanged exactly when the grant already held |
| Iam.AppendRoleIdempotent | src/MessageBus.PubSub/Internal/EnvironmentId.cs:341-347 | appending the same grant twice equals appending it once |
| Iam.AppendRoleChangesOnlyFirstMatch | src/MessageBus.PubSub/Internal/EnvironmentId.cs:330 | only the first binding for the role can change, and the list grows by at most one |
| Iam.AppendRoleKeepsGrants | src/MessageBus.PubSub/Internal/EnvironmentId.cs:328-348 | every grant that held before still holds after |
| Environment.EnvironmentId.constructor | src/MessageBus.PubSub/Internal/EnvironmentId.cs:24-39 | keeps the emulator, unmanaged and verbosity flags; no callback yet |
| Environment.EnvironmentId.SetOnInitialized | src/MessageBus.PubSub/Internal/EnvironmentId.cs:22 | a callback is registered |
| Environment.EnvironmentId.Initialized | src/MessageBus.PubSub/Internal/EnvironmentId.cs:41-45 | the callback starts once exactly when one is registered |
| Environment.Publish | src/MessageBus.PubSub/Internal/EnvironmentId.cs:94-119 | one publish call; success exactly when the topic exists and works, with one fresh increasing id per message; a missing topic gives NotFound |
| Environment.CreateTopic | src/MessageBus.PubSub/Internal/EnvironmentId.cs:121-139 | one create call; AlreadyExists is swallowed, so it passes unless the service fails, and afterwards the topic exists |
| Environment.CreateSubscription | src/MessageBus.PubSub/Internal/EnvironmentId.cs:141-157 | one create call; AlreadyExists swallowed; on success the subscription exists; other failures propagate |
| Environment.GrantRole | src/MessageBus.PubSub/Internal/EnvironmentId.cs:176-212 | passes exactly when the policy can be read and written; then the member holds the role, every earlier grant is kept, and the log is exactly a read plus a write only when the grant was missing; a failure leaves every policy as it was; the resulting broker is `GrantedBroker` |
| Environment.AddRoleBindings | src/MessageBus.PubSub/Internal/EnvironmentId.cs:159-213 | nothing under the emulator or unmanaged; without a dead-letter topic a NullReferenceException; otherwise the publisher grant's calls and, only when it passed, the subscriber grant's calls, success exactly when both policies are accessible, the roles held afterwards, no other resource's policy changed and no message id used; the resulting broker is `RoleBindingsGranted`, so a refused dead-letter topic policy leaves every policy as it was and a refused subscription policy leaves only the dead-letter grant made |
| Environment.RoleBindingsGrantedCalls | src/MessageBus.PubSub/Internal/EnvironmentId.cs:159-213 | the two grants log the publisher grant's calls and, only when its policy was accessible, the subscriber grant's; no call is a pull |
| Environment.RoleBindingsGrantedPolicies | src/MessageBus.PubSub/Internal/EnvironmentId.cs:159-213 | no policy but the two targets changes; a refused dead-letter topic policy leaves every policy as it was; a refused subscription policy leaves only the publisher grant made; with both accessible both roles are held |
| Environment.Wait | src/MessageBus.PubSub/Internal/EnvironmentId.cs:215-252 | proceeds at the first found attempt, raises at the first other error, and asks to stop exactly when no attempt up to the limit was decisive |
| Environment.EnsureSubscriptionExists | src/MessageBus.PubSub/Internal/EnvironmentId.cs:215-252 | its loop's outcome is Wait's; one get call per attempt made and one delay between attempts |
| Environment.StopRequestedIffAllMissed | src/MessageBus.PubSub/Internal/EnvironmentId.cs:232 | the wait gives up exactly when every attempt up to the limit answered null or NotFound |
| Environment.WaitIsBounded | src/MessageBus.PubSub/Internal/EnvironmentId.cs:217-243 | never more attempts than the limit allows, and one delay fewer than attempts |
| Environment.DeleteSubscriptions | src/MessageBus.PubSub/Internal/EnvironmentId.cs:254-286 | deletes the dead-letter subscription (when present) and then the subscription, one call each; afterwards exactly the targets that were not faulty are gone, since a failed delete is swallowed; nothing else changes |
| Environment.DeleteTopics | src/MessageBus.PubSub/Internal/EnvironmentId.cs:288-326 | deletes the dead-letter topic (when present) and then the topic, one call each; afterwards exactly the targets that were not faulty are gone, since a failed delete is swallowed; nothing else changes |
| Deliveries.MessageContext.constructor | src/MessageBus/MessageContext.cs:10-15 | keeps id, attempt and data; no message yet |
| Deliveries.MessageContext.SetMessage | src/MessageBus/MessageContext.cs:17-20 | the message is set |
| Deliveries.ProcessMessage | src/Messbus/MessageConsumer.cs:55-71 | a payload that does not deserialize fails without calling the handler; otherwise the context holds the message and the handler's outcome is returned |
| Deliveries.ConsumerHandler | src/Messbus.PubSub/PubSubConsumer.cs:90-114 | the attempt is the delivery attempt or 0; the reply is Ack exactly when deserialization and the handler both succeed |
| Consumers.Provision | src/Messbus.PubSub/PubSubConsumer.cs:60-63 | topic, dead-letter topic, dead-letter subscription, subscription created in that order; the log holds exactly the creates up to and including the first that fails (`ProvisionStepsMade`), so the first failure stops the rest; success exactly when each step succeeds, and then the topics are the old ones plus the two topics and the subscriptions the old ones plus the two subscriptions; whatever the outcome, only resources whose create passed are added (`AfterProvision`); policies are untouched |
| Consumers.AfterProvisionBounded | src/Messbus.PubSub/PubSubConsumer.cs:59-62 | provisioning adds at most its four resources, always makes a call, never pulls, and changes no policy, fault or id |
| Consumers.AfterProvisionPassed | src/Messbus.PubSub/PubSubConsumer.cs:59-62 | provisioning that succeeds logs the four creates and adds exactly the two topics and the two subscriptions, which then exist |
| Consumers.RolesGrantedOnProvisioned | src/Messbus.PubSub/PubSubConsumer.cs:59-63 | on freshly provisioned resources whose policies are not refused, the grants' log is the publisher grant then the subscriber grant on the old policies, and the service agent holds both roles with every other policy unchanged |
| Consumers.PrimaryOutcomeOfBroker | src/Messbus.PubSub/PubSubConsumer.cs:56-66 | an initialization leaving `PrimaryBroker` that passes exactly when provisioning succeeds and no policy to grant on is refused meets `PrimaryOutcome` |
| Consumers.GrantsStopAtRefusal | src/MessageBus.PubSub/Internal/EnvironmentId.cs:159-213 | when one of the two policies is refused, a refused dead-letter topic policy ends the log after its read with no policy changed, and a refused subscription policy ends it after that read with only the publisher grant made |
| Consumers.PrimaryFailureStops | src/Messbus.PubSub/PubSubConsumer.cs:56-66 | a managed primary's failed initialization stops at its first failure: a failed create ends the log with no policy changed; after four passed creates, a refused dead-letter topic policy ends the log after its read with no policy changed, and a refused subscription policy ends it after that read with only the dead-letter grant made and the subscription's policy unchanged |
| Consumers.PubSubConsumer.constructor | src/Messbus.PubSub/PubSubConsumer.cs:18-31 | keeps the id, environment and role; no client; the id's dead-letter resources are both present or both absent, and its dead-letter topic is in the subscription's project, as every id the core builds |
| Consumers.PubSubConsumer.InitializePrimary | src/Messbus.PubSub/PubSubConsumer.cs:56-66 | the four creates in order, then the role grants, then the initialization callback (`PrimaryOutcome`): succeeds exactly when provisioning succeeds and, when roles are granted, both policies are accessible; on success the topics and subscriptions are exactly the old ones plus the four resources, and the log is the four creates followed by the two grants (a policy read, and a write only where the role was missing); the service agent then holds the publisher role on the dead-letter topic and the subscriber role on the subscription, every other policy unchanged; under the emulator no policy changes; whatever the outcome the broker is `PrimaryBroker`: the creates made, then, only when all four passed and roles are granted, the grants up to the first failure; without a dead-letter topic it fails after the first create; the callback starts only on success; no pull |
| Consumers.PubSubConsumer.InitializeProcessing | src/Messbus.PubSub/PubSubConsumer.cs:33-67 | unmanaged: no call, only the initialization callback starts; managed dead-letter consumer: polls for its dead-letter subscription, fails only when a poll raises another error, and asks the host to stop when every poll missed; managed primary: `PrimaryOutcome`, as for `InitializePrimary` with roles granted exactly off the emulator; in every case the calls it makes hold no pull |
| Consumers.PubSubConsumer.StartProcessing | src/Messbus.PubSub/PubSubConsumer.cs:69-78 | opens a client on the subscription or dead-letter subscription and pulls; a dead-letter consumer without one raises NullReferenceException |
| Consumers.PubSubConsumer.StopProcessing | src/Messbus.PubSub/PubSubConsumer.cs:80-88 | a present client is stopped once and cleared |
| Consumers.PubSubConsumer.ExecuteAsync | src/Messbus/MessageConsumer.cs:29-38 | initialize then start: a managed primary meets `PrimaryOutcome` on the log before its last call (the four creates, the two grants off the emulator, exactly the four resources added and the roles held; on failure the broker the first failure left), and that last call is the one pull from its subscription; a managed dead-letter consumer polls, then pulls exactly when no poll raised, also after a stop was requested; a failure opens no client and pulls nothing |
| Consumers.PubSubConsumer.StopAsync | src/Messbus/MessageConsumer.cs:40-47 | the client is stopped and cleared and the service stops |
| LegacyConsumers.GrantsOnProvisioned | src/MessageBus.PubSub/PubSubConsumer.cs:216-264 | on freshly provisioned resources whose dead-letter topic policy is not refused, the log is the four creates, the publisher grant and the subscriber grant (only the read when the subscription's policy is refused); the publisher role is held, the subscriber role too unless refused, and otherwise the subscription's policy is unchanged |
| LegacyConsumers.PubSubConsumer.constructor | src/MessageBus.PubSub/PubSubConsumer.cs:20-33 | keeps the id and role; no client |
| LegacyConsumers.PubSubConsumer.PulledSubscription | src/MessageBus.PubSub/PubSubConsumer.cs:76 | the dead-letter subscription for a dead-letter consumer, else the subscription, in the id's project |
| LegacyConsumers.PubSubConsumer.InitializeProcessing | src/MessageBus.PubSub/PubSubConsumer.cs:35-70 | nothing unless subscriptions are initialized; else (`InitializedOutcome`) the four creates, and on success the four resources exist; a dead-letter consumer's log is only the creates made and it changes no policy; the primary then fails exactly when the dead-letter publisher grant fails, and on success its log is the four creates, the publisher grant and the subscriber grant (only the policy read when the subscription's policy is refused); the subscriber grant's failure is swallowed; at most the four resources are added, exactly those on success; whatever the outcome the broker is `InitializedBroker`: the creates made, then, for a primary whose creates all passed, the grants up to the first failure; the calls it makes hold no pull |
| LegacyConsumers.PubSubConsumer.GrantRoles | src/MessageBus.PubSub/PubSubConsumer.cs:216-264 | the publisher grant on the dead-letter topic, then, only when it passed, the subscriber grant on the subscription, each a policy read and a write only where the role was missing; fails exactly when the dead-letter topic's policy cannot be read and written; the second's failure is swallowed; on success the publisher role is held, and the subscriber role too when its policy is accessible; no other policy and no resource changes; the resulting broker is `RoleBindingsGranted` |
| LegacyConsumers.PubSubConsumer.StartProcessing | src/MessageBus.PubSub/PubSubConsumer.cs:72-87 | opens a client on the pulled subscription and pulls from it |
| LegacyConsumers.PubSubConsumer.StopProcessing | src/MessageBus.PubSub/PubSubConsumer.cs:89-96 | a present client is stopped but kept |
| LegacyConsumers.PubSubConsumer.ExecuteAsync | src/MessageBus/MessageConsumer.cs:30-39 | initialize then start: with subscriptions initialized, `InitializedOutcome` holds of `InitializedBroker` (success exactly when provisioning succeeds and, for the primary, the dead-letter publisher grant is allowed; the creates and grants logged; at most the four resources added; a dead-letter consumer changes no policy), and the result is that broker, with the one pull appended on success; a failure opens no client and pulls nothing; with subscriptions not initialized it only pulls |
| LegacyConsumers.PubSubConsumer.StopAsync | src/MessageBus/MessageConsumer.cs:41-48 | the client is stopped and kept; the service stops |
| Buses.Payloads | src/MessageBus/MessageBus.cs:34 | one payload per message, each the message's serialization, in order, when every message serializes; otherwise the failure of the first message that does not, every earlier one having serialized |
| Buses.SendToTopic | src/Messbus.PubSub/PubSubMessageBus.cs:32-50 | ensures `Sent`: one publish; on NotFound with initialization, create then publish again, a failed create propagating; without it the NotFound propagates; the log in each case; a success has fresh increasing ids, one per payload; the topic set gains the created topic exactly when the create ran and passed; otherwise only the log and the id counter change |
| Buses.PubSubMessageBus.constructor | src/Messbus.PubSub/PubSubMessageBus.cs:12-19 | keeps the configuration |
| Buses.PubSubMessageBus.Send | src/Messbus.PubSub/PubSubMessageBus.cs:21-51 | when the topic id does not resolve (`ResolveTopicId` on the old state: blank, or its id cannot be built) the broker is untouched and that error returned; otherwise `Sent` holds at that id, so the topic set changes only by a topic it created; the environment entry for the topic is added first, even for a blank topic; the topic cache gains the id exactly when it was newly built |
| Buses.PubSubMessageBus.PublishBatch | src/MessageBus/MessageBus.cs:29-38 | a message that fails to serialize fails the batch before any lookup or broker call, leaving the caches unchanged; otherwise as `Send`, for the batch serialized message by message in order |
| Buses.PubSubMessageBus.Publish | src/MessageBus/MessageBus.cs:21-27 | a message that fails to serialize fails before any lookup or broker call; otherwise as `Send` for the batch of its one payload, answering its first id; a success always answers an id, a fresh one |
| LegacyBuses.PublisherName | src/MessageBus.PubSub/PubSubMessageBus.cs:70-79 | a configured topic's publisher writes to the topic id's managed name, as the topic descriptor names it |
| LegacyBuses.NewTopicName | src/MessageBus.PubSub/Configuration/TopicId.cs:10-11 | the client library's name constructor that `TopicName` calls: succeeds exactly when the project is present and non-empty and the topic id is non-empty; a missing project raises ArgumentNullException, and an empty project, checked first, or an empty topic id raises ArgumentException naming it |
| LegacyBuses.BuildPublishers | src/MessageBus.PubSub/PubSubMessageBus.cs:64-83 | without publishing a NullReferenceException; with configured topics, a missing or empty project fails on the first topic's name, and otherwise a topic whose managed name is empty (the empty topic under a blank prefix) fails with ArgumentException for `topicId`; success exactly when none of these happens, with one publisher per configured topic and no other, each name non-empty |
| LegacyBuses.CreateTopic | src/MessageBus.PubSub/PubSubMessageBus.cs:85-107 | an unresolvable topic fails before any call; otherwise the managed topic is created, AlreadyExists swallowed, and the topic set gains it exactly on success; nothing else but the log changes |
| LegacyBuses.Send | src/MessageBus.PubSub/PubSubMessageBus.cs:36-62 | an unknown topic raises InvalidOperation; success answers a fresh id; a missing topic answers no id, or with initialization is created and published to again; the topic set gains exactly the created topic, and nothing else but the log and the id counter changes |

## Left out

- Dependency injection, service scopes, credentials and client builders are not modelled. They only wire objects together.
- The project-number lookup is not modelled. The project number is a parameter of the consumers.
- Flow-control settings (outstanding bytes and messages) are not modelled. They are passed to the client unchanged.
- The streaming receive loop is one `StreamingPullCall`. Deliveries go through `Deliveries.ConsumerHandler` one at a time.
- The `OnInitialized` callback's `Task.Run` is counted, not run, in `callbacksStarted`.
- Delays are counted, not waited.
- Real time, cancellation tokens, concurrency and the races between the registry caches' `GetOrAdd` calls are not modelled.
- Logging and `ConsumerName` are not modelled. Neither affects control flow.
- Whitespace is the ASCII whitespace characters. Unicode categories are not modelled.
- Message ids are natural numbers handed out in order. The serializer and deserializer are functions given as parameters, each answering a value or an error.
- A null `Topics` list is not modelled. Both `Validate`s reject it as they reject an empty list (`src/MessageBus.PubSub/Configuration/PublishingConfiguration.cs:18`, `src/MessageBus.PubSub/Configuration/PubSubConfiguration.cs:103`). `HasTopic` (`PublishingConfiguration.cs:13`) and the older publisher loop (`src/MessageBus.PubSub/PubSubMessageBus.cs:68`) would throw a NullReferenceException on it instead.
- The answers the service gives to `EnsureSubscriptionExists`'s polls are a parameter, an answer per attempt. Network failures become the `faulty` and `iamDenied` sets.
- `Consumers.PubSubConsumer.InitializeProcessing`: a managed primary consumer whose id has no dead-letter topic is modelled as the NullReferenceException raised after the first create. The consumer's own code never builds such an id.
- SubscriptionSettings.Validate: `SubscriptionConfiguration.cs` holds no validation. The rules and their order are taken from its tests. The 5-second minimum backoff floor and the rule that the maximum backoff is at least the minimum appear in neither; they are this model's assumption.
- Registry.CacheKeyInjective: holds only for topics without ':'. A ':' inside a topic lets two different pairs share a key.
- SubscriptionIds.NewUnmanaged: a missing or empty subscription name gives an id with an empty short name. The client library's name constructor, which is not part of this model, would reject it. The registry reaches this case only through a `::` key collision, because a blank name selects a managed environment.
- The client library's resource-name constructors are modelled only by `LegacyBuses.NewTopicName`, and the text of their ArgumentException is not modelled.
- LegacyBuses.CreateTopic: does not check the managed name, which the name constructor would reject when empty. It is reached only from `Send`, for a topic whose publisher `BuildPublishers` built on an accepted name.
- LegacyConfiguration.PubSubConfiguration.GetSubscriptionId: `src/MessageBus.PubSub/Configuration/PubSubConfiguration.cs:73` calls a three-argument `SubscriptionId` constructor. Only the four-argument one is part of this model. The model builds the id with no explicit subscription name.

## Findings

| source | as written | input that shows it | evidently intended | confidence | as-written member | corrected member |
|---|---|---|---|---|---|---|
| src/MessageBus.PubSub/Configuration/PubSubConfiguration.cs:112 | the subscription branch re-checks `Publishing.MessageRetentionDurationDays` instead of the subscription's own retention | project "p", no publishing section, subscription with suffix "app" (NullReferenceException); or publishing retention 7 with subscription retention 1 (accepted) | a subscription is validated on its own retention, at least 7 days, and a missing publishing section is never dereferenced | not executed | LegacyConfiguration.PubSubConfiguration.Validate (with LegacyConfiguration.ValidateDereferencesMissingPublishing and LegacyConfiguration.ValidateAcceptsShortSubscriptionRetention) | LegacyConfiguration.PubSubConfiguration.ValidateIntended |
