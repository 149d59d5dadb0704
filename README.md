# RabbitMQ declarations for Kapeta blocks, in Dafny

This project models the core of `sdk-go-rabbitmq`, the Go library that
connects a Kapeta block to RabbitMQ. A block definition declares:

- consumer exchanges (the exchanges a block publishes to);
- provider queues (the queues a block consumes from);
- binding groups, which tie rules to an exchange.

A rule names a destination, either a queue or an exchange. Its routing value
is either a routing-key string or a header-match object.

The model covers:

- **The binding resolver and the declaration builders** (`Declare`,
  `DeclareProperties`). For a destination type and name, `resolveBindings`
  computes the binding declarations the broker must hold and the exchange
  declarations those bindings need. `asExchange` and `asQueue` build the
  declaration records, and `getBindingHeaders` builds the `x-match` header
  table.
  - `Resolve` gives the meaning of the resolver as a function over ever
    longer prefixes of the groups and rules.
  - `ResolveBindings` is the imperative nested loop. It allocates one fresh
    pointer (`Types.Ref`) per declaration, as the Go code does, and is proved
    to agree with `Resolve`.
  - The lemmas prove resolver properties: when resolution succeeds, the
    shape of every binding, which exchanges are declared, and the error
    cases.
- **The shared helpers** (`Shared`):
  - the validity check applied after the block spec is decoded;
  - `dereferenceSlice`;
  - the vhost check-then-create, against a management client whose HTTP
    answers are fixed inputs and whose requests are logged;
  - the `ConnectToInstance` step.
- **The consumer** (`Consumer`):
  - the per-message ack/nack decision of `createHandler`;
  - the queue-selection loop, which demands exactly one queue;
  - the in-place rewrite of binding destinations for exclusive queues;
  - the whole `CreateConsumer` outcome, including the consumer tag.
- **The publisher** (`Publisher`):
  - the exchange-selection loop;
  - the per-instance connection cache, which connects at most once per
    distinct instance id;
  - the assembly of each library publisher, with the resolved exchanges
    followed by the publisher's own exchange;
  - the `Publish` loop, which stops at the first error;
  - the copying of per-message options.

External calls become explicit inputs:

- **Configuration provider lookups**: `lookup`, a `Result`.
- **JSON and mapstructure decoding**: the `spec: Result<BlockSpec>` field of
  an instance, the `Routing` variant `RoutingKey | HeaderObject(Option<...>) |
  Invalid`, a `decode` function for deliveries, and `data: Result<bytes>` for
  marshalling.
- **Management API answers**: the constant responses of `ManagementClient`.
- **Connection outcomes**: the `refused` map of `Shared.Connector`, which
  logs every attempt.
- **`NewPublisher`, `NewConsumer` and `publisher.Publish` outcomes**: maps and
  sequences of errors.
- **The client library's default publish options**: a `defaults` record.

Every error of the source is a constructor of `Types.Error`. A constructor
that carries a cause stands for the source's error wrapping
(`fmt.Errorf("...: %v", err)`).

Two behaviours of the code worth noting:

- **Exchange declarations.** An exchange is declared once per binding group
  that has a matching rule, not once per resolution. Two groups naming the
  same exchange both declare it (`DeclareProperties.SameExchangeInTwoGroups`).
- **Publisher exchanges.** The publisher side does not demand exactly one
  exchange per instance. Zero selected exchanges is an error, and several
  give one publisher each (`Publisher.PublisherPlanOk`).

## Model

| member | source | states |
|---|---|---|
| Declare.AsExchange | rabbitmq/declare.go:13-21 | name, durable, autoDelete and kind are copied from the resource; declare is always true |
| Declare.AsQueue | rabbitmq/declare.go:23-35 | the requested name is "" exactly when the queue is exclusive, otherwise the metadata name; durable, autoDelete and exclusive are copied; declare is always true |
| Declare.EqualFold | rabbitmq/declare.go:86 | equal strings fold-equal; fold-equal strings have the same length (comparison over ASCII letters) |
| Declare.HeaderArgs | rabbitmq/declare.go:37-59 | a routing value that is not an object is InvalidHeadersBinding, and an undecodable object is HeadersDecodeFailed; otherwise the table's keys are the user keys plus x-match, every other user value is kept, and x-match is "all" exactly when matchAll, else "any" |
| Declare.GetBindingHeaders | rabbitmq/declare.go:37-59 | the key-by-key copying loop followed by the x-match write yields HeaderArgs |
| Declare.FindExchange | rabbitmq/declare.go:67-73 | None exactly when no consumer has the name; otherwise the first consumer with that name |
| Declare.LookupExchange | rabbitmq/declare.go:67-73 | the lookup loop with its break returns FindExchange |
| Declare.BindingFor | rabbitmq/declare.go:92-121 | a matching rule's binding targets the destination, names the group's exchange and declares; a string routing gives that routing key and no args; an object routing gives an empty key and HeaderArgs as args, or HeaderArgs' error |
| Declare.GroupBindingsErrPersists | rabbitmq/declare.go:107-110 | a header error among the first k rules is the outcome of the whole group |
| Declare.ResolveGroupsErrPersists | rabbitmq/declare.go:74-76 | an error among the first k groups is the outcome of the whole resolution |
| Declare.RuleBindings | rabbitmq/declare.go:83-122 | the rule loop's error is GroupBindings' error; on success it yields fresh pointers to exactly GroupBindings' bindings |
| Declare.ResolveGroup | rabbitmq/declare.go:66-131 | one pass of the group loop extends the lists of references exactly as GroupStep extends the resolution, or returns its error |
| Declare.Resolve | rabbitmq/declare.go:62-134 | definition: the groups visited in order, each group looking up its exchange first and then turning each matching rule into a binding; the first error ends the resolution |
| Declare.ResolveBindings | rabbitmq/declare.go:62-134 | on error, Resolve's error and two empty lists; on success, fresh pointers to exactly Resolve's bindings and exchanges |
| DeclareProperties.GroupBindingsOkIff | rabbitmq/declare.go:85-121 | a group's rules yield bindings exactly when the routing value of every matching rule decodes |
| DeclareProperties.GroupBindingsOk | rabbitmq/declare.go:85-121 | a group yields one binding per matching rule, in rule order, each being BindingFor of that rule |
| DeclareProperties.GroupBindingsNoMatch | rabbitmq/declare.go:85-91 | with no matching rule a group yields no binding and no error |
| DeclareProperties.GroupStepOkIff | rabbitmq/declare.go:66-131 | a group is accepted exactly when its exchange is among the consumers and the routing value of every matching rule decodes |
| DeclareProperties.ResolveOkIff | rabbitmq/declare.go:62-134 | resolution succeeds exactly when every group is accepted |
| DeclareProperties.MissingExchangeFails | rabbitmq/declare.go:66-76 | a group naming an exchange that no consumer has makes resolution fail, wherever it stands and whether or not it has rules |
| DeclareProperties.MissingExchangeError | rabbitmq/declare.go:74-76 | when the groups before it resolve, that error is ExchangeNotFound |
| DeclareProperties.UndecodableRoutingFails | rabbitmq/declare.go:105-110 | a matching rule whose routing value does not decode makes the whole resolution fail |
| DeclareProperties.ResolveOk | rabbitmq/declare.go:62-134 | on success there is one binding per matching rule of all groups, in visiting order, each BindingFor of its rule and group exchange; the exchanges are those of the groups with a matching rule, in group order |
| DeclareProperties.ResolvedBindingFields | rabbitmq/declare.go:92-121 | every resolved binding carries the requested name and type, its group's exchange and declare; a routing key for string routing, else an empty key and the header table |
| DeclareProperties.ResolvedBindingsTarget | rabbitmq/declare.go:96-98 | every resolved binding carries the requested destination name and type |
| DeclareProperties.AllMatchesMatch | rabbitmq/declare.go:86-90 | every rule counted as matching passes the destination test |
| DeclareProperties.MatchingRulesMatch | rabbitmq/declare.go:86-90 | the matching rules of a group are exactly its rules that pass the destination test, in both directions |
| DeclareProperties.ContributingExchangesBound | rabbitmq/declare.go:124-130 | at most one exchange declaration per group |
| DeclareProperties.ResolutionClosed | rabbitmq/declare.go:124-130 | every declared exchange has a binding on it, and every binding's exchange is declared |
| DeclareProperties.NoMatchResolvesEmpty | rabbitmq/declare.go:62-64 | when every group's exchange exists and no rule matches, the result is two empty lists and no error |
| DeclareProperties.OrdersScenario | rabbitmq/declare.go:93-104 | one topic exchange with one routing-key rule for a queue resolves to exactly that binding and that exchange |
| DeclareProperties.SingleRuleGroup | rabbitmq/declare.go:93-104 | a group of one matching routing-key rule yields exactly its binding |
| DeclareProperties.OrdersScenarioUnknownQueue | rabbitmq/declare.go:133 | the same topology resolved for an unknown queue gives nothing and no error |
| DeclareProperties.TypeIsCaseInsensitive | rabbitmq/declare.go:86-87 | for every input: a rule type spelt like the destination type with any letters upper-cased matches, and a rule with a different name never matches |
| DeclareProperties.HeaderScenario | rabbitmq/declare.go:49-58 | a matchAll header rule gives its header plus x-match "all" |
| DeclareProperties.XMatchOverridesUserKey | rabbitmq/declare.go:50-58 | the mode written last replaces a user header named x-match |
| DeclareProperties.SameExchangeInTwoGroups | rabbitmq/declare.go:124-130 | two groups naming the same exchange, both with a matching rule, declare it twice |
| Shared.ToBlockSpec | rabbitmq/shared.go:90-111 | a decoding error is passed on; a decoded spec is accepted exactly when it has consumers, providers and a non-empty bindings list, and is then returned unchanged, else InvalidBlockDefinition |
| Shared.DereferenceSlice | rabbitmq/shared.go:113-119 | a fresh array of the same length whose i-th element is the i-th pointee |
| Shared.ManagementClient.GetQueues | rabbitmq/shared.go:52 | logs a GET for the vhost and returns the server's answer |
| Shared.ManagementClient.CreateVHost | rabbitmq/shared.go:67 | logs a PUT for the vhost and returns the server's answer |
| Shared.VHostOutcome | rabbitmq/shared.go:44-78 | definition: the vhost step's result for the two server answers; GET 200 gives the vhost, GET 404 defers to the PUT, anything else is the matching error |
| Shared.EnsureVHost | rabbitmq/shared.go:44-78 | the answer is VHostOutcome of the server's answers; the vhost is the instance id; GET 200 returns it with no PUT; a GET transport error or a status other than 200/404 is an error with no PUT; GET 404 issues the PUT, whose 200 returns the vhost and whose other answers are errors |
| Shared.VHostOutcomeOk | rabbitmq/shared.go:44-78 | the vhost step succeeds exactly when GET answers 200, or GET answers 404 and PUT answers 200, and then yields the instance's vhost |
| Shared.ConnectToInstance | rabbitmq/shared.go:14-24 | a failed operator lookup fails with its cause wrapped as OperatorLookupFailed and sends no request; otherwise the vhost check comes first, a failed vhost step is wrapped as EnsureVHostFailed, then the dial's error, else a connection on the instance's vhost |
| Shared.Connector.Connect | rabbitmq/publisher.go:77-80 | logs the attempt and answers the instance's connection outcome |
| Consumer.HandleDelivery | rabbitmq/consumer.go:98-116 | non-JSON content and an undecodable body are NackDiscard; otherwise a callback error is NackRequeue, else the callback's action |
| Consumer.DiscardIgnoresCallback | rabbitmq/consumer.go:100-109 | the discard decisions do not depend on the callback |
| Consumer.DecisionFollowsCallback | rabbitmq/consumer.go:110-114 | otherwise the decision depends only on the callback's answer for that payload |
| Consumer.FindQueue | rabbitmq/consumer.go:50-55 | None exactly when no provider has the name; otherwise the first provider with that name |
| Consumer.QueueForContract | rabbitmq/consumer.go:49-56 | a connection adds at most one queue, and one exactly when its consumer is the resource and a provider has its provider name; that queue is the first such provider |
| Consumer.SelectedQueuesBound | rabbitmq/consumer.go:49-57 | never more queues than connections |
| Consumer.SelectedQueuesOrigin | rabbitmq/consumer.go:49-57 | every selected queue is a provider queue named by a connection whose consumer is the resource |
| Consumer.SelectQueues | rabbitmq/consumer.go:47-57 | the nested loop with its break collects SelectedQueues |
| Consumer.ClearedDestinations | rabbitmq/consumer.go:73-78 | same length; each binding with its destination name set to "" and every other field kept |
| Consumer.ClearDestinations | rabbitmq/consumer.go:73-78 | through the references, every binding gets the destination name "" and keeps every other field |
| Consumer.ConsumerBindingsOfTargets | rabbitmq/consumer.go:69-78 | the rewrite, keyed on the requested name being "", happens exactly for exclusive queues; each binding keeps its declared exchange |
| Consumer.ConsumerBindingsOfResolution | rabbitmq/consumer.go:67-78 | a consumer's bindings are queue bindings named "" for an exclusive queue, else the queue's name, each on a declared exchange |
| Consumer.ConsumerSetup | rabbitmq/consumer.go:31-96 | definition: the lookup, spec check, connection, selection of exactly one queue, binding resolution and consumer start, in that order, each failing step giving its error; on success the consumer's connection, queue, tag, bindings and exchanges |
| Consumer.CreateConsumer | rabbitmq/consumer.go:31-96 | the outcome is ConsumerSetup; one connection is attempted, exactly when the lookup and the spec check succeed |
| Consumer.ConsumerSetupOk | rabbitmq/consumer.go:59-95 | success needs exactly one selected queue; the consumer uses the instance's connection, that queue's options and requested name, the tag instanceId + "_" + resourceName, and the exchanges resolved for that queue's metadata name |
| Consumer.QueueCountErrors | rabbitmq/consumer.go:59-65 | zero selected queues is NoQueuesFound, several is MultipleQueuesFound |
| Consumer.ConsumerBindings | rabbitmq/consumer.go:67-94 | the bindings are the resolved ones, cleared for an exclusive queue; each is a queue binding on a declared exchange |
| Publisher.ExchangeForContract | rabbitmq/publisher.go:87-94 | a connection adds at most one exchange, and one exactly when its provider is the resource and a consumer has its consumer name; that exchange is the first such consumer |
| Publisher.SelectedExchangesBound | rabbitmq/publisher.go:85-95 | never more exchanges than connections, each a consumer exchange |
| Publisher.SelectExchanges | rabbitmq/publisher.go:85-95 | the nested loop with its break collects SelectedExchanges |
| Publisher.PublisherForContract | rabbitmq/publisher.go:101-126 | a resolution error is ResolveFailed, then a NewPublisher refusal is PublisherCreateError; success means neither; the publisher uses the connection, the confirm flag and the definition's name, and declares the resolved exchanges followed by its own |
| Publisher.PublisherForShape | rabbitmq/publisher.go:101-120 | the own exchange comes last; every binding targets the definition's exchange; every other declared exchange has a binding on it |
| Publisher.DefinitionPublishersErrPersists | rabbitmq/publisher.go:106-108 | a failure among the first k definitions is the outcome for the instance |
| Publisher.PublisherPlanErrPersists | rabbitmq/publisher.go:70-99 | a failure among the first k instances is the outcome of the loop |
| Publisher.DefinitionPublishersOk | rabbitmq/publisher.go:101-127 | one publisher per definition, in order |
| Publisher.PlanStepOk | rabbitmq/publisher.go:70-128 | a successful visit had a valid spec and an accepted connection, and appends one publisher per selected definition |
| Publisher.PlanStepAccepted | rabbitmq/publisher.go:70-99 | a successful visit had a valid spec, an accepted connection and at least one selected exchange |
| Publisher.PublisherPlanInstancesOk | rabbitmq/publisher.go:70-99 | on success every instance had a valid spec, an accepted connection and at least one selected exchange |
| Publisher.PublisherPlanOk | rabbitmq/publisher.go:70-128 | on success there is one publisher per selected definition of every instance, in visiting order, each built for its definition |
| Publisher.NoExchangeDefinitionsFails | rabbitmq/publisher.go:97-99 | an instance with no selected exchange makes the loop fail |
| Publisher.CreatePublisherOutcomeCases | rabbitmq/publisher.go:58-133 | a failed lookup is ProviderLookupError and an empty one is NoInstancesFound; on success the AppId is instanceId + "_" + resourceName and the publishers are one per selected definition |
| Publisher.CreateDefinitionPublisher | rabbitmq/publisher.go:102-126 | resolving, appending the own exchange and dereferencing gives PublisherFor |
| Publisher.CreateInstancePublishers | rabbitmq/publisher.go:85-127 | selecting and then creating per definition gives InstancePublishers |
| Publisher.ConnectCached | rabbitmq/publisher.go:76-83 | a cached id reuses its connection and attempts nothing; an uncached id is attempted once and cached when it succeeds |
| Publisher.VisitInstance | rabbitmq/publisher.go:71-127 | one visit gives PlanStep; a spec error or a cached id attempts nothing; otherwise one attempt, cached on success |
| Publisher.CacheBookkeeping | rabbitmq/publisher.go:76-83 | after a visit no id has been attempted twice, and every attempted id is a visited one |
| Publisher.VisitTracked | rabbitmq/publisher.go:70-128 | a visit carries the loop state (the outcome so far, a cache tracking exactly the attempted ids) from the first i instances to the first i + 1, and a failed visit is the outcome of the whole loop |
| Publisher.VisitedAll | rabbitmq/publisher.go:70-128 | after the last instance the loop's publishers are the plan of all instances, and every instance id was attempted exactly once |
| Publisher.PublisherPlan | rabbitmq/publisher.go:67-128 | definition: the instances visited in order, each appending its publishers; the first failing instance ends the loop |
| Publisher.CreateAllPublishers | rabbitmq/publisher.go:67-128 | the instance loop gives PublisherPlan; the connections it attempts are appended to the connector's log, none for the same instance id twice and each for one of the instances, and on success one for every instance id |
| Publisher.CreatePublisherOutcome | rabbitmq/publisher.go:54-134 | definition: a lookup error or an empty lookup fails; otherwise the plan's publishers with AppId instance id "_" resource name |
| Publisher.CreatePublisherWithOptions | rabbitmq/publisher.go:54-134 | the outcome is CreatePublisherOutcome; earlier attempts are kept; new attempts are distinct instance ids of the lookup, none when the lookup fails, and every instance id on success |
| Publisher.WithPayloadOptions | rabbitmq/publisher.go:155-167 | no payload options leave the options unchanged; otherwise exactly the eight settings are copied, and Mandatory, Immediate and the rest are kept |
| Publisher.ApplyPayloadOptions | rabbitmq/publisher.go:155-167 | the field-by-field writes through the reference give WithPayloadOptions of the old options |
| Publisher.MessageOptions | rabbitmq/publisher.go:151-167 | every message has the AppId, content type application/json, encoding utf-8 and the payload's headers; Mandatory and Immediate are the library defaults |
| Publisher.FirstFailure | rabbitmq/publisher.go:147-172 | the index of the first failing publisher, or the count when none fails |
| Publisher.Publish | rabbitmq/publisher.go:141-175 | a marshal failure returns its error with no call; otherwise publishers are called in order, each with the one-element routing-key list and the message options, up to and including the first failure, whose error is returned |
| Publisher.FirstFailureSemantics | rabbitmq/publisher.go:169-171 | a failure preceded only by successes is the one reported |

## Left out

- rabbitmq/rest.go is not part of this model. The HTTP client, its Basic-auth header, its default management port and its retries are I/O; the management client's answers are inputs instead.
- `connect` and `getCredentials` (rabbitmq/shared.go:26-42,80-88) build an AMQP URL and dial the broker. `ConnectToInstance` takes their outcome as `connectError`.
- The publisher and consumer connect through `Shared.Connector`. It abstracts `ConnectToInstance` into its outcome per instance (`ConnectOutcome`), so the operator lookup and the vhost check are not repeated inside those models.
- JSON and mapstructure decoding (in toBlockSpec, getBindingHeaders and createHandler) and `json.Marshal` in Publish are not parsers here. Their outcomes are inputs.
- The `rmq`/`amqp` calls `NewConn`, `NewPublisher`, `NewConsumer` and `publisher.Publish` are represented by their outcomes. `Close` (rabbitmq/publisher.go:177-182) only forwards to the library and is left out.
- Connections opened before a later error are not closed in the source. Connection lifetimes are not modelled.
- The config-provider calls `GetInstancesForProvider`, `GetInstanceForConsumer`, `GetInstanceOperator` and `GetInstanceId` are inputs.
- Logging is left out. So is the wording of error messages: the model keeps which error wraps which cause, not the text.
- The transport errors of the HTTP client and the JSON decoder's errors are not modelled. `VHostCheckFailed` (rabbitmq/shared.go:54), `VHostCreateFailed` (rabbitmq/shared.go:69) and `HeadersDecodeFailed` (rabbitmq/declare.go:46) therefore carry no cause, where the source wraps one.
- `time.Time` is an abstract integer instant. Payload generics are replaced by bytes already marshalled or a decode function. Entity, payload-type and publisher/subscriber spec types are left out: the core does not use them.
- Declare.EqualFold: compares ASCII letters only, not full Unicode simple case folding. The destination type names "queue" and "exchange" contain neither k nor s. Those are the only ASCII letters that Unicode folding also matches with other characters (the Kelvin sign and the long s).
- The header table values are strings. A nil `Args` is the empty map.
- `Resolve` requires a non-nil `Bindings`: the source dereferences it unconditionally, and `ToBlockSpec` guarantees it.
- Publisher.Publish: requires one outcome per library publisher. Outcomes after the first failure are never consulted.
- Publisher.MessageOptions: the library's starting options record is an input (`defaults`). Its actual default values are not modelled.
