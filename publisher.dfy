/** The publisher side (rabbitmq/publisher.go). CreatePublisherWithOptions
    visits the provider's instances in order; for each it checks the block
    spec, connects (once per instance id, through a cache), selects the
    consumer exchanges its connections name, and creates one library
    publisher per selected exchange, declaring the resolved exchanges with the
    publisher's own exchange appended last. Publish sends one message through
    every library publisher in order and stops at the first error.

    `PublisherPlan` and `CreatePublisherOutcome` say what the creation
    computes; the methods follow the source's loops and are proved to compute
    it. The library's NewPublisher and Publish are external: their outcomes
    are inputs. */
module Publisher {
  import opened Types
  import opened Declare
  import opened DeclareProperties
  import opened Shared

  // ---- exchange selection ----

  /** What one connection contributes to the exchange definitions: the first
      consumer exchange it names, when it is a connection of this resource. */
  function ExchangeFor(connection: Connection, consumers: seq<ExchangeResource>, resourceName: string)
    : seq<ExchangeResource>
  {
    if connection.provider.resourceName != resourceName then []
    else match FindExchange(consumers, connection.consumer.resourceName)
         case None => []
         case Some(exchange) => [exchange]
  }

  /** The exchange definitions of one instance, in connection order. */
  function SelectedExchanges(connections: seq<Connection>, consumers: seq<ExchangeResource>,
                             resourceName: string): seq<ExchangeResource>
  {
    if |connections| == 0 then []
    else SelectedExchanges(connections[..|connections| - 1], consumers, resourceName)
         + ExchangeFor(connections[|connections| - 1], consumers, resourceName)
  }

  /** A connection contributes at most one exchange, and one exactly when it
      is a connection of the resource naming an existing consumer exchange;
      that exchange is the first consumer with the connection's consumer
      name. */
  lemma ExchangeForContract(connection: Connection, consumers: seq<ExchangeResource>, resourceName: string)
    ensures |ExchangeFor(connection, consumers, resourceName)| <= 1
    ensures |ExchangeFor(connection, consumers, resourceName)| == 1 <==>
      connection.provider.resourceName == resourceName
      && exists i :: 0 <= i < |consumers| && consumers[i].metadata.name == connection.consumer.resourceName
    ensures |ExchangeFor(connection, consumers, resourceName)| == 1 ==>
      ExchangeFor(connection, consumers, resourceName)[0]
      == FindExchange(consumers, connection.consumer.resourceName).value
  {
  }

  /** At most one exchange per connection, each of them a consumer exchange. */
  lemma {:induction false} SelectedExchangesBound(connections: seq<Connection>, consumers: seq<ExchangeResource>,
                                                  resourceName: string)
    ensures |SelectedExchanges(connections, consumers, resourceName)| <= |connections|
    ensures forall e :: e in SelectedExchanges(connections, consumers, resourceName) ==> e in consumers
  {
    if |connections| > 0 {
      var prefix := connections[..|connections| - 1];
      var last := connections[|connections| - 1];
      SelectedExchangesBound(prefix, consumers, resourceName);
      ExchangeForContract(last, consumers, resourceName);
      assert SelectedExchanges(connections, consumers, resourceName)
          == SelectedExchanges(prefix, consumers, resourceName) + ExchangeFor(last, consumers, resourceName);
    }
  }

  /** The exchange-selection loop: for every connection, the first matching
      consumer exchange, then `break`. */
  method SelectExchanges(connections: seq<Connection>, consumers: seq<ExchangeResource>, resourceName: string)
    returns (exchangeDefinitions: seq<ExchangeResource>)
    ensures exchangeDefinitions == SelectedExchanges(connections, consumers, resourceName)
  {
    exchangeDefinitions := [];
    var i := 0;
    while i < |connections|
      invariant 0 <= i <= |connections|
      invariant exchangeDefinitions == SelectedExchanges(connections[..i], consumers, resourceName)
    {
      var connection := connections[i];
      assert connections[..i + 1][..i] == connections[..i];
      var j := 0;
      while j < |consumers|
        invariant 0 <= j <= |consumers|
        invariant connection.provider.resourceName == resourceName ==>
          FindExchange(consumers[j..], connection.consumer.resourceName)
          == FindExchange(consumers, connection.consumer.resourceName)
        invariant exchangeDefinitions == SelectedExchanges(connections[..i], consumers, resourceName)
      {
        var exchange := consumers[j];
        if exchange.metadata.name == connection.consumer.resourceName
           && connection.provider.resourceName == resourceName {
          exchangeDefinitions := exchangeDefinitions + [exchange];
          break;
        }
        assert consumers[j..][1..] == consumers[j + 1..];
        j := j + 1;
      }
      assert j == |consumers| ==> consumers[j..] == [];
      assert exchangeDefinitions == SelectedExchanges(connections[..i + 1], consumers, resourceName);
      i := i + 1;
    }
    assert connections[..i] == connections;
  }

  // ---- what creation computes ----

  /** A library publisher as CreatePublisherWithOptions configures it. */
  datatype RmqPublisher = RmqPublisher(
    conn: Conn,
    confirm: bool,
    exchangeName: string,
    exchanges: seq<ExchangeOptions>,
    bindings: seq<Binding>)

  /** The Publisher value: the AppId stamped on every message and the
      library publishers, in creation order. */
  datatype Publisher = Publisher(appId: string, publishers: seq<RmqPublisher>)

  /** The library publisher for one selected exchange definition. The
      bindings are resolved onto that exchange; the declared exchanges are the
      resolved ones followed by the publisher's own. `refusedPublishers`
      gives the instance/exchange pairs for which NewPublisher fails. */
  function PublisherFor(instanceId: string, spec: BlockSpec, conn: Conn, definition: ExchangeResource,
                        confirm: bool, refusedPublishers: map<(string, string), Error>): Result<RmqPublisher>
    requires spec.bindings.Some?
  {
    var exchange := AsExchange(definition);
    var resolved := Resolve(spec, ExchangeDestination, exchange.name);
    if resolved.Err? then Err(ResolveFailed(resolved.error))
    else if (instanceId, exchange.name) in refusedPublishers
    then Err(PublisherCreateError(refusedPublishers[(instanceId, exchange.name)]))
    else Ok(RmqPublisher(conn, confirm, exchange.name, resolved.value.exchanges + [exchange], resolved.value.bindings))
  }

  /** The publishers of a list of exchange definitions, up to the first
      failure. */
  function DefinitionPublishers(instanceId: string, spec: BlockSpec, conn: Conn, definitions: seq<ExchangeResource>,
                                confirm: bool, refusedPublishers: map<(string, string), Error>)
    : Result<seq<RmqPublisher>>
    requires spec.bindings.Some?
  {
    if |definitions| == 0 then Ok([])
    else match DefinitionPublishers(instanceId, spec, conn, definitions[..|definitions| - 1], confirm, refusedPublishers)
         case Err(e) => Err(e)
         case Ok(ps) =>
           match PublisherFor(instanceId, spec, conn, definitions[|definitions| - 1], confirm, refusedPublishers)
           case Err(e) => Err(e)
           case Ok(p) => Ok(ps + [p])
  }

  /** The publishers of one instance: an instance whose connections select no
      exchange is an error. */
  function InstancePublishers(instance: BlockInstanceDetails, spec: BlockSpec, conn: Conn, resourceName: string,
                              confirm: bool, refusedPublishers: map<(string, string), Error>)
    : Result<seq<RmqPublisher>>
    requires spec.bindings.Some?
  {
    var definitions := SelectedExchanges(instance.connections, spec.consumers, resourceName);
    if |definitions| == 0 then Err(NoExchangeDefinitions(resourceName))
    else DefinitionPublishers(instance.instanceId, spec, conn, definitions, confirm, refusedPublishers)
  }

  /** One visit of the instance loop, given the publishers created so far. */
  function PlanStep(acc: seq<RmqPublisher>, instance: BlockInstanceDetails, refused: map<string, Error>,
                    refusedPublishers: map<(string, string), Error>, resourceName: string, confirm: bool)
    : Result<seq<RmqPublisher>>
  {
    match ToBlockSpec(instance)
    case Err(e) => Err(BlockSpecError(e))
    case Ok(spec) =>
      match ConnectOutcome(refused, instance.instanceId)
      case Err(e) => Err(ConnectError(e))
      case Ok(conn) =>
        match InstancePublishers(instance, spec, conn, resourceName, confirm, refusedPublishers)
        case Err(e) => Err(e)
        case Ok(ps) => Ok(acc + ps)
  }

  /** The instance loop: the publishers of all instances in visiting order,
      or the first error. */
  function PublisherPlan(instances: seq<BlockInstanceDetails>, refused: map<string, Error>,
                         refusedPublishers: map<(string, string), Error>, resourceName: string, confirm: bool)
    : Result<seq<RmqPublisher>>
  {
    if |instances| == 0 then Ok([])
    else match PublisherPlan(instances[..|instances| - 1], refused, refusedPublishers, resourceName, confirm)
         case Err(e) => Err(e)
         case Ok(acc) => PlanStep(acc, instances[|instances| - 1], refused, refusedPublishers, resourceName, confirm)
  }

  /** The outcome of CreatePublisherWithOptions. `lookup` is the
      configuration provider's answer for the resource and
      `configInstanceId` the id of the running instance. */
  function CreatePublisherOutcome(lookup: Result<seq<BlockInstanceDetails>>, refused: map<string, Error>,
                                  refusedPublishers: map<(string, string), Error>,
                                  configInstanceId: string, resourceName: string, confirm: bool): Result<Publisher>
  {
    if lookup.Err? then Err(ProviderLookupError(lookup.error))
    else if |lookup.value| == 0 then Err(NoInstancesFound(resourceName))
    else match PublisherPlan(lookup.value, refused, refusedPublishers, resourceName, confirm)
         case Err(e) => Err(e)
         case Ok(ps) => Ok(Publisher(configInstanceId + "_" + resourceName, ps))
  }

  // ---- the error paths stop the loops ----

  lemma {:induction false} DefinitionPublishersErrPersists(instanceId: string, spec: BlockSpec, conn: Conn,
                                                           definitions: seq<ExchangeResource>, k: nat, confirm: bool,
                                                           refusedPublishers: map<(string, string), Error>)
    requires spec.bindings.Some?
    requires k <= |definitions|
    requires DefinitionPublishers(instanceId, spec, conn, definitions[..k], confirm, refusedPublishers).Err?
    ensures DefinitionPublishers(instanceId, spec, conn, definitions, confirm, refusedPublishers)
         == DefinitionPublishers(instanceId, spec, conn, definitions[..k], confirm, refusedPublishers)
    decreases |definitions| - k
  {
    if k < |definitions| {
      assert definitions[..k + 1][..k] == definitions[..k];
      DefinitionPublishersErrPersists(instanceId, spec, conn, definitions, k + 1, confirm, refusedPublishers);
    } else {
      assert definitions[..k] == definitions;
    }
  }

  lemma {:induction false} PublisherPlanErrPersists(instances: seq<BlockInstanceDetails>, k: nat,
                                                    refused: map<string, Error>,
                                                    refusedPublishers: map<(string, string), Error>,
                                                    resourceName: string, confirm: bool)
    requires k <= |instances|
    requires PublisherPlan(instances[..k], refused, refusedPublishers, resourceName, confirm).Err?
    ensures PublisherPlan(instances, refused, refusedPublishers, resourceName, confirm)
         == PublisherPlan(instances[..k], refused, refusedPublishers, resourceName, confirm)
    decreases |instances| - k
  {
    if k < |instances| {
      assert instances[..k + 1][..k] == instances[..k];
      PublisherPlanErrPersists(instances, k + 1, refused, refusedPublishers, resourceName, confirm);
    } else {
      assert instances[..k] == instances;
    }
  }

  // ---- properties of the plan ----

  /** On success, one publisher per definition, in order. */
  lemma {:induction false} DefinitionPublishersOk(instanceId: string, spec: BlockSpec, conn: Conn,
                                                  definitions: seq<ExchangeResource>, confirm: bool,
                                                  refusedPublishers: map<(string, string), Error>)
    requires spec.bindings.Some?
    requires DefinitionPublishers(instanceId, spec, conn, definitions, confirm, refusedPublishers).Ok?
    ensures var ps := DefinitionPublishers(instanceId, spec, conn, definitions, confirm, refusedPublishers).value;
      && |ps| == |definitions|
      && forall i :: 0 <= i < |ps| ==>
           PublisherFor(instanceId, spec, conn, definitions[i], confirm, refusedPublishers) == Ok(ps[i])
  {
    if |definitions| > 0 {
      var prefix := definitions[..|definitions| - 1];
      DefinitionPublishersOk(instanceId, spec, conn, prefix, confirm, refusedPublishers);
    }
  }

  /** A selected exchange definition of an instance: the unit for which one
      library publisher is created. */
  datatype Target = Target(instance: BlockInstanceDetails, definition: ExchangeResource)

  /** The selected definitions of one instance. */
  function TargetsOf(instance: BlockInstanceDetails, resourceName: string): (r: seq<Target>)
    ensures ToBlockSpec(instance).Ok? ==>
      var definitions := SelectedExchanges(instance.connections, ToBlockSpec(instance).value.consumers, resourceName);
      |r| == |definitions| && forall i :: 0 <= i < |r| ==> r[i] == Target(instance, definitions[i])
  {
    match ToBlockSpec(instance)
    case Err(_) => []
    case Ok(spec) =>
      var definitions := SelectedExchanges(instance.connections, spec.consumers, resourceName);
      seq(|definitions|, i requires 0 <= i < |definitions| => Target(instance, definitions[i]))
  }

  /** The selected definitions of all instances, in visiting order. */
  function Targets(instances: seq<BlockInstanceDetails>, resourceName: string): seq<Target>
  {
    if |instances| == 0 then []
    else Targets(instances[..|instances| - 1], resourceName) + TargetsOf(instances[|instances| - 1], resourceName)
  }

  /** The publisher created for a target. */
  predicate Realizes(t: Target, p: RmqPublisher, confirm: bool, refusedPublishers: map<(string, string), Error>)
  {
    && ToBlockSpec(t.instance).Ok?
    && PublisherFor(t.instance.instanceId, ToBlockSpec(t.instance).value, Conn(t.instance.instanceId),
                    t.definition, confirm, refusedPublishers) == Ok(p)
  }

  /** One successful visit: the instance had a valid spec, an accepted
      connection and selected exchanges, and it adds one publisher per
      selected definition. */
  lemma PlanStepOk(acc: seq<RmqPublisher>, instance: BlockInstanceDetails, refused: map<string, Error>,
                   refusedPublishers: map<(string, string), Error>, resourceName: string, confirm: bool)
    requires PlanStep(acc, instance, refused, refusedPublishers, resourceName, confirm).Ok?
    ensures ToBlockSpec(instance).Ok? && instance.instanceId !in refused
    ensures var ps := PlanStep(acc, instance, refused, refusedPublishers, resourceName, confirm).value;
      var ts := TargetsOf(instance, resourceName);
      && |ps| == |acc| + |ts|
      && ps[..|acc|] == acc
      && forall i :: 0 <= i < |ts| ==> Realizes(ts[i], ps[|acc| + i], confirm, refusedPublishers)
  {
    var spec := ToBlockSpec(instance).value;
    var conn := Conn(instance.instanceId);
    var definitions := SelectedExchanges(instance.connections, spec.consumers, resourceName);
    DefinitionPublishersOk(instance.instanceId, spec, conn, definitions, confirm, refusedPublishers);
    var qs := DefinitionPublishers(instance.instanceId, spec, conn, definitions, confirm, refusedPublishers).value;
    var ps := PlanStep(acc, instance, refused, refusedPublishers, resourceName, confirm).value;
    assert ps == acc + qs;
    forall i | 0 <= i < |qs|
      ensures Realizes(TargetsOf(instance, resourceName)[i], ps[|acc| + i], confirm, refusedPublishers)
    {
      assert ps[|acc| + i] == qs[i];
    }
  }

  /** An instance the creation gets through: valid spec, accepted
      connection, at least one selected exchange. */
  predicate InstanceAccepted(instance: BlockInstanceDetails, refused: map<string, Error>, resourceName: string)
  {
    && ToBlockSpec(instance).Ok?
    && instance.instanceId !in refused
    && |SelectedExchanges(instance.connections, ToBlockSpec(instance).value.consumers, resourceName)| > 0
  }

  lemma PlanStepAccepted(acc: seq<RmqPublisher>, instance: BlockInstanceDetails, refused: map<string, Error>,
                         refusedPublishers: map<(string, string), Error>, resourceName: string, confirm: bool)
    requires PlanStep(acc, instance, refused, refusedPublishers, resourceName, confirm).Ok?
    ensures InstanceAccepted(instance, refused, resourceName)
  {
  }

  /** On success, every instance had a valid spec, an accepted connection
      and at least one selected exchange. */
  lemma {:induction false} PublisherPlanInstancesOk(instances: seq<BlockInstanceDetails>, refused: map<string, Error>,
                                                    refusedPublishers: map<(string, string), Error>,
                                                    resourceName: string, confirm: bool)
    requires PublisherPlan(instances, refused, refusedPublishers, resourceName, confirm).Ok?
    ensures forall instance :: instance in instances ==> InstanceAccepted(instance, refused, resourceName)
  {
    if |instances| > 0 {
      var n := |instances| - 1;
      var prefix := instances[..n];
      PublisherPlanInstancesOk(prefix, refused, refusedPublishers, resourceName, confirm);
      var acc := PublisherPlan(prefix, refused, refusedPublishers, resourceName, confirm).value;
      PlanStepAccepted(acc, instances[n], refused, refusedPublishers, resourceName, confirm);
      assert instances == prefix + [instances[n]];
    }
  }

  /** On success, the publishers are exactly one per selected definition
      over all instances, in visiting order, each on its instance's
      connection. */
  lemma {:induction false} PublisherPlanOk(instances: seq<BlockInstanceDetails>, refused: map<string, Error>,
                                           refusedPublishers: map<(string, string), Error>,
                                           resourceName: string, confirm: bool)
    requires PublisherPlan(instances, refused, refusedPublishers, resourceName, confirm).Ok?
    ensures var ps := PublisherPlan(instances, refused, refusedPublishers, resourceName, confirm).value;
      var ts := Targets(instances, resourceName);
      && |ps| == |ts|
      && forall i :: 0 <= i < |ps| ==> Realizes(ts[i], ps[i], confirm, refusedPublishers)
  {
    if |instances| > 0 {
      var n := |instances| - 1;
      var prefix := instances[..n];
      var last := instances[n];
      PublisherPlanOk(prefix, refused, refusedPublishers, resourceName, confirm);
      var acc := PublisherPlan(prefix, refused, refusedPublishers, resourceName, confirm).value;
      PlanStepOk(acc, last, refused, refusedPublishers, resourceName, confirm);
      var ps := PublisherPlan(instances, refused, refusedPublishers, resourceName, confirm).value;
      assert ps == PlanStep(acc, last, refused, refusedPublishers, resourceName, confirm).value;
      assert Targets(instances, resourceName) == Targets(prefix, resourceName) + TargetsOf(last, resourceName);
      RealizesConcat(Targets(prefix, resourceName), TargetsOf(last, resourceName), acc, ps, confirm, refusedPublishers);
    }
  }

  lemma RealizesConcat(ts1: seq<Target>, ts2: seq<Target>, ps1: seq<RmqPublisher>, ps: seq<RmqPublisher>,
                       confirm: bool, refusedPublishers: map<(string, string), Error>)
    requires |ts1| == |ps1| && forall i :: 0 <= i < |ps1| ==> Realizes(ts1[i], ps1[i], confirm, refusedPublishers)
    requires |ps| == |ps1| + |ts2| && ps[..|ps1|] == ps1
    requires forall i :: 0 <= i < |ts2| ==> Realizes(ts2[i], ps[|ps1| + i], confirm, refusedPublishers)
    ensures |ps| == |ts1 + ts2|
    ensures forall i :: 0 <= i < |ps| ==> Realizes((ts1 + ts2)[i], ps[i], confirm, refusedPublishers)
  {
    forall i | 0 <= i < |ps|
      ensures Realizes((ts1 + ts2)[i], ps[i], confirm, refusedPublishers)
    {
      if i < |ps1| {
        assert ps[i] == ps[..|ps1|][i];
      } else {
        assert ps[i] == ps[|ps1| + (i - |ps1|)];
      }
    }
  }

  /** The outcome of PublisherFor: a resolution error, then a refusal of
      NewPublisher, are errors; otherwise the publisher is on the given
      connection, publishes to the definition's exchange, carries the
      resolved bindings, and declares the resolved exchanges followed by its
      own. */
  lemma PublisherForContract(instanceId: string, spec: BlockSpec, conn: Conn, definition: ExchangeResource,
                             confirm: bool, refusedPublishers: map<(string, string), Error>)
    requires spec.bindings.Some?
    ensures var r := PublisherFor(instanceId, spec, conn, definition, confirm, refusedPublishers);
      var resolved := Resolve(spec, ExchangeDestination, definition.metadata.name);
      && (resolved.Err? ==> r == Err(ResolveFailed(resolved.error)))
      && (resolved.Ok? && (instanceId, definition.metadata.name) in refusedPublishers ==>
            r == Err(PublisherCreateError(refusedPublishers[(instanceId, definition.metadata.name)])))
      && (r.Ok? <==> resolved.Ok? && (instanceId, definition.metadata.name) !in refusedPublishers)
      && (r.Ok? ==>
            && r.value.conn == conn && r.value.confirm == confirm
            && r.value.exchangeName == definition.metadata.name
            && r.value.bindings == resolved.value.bindings
            && r.value.exchanges == resolved.value.exchanges + [AsExchange(definition)])
  {
  }

  /** Every created publisher publishes to its definition's exchange, binds
      onto that exchange only, and declares its own exchange last, after
      exchanges that all carry one of its bindings. */
  lemma PublisherForShape(instanceId: string, spec: BlockSpec, conn: Conn, definition: ExchangeResource,
                          confirm: bool, refusedPublishers: map<(string, string), Error>)
    requires spec.bindings.Some?
    requires PublisherFor(instanceId, spec, conn, definition, confirm, refusedPublishers).Ok?
    ensures var p := PublisherFor(instanceId, spec, conn, definition, confirm, refusedPublishers).value;
      && p.exchangeName == definition.metadata.name
      && |p.exchanges| > 0 && p.exchanges[|p.exchanges| - 1] == AsExchange(definition)
      && (forall b :: b in p.bindings ==>
            b.destinationType == ExchangeDestination && b.destinationName == definition.metadata.name)
      && (forall e :: e in p.exchanges[..|p.exchanges| - 1] ==>
            exists b :: b in p.bindings && b.exchangeName == e.name)
  {
    var groups := spec.bindings.value.exchanges;
    PublisherForContract(instanceId, spec, conn, definition, confirm, refusedPublishers);
    ResolvedBindingsTarget(groups, spec.consumers, ExchangeDestination, definition.metadata.name);
    ResolutionClosed(groups, spec.consumers, ExchangeDestination, definition.metadata.name);
    var p := PublisherFor(instanceId, spec, conn, definition, confirm, refusedPublishers).value;
    assert p.exchanges[..|p.exchanges| - 1]
        == Resolve(spec, ExchangeDestination, definition.metadata.name).value.exchanges;
  }

  /** An instance whose spec and connection are accepted but whose
      connections select no exchange makes the whole creation fail. */
  lemma NoExchangeDefinitionsFails(instances: seq<BlockInstanceDetails>, k: nat, refused: map<string, Error>,
                                   refusedPublishers: map<(string, string), Error>,
                                   resourceName: string, confirm: bool)
    requires k < |instances|
    requires ToBlockSpec(instances[k]).Ok? && instances[k].instanceId !in refused
    requires |SelectedExchanges(instances[k].connections, ToBlockSpec(instances[k]).value.consumers, resourceName)| == 0
    ensures PublisherPlan(instances, refused, refusedPublishers, resourceName, confirm).Err?
  {
    assert instances[..k + 1][..k] == instances[..k];
    assert instances[..k + 1][k] == instances[k];
    PublisherPlanErrPersists(instances, k + 1, refused, refusedPublishers, resourceName, confirm);
  }

  /** The outcome of creation as a whole: a failed lookup and an empty one
      are errors; on success the AppId is the running instance's id joined to
      the resource name, and there is one publisher per selected exchange
      definition of every instance, in visiting order. */
  lemma CreatePublisherOutcomeCases(lookup: Result<seq<BlockInstanceDetails>>, refused: map<string, Error>,
                                    refusedPublishers: map<(string, string), Error>,
                                    configInstanceId: string, resourceName: string, confirm: bool)
    ensures lookup.Err? ==>
      CreatePublisherOutcome(lookup, refused, refusedPublishers, configInstanceId, resourceName, confirm)
      == Err(ProviderLookupError(lookup.error))
    ensures lookup == Ok([]) ==>
      CreatePublisherOutcome(lookup, refused, refusedPublishers, configInstanceId, resourceName, confirm)
      == Err(NoInstancesFound(resourceName))
    ensures CreatePublisherOutcome(lookup, refused, refusedPublishers, configInstanceId, resourceName, confirm).Ok? ==>
      var p := CreatePublisherOutcome(lookup, refused, refusedPublishers, configInstanceId, resourceName, confirm).value;
      var ts := Targets(lookup.value, resourceName);
      && |lookup.value| > 0
      && p.appId == configInstanceId + "_" + resourceName
      && |p.publishers| == |ts|
      && (forall i :: 0 <= i < |ts| ==> Realizes(ts[i], p.publishers[i], confirm, refusedPublishers))
      && (forall instance :: instance in lookup.value ==> InstanceAccepted(instance, refused, resourceName))
  {
    if CreatePublisherOutcome(lookup, refused, refusedPublishers, configInstanceId, resourceName, confirm).Ok? {
      PublisherPlanOk(lookup.value, refused, refusedPublishers, resourceName, confirm);
      PublisherPlanInstancesOk(lookup.value, refused, refusedPublishers, resourceName, confirm);
    }
  }

  // ---- the creation loops ----

  /** The publisher for one exchange definition: resolve, append the own
      exchange, dereference, and create. */
  method CreateDefinitionPublisher(instanceId: string, spec: BlockSpec, conn: Conn, exchangeDefinition: ExchangeResource,
                                   confirm: bool, refusedPublishers: map<(string, string), Error>)
    returns (r: Result<RmqPublisher>)
    requires spec.bindings.Some?
    ensures r == PublisherFor(instanceId, spec, conn, exchangeDefinition, confirm, refusedPublishers)
  {
    var exchange := AsExchange(exchangeDefinition);
    var bindings, exchanges, err := ResolveBindings(spec, ExchangeDestination, exchange.name);
    if err.Some? {
      return Err(ResolveFailed(err.value));
    }
    ghost var resolved := Resolve(spec, ExchangeDestination, exchange.name).value;
    var own := new Ref(exchange);
    PointsToConcat(exchanges, resolved.exchanges, [own], [exchange]);
    exchanges := exchanges + [own];
    var exchangeName := exchange.name;
    var exchangeValues := DereferenceSlice(exchanges);
    var bindingValues := DereferenceSlice(bindings);
    if (instanceId, exchangeName) in refusedPublishers {
      return Err(PublisherCreateError(refusedPublishers[(instanceId, exchangeName)]));
    }
    assert exchangeValues[..] == resolved.exchanges + [exchange];
    assert bindingValues[..] == resolved.bindings;
    return Ok(RmqPublisher(conn, confirm, exchangeName, exchangeValues[..], bindingValues[..]));
  }

  lemma DefinitionPublishersSnoc(instanceId: string, spec: BlockSpec, conn: Conn, definitions: seq<ExchangeResource>,
                                 k: nat, acc: seq<RmqPublisher>, confirm: bool,
                                 refusedPublishers: map<(string, string), Error>)
    requires spec.bindings.Some?
    requires k < |definitions|
    requires DefinitionPublishers(instanceId, spec, conn, definitions[..k], confirm, refusedPublishers) == Ok(acc)
    ensures DefinitionPublishers(instanceId, spec, conn, definitions[..k + 1], confirm, refusedPublishers)
         == match PublisherFor(instanceId, spec, conn, definitions[k], confirm, refusedPublishers)
            case Err(e) => Err(e)
            case Ok(p) => Ok(acc + [p])
  {
    assert definitions[..k + 1][..k] == definitions[..k];
    assert definitions[..k + 1][k] == definitions[k];
  }

  /** The publishers of one instance: select its exchange definitions, then
      create one publisher per definition, stopping at the first error. */
  method CreateInstancePublishers(instance: BlockInstanceDetails, spec: BlockSpec, conn: Conn, resourceName: string,
                                  confirm: bool, refusedPublishers: map<(string, string), Error>)
    returns (r: Result<seq<RmqPublisher>>)
    requires spec.bindings.Some?
    ensures r == InstancePublishers(instance, spec, conn, resourceName, confirm, refusedPublishers)
  {
    var exchangeDefinitions := SelectExchanges(instance.connections, spec.consumers, resourceName);
    if |exchangeDefinitions| == 0 {
      return Err(NoExchangeDefinitions(resourceName));
    }
    var publishers: seq<RmqPublisher> := [];
    var k := 0;
    while k < |exchangeDefinitions|
      invariant 0 <= k <= |exchangeDefinitions|
      invariant DefinitionPublishers(instance.instanceId, spec, conn, exchangeDefinitions[..k], confirm, refusedPublishers)
             == Ok(publishers)
    {
      DefinitionPublishersSnoc(instance.instanceId, spec, conn, exchangeDefinitions, k, publishers,
                               confirm, refusedPublishers);
      var publisher := CreateDefinitionPublisher(instance.instanceId, spec, conn, exchangeDefinitions[k],
                                                 confirm, refusedPublishers);
      if publisher.Err? {
        DefinitionPublishersErrPersists(instance.instanceId, spec, conn, exchangeDefinitions, k + 1,
                                        confirm, refusedPublishers);
        return Err(publisher.error);
      }
      publishers := publishers + [publisher.value];
      k := k + 1;
    }
    assert exchangeDefinitions[..k] == exchangeDefinitions;
    return Ok(publishers);
  }

  /** No id occurs twice. */
  predicate Distinct(ids: seq<string>)
  {
    forall i, j :: 0 <= i < j < |ids| ==> ids[i] != ids[j]
  }

  /** The connection cache: connect only when the instance id has no cached
      connection. A cached connection is one that succeeded. */
  method ConnectCached(connector: Connector, connections: map<string, Conn>, instanceId: string)
    returns (conn: Result<Conn>, cached: map<string, Conn>)
    requires CacheValid(connections, connector.refused)
    modifies connector
    ensures conn == ConnectOutcome(connector.refused, instanceId)
    ensures instanceId in connections ==> cached == connections && connector.attempts == old(connector.attempts)
    ensures instanceId !in connections ==>
      connector.attempts == old(connector.attempts) + [instanceId]
      && cached == (if conn.Ok? then connections[instanceId := conn.value] else connections)
    ensures CacheValid(cached, connector.refused)
  {
    cached := connections;
    if instanceId !in connections {
      conn := connector.Connect(instanceId);
      if conn.Err? {
        return;
      }
      cached := connections[instanceId := conn.value];
    }
    conn := Ok(cached[instanceId]);
  }

  /** The ids of the instances. */
  function InstanceIds(instances: seq<BlockInstanceDetails>): set<string>
  {
    set k | 0 <= k < |instances| :: instances[k].instanceId
  }

  /** A cache entry is a connection that succeeded, on the instance's vhost. */
  ghost predicate CacheValid(connections: map<string, Conn>, refused: map<string, Error>)
  {
    forall id :: id in connections ==> connections[id] == Conn(id) && id !in refused
  }

  /** One visit of the instance loop: check the spec, connect through the
      cache, create the instance's publishers after those made so far. */
  method VisitInstance(connector: Connector, connections: map<string, Conn>, instance: BlockInstanceDetails,
                       publishers: seq<RmqPublisher>, refusedPublishers: map<(string, string), Error>,
                       resourceName: string, confirm: bool)
    returns (r: Result<seq<RmqPublisher>>, cached: map<string, Conn>)
    requires CacheValid(connections, connector.refused)
    modifies connector
    ensures r == PlanStep(publishers, instance, connector.refused, refusedPublishers, resourceName, confirm)
    ensures r.Ok? ==> ToBlockSpec(instance).Ok? && instance.instanceId !in connector.refused
    ensures CacheValid(cached, connector.refused)
    ensures ToBlockSpec(instance).Err? || instance.instanceId in connections ==>
      cached == connections && connector.attempts == old(connector.attempts)
    ensures ToBlockSpec(instance).Ok? && instance.instanceId !in connections ==>
      connector.attempts == old(connector.attempts) + [instance.instanceId]
      && cached == (if instance.instanceId in connector.refused then connections
                    else connections[instance.instanceId := Conn(instance.instanceId)])
  {
    cached := connections;
    var blockSpec := ToBlockSpec(instance);
    if blockSpec.Err? {
      return Err(BlockSpecError(blockSpec.error)), cached;
    }
    var conn;
    conn, cached := ConnectCached(connector, connections, instance.instanceId);
    if conn.Err? {
      return Err(ConnectError(conn.error)), cached;
    }
    var created := CreateInstancePublishers(instance, blockSpec.value, conn.value, resourceName,
                                            confirm, refusedPublishers);
    if created.Err? {
      return Err(created.error), cached;
    }
    return Ok(publishers + created.value), cached;
  }

  /** The cache after visiting instances with the ids `visited`: its
      entries are exactly the ids in `log`, the connections attempted so far,
      and those are exactly the visited ids, each attempted once. */
  ghost predicate CacheTracks(connections: map<string, Conn>, log: seq<string>,
                              visited: set<string>, refused: map<string, Error>)
  {
    && CacheValid(connections, refused)
    && (forall x :: x in connections <==> x in log)
    && (forall x :: x in connections <==> x in visited)
    && Distinct(log)
  }

  /** The cache bookkeeping of one visit that attempted `added`: no id is
      connected twice, every connected id is a visited one, and after a
      successful connect the cache tracks the visited ids. */
  lemma CacheBookkeeping(connections: map<string, Conn>, cached: map<string, Conn>,
                         log: seq<string>, added: seq<string>, id: string, visited: set<string>,
                         refused: map<string, Error>)
    requires CacheTracks(connections, log, visited, refused)
    requires CacheValid(cached, refused)
    requires || (added == [] && cached == connections)
             || (id !in connections && added == [id]
                 && (cached == connections || cached == connections[id := Conn(id)]))
    ensures ConnectLog(log + added, visited + {id})
    ensures (id in connections && added == [] && cached == connections)
            || (id !in connections && added == [id] && cached == connections[id := Conn(id)]) ==>
      CacheTracks(cached, log + added, visited + {id}, refused)
  {
    if added == [] {
      assert log + added == log;
    } else {
      forall i, j | 0 <= i < j < |log| + 1
        ensures (log + [id])[i] != (log + [id])[j]
      {
        if j == |log| {
          assert log[i] in log;
        }
      }
    }
  }

  lemma PublisherPlanSnoc(instances: seq<BlockInstanceDetails>, i: nat, acc: seq<RmqPublisher>,
                          refused: map<string, Error>, refusedPublishers: map<(string, string), Error>,
                          resourceName: string, confirm: bool)
    requires i < |instances|
    requires PublisherPlan(instances[..i], refused, refusedPublishers, resourceName, confirm) == Ok(acc)
    ensures PublisherPlan(instances[..i + 1], refused, refusedPublishers, resourceName, confirm)
         == PlanStep(acc, instances[i], refused, refusedPublishers, resourceName, confirm)
  {
    assert instances[..i + 1][..i] == instances[..i];
  }

  lemma InstanceIdsPrefix(instances: seq<BlockInstanceDetails>, i: nat)
    requires i <= |instances|
    ensures InstanceIds(instances[..i]) <= InstanceIds(instances)
  {
    forall x | x in InstanceIds(instances[..i])
      ensures x in InstanceIds(instances)
    {
      var k :| 0 <= k < i && instances[..i][k].instanceId == x;
      assert instances[k] == instances[..i][k];
    }
  }

  lemma InstanceIdsSnoc(instances: seq<BlockInstanceDetails>, i: nat)
    requires i < |instances|
    ensures InstanceIds(instances[..i + 1]) == InstanceIds(instances[..i]) + {instances[i].instanceId}
  {
    var p := instances[..i + 1];
    assert forall k :: 0 <= k < i ==> p[k] == instances[..i][k];
    assert p[i] == instances[i];
  }

  /** A log of attempted connections: none twice, each for one of `ids`. */
  ghost predicate ConnectLog(log: seq<string>, ids: set<string>)
  {
    && Distinct(log)
    && forall id :: id in log ==> id in ids
  }

  /** The state of the instance loop after the first `i` instances: the
      publishers are the outcome so far, and the cache tracks the visited
      ids with `log` the connections attempted. */
  ghost predicate VisitedPrefix(instances: seq<BlockInstanceDetails>, i: nat, publishers: seq<RmqPublisher>,
                                connections: map<string, Conn>, log: seq<string>, refused: map<string, Error>,
                                refusedPublishers: map<(string, string), Error>, resourceName: string, confirm: bool)
  {
    && i <= |instances|
    && PublisherPlan(instances[..i], refused, refusedPublishers, resourceName, confirm) == Ok(publishers)
    && CacheTracks(connections, log, InstanceIds(instances[..i]), refused)
  }

  /** The visit of `instances[i]` inside the instance loop, with the
      bookkeeping of the loop: the loop state extends from the first `i`
      instances to the first `i + 1`, and a failed visit is the outcome of
      the whole loop; `added` is what the visit attempted. */
  method VisitTracked(connector: Connector, connections: map<string, Conn>, instances: seq<BlockInstanceDetails>,
                      i: nat, publishers: seq<RmqPublisher>, refusedPublishers: map<(string, string), Error>,
                      resourceName: string, confirm: bool, ghost base: seq<string>, ghost log: seq<string>)
    returns (r: Result<seq<RmqPublisher>>, cached: map<string, Conn>, ghost added: seq<string>)
    requires i < |instances|
    requires connector.attempts == base + log
    requires VisitedPrefix(instances, i, publishers, connections, log, connector.refused, refusedPublishers,
                           resourceName, confirm)
    modifies connector
    ensures connector.attempts == base + (log + added)
    ensures r.Ok? ==>
      VisitedPrefix(instances, i + 1, r.value, cached, log + added, connector.refused, refusedPublishers,
                    resourceName, confirm)
    ensures r.Err? ==>
      && r == PublisherPlan(instances, connector.refused, refusedPublishers, resourceName, confirm)
      && ConnectLog(log + added, InstanceIds(instances))
  {
    var instance := instances[i];
    PublisherPlanSnoc(instances, i, publishers, connector.refused, refusedPublishers, resourceName, confirm);
    ghost var before := connector.attempts;
    r, cached := VisitInstance(connector, connections, instance, publishers, refusedPublishers,
                               resourceName, confirm);
    added := if connector.attempts == before then [] else [instance.instanceId];
    assert connector.attempts == before + added;
    assert connector.attempts == base + (log + added);
    CacheBookkeeping(connections, cached, log, added, instance.instanceId, InstanceIds(instances[..i]),
                     connector.refused);
    InstanceIdsSnoc(instances, i);
    if r.Err? {
      PublisherPlanErrPersists(instances, i + 1, connector.refused, refusedPublishers, resourceName, confirm);
      InstanceIdsPrefix(instances, i + 1);
      ConnectLogWiden(log + added, InstanceIds(instances[..i + 1]), InstanceIds(instances));
    }
  }

  /** Before the first visit nothing is cached or attempted. */
  lemma VisitedNone(instances: seq<BlockInstanceDetails>, refused: map<string, Error>,
                    refusedPublishers: map<(string, string), Error>, resourceName: string, confirm: bool)
    ensures VisitedPrefix(instances, 0, [], map[], [], refused, refusedPublishers, resourceName, confirm)
  {
    assert InstanceIds(instances[..0]) == {};
  }

  /** A log within some ids is within any larger set of ids. */
  lemma ConnectLogWiden(log: seq<string>, ids: set<string>, more: set<string>)
    requires ConnectLog(log, ids) && ids <= more
    ensures ConnectLog(log, more)
  {
  }

  /** After the last instance the loop's outcome is the plan of all of
      them, and each instance id was attempted exactly once. */
  lemma VisitedAll(instances: seq<BlockInstanceDetails>, publishers: seq<RmqPublisher>,
                   connections: map<string, Conn>, log: seq<string>, refused: map<string, Error>,
                   refusedPublishers: map<(string, string), Error>, resourceName: string, confirm: bool)
    requires VisitedPrefix(instances, |instances|, publishers, connections, log, refused, refusedPublishers,
                           resourceName, confirm)
    ensures PublisherPlan(instances, refused, refusedPublishers, resourceName, confirm) == Ok(publishers)
    ensures ConnectLog(log, InstanceIds(instances))
    ensures forall id :: id in InstanceIds(instances) ==> id in log
  {
    assert instances[..|instances|] == instances;
  }

  /** A sequence extended by `log` splits back into its old part and `log`. */
  lemma LogSplit(attempts: seq<string>, before: seq<string>, log: seq<string>)
    requires attempts == before + log
    ensures |attempts| >= |before|
    ensures attempts[..|before|] == before && attempts[|before|..] == log
  {
  }

  /** The instance loop of CreatePublisherWithOptions, with its connection
      cache. */
  method CreateAllPublishers(connector: Connector, instances: seq<BlockInstanceDetails>,
                             refusedPublishers: map<(string, string), Error>, resourceName: string, confirm: bool)
    returns (r: Result<seq<RmqPublisher>>, ghost log: seq<string>)
    modifies connector
    ensures r == PublisherPlan(instances, connector.refused, refusedPublishers, resourceName, confirm)
    ensures connector.attempts == old(connector.attempts) + log
    ensures ConnectLog(log, InstanceIds(instances))
    ensures r.Ok? ==> forall id :: id in InstanceIds(instances) ==> id in log
  {
    log := [];
    var connections: map<string, Conn> := map[];
    var publishers: seq<RmqPublisher> := [];
    VisitedNone(instances, connector.refused, refusedPublishers, resourceName, confirm);
    var i := 0;
    while i < |instances|
      invariant connector.attempts == old(connector.attempts) + log
      invariant VisitedPrefix(instances, i, publishers, connections, log, connector.refused, refusedPublishers,
                              resourceName, confirm)
    {
      var step;
      ghost var added;
      step, connections, added := VisitTracked(connector, connections, instances, i, publishers, refusedPublishers,
                                               resourceName, confirm, old(connector.attempts), log);
      if step.Err? {
        return step, log + added;
      }
      log := log + added;
      publishers := step.value;
      i := i + 1;
    }
    VisitedAll(instances, publishers, connections, log, connector.refused, refusedPublishers, resourceName, confirm);
    return Ok(publishers), log;
  }

  /** CreatePublisherWithOptions. Besides computing the outcome, it opens at
      most one connection per distinct instance id, only for instances it
      visits, and on success one for every instance id. */
  method CreatePublisherWithOptions(connector: Connector, lookup: Result<seq<BlockInstanceDetails>>,
                                    refusedPublishers: map<(string, string), Error>,
                                    configInstanceId: string, resourceName: string, confirm: bool)
    returns (r: Result<Publisher>)
    modifies connector
    ensures r == CreatePublisherOutcome(lookup, connector.refused, refusedPublishers, configInstanceId, resourceName, confirm)
    ensures |connector.attempts| >= |old(connector.attempts)|
    ensures connector.attempts[..|old(connector.attempts)|] == old(connector.attempts)
    ensures Distinct(connector.attempts[|old(connector.attempts)|..])
    ensures lookup.Err? ==> connector.attempts == old(connector.attempts)
    ensures lookup.Ok? ==>
      forall id :: id in connector.attempts[|old(connector.attempts)|..] ==> id in InstanceIds(lookup.value)
    ensures r.Ok? ==>
      forall id :: id in InstanceIds(lookup.value) ==> id in connector.attempts[|old(connector.attempts)|..]
  {
    if lookup.Err? {
      return Err(ProviderLookupError(lookup.error));
    }
    var instances := lookup.value;
    if |instances| == 0 {
      return Err(NoInstancesFound(resourceName));
    }
    ghost var before := connector.attempts;
    var publishers, log := CreateAllPublishers(connector, instances, refusedPublishers, resourceName, confirm);
    LogSplit(connector.attempts, before, log);
    if publishers.Err? {
      return Err(publishers.error);
    }
    return Ok(Publisher(configInstanceId + "_" + resourceName, publishers.value));
  }

  // ---- publishing ----

  /** An unsigned 8-bit value. */
  newtype uint8 = x: int | 0 <= x < 256

  /** The optional per-message settings of a payload. The timestamp is an
      abstract instant. */
  datatype PublishOptions = PublishOptions(
    mandatory: bool,
    immediate: bool,
    deliveryMode: uint8,
    expiration: string,
    priority: uint8,
    correlationId: string,
    messageId: string,
    timestamp: int,
    messageType: string,
    userId: string)

  /** What a payload carries besides its data; the data is given already
      marshalled. */
  datatype PublisherPayload = PublisherPayload(headers: Table, routingKey: string, options: Option<PublishOptions>)

  /** The options record of the client library a message is published with. */
  datatype PublishingOptions = PublishingOptions(
    appId: string,
    contentType: string,
    contentEncoding: string,
    headers: Table,
    mandatory: bool,
    immediate: bool,
    deliveryMode: uint8,
    expiration: string,
    priority: uint8,
    correlationId: string,
    messageId: string,
    timestamp: int,
    messageType: string,
    userId: string)

  /** The options hook of Publish: without payload options nothing changes;
      otherwise eight settings are copied, and Mandatory and Immediate (like
      everything else) are left alone. */
  function WithPayloadOptions(options: PublishingOptions, payloadOptions: Option<PublishOptions>)
    : (r: PublishingOptions)
    ensures payloadOptions.None? ==> r == options
    ensures payloadOptions.Some? ==>
      var o := payloadOptions.value;
      && r.deliveryMode == o.deliveryMode && r.expiration == o.expiration && r.priority == o.priority
      && r.correlationId == o.correlationId && r.messageId == o.messageId && r.timestamp == o.timestamp
      && r.messageType == o.messageType && r.userId == o.userId
      && r.mandatory == options.mandatory && r.immediate == options.immediate
      && r.appId == options.appId && r.contentType == options.contentType
      && r.contentEncoding == options.contentEncoding && r.headers == options.headers
  {
    match payloadOptions
    case None => options
    case Some(o) =>
      options.(deliveryMode := o.deliveryMode, expiration := o.expiration, priority := o.priority,
               correlationId := o.correlationId, messageId := o.messageId, timestamp := o.timestamp,
               messageType := o.messageType, userId := o.userId)
  }

  /** The hook as the source writes it: field by field through the options reference. */
  method ApplyPayloadOptions(options: Ref<PublishingOptions>, payloadOptions: Option<PublishOptions>)
    modifies options
    ensures options.val == WithPayloadOptions(old(options.val), payloadOptions)
  {
    if payloadOptions.None? {
      return;
    }
    var o := payloadOptions.value;
    options.val := options.val.(deliveryMode := o.deliveryMode);
    options.val := options.val.(expiration := o.expiration);
    options.val := options.val.(priority := o.priority);
    options.val := options.val.(correlationId := o.correlationId);
    options.val := options.val.(messageId := o.messageId);
    options.val := options.val.(timestamp := o.timestamp);
    options.val := options.val.(messageType := o.messageType);
    options.val := options.val.(userId := o.userId);
  }

  const Utf8Encoding: string := "utf-8"

  /** The options of every message of a Publish call: the library's
      defaults, then AppId, content type, content encoding and headers, then
      the hook. */
  function MessageOptions(defaults: PublishingOptions, appId: string, payload: PublisherPayload): (r: PublishingOptions)
    ensures r.appId == appId && r.contentType == JsonContentType && r.contentEncoding == Utf8Encoding
    ensures r.headers == payload.headers
    ensures r.mandatory == defaults.mandatory && r.immediate == defaults.immediate
    ensures payload.options.None? ==>
      r == defaults.(appId := appId, contentType := JsonContentType, contentEncoding := Utf8Encoding,
                     headers := payload.headers)
    ensures payload.options.Some? ==>
      r.deliveryMode == payload.options.value.deliveryMode && r.priority == payload.options.value.priority
      && r.expiration == payload.options.value.expiration && r.timestamp == payload.options.value.timestamp
  {
    WithPayloadOptions(defaults.(appId := appId, contentType := JsonContentType, contentEncoding := Utf8Encoding,
                                 headers := payload.headers),
                       payload.options)
  }

  /** One call of a library publisher's Publish. */
  datatype PublishCall = PublishCall(exchangeName: string, body: seq<bv8>, routingKeys: seq<string>,
                                     options: PublishingOptions)

  /** The call made on one library publisher. */
  function CallFor(publisher: RmqPublisher, appId: string, payload: PublisherPayload, body: seq<bv8>,
                   defaults: PublishingOptions): PublishCall
  {
    PublishCall(publisher.exchangeName, body, [payload.routingKey], MessageOptions(defaults, appId, payload))
  }

  /** The index of the first failed outcome, or the number of outcomes when
      none failed. */
  function FirstFailure(outcomes: seq<Option<Error>>): (k: nat)
    ensures k <= |outcomes|
    ensures forall i :: 0 <= i < k ==> outcomes[i].None?
    ensures k < |outcomes| ==> outcomes[k].Some?
  {
    if |outcomes| == 0 then 0
    else if outcomes[0].Some? then 0
    else
      var k := FirstFailure(outcomes[1..]);
      assert forall i :: 1 <= i < k + 1 ==> outcomes[i] == outcomes[1..][i - 1];
      1 + k
  }

  /** Publish: `data` is the outcome of marshalling the payload's data, and
      `outcomes[i]` what the i-th library publisher answers. The calls made
      are returned in order. */
  method Publish(p: Publisher, payload: PublisherPayload, data: Result<seq<bv8>>, defaults: PublishingOptions,
                 outcomes: seq<Option<Error>>)
    returns (err: Option<Error>, calls: seq<PublishCall>)
    requires |outcomes| == |p.publishers|
    ensures data.Err? ==> err == Some(data.error) && calls == []
    ensures data.Ok? ==>
      var k := FirstFailure(outcomes);
      && |calls| == (if k < |outcomes| then k + 1 else k)
      && (forall i :: 0 <= i < |calls| ==> calls[i] == CallFor(p.publishers[i], p.appId, payload, data.value, defaults))
      && err == (if k < |outcomes| then outcomes[k] else None)
  {
    if data.Err? {
      return Some(data.error), [];
    }
    var jsonPayload := data.value;
    var routingKey := [payload.routingKey];
    calls := [];
    var i := 0;
    while i < |p.publishers|
      invariant 0 <= i <= |p.publishers|
      invariant forall j :: 0 <= j < i ==> outcomes[j].None?
      invariant |calls| == i
      invariant forall j :: 0 <= j < i ==> calls[j] == CallFor(p.publishers[j], p.appId, payload, jsonPayload, defaults)
    {
      var publisher := p.publishers[i];
      var options := new Ref(defaults.(appId := p.appId, contentType := JsonContentType,
                                       contentEncoding := Utf8Encoding, headers := payload.headers));
      ApplyPayloadOptions(options, payload.options);
      calls := calls + [PublishCall(publisher.exchangeName, jsonPayload, routingKey, options.val)];
      if outcomes[i].Some? {
        return outcomes[i], calls;
      }
      i := i + 1;
    }
    return None, calls;
  }

  /** With no failure every publisher is called; a failure of publisher `k`
      is returned and no later publisher is called. */
  lemma FirstFailureSemantics(outcomes: seq<Option<Error>>, k: nat)
    requires k < |outcomes| && outcomes[k].Some?
    requires forall i :: 0 <= i < k ==> outcomes[i].None?
    ensures FirstFailure(outcomes) == k
  {
  }
}
