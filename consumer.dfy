/** The consumer side (rabbitmq/consumer.go): choosing the one provider queue
    of a resource, resolving the bindings onto it, clearing the destination of
    the bindings of an exclusive queue in place, and the ack/nack decision taken
    for every delivery. `ConsumerSetup` is what CreateConsumer computes; the
    method `CreateConsumer` follows the source step by step and is proved to
    compute it. */
module Consumer {
  import opened Types
  import opened Declare
  import opened DeclareProperties
  import opened Shared

  // ---- the delivery decision (createHandler) ----

  /** The acknowledgement actions of the client library. */
  datatype Action = Ack | NackDiscard | NackRequeue | Manual

  /** The parts of an AMQP delivery the handler looks at. */
  datatype Delivery = Delivery(contentType: string, body: seq<bv8>, appId: string)

  /** The handler built by createHandler, applied to one delivery. `decode`
      stands for decoding the JSON body into the payload type (None: the
      decoder refused it); `callback` is the user's handler, which returns an
      action and maybe an error. */
  function HandleDelivery<P>(d: Delivery, decode: seq<bv8> -> Option<P>,
                             callback: (P, Delivery) -> (Action, Option<Error>)): (r: Action)
    ensures d.contentType != JsonContentType ==> r == NackDiscard
    ensures decode(d.body).None? ==> r == NackDiscard
    ensures d.contentType == JsonContentType && decode(d.body).Some? ==>
      var (action, err) := callback(decode(d.body).value, d);
      r == if err.Some? then NackRequeue else action
  {
    if d.contentType != JsonContentType then NackDiscard
    else match decode(d.body)
         case None => NackDiscard
         case Some(payload) =>
           var (action, err) := callback(payload, d);
           if err.Some? then NackRequeue else action
  }

  /** A delivery that is not JSON, or whose body does not decode, is decided
      without the callback: any two callbacks give the same action. */
  lemma DiscardIgnoresCallback<P>(d: Delivery, decode: seq<bv8> -> Option<P>,
                                  c1: (P, Delivery) -> (Action, Option<Error>),
                                  c2: (P, Delivery) -> (Action, Option<Error>))
    requires d.contentType != JsonContentType || decode(d.body).None?
    ensures HandleDelivery(d, decode, c1) == HandleDelivery(d, decode, c2) == NackDiscard
  {
  }

  /** Otherwise the decision is a function of the callback's answer on the
      decoded payload and the delivery only. */
  lemma DecisionFollowsCallback<P>(d: Delivery, decode: seq<bv8> -> Option<P>,
                                   c1: (P, Delivery) -> (Action, Option<Error>),
                                   c2: (P, Delivery) -> (Action, Option<Error>))
    requires d.contentType == JsonContentType && decode(d.body).Some?
    requires c1(decode(d.body).value, d) == c2(decode(d.body).value, d)
    ensures HandleDelivery(d, decode, c1) == HandleDelivery(d, decode, c2)
  {
  }

  // ---- queue selection ----

  /** The first provider queue with the given name. */
  function FindQueue(providers: seq<QueueResource>, name: string): (r: Option<QueueResource>)
    ensures r.None? <==> forall i :: 0 <= i < |providers| ==> providers[i].metadata.name != name
    ensures r.Some? ==>
      exists i :: 0 <= i < |providers| && providers[i] == r.value
        && r.value.metadata.name == name
        && forall j :: 0 <= j < i ==> providers[j].metadata.name != name
  {
    if |providers| == 0 then None
    else if providers[0].metadata.name == name then Some(providers[0])
    else
      var r := FindQueue(providers[1..], name);
      assert r.Some? ==> forall j :: 1 <= j < |providers| && providers[j] == r.value ==> providers[1..][j - 1] == r.value;
      r
  }

  /** What one connection contributes to the queue definitions: the first
      provider queue it names, when it is a connection of this resource. */
  function QueueFor(connection: Connection, providers: seq<QueueResource>, resourceName: string): seq<QueueResource>
  {
    if connection.consumer.resourceName != resourceName then []
    else match FindQueue(providers, connection.provider.resourceName)
         case None => []
         case Some(queue) => [queue]
  }

  /** The queue definitions CreateConsumer collects, in connection order. */
  function SelectedQueues(connections: seq<Connection>, providers: seq<QueueResource>,
                          resourceName: string): seq<QueueResource>
  {
    if |connections| == 0 then []
    else SelectedQueues(connections[..|connections| - 1], providers, resourceName)
         + QueueFor(connections[|connections| - 1], providers, resourceName)
  }

  /** A connection contributes at most one queue, and one exactly when it
      belongs to the resource and names an existing provider; that queue is
      the first provider with the connection's provider name. */
  lemma QueueForContract(connection: Connection, providers: seq<QueueResource>, resourceName: string)
    ensures |QueueFor(connection, providers, resourceName)| <= 1
    ensures |QueueFor(connection, providers, resourceName)| == 1 <==>
      connection.consumer.resourceName == resourceName
      && exists i :: 0 <= i < |providers| && providers[i].metadata.name == connection.provider.resourceName
    ensures |QueueFor(connection, providers, resourceName)| == 1 ==>
      QueueFor(connection, providers, resourceName)[0] == FindQueue(providers, connection.provider.resourceName).value
  {
  }

  /** At most one queue per connection. */
  lemma {:induction false} SelectedQueuesBound(connections: seq<Connection>, providers: seq<QueueResource>,
                                               resourceName: string)
    ensures |SelectedQueues(connections, providers, resourceName)| <= |connections|
  {
    if |connections| > 0 {
      SelectedQueuesBound(connections[..|connections| - 1], providers, resourceName);
      QueueForContract(connections[|connections| - 1], providers, resourceName);
    }
  }

  /** Every selected queue is a provider queue named by a connection of the
      resource. */
  lemma {:induction false} SelectedQueuesOrigin(connections: seq<Connection>, providers: seq<QueueResource>,
                                                resourceName: string)
    ensures forall q :: q in SelectedQueues(connections, providers, resourceName) ==>
      q in providers
      && exists c :: c in connections && c.consumer.resourceName == resourceName
                     && c.provider.resourceName == q.metadata.name
  {
    if |connections| > 0 {
      var prefix := connections[..|connections| - 1];
      var last := connections[|connections| - 1];
      SelectedQueuesOrigin(prefix, providers, resourceName);
      forall q | q in SelectedQueues(connections, providers, resourceName)
        ensures q in providers
        ensures exists c :: c in connections && c.consumer.resourceName == resourceName
                            && c.provider.resourceName == q.metadata.name
      {
        if q in SelectedQueues(prefix, providers, resourceName) {
          var c :| c in prefix && c.consumer.resourceName == resourceName
                   && c.provider.resourceName == q.metadata.name;
          assert c in connections;
        } else {
          assert q in QueueFor(last, providers, resourceName);
          assert last in connections;
        }
      }
    }
  }

  /** The queue-selection loop: for every connection, the first matching
      provider, then `break`. */
  method SelectQueues(connections: seq<Connection>, providers: seq<QueueResource>, resourceName: string)
    returns (queueDefinitions: seq<QueueResource>)
    ensures queueDefinitions == SelectedQueues(connections, providers, resourceName)
  {
    queueDefinitions := [];
    var i := 0;
    while i < |connections|
      invariant 0 <= i <= |connections|
      invariant queueDefinitions == SelectedQueues(connections[..i], providers, resourceName)
    {
      var connection := connections[i];
      assert connections[..i + 1][..i] == connections[..i];
      var j := 0;
      while j < |providers|
        invariant 0 <= j <= |providers|
        invariant connection.consumer.resourceName == resourceName ==>
          FindQueue(providers[j..], connection.provider.resourceName)
          == FindQueue(providers, connection.provider.resourceName)
        invariant queueDefinitions == SelectedQueues(connections[..i], providers, resourceName)
      {
        var queue := providers[j];
        if queue.metadata.name == connection.provider.resourceName
           && connection.consumer.resourceName == resourceName {
          queueDefinitions := queueDefinitions + [queue];
          break;
        }
        assert providers[j..][1..] == providers[j + 1..];
        j := j + 1;
      }
      assert j == |providers| ==> providers[j..] == [];
      assert queueDefinitions == SelectedQueues(connections[..i + 1], providers, resourceName);
      i := i + 1;
    }
    assert connections[..i] == connections;
  }

  // ---- the exclusive-queue rewrite ----

  /** The bindings with their destination name cleared, every other field
      kept. */
  function ClearedDestinations(bindings: seq<Binding>): (r: seq<Binding>)
    ensures |r| == |bindings|
    ensures forall i :: 0 <= i < |r| ==> r[i] == bindings[i].(destinationName := "")
  {
    seq(|bindings|, i requires 0 <= i < |bindings| => bindings[i].(destinationName := ""))
  }

  /** The rewrite loop of CreateConsumer, through the resolved pointers. A
      pointer that occurs twice is rewritten twice, to the same value. */
  method ClearDestinations(bindings: seq<Ref<Binding>>)
    modifies set b | b in bindings
    ensures forall i :: 0 <= i < |bindings| ==>
      bindings[i].val == old(bindings[i].val).(destinationName := "")
  {
    var i := 0;
    while i < |bindings|
      invariant 0 <= i <= |bindings|
      invariant forall j :: 0 <= j < i ==> bindings[j].val == old(bindings[j].val).(destinationName := "")
      invariant forall j :: 0 <= j < |bindings| ==>
        bindings[j].val == old(bindings[j].val)
        || bindings[j].val == old(bindings[j].val).(destinationName := "")
    {
      bindings[i].val := bindings[i].val.(destinationName := "");
      i := i + 1;
    }
  }

  /** The bindings a consumer of `queue` declares: the resolved ones, with
      their destination cleared when the requested queue name is "". */
  function ConsumerBindingsOf(queue: QueueResource, resolved: seq<Binding>): seq<Binding>
  {
    if AsQueue(queue).name == "" then ClearedDestinations(resolved) else resolved
  }

  /** The rewrite condition of the source is the requested name being "",
      which also holds for a non-exclusive queue named "". Its effect is
      still exactly that of exclusivity, because bindings resolved onto such
      a queue already have the destination "". */
  lemma ConsumerBindingsOfTargets(queue: QueueResource, rs: seq<Binding>, exchanges: seq<ExchangeOptions>)
    requires forall b :: b in rs ==> b.destinationName == queue.metadata.name && b.destinationType == QueueDestination
    requires forall b :: b in rs ==> exists e :: e in exchanges && e.name == b.exchangeName
    ensures ConsumerBindingsOf(queue, rs) == (if queue.spec.exclusive then ClearedDestinations(rs) else rs)
    ensures forall b :: b in ConsumerBindingsOf(queue, rs) ==>
      && b.destinationType == QueueDestination
      && b.destinationName == (if queue.spec.exclusive then "" else queue.metadata.name)
      && (exists e :: e in exchanges && e.name == b.exchangeName)
  {
    if !queue.spec.exclusive && queue.metadata.name == "" {
      assert forall i :: 0 <= i < |rs| ==> rs[i] in rs;
      assert ClearedDestinations(rs) == rs;
    }
    var bs := ConsumerBindingsOf(queue, rs);
    forall b | b in bs
      ensures b.destinationType == QueueDestination
      ensures b.destinationName == (if queue.spec.exclusive then "" else queue.metadata.name)
      ensures exists e :: e in exchanges && e.name == b.exchangeName
    {
      var i :| 0 <= i < |bs| && bs[i] == b;
      assert rs[i] in rs;
    }
  }

  /** Every binding of a consumer of `queue` is a queue binding on a
      declared exchange, with the destination "" exactly for an exclusive
      queue. */
  lemma ConsumerBindingsOfResolution(queue: QueueResource, groups: seq<ExchangeBindingsSchema>,
                                     consumers: seq<ExchangeResource>)
    requires ResolveGroups(groups, consumers, QueueDestination, queue.metadata.name).Ok?
    ensures var res := ResolveGroups(groups, consumers, QueueDestination, queue.metadata.name).value;
      var bs := ConsumerBindingsOf(queue, res.bindings);
      && bs == (if queue.spec.exclusive then ClearedDestinations(res.bindings) else res.bindings)
      && forall b :: b in bs ==>
           && b.destinationType == QueueDestination
           && b.destinationName == (if queue.spec.exclusive then "" else queue.metadata.name)
           && (exists e :: e in res.exchanges && e.name == b.exchangeName)
  {
    var res := ResolveGroups(groups, consumers, QueueDestination, queue.metadata.name).value;
    ResolvedBindingsTarget(groups, consumers, QueueDestination, queue.metadata.name);
    ResolutionClosed(groups, consumers, QueueDestination, queue.metadata.name);
    ConsumerBindingsOfTargets(queue, res.bindings, res.exchanges);
  }

  // ---- CreateConsumer ----

  /** What CreateConsumer hands to the client library's NewConsumer. */
  datatype ConsumerConfig = ConsumerConfig(
    conn: Conn,
    queueName: string,
    consumerTag: string,
    queue: QueueOptions,
    bindings: seq<Binding>,
    exchanges: seq<ExchangeOptions>)

  /** The outcome of CreateConsumer. `lookup` is the configuration provider's
      answer for the resource, `refused` the instances that cannot be
      connected to (with the error), `configInstanceId` the id of the running
      instance, and `startError` the outcome of NewConsumer. */
  function ConsumerSetup(lookup: Result<BlockInstanceDetails>, refused: map<string, Error>,
                         configInstanceId: string, resourceName: string,
                         startError: Option<Error>): Result<ConsumerConfig>
  {
    if lookup.Err? then Err(lookup.error)
    else
      var instance := lookup.value;
      var spec := ToBlockSpec(instance);
      if spec.Err? then Err(BlockSpecError(spec.error))
      else
        var conn := ConnectOutcome(refused, instance.instanceId);
        if conn.Err? then Err(conn.error)
        else
          var queues := SelectedQueues(instance.connections, spec.value.providers, resourceName);
          if |queues| == 0 then Err(NoQueuesFound(resourceName))
          else if |queues| > 1 then Err(MultipleQueuesFound(resourceName))
          else
            var queueOptions := AsQueue(queues[0]);
            var resolved := Resolve(spec.value, QueueDestination, queues[0].metadata.name);
            if resolved.Err? then Err(ResolveFailed(resolved.error))
            else if startError.Some? then Err(startError.value)
            else
              Ok(ConsumerConfig(
                   conn.value, queueOptions.name, configInstanceId + "_" + resourceName, queueOptions,
                   ConsumerBindingsOf(queues[0], resolved.value.bindings),
                   resolved.value.exchanges))
  }

  /** CreateConsumer: look the instance up, check its block spec, connect,
      select the queue, resolve its bindings, clear their destinations for an
      exclusive queue, and hand everything to NewConsumer. */
  method CreateConsumer(connector: Connector, lookup: Result<BlockInstanceDetails>,
                        configInstanceId: string, resourceName: string, startError: Option<Error>)
    returns (r: Result<ConsumerConfig>)
    modifies connector
    ensures r == ConsumerSetup(lookup, connector.refused, configInstanceId, resourceName, startError)
    ensures connector.attempts == old(connector.attempts)
      + if lookup.Ok? && ToBlockSpec(lookup.value).Ok? then [lookup.value.instanceId] else []
  {
    if lookup.Err? {
      return Err(lookup.error);
    }
    var instance := lookup.value;
    var blockSpec := ToBlockSpec(instance);
    if blockSpec.Err? {
      return Err(BlockSpecError(blockSpec.error));
    }
    var spec := blockSpec.value;
    var conn := connector.Connect(instance.instanceId);
    if conn.Err? {
      return Err(conn.error);
    }

    var queueDefinitions := SelectQueues(instance.connections, spec.providers, resourceName);
    if |queueDefinitions| == 0 {
      return Err(NoQueuesFound(resourceName));
    }
    if |queueDefinitions| > 1 {
      return Err(MultipleQueuesFound(resourceName));
    }
    var queue := queueDefinitions[0];
    var queueName := queue.metadata.name;
    var queueOptions := AsQueue(queue);

    var bindings, exchanges, err := ResolveBindings(spec, QueueDestination, queueName);
    ghost var resolved := Resolve(spec, QueueDestination, queueName);
    if queueOptions.name == "" {
      // exclusive queues bind with an empty destination name
      ClearDestinations(bindings);
    }
    if err.Some? {
      return Err(ResolveFailed(err.value));
    }

    var consumerTag := configInstanceId + "_" + resourceName;
    var boundValues := DereferenceSlice(bindings);
    var exchangeValues := DereferenceSlice(exchanges);
    if startError.Some? {
      return Err(startError.value);
    }
    assert boundValues[..] == ConsumerBindingsOf(queue, resolved.value.bindings);
    assert exchangeValues[..] == resolved.value.exchanges;
    return Ok(ConsumerConfig(conn.value, queueOptions.name, consumerTag, queueOptions,
                             boundValues[..], exchangeValues[..]));
  }

  // ---- properties of ConsumerSetup ----

  /** The only success path: the instance was found, its spec is valid, the
      connection opened, exactly one queue was selected, and the resolution
      onto that queue's metadata name succeeded. */
  lemma ConsumerSetupOk(lookup: Result<BlockInstanceDetails>, refused: map<string, Error>,
                        configInstanceId: string, resourceName: string, startError: Option<Error>)
    requires ConsumerSetup(lookup, refused, configInstanceId, resourceName, startError).Ok?
    ensures lookup.Ok? && ToBlockSpec(lookup.value).Ok? && lookup.value.instanceId !in refused
    ensures var spec := ToBlockSpec(lookup.value).value;
      var queues := SelectedQueues(lookup.value.connections, spec.providers, resourceName);
      var config := ConsumerSetup(lookup, refused, configInstanceId, resourceName, startError).value;
      && |queues| == 1
      && config.conn == Conn(lookup.value.instanceId)
      && config.queue == AsQueue(queues[0])
      && config.queueName == config.queue.name
      && config.consumerTag == configInstanceId + "_" + resourceName
      && Resolve(spec, QueueDestination, queues[0].metadata.name).Ok?
      && config.exchanges == Resolve(spec, QueueDestination, queues[0].metadata.name).value.exchanges
  {
  }

  /** Zero selected queues and several selected queues are errors that name
      the resource. */
  lemma QueueCountErrors(lookup: Result<BlockInstanceDetails>, refused: map<string, Error>,
                         configInstanceId: string, resourceName: string, startError: Option<Error>)
    requires lookup.Ok? && ToBlockSpec(lookup.value).Ok? && lookup.value.instanceId !in refused
    ensures var n := |SelectedQueues(lookup.value.connections, ToBlockSpec(lookup.value).value.providers, resourceName)|;
      && (n == 0 ==> ConsumerSetup(lookup, refused, configInstanceId, resourceName, startError)
                     == Err(NoQueuesFound(resourceName)))
      && (n > 1 ==> ConsumerSetup(lookup, refused, configInstanceId, resourceName, startError)
                    == Err(MultipleQueuesFound(resourceName)))
  {
  }

  /** Every binding of the consumer is a queue binding on an exchange the
      consumer declares. Its destination is the queue's metadata name, or ""
      when the queue is exclusive; every other field is the resolver's. */
  lemma ConsumerBindings(lookup: Result<BlockInstanceDetails>, refused: map<string, Error>,
                         configInstanceId: string, resourceName: string, startError: Option<Error>)
    requires ConsumerSetup(lookup, refused, configInstanceId, resourceName, startError).Ok?
    ensures var spec := ToBlockSpec(lookup.value).value;
      var queue := SelectedQueues(lookup.value.connections, spec.providers, resourceName)[0];
      var resolved := Resolve(spec, QueueDestination, queue.metadata.name).value;
      var config := ConsumerSetup(lookup, refused, configInstanceId, resourceName, startError).value;
      && config.bindings == (if queue.spec.exclusive then ClearedDestinations(resolved.bindings)
                             else resolved.bindings)
      && forall b :: b in config.bindings ==>
           && b.destinationType == QueueDestination
           && b.destinationName == (if queue.spec.exclusive then "" else queue.metadata.name)
           && (exists e :: e in config.exchanges && e.name == b.exchangeName)
  {
    ConsumerSetupOk(lookup, refused, configInstanceId, resourceName, startError);
    var spec := ToBlockSpec(lookup.value).value;
    var queue := SelectedQueues(lookup.value.connections, spec.providers, resourceName)[0];
    ConsumerBindingsOfResolution(queue, spec.bindings.value.exchanges, spec.consumers);
  }
}
