/** The records of the messaging block definition (rabbitmq/types.go), the
    broker declaration descriptors the resolver produces (the ExchangeOptions,
    QueueOptions, Binding and BindingOptions records of the go-rabbitmq
    client), the error taxonomy of the core, and a reference cell that stands
    for a Go pointer. */
module Types {

  datatype Option<T> = None | Some(value: T)

  /** Every error the core can return. Constructors that carry a `cause`
      model a `fmt.Errorf("...: %v", err)` wrapping. The transport and
      decoder errors of the HTTP client and the JSON decoder are not
      modelled, so the constructors standing for their wrappings carry no
      cause. The constructors marked "input" are never produced by the
      model: they are sample values of the external outcomes it takes as
      inputs (a refused connection, a failed lookup, marshal or publish). */
  datatype Error =
    | ExchangeNotFound                      // "exchange not found for binding"
    | InvalidHeadersBinding                 // routing value is not an object
    | HeadersDecodeFailed                   // object does not decode into HeaderBindings
    | BlockSpecDecodeFailed                 // input: marshal/unmarshal of the block spec failed
    | InvalidBlockDefinition                // missing consumers, providers and/or bindings
    | BlockSpecError(cause: Error)          // "error decoding block spec: %v"
    | InstanceLookupFailed                  // input: the configuration provider failed
    | ProviderLookupError(cause: Error)     // "error getting instances for provider: %v"
    | OperatorLookupFailed(cause: Error)    // "error getting instance operator: %v"
    | VHostCheckFailed                      // transport error on the GET
    | VHostCheckStatus(status: int)         // GET answered neither 200 nor 404
    | VHostCreateFailed                     // transport error on the PUT
    | VHostCreateStatus(status: int)        // PUT answered something other than 200
    | EnsureVHostFailed(cause: Error)       // "error ensuring vhost: %v"
    | ConnectFailed                         // input: the AMQP dial failed
    | ConnectError(cause: Error)            // "error connecting to instance: %v"
    | NoQueuesFound(resource: string)
    | MultipleQueuesFound(resource: string)
    | NoInstancesFound(resource: string)
    | NoExchangeDefinitions(resource: string)
    | ResolveFailed(cause: Error)           // "error resolving bindings: %v"
    | PublisherCreateError(cause: Error)    // "error creating publisher: %v"
    | MarshalFailed                         // input: json.Marshal of the payload data failed
    | PublishFailed                         // input: the broker refused a publish

  datatype Result<T> = Ok(value: T) | Err(error: Error)

  /** A mutable cell: the model of a Go pointer `*T` whose pointee is
      updated in place. */
  class Ref<T> {
    var val: T

    constructor (v: T)
      ensures val == v
    {
      val := v;
    }
  }

  // ---- rabbitmq/types.go ----

  datatype ResourceMetadata = ResourceMetadata(name: string)

  datatype ExchangeSpec = ExchangeSpec(exchangeType: string, durable: bool, autoDelete: bool)

  datatype QueueSpec = QueueSpec(durable: bool, exclusive: bool, autoDelete: bool)

  datatype ExchangeResource = ExchangeResource(kind: string, metadata: ResourceMetadata, spec: ExchangeSpec)

  datatype QueueResource = QueueResource(kind: string, metadata: ResourceMetadata, spec: QueueSpec)

  datatype HeaderBindings = HeaderBindings(matchAll: bool, headers: map<string, string>)

  /** The untyped `Routing` value of a binding rule, classified by its shape:
      a JSON string, a JSON object together with the outcome of decoding it
      into HeaderBindings (None: the decoder refused it), or anything else
      (absent, a number, a boolean, an array). */
  datatype Routing =
    | RoutingKey(key: string)
    | HeaderObject(decoded: Option<HeaderBindings>)
    | Invalid

  /** One binding rule: destination name, destination type, routing. */
  datatype ExchangeBindingSchema = ExchangeBindingSchema(name: string, destType: string, routing: Routing)

  /** A binding group: the exchange it names and its rules. */
  datatype ExchangeBindingsSchema = ExchangeBindingsSchema(exchange: string, bindings: seq<ExchangeBindingSchema>)

  datatype BindingsSchema = BindingsSchema(exchanges: seq<ExchangeBindingsSchema>)

  /** `Bindings` is a pointer in the source: None is nil. */
  datatype BlockSpec = BlockSpec(
    consumers: seq<ExchangeResource>,
    providers: seq<QueueResource>,
    bindings: Option<BindingsSchema>)

  // ---- broker declaration descriptors ----

  /** The two values of BindingDestinationType. */
  datatype DestinationType = QueueDestination | ExchangeDestination

  /** The string value of a destination type. */
  function DestinationTypeName(t: DestinationType): string
  {
    match t
    case QueueDestination => "queue"
    case ExchangeDestination => "exchange"
  }

  /** Header table of a binding; a nil table is the empty map. */
  type Table = map<string, string>

  datatype ExchangeOptions = ExchangeOptions(name: string, kind: string, durable: bool, autoDelete: bool, declare: bool)

  datatype QueueOptions = QueueOptions(name: string, durable: bool, autoDelete: bool, exclusive: bool, declare: bool)

  datatype BindingOptions = BindingOptions(declare: bool, args: Table)

  datatype Binding = Binding(
    destinationName: string,
    destinationType: DestinationType,
    exchangeName: string,
    routingKey: string,
    options: BindingOptions)

  // ---- configuration-provider records ----

  datatype Endpoint = Endpoint(resourceName: string)

  /** A connection of the block instance: who consumes and who provides. */
  datatype Connection = Connection(consumer: Endpoint, provider: Endpoint)

  /** A block instance as the configuration provider returns it; `spec` is
      the outcome of re-encoding and decoding its block spec. */
  datatype BlockInstanceDetails = BlockInstanceDetails(
    instanceId: string,
    connections: seq<Connection>,
    spec: Result<BlockSpec>)

  /** An open AMQP connection, identified by the vhost it was opened on. */
  datatype Conn = Conn(vhost: string)

  /** The content type of every message published and accepted. */
  const JsonContentType: string := "application/json"
}
