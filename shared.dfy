/** The helpers shared by publishers and consumers (rabbitmq/shared.go): the
    block-spec check, pointer dereferencing, the check-then-create of the
    instance's vhost over the management API, and the connection step. The
    management API and the AMQP dial are external: their answers are fixed
    inputs of the objects that stand for them, and every request is logged. */
module Shared {
  import opened Types

  /** A decoded block spec is usable when it has consumers, providers and at
      least one binding group. */
  predicate ValidBlockSpec(spec: BlockSpec)
  {
    && |spec.consumers| > 0
    && |spec.providers| > 0
    && spec.bindings.Some?
    && |spec.bindings.value.exchanges| > 0
  }

  /** toBlockSpec after decoding: a decoding error is passed on, an invalid
      spec is rejected, a valid one is returned unchanged. */
  function ToBlockSpec(instance: BlockInstanceDetails): (r: Result<BlockSpec>)
    ensures instance.spec.Err? ==> r == instance.spec
    ensures instance.spec.Ok? ==>
      (r.Ok? <==> ValidBlockSpec(instance.spec.value))
      && (r.Ok? ==> r.value == instance.spec.value)
      && (r.Err? ==> r.error == InvalidBlockDefinition)
    ensures r.Ok? ==> r.value.bindings.Some?
  {
    match instance.spec
    case Err(e) => Err(e)
    case Ok(spec) =>
      if |spec.consumers| == 0 || |spec.providers| == 0
         || spec.bindings.None? || |spec.bindings.value.exchanges| == 0
      then Err(InvalidBlockDefinition)
      else Ok(spec)
  }

  /** dereferenceSlice: the pointees, copied into a fresh array of the same
      length. */
  method DereferenceSlice<T(0)>(slice: seq<Ref<T>>) returns (out: array<T>)
    ensures fresh(out)
    ensures out.Length == |slice|
    ensures forall i :: 0 <= i < |slice| ==> out[i] == slice[i].val
  {
    out := new T[|slice|];
    var i := 0;
    while i < |slice|
      invariant 0 <= i <= |slice|
      invariant forall j :: 0 <= j < i ==> out[j] == slice[j].val
    {
      out[i] := slice[i].val;
      i := i + 1;
    }
  }

  /** The answer of the management API to one request. */
  datatype HttpResponse = TransportError | Response(statusCode: int)

  const StatusOK := 200
  const StatusNotFound := 404

  /** The requests the management client sends. */
  datatype Request = GetQueuesRequest(vhost: string) | CreateVHostRequest(vhost: string)

  /** The management REST client of one broker instance. What the server
      answers is fixed when the client is made; `requests` logs what was
      sent, in order. */
  class ManagementClient {
    const queuesResponse: HttpResponse
    const createResponse: HttpResponse
    var requests: seq<Request>

    constructor (queuesResponse: HttpResponse, createResponse: HttpResponse)
      ensures this.queuesResponse == queuesResponse && this.createResponse == createResponse
      ensures requests == []
    {
      this.queuesResponse := queuesResponse;
      this.createResponse := createResponse;
      requests := [];
    }

    /** GET of the vhost's queues. */
    method GetQueues(vhostName: string) returns (resp: HttpResponse)
      modifies this
      ensures requests == old(requests) + [GetQueuesRequest(vhostName)]
      ensures resp == queuesResponse
    {
      requests := requests + [GetQueuesRequest(vhostName)];
      resp := queuesResponse;
    }

    /** PUT of the vhost. */
    method CreateVHost(vhostName: string) returns (resp: HttpResponse)
      modifies this
      ensures requests == old(requests) + [CreateVHostRequest(vhostName)]
      ensures resp == createResponse
    {
      requests := requests + [CreateVHostRequest(vhostName)];
      resp := createResponse;
    }
  }

  /** What ensureVHost answers for the management API's two fixed answers:
      the vhost named after the instance exists already (200), or is missing
      (404) and is then created (200); anything else is an error. */
  function VHostOutcome(queuesResponse: HttpResponse, createResponse: HttpResponse, instanceId: string): Result<string>
  {
    match queuesResponse
    case TransportError => Err(VHostCheckFailed)
    case Response(status) =>
      if status == StatusOK then Ok(instanceId)
      else if status != StatusNotFound then Err(VHostCheckStatus(status))
      else match createResponse
           case TransportError => Err(VHostCreateFailed)
           case Response(created) => if created == StatusOK then Ok(instanceId) else Err(VHostCreateStatus(created))
  }

  /** The vhost step succeeds exactly when the vhost exists or is missing
      and gets created, and then it names the instance's vhost. */
  lemma VHostOutcomeOk(queuesResponse: HttpResponse, createResponse: HttpResponse, instanceId: string)
    ensures VHostOutcome(queuesResponse, createResponse, instanceId).Ok? <==>
      queuesResponse == Response(StatusOK)
      || (queuesResponse == Response(StatusNotFound) && createResponse == Response(StatusOK))
    ensures VHostOutcome(queuesResponse, createResponse, instanceId).Ok? ==>
      VHostOutcome(queuesResponse, createResponse, instanceId).value == instanceId
  {
  }

  /** ensureVHost: the vhost is named after the instance; it is looked up,
      and created only when the lookup answers 404. */
  method EnsureVHost(client: ManagementClient, instanceId: string) returns (r: Result<string>)
    modifies client
    ensures r == VHostOutcome(client.queuesResponse, client.createResponse, instanceId)
    ensures r.Ok? ==> r.value == instanceId
    ensures client.queuesResponse == Response(StatusOK) ==>
      r == Ok(instanceId) && client.requests == old(client.requests) + [GetQueuesRequest(instanceId)]
    ensures client.queuesResponse == TransportError ==>
      r == Err(VHostCheckFailed) && client.requests == old(client.requests) + [GetQueuesRequest(instanceId)]
    ensures client.queuesResponse.Response? && client.queuesResponse.statusCode !in {StatusOK, StatusNotFound} ==>
      r == Err(VHostCheckStatus(client.queuesResponse.statusCode))
      && client.requests == old(client.requests) + [GetQueuesRequest(instanceId)]
    ensures client.queuesResponse == Response(StatusNotFound) ==>
      && client.requests == old(client.requests) + [GetQueuesRequest(instanceId), CreateVHostRequest(instanceId)]
      && r == match client.createResponse
              case TransportError => Err(VHostCreateFailed)
              case Response(status) => if status == StatusOK then Ok(instanceId) else Err(VHostCreateStatus(status))
  {
    var vhostName := instanceId;
    var resp := client.GetQueues(vhostName);
    if resp.TransportError? {
      return Err(VHostCheckFailed);
    }
    if resp.statusCode == StatusOK {
      return Ok(vhostName);
    }
    if resp.statusCode != StatusNotFound {
      return Err(VHostCheckStatus(resp.statusCode));
    }
    resp := client.CreateVHost(vhostName);
    if resp.TransportError? {
      return Err(VHostCreateFailed);
    }
    if resp.statusCode != StatusOK {
      return Err(VHostCreateStatus(resp.statusCode));
    }
    return Ok(vhostName);
  }

  /** ConnectToInstance: the instance's operator must be known, its vhost is
      ensured, then the AMQP connection is dialled on that vhost.
      `operatorError` is the configuration provider's failure to return the
      operator, if any; `connectError` is the outcome of connect (the amqp
      port check and the dial), which is not modelled. */
  method ConnectToInstance(operatorError: Option<Error>, client: ManagementClient, instanceId: string,
                           connectError: Option<Error>) returns (r: Result<Conn>)
    modifies client
    ensures operatorError.Some? ==>
      r == Err(OperatorLookupFailed(operatorError.value)) && client.requests == old(client.requests)
    ensures operatorError.None? ==>
      |client.requests| > |old(client.requests)|
      && client.requests[|old(client.requests)|] == GetQueuesRequest(instanceId)
    ensures r.Ok? ==> r == Ok(Conn(instanceId)) && connectError.None?
    ensures operatorError.None? ==>
      var vhost := VHostOutcome(client.queuesResponse, client.createResponse, instanceId);
      r == (if vhost.Err? then Err(EnsureVHostFailed(vhost.error))
            else if connectError.Some? then Err(connectError.value)
            else Ok(Conn(instanceId)))
  {
    if operatorError.Some? {
      return Err(OperatorLookupFailed(operatorError.value));
    }
    var vhost := EnsureVHost(client, instanceId);
    if vhost.Err? {
      return Err(EnsureVHostFailed(vhost.error));
    }
    if connectError.Some? {
      return Err(connectError.value);
    }
    return Ok(Conn(vhost.value));
  }

  /** What ConnectToInstance does for an instance, as far as publishers and
      consumers can see: it is refused with a given error, or it yields a
      connection on the vhost named after the instance. */
  function ConnectOutcome(refused: map<string, Error>, instanceId: string): Result<Conn>
  {
    if instanceId in refused then Err(refused[instanceId]) else Ok(Conn(instanceId))
  }

  /** The connection step of publishers and consumers. `attempts` logs every
      instance a connection was attempted for, in order. */
  class Connector {
    const refused: map<string, Error>
    var attempts: seq<string>

    constructor (refused: map<string, Error>)
      ensures this.refused == refused && attempts == []
    {
      this.refused := refused;
      attempts := [];
    }

    method Connect(instanceId: string) returns (r: Result<Conn>)
      modifies this
      ensures attempts == old(attempts) + [instanceId]
      ensures r == ConnectOutcome(refused, instanceId)
    {
      attempts := attempts + [instanceId];
      r := ConnectOutcome(refused, instanceId);
    }
  }
}
