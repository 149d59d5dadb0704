/** The binding resolver and the declaration builders (rabbitmq/declare.go).

    The meaning of a resolution is given by the functions `Resolve`,
    `ResolveGroups` and `GroupBindings`, written over ever longer prefixes of
    the binding groups and of a group's rules, so that they follow the
    visiting order of the source's loops. The method `ResolveBindings` is the
    loop itself, building fresh pointers, and is proved to agree with
    `Resolve`; the properties of `Resolve` are the lemmas of
    module DeclareProperties. */
module Declare {
  import opened Types

  /** The header key that selects the header-match mode. */
  const XMatch: string := "x-match"

  /** Exchange declaration for a consumer exchange. */
  function AsExchange(exchange: ExchangeResource): (r: ExchangeOptions)
    ensures r.name == exchange.metadata.name
    ensures r.durable == exchange.spec.durable && r.autoDelete == exchange.spec.autoDelete
    ensures r.kind == exchange.spec.exchangeType
    ensures r.declare
  {
    ExchangeOptions(
      name := exchange.metadata.name,
      kind := exchange.spec.exchangeType,
      durable := exchange.spec.durable,
      autoDelete := exchange.spec.autoDelete,
      declare := true)
  }

  /** Queue declaration for a provider queue: an exclusive queue is requested
      under the empty name, so that the broker generates one. */
  function AsQueue(queue: QueueResource): (r: QueueOptions)
    ensures queue.spec.exclusive ==> r.name == ""
    ensures !queue.spec.exclusive ==> r.name == queue.metadata.name
    ensures r.durable == queue.spec.durable && r.autoDelete == queue.spec.autoDelete
    ensures r.exclusive == queue.spec.exclusive
    ensures r.declare
  {
    var requestName := if queue.spec.exclusive then "" else queue.metadata.name;
    QueueOptions(
      name := requestName,
      durable := queue.spec.durable,
      autoDelete := queue.spec.autoDelete,
      exclusive := queue.spec.exclusive,
      declare := true)
  }

  /** ASCII lower case of one character. */
  function Lower(c: char): char
  {
    if 'A' <= c <= 'Z' then (c as int + 32) as char else c
  }

  /** Case-insensitive equality, over ASCII letters. */
  function EqualFold(a: string, b: string): (r: bool)
    ensures r ==> |a| == |b|
    ensures a == b ==> r
  {
    |a| == |b| && forall i :: 0 <= i < |a| ==> Lower(a[i]) == Lower(b[i])
  }

  /** The header table of a header binding: every user header, and the
      `x-match` mode written last, so that it replaces a user key of the
      same name. A routing value that is not an object, or an object that
      does not decode, is an error. */
  function HeaderArgs(routing: Routing): (r: Result<Table>)
    ensures !routing.HeaderObject? ==> r == Err(InvalidHeadersBinding)
    ensures routing.HeaderObject? && routing.decoded.None? ==> r == Err(HeadersDecodeFailed)
    ensures routing.HeaderObject? && routing.decoded.Some? ==>
      var hb := routing.decoded.value;
      && r.Ok?
      && r.value.Keys == hb.headers.Keys + {XMatch}
      && (forall k :: k in hb.headers && k != XMatch ==> r.value[k] == hb.headers[k])
      && r.value[XMatch] == (if hb.matchAll then "all" else "any")
  {
    match routing
    case HeaderObject(Some(hb)) =>
      Ok(hb.headers[XMatch := if hb.matchAll then "all" else "any"])
    case HeaderObject(None) => Err(HeadersDecodeFailed)
    case _ => Err(InvalidHeadersBinding)
  }

  /** getBindingHeaders: copies the decoded headers one key at a time, then
      writes the match mode. */
  method GetBindingHeaders(binding: ExchangeBindingSchema) returns (r: Result<Table>)
    ensures r == HeaderArgs(binding.routing)
  {
    if !binding.routing.HeaderObject? {
      return Err(InvalidHeadersBinding);
    }
    if binding.routing.decoded.None? {
      return Err(HeadersDecodeFailed);
    }
    var headerBindings := binding.routing.decoded.value;
    var headers: Table := map[];
    var remaining := headerBindings.headers.Keys;
    while remaining != {}
      invariant remaining <= headerBindings.headers.Keys
      invariant headers.Keys == headerBindings.headers.Keys - remaining
      invariant forall k :: k in headers ==> headers[k] == headerBindings.headers[k]
      decreases remaining
    {
      var key :| key in remaining;
      headers := headers[key := headerBindings.headers[key]];
      remaining := remaining - {key};
    }
    assert headers == headerBindings.headers;
    if headerBindings.matchAll {
      headers := headers[XMatch := "all"];
    } else {
      headers := headers[XMatch := "any"];
    }
    return Ok(headers);
  }

  /** The first consumer exchange with the given name. */
  function FindExchange(consumers: seq<ExchangeResource>, name: string): (r: Option<ExchangeResource>)
    ensures r.None? <==> forall i :: 0 <= i < |consumers| ==> consumers[i].metadata.name != name
    ensures r.Some? ==>
      exists i :: 0 <= i < |consumers| && consumers[i] == r.value
        && r.value.metadata.name == name
        && forall j :: 0 <= j < i ==> consumers[j].metadata.name != name
  {
    if |consumers| == 0 then None
    else if consumers[0].metadata.name == name then Some(consumers[0])
    else
      var r := FindExchange(consumers[1..], name);
      assert forall i :: 1 <= i < |consumers| ==> consumers[i] == consumers[1..][i - 1];
      r
  }

  /** A rule applies to a destination when its type matches the destination
      type case-insensitively and its name matches exactly. */
  predicate Matches(rule: ExchangeBindingSchema, destType: DestinationType, destName: string)
  {
    EqualFold(rule.destType, DestinationTypeName(destType)) && rule.name == destName
  }

  /** The binding a matching rule contributes: a routing-key binding for a
      string routing value, otherwise a header binding. */
  function BindingFor(rule: ExchangeBindingSchema, exchangeName: string,
                      destType: DestinationType, destName: string): (r: Result<Binding>)
    ensures r.Ok? ==>
      r.value.destinationName == destName && r.value.destinationType == destType
      && r.value.exchangeName == exchangeName && r.value.options.declare
    ensures rule.routing.RoutingKey? ==>
      r.Ok? && r.value.routingKey == rule.routing.key && r.value.options.args == map[]
    ensures !rule.routing.RoutingKey? ==>
      (r.Ok? <==> HeaderArgs(rule.routing).Ok?)
      && (r.Err? ==> r.error == HeaderArgs(rule.routing).error)
      && (r.Ok? ==> r.value.routingKey == "" && r.value.options.args == HeaderArgs(rule.routing).value)
  {
    match rule.routing
    case RoutingKey(key) =>
      Ok(Binding(destName, destType, exchangeName, key, BindingOptions(declare := true, args := map[])))
    case _ =>
      match HeaderArgs(rule.routing)
      case Err(e) => Err(e)
      case Ok(headers) =>
        Ok(Binding(destName, destType, exchangeName, "", BindingOptions(declare := true, args := headers)))
  }

  /** The bindings a group's rules contribute, in rule order; the first
      header error aborts. */
  function GroupBindings(rules: seq<ExchangeBindingSchema>, exchangeName: string,
                         destType: DestinationType, destName: string): Result<seq<Binding>>
  {
    if |rules| == 0 then Ok([])
    else
      match GroupBindings(rules[..|rules| - 1], exchangeName, destType, destName)
      case Err(e) => Err(e)
      case Ok(bs) =>
        var rule := rules[|rules| - 1];
        if !Matches(rule, destType, destName) then Ok(bs)
        else
          match BindingFor(rule, exchangeName, destType, destName)
          case Err(e) => Err(e)
          case Ok(b) => Ok(bs + [b])
  }

  datatype Resolution = Resolution(bindings: seq<Binding>, exchanges: seq<ExchangeOptions>)

  /** What one binding group adds to a resolution so far. */
  function GroupStep(acc: Resolution, group: ExchangeBindingsSchema, consumers: seq<ExchangeResource>,
                     destType: DestinationType, destName: string): Result<Resolution>
  {
    match FindExchange(consumers, group.exchange)
    case None => Err(ExchangeNotFound)
    case Some(exchange) =>
      if |group.bindings| == 0 then Ok(acc)
      else
        match GroupBindings(group.bindings, exchange.metadata.name, destType, destName)
        case Err(e) => Err(e)
        case Ok(bs) =>
          Ok(Resolution(acc.bindings + bs,
                        acc.exchanges + if |bs| > 0 then [AsExchange(exchange)] else []))
  }

  /** The resolution of a sequence of binding groups, in group order. */
  function ResolveGroups(groups: seq<ExchangeBindingsSchema>, consumers: seq<ExchangeResource>,
                         destType: DestinationType, destName: string): Result<Resolution>
  {
    if |groups| == 0 then Ok(Resolution([], []))
    else
      match ResolveGroups(groups[..|groups| - 1], consumers, destType, destName)
      case Err(e) => Err(e)
      case Ok(acc) => GroupStep(acc, groups[|groups| - 1], consumers, destType, destName)
  }

  /** resolveBindings, as a value. The source dereferences `Bindings`
      unconditionally, so a nil `Bindings` is excluded. */
  function Resolve(spec: BlockSpec, destType: DestinationType, destName: string): Result<Resolution>
    requires spec.bindings.Some?
  {
    ResolveGroups(spec.bindings.value.exchanges, spec.consumers, destType, destName)
  }

  lemma {:induction false} GroupBindingsErrPersists(rules: seq<ExchangeBindingSchema>, k: nat,
                                                   exchangeName: string, destType: DestinationType, destName: string)
    requires k <= |rules|
    requires GroupBindings(rules[..k], exchangeName, destType, destName).Err?
    ensures GroupBindings(rules, exchangeName, destType, destName)
         == GroupBindings(rules[..k], exchangeName, destType, destName)
    decreases |rules| - k
  {
    if k < |rules| {
      assert rules[..k + 1][..k] == rules[..k];
      GroupBindingsErrPersists(rules, k + 1, exchangeName, destType, destName);
    } else {
      assert rules[..k] == rules;
    }
  }

  lemma {:induction false} ResolveGroupsErrPersists(groups: seq<ExchangeBindingsSchema>, k: nat,
                                                   consumers: seq<ExchangeResource>,
                                                   destType: DestinationType, destName: string)
    requires k <= |groups|
    requires ResolveGroups(groups[..k], consumers, destType, destName).Err?
    ensures ResolveGroups(groups, consumers, destType, destName)
         == ResolveGroups(groups[..k], consumers, destType, destName)
    decreases |groups| - k
  {
    if k < |groups| {
      assert groups[..k + 1][..k] == groups[..k];
      ResolveGroupsErrPersists(groups, k + 1, consumers, destType, destName);
    } else {
      assert groups[..k] == groups;
    }
  }

  /** The values behind a sequence of pointers. */
  ghost predicate PointsTo<T>(refs: seq<Ref<T>>, vals: seq<T>)
    reads refs
  {
    |refs| == |vals| && forall i :: 0 <= i < |refs| ==> refs[i].val == vals[i]
  }

  /** The exchange lookup loop of resolveBindings: stops at the first
      consumer with the group's exchange name. */
  method LookupExchange(consumers: seq<ExchangeResource>, name: string) returns (exchange: Option<ExchangeResource>)
    ensures exchange == FindExchange(consumers, name)
  {
    exchange := None;
    var j := 0;
    while j < |consumers|
      invariant 0 <= j <= |consumers|
      invariant FindExchange(consumers[j..], name) == FindExchange(consumers, name)
    {
      if consumers[j].metadata.name == name {
        exchange := Some(consumers[j]);
        return;
      }
      assert consumers[j..][1..] == consumers[j + 1..];
      j := j + 1;
    }
  }

  /** The rule loop of resolveBindings for one group: a fresh pointer for
      the binding of every matching rule, and the first header error. The
      `foundAnyBinding` flag of the source is `|added| > 0`. */
  method RuleBindings(rules: seq<ExchangeBindingSchema>, exchangeName: string,
                      destType: DestinationType, destName: string)
    returns (added: seq<Ref<Binding>>, err: Option<Error>)
    ensures GroupBindings(rules, exchangeName, destType, destName).Err? ==>
      err == Some(GroupBindings(rules, exchangeName, destType, destName).error)
    ensures GroupBindings(rules, exchangeName, destType, destName).Ok? ==>
      err.None? && PointsTo(added, GroupBindings(rules, exchangeName, destType, destName).value)
    ensures forall p :: p in added ==> fresh(p)
  {
    added, err := [], None;
    ghost var vals: seq<Binding> := [];
    var k := 0;
    while k < |rules|
      invariant 0 <= k <= |rules|
      invariant GroupBindings(rules[..k], exchangeName, destType, destName) == Ok(vals)
      invariant PointsTo(added, vals)
      invariant forall p :: p in added ==> fresh(p)
    {
      var rule := rules[k];
      assert rules[..k + 1][..k] == rules[..k];
      if !EqualFold(rule.destType, DestinationTypeName(destType)) || rule.name != destName {
        // the rule targets another destination: skip it
        k := k + 1;
        continue;
      }
      var binding: Binding;
      if rule.routing.RoutingKey? {
        binding := Binding(destName, destType, exchangeName, rule.routing.key,
                           BindingOptions(declare := true, args := map[]));
      } else {
        var headers := GetBindingHeaders(rule);
        if headers.Err? {
          GroupBindingsErrPersists(rules, k + 1, exchangeName, destType, destName);
          return [], Some(headers.error);
        }
        binding := Binding(destName, destType, exchangeName, "",
                           BindingOptions(declare := true, args := headers.value));
      }
      var ref := new Ref(binding);
      added := added + [ref];
      vals := vals + [binding];
      k := k + 1;
    }
    assert rules[..k] == rules;
  }

  lemma PointsToConcat<T>(a: seq<Ref<T>>, va: seq<T>, b: seq<Ref<T>>, vb: seq<T>)
    requires PointsTo(a, va) && PointsTo(b, vb)
    ensures PointsTo(a + b, va + vb)
  {
  }

  /** One pass of the group loop of resolveBindings: look up the group's
      exchange, then append the pointers for its matching rules and, when
      there is one, for the exchange declaration. */
  method ResolveGroup(bindings: seq<Ref<Binding>>, exchanges: seq<Ref<ExchangeOptions>>, ghost acc: Resolution,
                      group: ExchangeBindingsSchema, consumers: seq<ExchangeResource>,
                      destType: DestinationType, destName: string)
    returns (newBindings: seq<Ref<Binding>>, newExchanges: seq<Ref<ExchangeOptions>>, err: Option<Error>)
    requires PointsTo(bindings, acc.bindings) && PointsTo(exchanges, acc.exchanges)
    ensures GroupStep(acc, group, consumers, destType, destName).Err? ==>
      err == Some(GroupStep(acc, group, consumers, destType, destName).error)
    ensures GroupStep(acc, group, consumers, destType, destName).Ok? ==>
      err.None?
      && PointsTo(newBindings, GroupStep(acc, group, consumers, destType, destName).value.bindings)
      && PointsTo(newExchanges, GroupStep(acc, group, consumers, destType, destName).value.exchanges)
    ensures forall p :: p in newBindings ==> p in bindings || fresh(p)
    ensures forall p :: p in newExchanges ==> p in exchanges || fresh(p)
  {
    newBindings, newExchanges, err := bindings, exchanges, None;
    var exchange := LookupExchange(consumers, group.exchange);
    if exchange.None? {
      return bindings, exchanges, Some(ExchangeNotFound);
    }
    var definition := exchange.value;

    if |group.bindings| == 0 {
      // a group without rules contributes nothing
      return;
    }

    var added, groupErr := RuleBindings(group.bindings, definition.metadata.name, destType, destName);
    if groupErr.Some? {
      return bindings, exchanges, groupErr;
    }
    ghost var addedVals := GroupBindings(group.bindings, definition.metadata.name, destType, destName).value;
    PointsToConcat(bindings, acc.bindings, added, addedVals);
    newBindings := bindings + added;
    var foundAnyBinding := |added| > 0;
    if foundAnyBinding {
      // only the exchanges that have bindings for this destination
      var ref := new Ref(AsExchange(definition));
      PointsToConcat(exchanges, acc.exchanges, [ref], [AsExchange(definition)]);
      newExchanges := exchanges + [ref];
    }
  }

  /** resolveBindings: the nested loops of the source, with fresh pointers
      for every binding and exchange declaration, and nil lists on error. */
  method ResolveBindings(spec: BlockSpec, destType: DestinationType, destName: string)
    returns (bindings: seq<Ref<Binding>>, exchanges: seq<Ref<ExchangeOptions>>, err: Option<Error>)
    requires spec.bindings.Some?
    ensures Resolve(spec, destType, destName).Err? ==>
      err == Some(Resolve(spec, destType, destName).error) && bindings == [] && exchanges == []
    ensures Resolve(spec, destType, destName).Ok? ==>
      err.None?
      && PointsTo(bindings, Resolve(spec, destType, destName).value.bindings)
      && PointsTo(exchanges, Resolve(spec, destType, destName).value.exchanges)
    ensures forall p :: p in bindings ==> fresh(p)
    ensures forall p :: p in exchanges ==> fresh(p)
  {
    var groups := spec.bindings.value.exchanges;
    bindings, exchanges, err := [], [], None;
    ghost var acc := Resolution([], []);
    var i := 0;
    while i < |groups|
      invariant 0 <= i <= |groups|
      invariant ResolveGroups(groups[..i], spec.consumers, destType, destName) == Ok(acc)
      invariant PointsTo(bindings, acc.bindings) && PointsTo(exchanges, acc.exchanges)
      invariant forall p :: p in bindings ==> fresh(p)
      invariant forall p :: p in exchanges ==> fresh(p)
    {
      assert groups[..i + 1][..i] == groups[..i];
      ghost var step := GroupStep(acc, groups[i], spec.consumers, destType, destName);
      assert ResolveGroups(groups[..i + 1], spec.consumers, destType, destName) == step;
      var groupErr;
      bindings, exchanges, groupErr := ResolveGroup(bindings, exchanges, acc, groups[i], spec.consumers,
                                                    destType, destName);
      if groupErr.Some? {
        ResolveGroupsErrPersists(groups, i + 1, spec.consumers, destType, destName);
        return [], [], groupErr;
      }
      acc := step.value;
      i := i + 1;
    }
    assert groups[..i] == groups;
  }
}
