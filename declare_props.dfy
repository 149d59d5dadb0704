/** What the binding resolver guarantees (rabbitmq/declare.go:61-135): when
    it fails, which rules contribute, what every emitted binding carries,
    which exchanges are declared, and worked scenarios. */
module DeclareProperties {
  import opened Types
  import opened Declare

  /** A routing value the resolver can turn into a binding. */
  predicate RoutingDecodes(routing: Routing)
  {
    routing.RoutingKey? || (routing.HeaderObject? && routing.decoded.Some?)
  }

  /** The rules of a group that apply to the destination, in rule order. */
  function MatchingRules(rules: seq<ExchangeBindingSchema>, destType: DestinationType, destName: string)
    : seq<ExchangeBindingSchema>
  {
    if |rules| == 0 then []
    else
      var rule := rules[|rules| - 1];
      MatchingRules(rules[..|rules| - 1], destType, destName) + if Matches(rule, destType, destName) then [rule] else []
  }

  /** A matching rule together with the exchange its group names. */
  datatype MatchedRule = MatchedRule(exchange: string, rule: ExchangeBindingSchema)

  function Tagged(exchange: string, rules: seq<ExchangeBindingSchema>): (r: seq<MatchedRule>)
    ensures |r| == |rules| && forall i :: 0 <= i < |rules| ==> r[i] == MatchedRule(exchange, rules[i])
  {
    seq(|rules|, i requires 0 <= i < |rules| => MatchedRule(exchange, rules[i]))
  }

  /** All matching rules of all groups, in the order the resolver visits them. */
  function AllMatches(groups: seq<ExchangeBindingsSchema>, destType: DestinationType, destName: string)
    : seq<MatchedRule>
  {
    if |groups| == 0 then []
    else
      var group := groups[|groups| - 1];
      AllMatches(groups[..|groups| - 1], destType, destName)
        + Tagged(group.exchange, MatchingRules(group.bindings, destType, destName))
  }

  /** The declaration of every group's exchange that has at least one
      matching rule, in group order. */
  function ContributingExchanges(groups: seq<ExchangeBindingsSchema>, consumers: seq<ExchangeResource>,
                                 destType: DestinationType, destName: string): seq<ExchangeOptions>
  {
    if |groups| == 0 then []
    else
      var group := groups[|groups| - 1];
      var found := FindExchange(consumers, group.exchange);
      ContributingExchanges(groups[..|groups| - 1], consumers, destType, destName)
        + if found.Some? && |MatchingRules(group.bindings, destType, destName)| > 0
          then [AsExchange(found.value)] else []
  }

  // ---- one group ----

  /** A group's rules produce bindings exactly when every matching rule has
      a routing value that decodes. */
  lemma {:induction false} GroupBindingsOkIff(rules: seq<ExchangeBindingSchema>, exchangeName: string,
                                              destType: DestinationType, destName: string)
    ensures GroupBindings(rules, exchangeName, destType, destName).Ok?
        <==> forall i :: 0 <= i < |rules| && Matches(rules[i], destType, destName) ==> RoutingDecodes(rules[i].routing)
  {
    if |rules| > 0 {
      var prefix := rules[..|rules| - 1];
      GroupBindingsOkIff(prefix, exchangeName, destType, destName);
      assert forall i :: 0 <= i < |prefix| ==> prefix[i] == rules[i];
    }
  }

  /** The bindings of a group are those of its matching rules, one each, in
      rule order. */
  lemma {:induction false} GroupBindingsOk(rules: seq<ExchangeBindingSchema>, exchangeName: string,
                                           destType: DestinationType, destName: string)
    requires GroupBindings(rules, exchangeName, destType, destName).Ok?
    ensures var bs := GroupBindings(rules, exchangeName, destType, destName).value;
      var ms := MatchingRules(rules, destType, destName);
      && |bs| == |ms|
      && forall i :: 0 <= i < |bs| ==> BindingFor(ms[i], exchangeName, destType, destName) == Ok(bs[i])
  {
    if |rules| > 0 {
      GroupBindingsOk(rules[..|rules| - 1], exchangeName, destType, destName);
    }
  }

  /** With no matching rule a group contributes nothing. */
  lemma {:induction false} GroupBindingsNoMatch(rules: seq<ExchangeBindingSchema>, exchangeName: string,
                                                destType: DestinationType, destName: string)
    requires forall i :: 0 <= i < |rules| ==> !Matches(rules[i], destType, destName)
    ensures GroupBindings(rules, exchangeName, destType, destName) == Ok([])
    ensures MatchingRules(rules, destType, destName) == []
  {
    if |rules| > 0 {
      var prefix := rules[..|rules| - 1];
      assert forall i :: 0 <= i < |prefix| ==> prefix[i] == rules[i];
      GroupBindingsNoMatch(prefix, exchangeName, destType, destName);
    }
  }

  // ---- the whole resolution ----

  /** A group the resolver accepts: its exchange is among the consumers and
      every rule of it that applies to the destination has a routing value
      that decodes. */
  predicate GroupResolves(group: ExchangeBindingsSchema, consumers: seq<ExchangeResource>,
                          destType: DestinationType, destName: string)
  {
    && FindExchange(consumers, group.exchange).Some?
    && forall j :: 0 <= j < |group.bindings| && Matches(group.bindings[j], destType, destName)
         ==> RoutingDecodes(group.bindings[j].routing)
  }

  lemma GroupStepOkIff(acc: Resolution, group: ExchangeBindingsSchema, consumers: seq<ExchangeResource>,
                       destType: DestinationType, destName: string)
    ensures GroupStep(acc, group, consumers, destType, destName).Ok?
        <==> GroupResolves(group, consumers, destType, destName)
  {
    var found := FindExchange(consumers, group.exchange);
    if found.Some? {
      GroupBindingsOkIff(group.bindings, found.value.metadata.name, destType, destName);
    }
  }

  /** resolveBindings succeeds exactly when every group names a consumer
      exchange (also a group without rules) and every matching rule has a
      routing value that decodes. */
  lemma {:induction false} ResolveOkIff(groups: seq<ExchangeBindingsSchema>, consumers: seq<ExchangeResource>,
                                        destType: DestinationType, destName: string)
    ensures ResolveGroups(groups, consumers, destType, destName).Ok?
        <==> forall i :: 0 <= i < |groups| ==> GroupResolves(groups[i], consumers, destType, destName)
  {
    if |groups| > 0 {
      var n := |groups| - 1;
      var prefix := groups[..n];
      ResolveOkIff(prefix, consumers, destType, destName);
      var r := ResolveGroups(prefix, consumers, destType, destName);
      if r.Ok? {
        assert ResolveGroups(groups, consumers, destType, destName)
            == GroupStep(r.value, groups[n], consumers, destType, destName);
        GroupStepOkIff(r.value, groups[n], consumers, destType, destName);
        assert forall i :: 0 <= i < n ==> prefix[i] == groups[i];
      } else {
        assert ResolveGroups(groups, consumers, destType, destName).Err?;
        var i :| 0 <= i < n && !GroupResolves(prefix[i], consumers, destType, destName);
        assert prefix[i] == groups[i];
      }
    }
  }

  /** A group naming an exchange that is not among the consumers makes the
      whole resolution fail, whatever the other groups hold. */
  lemma MissingExchangeFails(groups: seq<ExchangeBindingsSchema>, consumers: seq<ExchangeResource>,
                             destType: DestinationType, destName: string, k: nat)
    requires k < |groups|
    requires forall c :: 0 <= c < |consumers| ==> consumers[c].metadata.name != groups[k].exchange
    ensures ResolveGroups(groups, consumers, destType, destName).Err?
  {
    ResolveOkIff(groups, consumers, destType, destName);
    assert !GroupResolves(groups[k], consumers, destType, destName);
  }

  /** ... and the error is "exchange not found" when the groups before it
      resolved. */
  lemma MissingExchangeError(groups: seq<ExchangeBindingsSchema>, consumers: seq<ExchangeResource>,
                             destType: DestinationType, destName: string, k: nat)
    requires k < |groups|
    requires forall c :: 0 <= c < |consumers| ==> consumers[c].metadata.name != groups[k].exchange
    requires ResolveGroups(groups[..k], consumers, destType, destName).Ok?
    ensures ResolveGroups(groups, consumers, destType, destName) == Err(ExchangeNotFound)
  {
    assert groups[..k + 1][..k] == groups[..k];
    ResolveGroupsErrPersists(groups, k + 1, consumers, destType, destName);
  }

  /** A matching rule whose routing value does not decode makes the whole
      resolution fail. */
  lemma UndecodableRoutingFails(groups: seq<ExchangeBindingsSchema>, consumers: seq<ExchangeResource>,
                                destType: DestinationType, destName: string, i: nat, j: nat)
    requires i < |groups| && j < |groups[i].bindings|
    requires Matches(groups[i].bindings[j], destType, destName)
    requires !RoutingDecodes(groups[i].bindings[j].routing)
    ensures ResolveGroups(groups, consumers, destType, destName).Err?
  {
    ResolveOkIff(groups, consumers, destType, destName);
    assert !GroupResolves(groups[i], consumers, destType, destName);
  }

  /** On success there is one binding per matching rule, in visiting order,
      each built from its rule and its group's exchange, and the exchange
      list holds the contributing groups' exchanges. */
  lemma {:induction false} ResolveOk(groups: seq<ExchangeBindingsSchema>, consumers: seq<ExchangeResource>,
                                     destType: DestinationType, destName: string)
    requires ResolveGroups(groups, consumers, destType, destName).Ok?
    ensures var res := ResolveGroups(groups, consumers, destType, destName).value;
      var ms := AllMatches(groups, destType, destName);
      && |res.bindings| == |ms|
      && (forall i :: 0 <= i < |ms| ==>
            BindingFor(ms[i].rule, ms[i].exchange, destType, destName) == Ok(res.bindings[i]))
      && res.exchanges == ContributingExchanges(groups, consumers, destType, destName)
  {
    if |groups| > 0 {
      var n := |groups| - 1;
      var prefix := groups[..n];
      var group := groups[n];
      ResolveOk(prefix, consumers, destType, destName);
      var acc := ResolveGroups(prefix, consumers, destType, destName).value;
      var found := FindExchange(consumers, group.exchange).value;
      var ms := AllMatches(prefix, destType, destName);
      var tagged := Tagged(group.exchange, MatchingRules(group.bindings, destType, destName));
      if |group.bindings| == 0 {
        assert MatchingRules(group.bindings, destType, destName) == [];
        assert AllMatches(groups, destType, destName) == ms;
      } else {
        GroupBindingsOk(group.bindings, found.metadata.name, destType, destName);
        var bs := GroupBindings(group.bindings, found.metadata.name, destType, destName).value;
        var res := ResolveGroups(groups, consumers, destType, destName).value;
        assert res.bindings == acc.bindings + bs;
        var all: seq<MatchedRule> := ms + tagged;
        assert AllMatches(groups, destType, destName) == all;
        forall i | 0 <= i < |all|
          ensures BindingFor(all[i].rule, all[i].exchange, destType, destName) == Ok(res.bindings[i])
        {
          if i >= |ms| {
            assert found.metadata.name == group.exchange;
          }
        }
      }
    }
  }

  /** Every emitted binding targets the requested destination, names its
      group's exchange, is declared, and carries a routing key for a string
      routing value or the header table otherwise. */
  lemma ResolvedBindingFields(groups: seq<ExchangeBindingsSchema>, consumers: seq<ExchangeResource>,
                              destType: DestinationType, destName: string)
    requires ResolveGroups(groups, consumers, destType, destName).Ok?
    ensures var bs := ResolveGroups(groups, consumers, destType, destName).value.bindings;
      var ms := AllMatches(groups, destType, destName);
      && |bs| == |ms|
      && forall i :: 0 <= i < |ms| ==>
           && bs[i].destinationName == destName && bs[i].destinationType == destType
           && bs[i].exchangeName == ms[i].exchange && bs[i].options.declare
           && (ms[i].rule.routing.RoutingKey? ==>
                 bs[i].routingKey == ms[i].rule.routing.key && bs[i].options.args == map[])
           && (!ms[i].rule.routing.RoutingKey? ==>
                 bs[i].routingKey == "" && HeaderArgs(ms[i].rule.routing) == Ok(bs[i].options.args))
  {
    ResolveOk(groups, consumers, destType, destName);
  }

  /** Every emitted binding targets the requested destination. */
  lemma ResolvedBindingsTarget(groups: seq<ExchangeBindingsSchema>, consumers: seq<ExchangeResource>,
                               destType: DestinationType, destName: string)
    requires ResolveGroups(groups, consumers, destType, destName).Ok?
    ensures forall b :: b in ResolveGroups(groups, consumers, destType, destName).value.bindings ==>
      b.destinationName == destName && b.destinationType == destType
  {
    ResolvedBindingFields(groups, consumers, destType, destName);
    var bs := ResolveGroups(groups, consumers, destType, destName).value.bindings;
    forall b | b in bs
      ensures b.destinationName == destName && b.destinationType == destType
    {
      var i :| 0 <= i < |bs| && bs[i] == b;
    }
  }

  /** Every rule of AllMatches applies to the destination. */
  lemma {:induction false} AllMatchesMatch(groups: seq<ExchangeBindingsSchema>, destType: DestinationType, destName: string)
    ensures forall m :: m in AllMatches(groups, destType, destName) ==> Matches(m.rule, destType, destName)
  {
    if |groups| > 0 {
      AllMatchesMatch(groups[..|groups| - 1], destType, destName);
      MatchingRulesMatch(groups[|groups| - 1].bindings, destType, destName);
    }
  }

  /** A group's matching rules are exactly its rules that apply to the
      destination. */
  lemma {:induction false} MatchingRulesMatch(rules: seq<ExchangeBindingSchema>, destType: DestinationType, destName: string)
    ensures forall r :: r in MatchingRules(rules, destType, destName) ==> r in rules && Matches(r, destType, destName)
    ensures forall i :: 0 <= i < |rules| && Matches(rules[i], destType, destName) ==>
      rules[i] in MatchingRules(rules, destType, destName)
  {
    if |rules| > 0 {
      var p := rules[..|rules| - 1];
      MatchingRulesMatch(p, destType, destName);
      assert forall i :: 0 <= i < |p| ==> p[i] == rules[i];
    }
  }

  /** At most one exchange per group: the list is never longer than the
      group count. */
  lemma {:induction false} ContributingExchangesBound(groups: seq<ExchangeBindingsSchema>, consumers: seq<ExchangeResource>,
                                                      destType: DestinationType, destName: string)
    ensures |ContributingExchanges(groups, consumers, destType, destName)| <= |groups|
  {
    if |groups| > 0 {
      ContributingExchangesBound(groups[..|groups| - 1], consumers, destType, destName);
    }
  }

  /** The exchange list is exactly "used": every declared exchange has a
      binding on it, and every binding's exchange is declared. */
  lemma {:induction false} ResolutionClosed(groups: seq<ExchangeBindingsSchema>, consumers: seq<ExchangeResource>,
                                            destType: DestinationType, destName: string)
    requires ResolveGroups(groups, consumers, destType, destName).Ok?
    ensures var res := ResolveGroups(groups, consumers, destType, destName).value;
      && (forall e :: e in res.exchanges ==> exists b :: b in res.bindings && b.exchangeName == e.name)
      && (forall b :: b in res.bindings ==> exists e :: e in res.exchanges && e.name == b.exchangeName)
  {
    if |groups| > 0 {
      var n := |groups| - 1;
      var prefix := groups[..n];
      var group := groups[n];
      ResolutionClosed(prefix, consumers, destType, destName);
      var acc := ResolveGroups(prefix, consumers, destType, destName).value;
      var found := FindExchange(consumers, group.exchange).value;
      var res := ResolveGroups(groups, consumers, destType, destName).value;
      if |group.bindings| > 0 {
        GroupBindingsOk(group.bindings, found.metadata.name, destType, destName);
        var bs := GroupBindings(group.bindings, found.metadata.name, destType, destName).value;
        var added := if |bs| > 0 then [AsExchange(found)] else [];
        assert res == Resolution(acc.bindings + bs, acc.exchanges + added);
        assert forall b :: b in bs ==> b.exchangeName == found.metadata.name by {
          forall b | b in bs ensures b.exchangeName == found.metadata.name {
            var i :| 0 <= i < |bs| && bs[i] == b;
          }
        }
        forall e | e in res.exchanges
          ensures exists b :: b in res.bindings && b.exchangeName == e.name
        {
          if e !in acc.exchanges {
            assert e == AsExchange(found) && bs[0] in res.bindings;
          }
        }
        forall b | b in res.bindings
          ensures exists e :: e in res.exchanges && e.name == b.exchangeName
        {
          if b !in acc.bindings {
            assert AsExchange(found) in res.exchanges;
          }
        }
      }
    }
  }

  /** When every group's exchange exists and no rule applies to the
      destination, both lists are empty and there is no error. */
  lemma {:induction false} NoMatchResolvesEmpty(groups: seq<ExchangeBindingsSchema>, consumers: seq<ExchangeResource>,
                                                destType: DestinationType, destName: string)
    requires forall i :: 0 <= i < |groups| ==> FindExchange(consumers, groups[i].exchange).Some?
    requires forall i, j :: 0 <= i < |groups| && 0 <= j < |groups[i].bindings| ==>
      !Matches(groups[i].bindings[j], destType, destName)
    ensures ResolveGroups(groups, consumers, destType, destName) == Ok(Resolution([], []))
  {
    if |groups| > 0 {
      var n := |groups| - 1;
      var prefix := groups[..n];
      forall i | 0 <= i < n
        ensures FindExchange(consumers, prefix[i].exchange).Some?
        ensures forall j :: 0 <= j < |prefix[i].bindings| ==> !Matches(prefix[i].bindings[j], destType, destName)
      {
        assert prefix[i] == groups[i];
      }
      NoMatchResolvesEmpty(prefix, consumers, destType, destName);
      var found := FindExchange(consumers, groups[n].exchange).value;
      GroupBindingsNoMatch(groups[n].bindings, found.metadata.name, destType, destName);
      assert ResolveGroups(groups, consumers, destType, destName)
          == GroupStep(Resolution([], []), groups[n], consumers, destType, destName);
    }
  }

  // ---- scenarios ----

  const Orders := ExchangeResource("rabbitmq", ResourceMetadata("orders"), ExchangeSpec("topic", false, false))
  const OrderEvents := QueueResource("rabbitmq", ResourceMetadata("order-events"), QueueSpec(true, false, false))
  const OrdersTopology := BlockSpec(
    [Orders], [OrderEvents],
    Some(BindingsSchema([ExchangeBindingsSchema("orders",
      [ExchangeBindingSchema("order-events", "queue", RoutingKey("order.created"))])])))

  /** One routing-key rule for the queue: one binding and one exchange. */
  lemma OrdersScenario()
    ensures Resolve(OrdersTopology, QueueDestination, "order-events")
      == Ok(Resolution(
           [Binding("order-events", QueueDestination, "orders", "order.created", BindingOptions(true, map[]))],
           [ExchangeOptions("orders", "topic", false, false, true)]))
  {
    var groups := OrdersTopology.bindings.value.exchanges;
    var rules := groups[0].bindings;
    var binding := Binding("order-events", QueueDestination, "orders", "order.created", BindingOptions(true, map[]));
    SingleRuleGroup(rules[0], "orders", QueueDestination, "order-events");
    assert rules == [rules[0]];
    assert OrdersTopology.consumers == [Orders];
    assert FindExchange([Orders], "orders") == Some(Orders);
    assert groups[..|groups| - 1] == [];
    assert GroupBindings(groups[0].bindings, Orders.metadata.name, QueueDestination, "order-events") == Ok([binding]);
    assert ResolveGroups(groups[..|groups| - 1], [Orders], QueueDestination, "order-events") == Ok(Resolution([], []));
    assert GroupStep(Resolution([], []), groups[0], [Orders], QueueDestination, "order-events")
        == Ok(Resolution([] + [binding], [] + [AsExchange(Orders)]));
    assert ResolveGroups(groups, [Orders], QueueDestination, "order-events")
        == Ok(Resolution([] + [binding], [] + [AsExchange(Orders)]));
    assert [] + [binding] == [binding];
    assert AsExchange(Orders) == ExchangeOptions("orders", "topic", false, false, true);
    assert [] + [AsExchange(Orders)] == [ExchangeOptions("orders", "topic", false, false, true)];
  }

  /** A group of one applicable rule with a routing key yields its binding. */
  lemma SingleRuleGroup(rule: ExchangeBindingSchema, exchangeName: string,
                        destType: DestinationType, destName: string)
    requires Matches(rule, destType, destName) && rule.routing.RoutingKey?
    ensures GroupBindings([rule], exchangeName, destType, destName)
      == Ok([Binding(destName, destType, exchangeName, rule.routing.key, BindingOptions(true, map[]))])
  {
    var rs := [rule];
    assert rs[..|rs| - 1] == [];
    assert GroupBindings(rs[..|rs| - 1], exchangeName, destType, destName) == Ok([]);
    assert rs[|rs| - 1] == rule;
    var b := Binding(destName, destType, exchangeName, rule.routing.key, BindingOptions(true, map[]));
    assert BindingFor(rule, exchangeName, destType, destName) == Ok(b);
    assert [] + [b] == [b];
  }

  /** The same topology resolved for an unknown queue: nothing, no error. */
  lemma OrdersScenarioUnknownQueue()
    ensures Resolve(OrdersTopology, QueueDestination, "nonexistent") == Ok(Resolution([], []))
  {
    NoMatchResolvesEmpty(OrdersTopology.bindings.value.exchanges, OrdersTopology.consumers,
                         QueueDestination, "nonexistent");
  }

  /** ASCII upper case of one character. */
  function Upper(c: char): char
  {
    if 'a' <= c <= 'z' then (c as int - 32) as char else c
  }

  /** The rule type is compared case-insensitively, the name exactly: a
      type spelt like the destination type's name with any letters in upper
      case matches, and a different name never does. */
  lemma TypeIsCaseInsensitive(ruleType: string, destType: DestinationType, destName: string,
                              ruleName: string, routing: Routing)
    requires |ruleType| == |DestinationTypeName(destType)|
    requires forall i :: 0 <= i < |ruleType| ==>
      ruleType[i] == DestinationTypeName(destType)[i] || ruleType[i] == Upper(DestinationTypeName(destType)[i])
    ensures Matches(ExchangeBindingSchema(destName, ruleType, routing), destType, destName)
    ensures ruleName != destName ==> !Matches(ExchangeBindingSchema(ruleName, ruleType, routing), destType, destName)
  {
    var name := DestinationTypeName(destType);
    forall i | 0 <= i < |ruleType|
      ensures Lower(ruleType[i]) == Lower(name[i])
    {
      assert 'a' <= name[i] <= 'z';
    }
  }

  /** A header rule with matchAll and one user header. */
  lemma HeaderScenario()
    ensures HeaderArgs(HeaderObject(Some(HeaderBindings(true, map["region" := "eu"]))))
      == Ok(map["region" := "eu", "x-match" := "all"])
  {
  }

  /** The match mode written last replaces a user header named x-match. */
  lemma XMatchOverridesUserKey(headers: map<string, string>)
    requires XMatch in headers && headers[XMatch] != "any"
    ensures HeaderArgs(HeaderObject(Some(HeaderBindings(false, headers)))).value[XMatch] == "any"
    ensures HeaderArgs(HeaderObject(Some(HeaderBindings(false, headers)))).value[XMatch] != headers[XMatch]
  {
  }

  /** Two groups naming the same exchange both declare it. */
  lemma SameExchangeInTwoGroups()
    ensures var rule := ExchangeBindingSchema("order-events", "queue", RoutingKey("a"));
      var spec := BlockSpec([Orders], [OrderEvents],
        Some(BindingsSchema([ExchangeBindingsSchema("orders", [rule]), ExchangeBindingsSchema("orders", [rule])])));
      Resolve(spec, QueueDestination, "order-events").Ok?
      && Resolve(spec, QueueDestination, "order-events").value.exchanges == [AsExchange(Orders), AsExchange(Orders)]
  {
    var rule := ExchangeBindingSchema("order-events", "queue", RoutingKey("a"));
    var g := ExchangeBindingsSchema("orders", [rule]);
    var binding := Binding("order-events", QueueDestination, "orders", "a", BindingOptions(true, map[]));
    SingleRuleGroup(rule, "orders", QueueDestination, "order-events");
    assert FindExchange([Orders], "orders") == Some(Orders);
    assert GroupBindings(g.bindings, Orders.metadata.name, QueueDestination, "order-events") == Ok([binding]);
    var gs := [g, g];
    assert gs[..|gs| - 1] == [g];
    var one := [g];
    assert one[..|one| - 1] == [];
    assert ResolveGroups(one[..|one| - 1], [Orders], QueueDestination, "order-events") == Ok(Resolution([], []));
    assert GroupStep(Resolution([], []), g, [Orders], QueueDestination, "order-events")
        == Ok(Resolution([] + [binding], [] + [AsExchange(Orders)]));
    assert ResolveGroups(one, [Orders], QueueDestination, "order-events")
        == Ok(Resolution([] + [binding], [] + [AsExchange(Orders)]));
    assert GroupStep(Resolution([binding], [AsExchange(Orders)]), g, [Orders], QueueDestination, "order-events")
        == Ok(Resolution([binding] + [binding], [AsExchange(Orders)] + [AsExchange(Orders)]));
  }
}
