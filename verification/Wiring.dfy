/** Every connector must join two pipelines: when the assembled configuration meets that demand of the collector. */
module Wiring {
  import opened Names
  import opened Api
  import opened NamedPipelines
  import opened Generators
  import opened Assembly
  import opened Meaning
  import opened Closure
  import opened Records

  // Some pipeline exports to the connector and some pipeline receives from it.
  ghost predicate IsJoined(config: CollectorConfig, k: string) {
    && (exists p :: p in config.pipelines && k in config.pipelines[p].exporters)
    && (exists q :: q in config.pipelines && k in config.pipelines[q].receivers)
  }

  lemma ExportedThere(input: ConfigInput, orders: Orders, config: CollectorConfig, p: PipelineId, c: ComponentId)
    requires WellFormed(input) && OrdersOf(input, orders) && Assembled(input, orders, config)
    requires InPipelines(input, p) && Exports(input, p, c)
    ensures PipelineName(p) in config.pipelines && ComponentName(c) in config.pipelines[PipelineName(p)].exporters
  {
    hide ComponentName, PipelineName, PipelineAt, InPipelines, OrdersOf, Assembled, Compiled, WellFormed, Exports;
    AssembledIsCompiled(input, orders, config);
    Encode(input, config.pipelines, config.connectors.Keys, p);
    ExportersAre(input, p, ComponentName(c));
  }

  lemma ReceivedThere(input: ConfigInput, orders: Orders, config: CollectorConfig, q: PipelineId, c: ComponentId)
    requires WellFormed(input) && OrdersOf(input, orders) && Assembled(input, orders, config)
    requires InPipelines(input, q) && Receives(input, q, c)
    ensures PipelineName(q) in config.pipelines && ComponentName(c) in config.pipelines[PipelineName(q)].receivers
  {
    hide ComponentName, PipelineName, PipelineAt, InPipelines, OrdersOf, Assembled, Compiled, WellFormed, Receives;
    AssembledIsCompiled(input, orders, config);
    Encode(input, config.pipelines, config.connectors.Keys, q);
    ReceiversAre(input, q, ComponentName(c));
  }

  lemma JoinedBetween(input: ConfigInput, orders: Orders, config: CollectorConfig, p: PipelineId, q: PipelineId,
                      c: ComponentId)
    requires WellFormed(input) && OrdersOf(input, orders) && Assembled(input, orders, config)
    requires InPipelines(input, p) && Exports(input, p, c) && InPipelines(input, q) && Receives(input, q, c)
    ensures IsJoined(config, ComponentName(c))
  {
    hide ComponentName, PipelineName, InPipelines, OrdersOf, Assembled, WellFormed, Exports, Receives;
    ExportedThere(input, orders, config, p, c);
    ReceivedThere(input, orders, config, q, c);
  }

  lemma OutputPipelineOf(input: ConfigInput, s: NamespacedName) returns (t: string, o: NamespacedName)
    requires WellFormed(input) && s in input.subscriptions && input.OutputsOf(s) != []
    ensures InPipelines(input, SubscriptionPipeline(t, s)) && InPipelines(input, Root(t))
    ensures InPipelines(input, OutputPipeline(s, o))
  {
    hide FindOutput, WellNamed, TenantsIndexed, OneKindEach, BridgesIndexed;
    t :| t in input.tenantSubscriptions && s in input.tenantSubscriptions[t];
    o := input.OutputsOf(s)[0];
    assert o in input.OutputsOf(s);
    SubscribedOutput(input, t, s, o);
  }

  lemma BridgeIsJoined(input: ConfigInput, orders: Orders, config: CollectorConfig, b: Bridge)
    requires WellFormed(input) && OrdersOf(input, orders) && Assembled(input, orders, config) && b in input.bridges
    ensures IsJoined(config, ComponentName(RouteBridge(b.name)))
  {
    hide ComponentName, PipelineName, OrdersOf, Assembled, IsJoined;
    assert BridgesIndexed(input);
    JoinedBetween(input, orders, config, Root(b.source), Root(b.target), RouteBridge(b.name));
  }

  lemma TenantIsJoined(input: ConfigInput, orders: Orders, config: CollectorConfig, t: string)
    requires WellFormed(input) && OrdersOf(input, orders) && Assembled(input, orders, config)
    requires input.SubscriptionsOf(t) != []
    ensures IsJoined(config, ComponentName(RouteSubscriptions(t)))
  {
    hide ComponentName, PipelineName, OrdersOf, Assembled, IsJoined, WellFormed;
    var s := input.SubscriptionsOf(t)[0];
    ListedSubscription(input, t, s);
    JoinedBetween(input, orders, config, Root(t), SubscriptionPipeline(t, s), RouteSubscriptions(t));
  }

  lemma SubscriptionIsJoined(input: ConfigInput, orders: Orders, config: CollectorConfig, s: NamespacedName)
    requires WellFormed(input) && OrdersOf(input, orders) && Assembled(input, orders, config)
    requires s in input.subscriptions && input.OutputsOf(s) != []
    ensures IsJoined(config, ComponentName(RouteOutputs(s)))
  {
    hide ComponentName, PipelineName, OrdersOf, Assembled, IsJoined, WellFormed, InPipelines;
    var t, o := OutputPipelineOf(input, s);
    JoinedBetween(input, orders, config, SubscriptionPipeline(t, s), OutputPipeline(s, o), RouteOutputs(s));
  }

  lemma CountsAreJoined(input: ConfigInput, orders: Orders, config: CollectorConfig, s: NamespacedName, c: ComponentId)
    requires WellFormed(input) && OrdersOf(input, orders) && Assembled(input, orders, config)
    requires s in input.subscriptions && input.OutputsOf(s) != []
    requires IsConnector(input, c) && (c.CountTenant? || c.CountOutput? || c.BytesExporter?)
    ensures IsJoined(config, ComponentName(c))
  {
    hide ComponentName, PipelineName, OrdersOf, Assembled, IsJoined, WellFormed, FindOutput;
    var t, o := OutputPipelineOf(input, s);
    match c
    case CountTenant => JoinedBetween(input, orders, config, Root(t), TenantMetrics, c);
    case CountOutput => JoinedBetween(input, orders, config, OutputPipeline(s, o), OutputMetrics, c);
    case BytesExporter => JoinedBetween(input, orders, config, OutputPipeline(s, o), OutputBytes, c);
  }

  // Without an output to count, nothing exports to the connector that counts outputs.
  lemma NothingToCount(input: ConfigInput, orders: Orders, config: CollectorConfig)
    requires WellFormed(input) && OrdersOf(input, orders) && Assembled(input, orders, config) && !input.dryRun
    requires forall s | s in input.subscriptions :: input.OutputsOf(s) == []
    ensures ComponentName(CountOutput) in config.connectors && !IsJoined(config, ComponentName(CountOutput))
  {
    hide ComponentName, PipelineName, PipelineAt, OrdersOf, Assembled, Compiled, WellFormed, FindOutput, ConnectorOk;
    var x := ComponentName(CountOutput);
    ConnectorAt(input, orders, config, CountOutput);
    AssembledIsCompiled(input, orders, config);
    IndexedInput(input);
    if p :| p in config.pipelines && x in config.pipelines[p].exporters {
      var id := Decode(input, config.pipelines, config.connectors.Keys, p);
      ExportersAre(input, id, x);
      var c :| Exports(input, id, c) && ComponentName(c) == x;
      ExportedIsNamed(input, id, c);
      ComponentNameInjective(c, CountOutput);
      assert false;
    }
  }

  // Every connector is exported to and received from exactly if, outside dry-run mode, some subscription has an
  // output: otherwise the connector that counts outputs has nothing to count, and the collector refuses to start.
  lemma ConnectorsAreJoinedIff(input: ConfigInput, orders: Orders, config: CollectorConfig)
    requires WellFormed(input) && OrdersOf(input, orders) && Assembled(input, orders, config)
    ensures (forall k | k in config.connectors :: IsJoined(config, k)) <==>
            input.dryRun || exists s :: s in input.subscriptions && input.OutputsOf(s) != []
  {
    hide ComponentName, OrdersOf, Assembled, WellFormed, IsJoined, ConnectorOk, IsConnector;
    if input.dryRun || exists s :: s in input.subscriptions && input.OutputsOf(s) != [] {
      ConnectorDecodes(input, orders, config);
      forall k | k in config.connectors
        ensures IsJoined(config, k)
      {
        var c :| IsConnector(input, c) && IsComponentId(c) && ComponentName(c) == k
                 && ConnectorOk(input)(c, config.connectors[k]);
        ConnectorIsJoined(input, orders, config, c);
      }
    } else {
      NothingToCount(input, orders, config);
    }
  }

  lemma ConnectorIsJoined(input: ConfigInput, orders: Orders, config: CollectorConfig, c: ComponentId)
    requires WellFormed(input) && OrdersOf(input, orders) && Assembled(input, orders, config) && IsConnector(input, c)
    requires input.dryRun || exists s :: s in input.subscriptions && input.OutputsOf(s) != []
    ensures IsJoined(config, ComponentName(c))
  {
    hide ComponentName, OrdersOf, Assembled, WellFormed, IsJoined;
    if c.RouteBridge? {
      var b :| b in input.bridges && b.name == c.bridge;
      BridgeIsJoined(input, orders, config, b);
    } else if c.RouteSubscriptions? {
      TenantIsJoined(input, orders, config, c.tenant);
    } else if c.RouteOutputs? {
      SubscriptionIsJoined(input, orders, config, c.subscription);
    } else {
      var s :| s in input.subscriptions && input.OutputsOf(s) != [];
      CountsAreJoined(input, orders, config, s, c);
    }
  }
}
