/** AssembleConfig: the whole collector configuration, and the place of the memory limiter in it. */
module Assembly {
  import opened Names
  import Ordering
  import opened Api
  import opened Tables
  import opened Pipelines
  import opened NamedPipelines
  import opened Generators

  // The order each generator happens to traverse its map in; every traversal has its own.
  datatype Orders = Orders(
    exporterTenants: seq<string>,
    receiverTenants: seq<string>,
    pipelineTenants: seq<string>,
    processorSubscriptions: seq<NamespacedName>,
    connectorSubscriptions: seq<NamespacedName>)

  predicate OrdersOf(input: ConfigInput, orders: Orders) {
    && Enumerates(orders.exporterTenants, input.tenantSubscriptions.Keys)
    && Enumerates(orders.receiverTenants, input.tenantSubscriptions.Keys)
    && Enumerates(orders.pipelineTenants, input.tenantSubscriptions.Keys)
    && Enumerates(orders.processorSubscriptions, input.subscriptions.Keys)
    && Enumerates(orders.connectorSubscriptions, input.subscriptions.Keys)
  }

  datatype CollectorConfig = CollectorConfig(
    receivers: map<string, ReceiverConfig>,
    exporters: map<string, ExporterConfig>,
    processors: map<string, ProcessorConfig>,
    connectors: map<string, ConnectorConfig>,
    extensions: map<string, ExtensionConfig>,
    serviceExtensions: seq<string>,
    pipelines: map<string, PipelineSpec>)

  function WithLimiter(p: PipelineSpec): PipelineSpec {
    p.(processors := [ComponentName(MemoryLimiter)] + p.processors)
  }

  ghost predicate Limited(specs: map<string, PipelineSpec>, named: map<string, PipelineSpec>) {
    specs.Keys == named.Keys && forall k | k in specs :: specs[k] == WithLimiter(named[k])
  }

  ghost predicate Assembled(input: ConfigInput, orders: Orders, config: CollectorConfig) {
    && Defines(config.receivers, ReceiverIds(input, orders.receiverTenants), ReceiverOk(input))
    && Defines(config.exporters, AllExporterIds(input), ExporterOk(input))
    && Defines(config.processors, AllProcessorIds(input, orders.processorSubscriptions), AllProcessorsOk(input))
    && Defines(config.connectors,
               ConnectorIds(input, input.tenants, orders.connectorSubscriptions, input.bridges), ConnectorOk(input))
    && Defines(config.extensions, ExtensionIds(input, input.outputs, input.tenants), ExtensionOk(input))
    && Ordering.Sorted((s: string) => s, config.serviceExtensions)
    && Enumerates(config.serviceExtensions, config.extensions.Keys)
    && exists named :: NamedPipelinesOf(input, named) && Limited(config.pipelines, named)
  }

  // Mutates every pipeline object once; that no object sits under two keys is what makes it once.
  method PrependMemoryLimiter(pipelines: map<string, Pipeline>)
    requires PairwiseDistinct(pipelines)
    modifies pipelines.Values
    ensures forall k | k in pipelines :: pipelines[k].Spec() == WithLimiter(old(pipelines[k].Spec()))
  {
    hide ComponentName;
    var remaining := pipelines.Keys;
    while remaining != {}
      invariant remaining <= pipelines.Keys
      invariant forall k | k in pipelines && k in remaining :: pipelines[k].Spec() == old(pipelines[k].Spec())
      invariant forall k | k in pipelines && k !in remaining ::
                  pipelines[k].Spec() == WithLimiter(old(pipelines[k].Spec()))
    {
      var name :| name in remaining;
      var p := pipelines[name];
      p.processors := [ComponentName(MemoryLimiter)] + p.processors;
      remaining := remaining - {name};
    }
  }

  method AssemblePipelines(input: ConfigInput, order: seq<string>, processors: map<string, ProcessorConfig>)
    returns (pipelines: map<string, Pipeline>)
    requires WellNamed(input) && Enumerates(order, input.tenantSubscriptions.Keys)
    requires ComponentName(MemoryLimiter) in processors
    ensures exists named :: NamedPipelinesOf(input, named) && Limited(Specs(pipelines), named)
  {
    hide ComponentName;
    hide NamedPipelinesOf;
    hide WellNamed;
    pipelines := GenerateNamedPipelines(input, order);
    ghost var named := Specs(pipelines);
    if ComponentName(MemoryLimiter) in processors {
      PrependMemoryLimiter(pipelines);
    }
    assert Limited(Specs(pipelines), named);
  }

  method AssembleConfig(input: ConfigInput, orders: Orders)
    returns (config: CollectorConfig, pipelines: map<string, Pipeline>)
    requires WellFormed(input) && OrdersOf(input, orders)
    ensures config.pipelines == Specs(pipelines)
    ensures Assembled(input, orders, config)
  {
    hide ComponentName;
    hide Defines;
    hide WellNamed;
    hide TenantsIndexed;
    hide SubscriptionsIndexed;
    hide OutputsIndexed;
    hide BridgesIndexed;
    hide OneKindEach;
    hide Limited;
    hide NamedPipelinesOf;
    hide Enumerates;
    var exporters := GenerateExporters(input, orders.exporterTenants);
    var processors := GenerateProcessors(input, orders.processorSubscriptions);
    var extensions, extensionNames := GenerateExtensions(input);
    var receivers := GenerateReceivers(input, orders.receiverTenants);
    var connectors := GenerateConnectors(input, orders.connectorSubscriptions);
    MemoryLimiterDefined(input, orders.processorSubscriptions, processors);
    pipelines := AssemblePipelines(input, orders.pipelineTenants, processors);
    config := CollectorConfig(receivers, exporters, processors, connectors, extensions, extensionNames,
                              map k | k in pipelines :: pipelines[k].Spec());
    assert config.pipelines == Specs(pipelines);
  }

  lemma MemoryLimiterDefined(input: ConfigInput, order: seq<NamespacedName>, m: map<string, ProcessorConfig>)
    requires Defines(m, AllProcessorIds(input, order), AllProcessorsOk(input))
    ensures ComponentName(MemoryLimiter) in m
  {
    hide ComponentName;
    assert MemoryLimiter in AllProcessorIds(input, order);
  }
}
