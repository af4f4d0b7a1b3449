/** What the assembled configuration guarantees: every reference is defined, tables agree with the wiring,
    and processors run in the intended order. */
module Closure {
  import opened Names
  import opened Api
  import opened Tables
  import opened Pipelines
  import opened NamedPipelines
  import opened Owners
  import opened Routing
  import opened Generators
  import opened Assembly
  import opened Meaning

  // ---------------------------------------------------------------------------
  // The assembled pipelines are compiled pipelines

  lemma ConnectorsMatch(input: ConfigInput, order: seq<NamespacedName>, c: ComponentId)
    requires Enumerates(order, input.subscriptions.Keys)
    ensures c in ConnectorIds(input, input.tenants, order, input.bridges) <==> IsConnector(input, c)
  {
    var listed := set s | s in order;
    assert forall s :: s in order <==> s in listed;
    if c.RouteSubscriptions? {
      assert forall t :: TenantNamed(input, c.tenant, t) <==> t in input.tenants && t.name == c.tenant;
    }
  }

  lemma AssembledConnectors(input: ConfigInput, orders: Orders, config: CollectorConfig)
    requires OrdersOf(input, orders) && Assembled(input, orders, config)
    ensures ConnectorsOf(input, config.connectors.Keys)
  {
    hide ComponentName;
    hide IsConnector;
    hide ConnectorIds;
    hide Enumerates;
    forall c
      ensures c in ConnectorIds(input, input.tenants, orders.connectorSubscriptions, input.bridges)
              <==> IsConnector(input, c)
    {
      ConnectorsMatch(input, orders.connectorSubscriptions, c);
    }
  }

  lemma AssembledIsCompiled(input: ConfigInput, orders: Orders, config: CollectorConfig)
    requires OrdersOf(input, orders) && Assembled(input, orders, config)
    ensures Compiled(input, config.pipelines, config.connectors.Keys)
  {
    hide ConnectorsOf;
    hide Defines;
    hide Enumerates;
    hide NamedPipelinesOf;
    AssembledConnectors(input, orders, config);
    var named :| NamedPipelinesOf(input, named) && Limited(config.pipelines, named);
    assert SameConnections(config.pipelines, named);
  }

  // The end-to-end statement about meaning, on the assembled configuration.
  lemma AssembledConfigPreservesMeaning(input: ConfigInput, orders: Orders, config: CollectorConfig,
                                        tenant: Tenant, output: Output)
    requires WellFormed(input) && !input.dryRun && OrdersOf(input, orders) && Assembled(input, orders, config)
    requires tenant in input.tenants && FindOutput(input.outputs, output.id) == Some(output)
    ensures Flows(config.pipelines, config.connectors.Keys, ComponentName(FileLog(tenant.name)),
                  ExporterNameFor(output))
            <==> (tenant.logSourceNamespaces.Items? || tenant.selectFromAllNamespaces)
                 && Delivers(input, tenant.name, output.id)
    ensures ListsNormal(tenant) ==>
              (Flows(config.pipelines, config.connectors.Keys, ComponentName(FileLog(tenant.name)),
                     ExporterNameFor(output))
               <==> (tenant.selectFromAllNamespaces || tenant.logSourceNamespaces.Elements() != [])
                    && Delivers(input, tenant.name, output.id))
  {
    hide Assembled;
    hide Compiled;
    hide WellFormed;
    AssembledIsCompiled(input, orders, config);
    hide Flows, Delivers, ExporterNameFor, ComponentName, FindOutput;
    CompilationPreservesMeaning(input, config.pipelines, config.connectors.Keys, tenant, output);
  }

  // ---------------------------------------------------------------------------
  // Processors of each pipeline

  ghost predicate Processes(input: ConfigInput, id: PipelineId, c: ComponentId) {
    match id
    case Root(t) =>
      || c == K8sAttributes || c == TenantAttributes(t) || c == FilterExclude
      || (c.TransformProcessor? && c.name != ""
          && exists u :: u in input.tenants && u.name == t && u.transform.name == c.name)
    case SubscriptionPipeline(_, s) => c == SubscriptionAttributes(s.name)
    case OutputPipeline(_, o) =>
      || c == ExporterNameAttributes(o.name)
      || (c == BatchProcessor(o.name) && exists e :: e in input.outputs && e.output.id == o && e.output.batch.Some?)
    case _ => c == DeltaToCumulative || c == MetricAttributes
  }

  lemma RootProcessed(input: ConfigInput, t: string, x: string) returns (c: ComponentId)
    requires x in PipelineAt(input, Root(t)).processors
    ensures Processes(input, Root(t), c) && ComponentName(c) == x
  {
    hide ComponentName;
    var base := RootPipeline(input, t);
    var wired := WireBridges(base, t, input.bridges);
    WiringExtendsProcessors(base, t, input.bridges);
    TransformAddsProcessors(wired, t, input.tenants, x);
    NonEmptyMembers(RootProcessors(t), x);
    if x in base.processors {
      assert RootProcessors(t)[0] == ComponentName(K8sAttributes);
      c := if x == ComponentName(K8sAttributes) then K8sAttributes
           else if x == ComponentName(TenantAttributes(t)) then TenantAttributes(t) else FilterExclude;
    } else {
      var u :| u in input.tenants && u.name == t && u.transform.name != ""
               && x == ComponentName(TransformProcessor(u.transform.name));
      c := TransformProcessor(u.transform.name);
    }
  }

  lemma {:induction false} WiringExtendsProcessors(p: PipelineSpec, tenant: string, bridges: seq<Bridge>)
    ensures WireBridges(p, tenant, bridges).processors == p.processors
  {
    if bridges != [] {
      WiringExtendsProcessors(p, tenant, bridges[..|bridges| - 1]);
    }
  }

  lemma OutputProcessed(input: ConfigInput, s: NamespacedName, o: NamespacedName, x: string) returns (c: ComponentId)
    requires FindOutput(input.outputs, o).Some?
    requires x in PipelineAt(input, OutputPipeline(s, o)).processors
    ensures Processes(input, OutputPipeline(s, o), c) && ComponentName(c) == x
  {
    hide ComponentName;
    hide FindOutput;
    hide NonEmpty;
    hide OutputExporters;
    var output := FindOutput(input.outputs, o).value;
    NonEmptyMembers(OutputProcessors(output), x);
    assert PipelineAt(input, OutputPipeline(s, o)).processors == NonEmpty(OutputProcessors(output));
    if x == ComponentName(ExporterNameAttributes(o.name)) {
      c := ExporterNameAttributes(o.name);
    } else {
      c := BatchProcessor(o.name);
      var e :| e in input.outputs && e.output == output;
    }
  }

  lemma Processed(input: ConfigInput, id: PipelineId, x: string) returns (c: ComponentId)
    requires InPipelines(input, id) && x in PipelineAt(input, id).processors
    ensures Processes(input, id, c) && ComponentName(c) == x
  {
    hide ComponentName;
    match id
    case Root(t) => c := RootProcessed(input, t, x);
    case SubscriptionPipeline(_, s) =>
      SingletonMembers(SubscriptionAttributes(s.name), x);
      c := SubscriptionAttributes(s.name);
    case OutputPipeline(s, o) => c := OutputProcessed(input, s, o, x);
    case _ => c := if x == ComponentName(DeltaToCumulative) then DeltaToCumulative else MetricAttributes;
  }

  lemma ProcessedIsNamed(input: ConfigInput, id: PipelineId, c: ComponentId)
    requires WellNamed(input) && InPipelines(input, id) && Processes(input, id, c)
    ensures IsComponentId(c)
  {
    PresentIdsAreNamed(input, id);
  }

  // Every pipeline starts with the memory limiter, and has it only there.
  lemma MemoryLimiterComesFirstAndOnce(input: ConfigInput, orders: Orders, config: CollectorConfig, k: string)
    requires WellFormed(input) && Assembled(input, orders, config) && k in config.pipelines
    ensures var ps := config.pipelines[k].processors;
            && ps != [] && ps[0] == ComponentName(MemoryLimiter)
            && forall i | 0 < i < |ps| :: ps[i] != ComponentName(MemoryLimiter)
  {
    hide ComponentName;
    hide Defines;
    hide PipelineAt;
    hide InPipelines;
    hide PipelineName;
    hide WellFormed;
    var named :| NamedPipelinesOf(input, named) && Limited(config.pipelines, named);
    var id :| InPipelines(input, id) && PipelineName(id) == k;
    var rest := PipelineAt(input, id).processors;
    assert config.pipelines[k].processors == [ComponentName(MemoryLimiter)] + rest;
    WellFormedIsNamed(input);
    NoMemoryLimiterYet(input, id);
  }

  lemma NoMemoryLimiterYet(input: ConfigInput, id: PipelineId)
    requires WellNamed(input) && InPipelines(input, id)
    ensures ComponentName(MemoryLimiter) !in PipelineAt(input, id).processors
  {
    hide ComponentName;
    hide PipelineAt;
    hide WellNamed;
    if ComponentName(MemoryLimiter) in PipelineAt(input, id).processors {
      var c := Processed(input, id, ComponentName(MemoryLimiter));
      ProcessedIsNamed(input, id, c);
      ComponentNameInjective(c, MemoryLimiter);
      assert false;
    }
  }

  lemma BatchIsLastProcessor(input: ConfigInput, s: NamespacedName, output: Output)
    requires FindOutput(input.outputs, output.id) == Some(output) && output.batch.Some?
    ensures WithLimiter(PipelineAt(input, OutputPipeline(s, output.id))).processors
         == [ComponentName(MemoryLimiter), ComponentName(ExporterNameAttributes(output.id.name)),
             ComponentName(BatchProcessor(output.id.name))]
  {
    hide ComponentName;
    var a, b := ComponentName(ExporterNameAttributes(output.id.name)), ComponentName(BatchProcessor(output.id.name));
    NameNotEmpty(ExporterNameAttributes(output.id.name));
    NameNotEmpty(BatchProcessor(output.id.name));
    assert OutputProcessors(output) == [a, b];
    assert [a, b][..1] == [a];
    assert NonEmpty([a]) == [a];
  }

  // Batching happens after everything that may drop data, in every pipeline of an output with a batch.
  lemma BatchComesLast(input: ConfigInput, orders: Orders, config: CollectorConfig, s: NamespacedName, output: Output)
    requires Assembled(input, orders, config) && InPipelines(input, OutputPipeline(s, output.id))
    requires FindOutput(input.outputs, output.id) == Some(output) && output.batch.Some?
    ensures var k := PipelineName(OutputPipeline(s, output.id));
            k in config.pipelines
            && config.pipelines[k].processors
               == [ComponentName(MemoryLimiter), ComponentName(ExporterNameAttributes(output.id.name)),
                   ComponentName(BatchProcessor(output.id.name))]
  {
    hide Defines;
    hide PipelineAt;
    hide InPipelines;
    hide PipelineName;
    hide ComponentName;
    var named :| NamedPipelinesOf(input, named) && Limited(config.pipelines, named);
    BatchIsLastProcessor(input, s, output);
  }

  // ---------------------------------------------------------------------------
  // Referential closure

  predicate PipelineClosed(config: CollectorConfig, p: PipelineSpec) {
    && (forall x | x in p.receivers :: x in config.receivers || x in config.connectors)
    && (forall x | x in p.processors :: x in config.processors)
    && (forall x | x in p.exporters :: x in config.exporters || x in config.connectors)
  }

  predicate PipelinesClosed(config: CollectorConfig) {
    forall k | k in config.pipelines :: PipelineClosed(config, config.pipelines[k])
  }

  predicate Available(config: CollectorConfig, extension: Option<string>) {
    extension.Some? ==> extension.value in config.extensions
  }

  predicate ExtensionsClosed(config: CollectorConfig) {
    && (forall k | k in config.receivers :: Available(config, config.receivers[k].storage))
    && (forall k | k in config.exporters ::
          Available(config, config.exporters[k].storage) && Available(config, config.exporters[k].authenticator))
    && (forall x | x in config.serviceExtensions :: x in config.extensions)
  }

  predicate TablesClosed(config: CollectorConfig) {
    forall k | k in config.connectors && config.connectors[k].RoutingConfig? ::
      && (forall row | row in config.connectors[k].rc.table :: forall p | p in row.pipelines :: p in config.pipelines)
      && forall p | p in config.connectors[k].rc.defaultPipelines :: p in config.pipelines
  }

  predicate Closed(config: CollectorConfig) {
    PipelinesClosed(config) && ExtensionsClosed(config) && TablesClosed(config)
  }

  predicate ListsNormal(tenant: Tenant) {
    && (tenant.logSourceNamespaces == Items([]) ==> tenant.selectFromAllNamespaces)
    && tenant.subscriptions != Items([])
  }

  ghost predicate NamesPipeline(input: ConfigInput, p: string) {
    exists id :: InPipelines(input, id) && PipelineName(id) == p
  }

  // The default pipelines that a tenant configures for its subscriptions exist.
  ghost predicate DefaultsExist(input: ConfigInput, tenant: Tenant) {
    input.SubscriptionsOf(tenant.name) != [] ==> forall p | p in tenant.defaultPipelines :: NamesPipeline(input, p)
  }

  // No list is empty but not nil, every subscription has an output, and default pipelines exist.
  ghost predicate Compilable(input: ConfigInput) {
    && (forall t | t in input.tenants :: ListsNormal(t))
    && (forall s | s in input.subscriptions :: input.OutputsOf(s) != [])
    && forall t | t in input.tenants :: DefaultsExist(input, t)
  }

  lemma FoundTenant(input: ConfigInput, tenant: Tenant)
    requires TenantsIndexed(input) && tenant in input.tenants
    ensures FindTenant(input.tenants, tenant.name) == Some(tenant)
    ensures tenant.name in input.tenantSubscriptions
  {
    hide FindTenant;
    var found := FindTenant(input.tenants, tenant.name);
    UniqueTenant(input.tenants, found.value, tenant);
  }

  lemma ListedInOrder<K(!new)>(order: seq<K>, keys: set<K>)
    requires Enumerates(order, keys)
    ensures forall k :: k in order <==> k in keys
  {
    var listed := set k | k in order;
    assert forall k :: k in order <==> k in listed;
  }

  ghost predicate ReceiverOrConnector(input: ConfigInput, orders: Orders, c: ComponentId) {
    c in ReceiverIds(input, orders.receiverTenants) || IsConnector(input, c)
  }

  ghost predicate ExporterOrConnector(input: ConfigInput, c: ComponentId) {
    c in AllExporterIds(input) || IsConnector(input, c)
  }

  lemma SubscribedTenant(input: ConfigInput, t: string, s: NamespacedName)
    requires WellFormed(input) && s in input.SubscriptionsOf(t)
    ensures t in input.tenantSubscriptions && s in input.subscriptions
    ensures exists tenant :: TenantNamed(input, t, tenant)
  {
    assert TenantsIndexed(input) && SubscriptionsIndexed(input);
    var tenant := TenantOf(input, t);
  }

  lemma SourceReceiverDefined(input: ConfigInput, orders: Orders, t: string, c: ComponentId)
    requires TenantsIndexed(input) && OrdersOf(input, orders) && (forall u | u in input.tenants :: ListsNormal(u))
    requires t in input.tenantSubscriptions && (c == FileLog(t) || c == K8sEvents(t)) && Receives(input, Root(t), c)
    ensures c in ReceiverIds(input, orders.receiverTenants)
  {
    hide FindTenant;
    ListedInOrder(orders.receiverTenants, input.tenantSubscriptions.Keys);
    var tenant :| TenantNamed(input, t, tenant)
                  && (tenant.logSourceNamespaces.Items? || tenant.selectFromAllNamespaces);
    FoundTenant(input, tenant);
    assert ListsNormal(tenant);
    assert Listens(input, t);
  }

  lemma ReceivedIsDefined(input: ConfigInput, orders: Orders, id: PipelineId, c: ComponentId)
    requires WellFormed(input) && OrdersOf(input, orders) && Compilable(input)
    requires InPipelines(input, id) && Receives(input, id, c)
    ensures ReceiverOrConnector(input, orders, c)
  {
    hide FindOutput;
    hide ReceiverIds;
    hide WellFormed;
    hide OrdersOf;
    hide TenantsIndexed;
    hide WellNamed;
    hide OneKindEach;
    hide ListsNormal;
    WellFormedIsNamed(input);
    match id
    case Root(t) =>
      if c == FileLog(t) || c == K8sEvents(t) {
        SourceReceiverDefined(input, orders, t, c);
      }
    case SubscriptionPipeline(t, s) => SubscribedTenant(input, t, s);
    case OutputPipeline(s, o) =>
      var t :| s in input.SubscriptionsOf(t);
      SubscribedTenant(input, t, s);
    case _ =>
  }

  lemma OutputExporterDefined(input: ConfigInput, s: NamespacedName, o: NamespacedName, c: ComponentId)
    requires WellFormed(input) && InPipelines(input, OutputPipeline(s, o)) && Exports(input, OutputPipeline(s, o), c)
    ensures ExporterOrConnector(input, c)
  {
    hide FindOutput;
    hide WellFormed;
    if c.OutputExporter? {
      var output := FindOutput(input.outputs, o).value;
      var e :| e in input.outputs && e.output == output;
      var t :| s in input.SubscriptionsOf(t);
      SubscribedTenant(input, t, s);
      assert Subscribes(input, t, s, o);
      assert Owns(input, t, o);
      var tenant :| TenantNamed(input, t, tenant);
      assert tenant in input.tenants && Owns(input, tenant.name, o);
      assert c.kind in e.output.kinds;
      assert IsExporter(input, input.outputs, c.kind, c);
    }
  }

  lemma ExportedIsDefined(input: ConfigInput, id: PipelineId, c: ComponentId)
    requires WellFormed(input) && Compilable(input)
    requires InPipelines(input, id) && Exports(input, id, c)
    ensures ExporterOrConnector(input, c)
  {
    hide FindOutput;
    hide WellFormed;
    match id
    case Root(t) =>
      if c == RouteSubscriptions(t) {
        WellFormedIsNamed(input);
        var tenant :| TenantNamed(input, t, tenant) && tenant.subscriptions.Items?;
        assert ListsNormal(tenant);
      }
    case SubscriptionPipeline(t, s) => SubscribedTenant(input, t, s);
    case OutputPipeline(s, o) => OutputExporterDefined(input, s, o, c);
    case _ =>
  }

  lemma RootProcessorDefined(input: ConfigInput, order: seq<NamespacedName>, t: string, c: ComponentId)
    requires TenantsIndexed(input) && t in input.tenantSubscriptions && Processes(input, Root(t), c)
    ensures c in AllProcessorIds(input, order)
  {
    var tenant := TenantOf(input, t);
    hide TenantsIndexed;
  }

  lemma OutputProcessorDefined(input: ConfigInput, order: seq<NamespacedName>, s: NamespacedName, o: NamespacedName,
                               c: ComponentId)
    requires FindOutput(input.outputs, o).Some? && Processes(input, OutputPipeline(s, o), c)
    ensures c in AllProcessorIds(input, order)
  {
    hide FindOutput;
    var e :| e in input.outputs && e.output.id == o;
  }

  lemma ProcessedIsDefined(input: ConfigInput, orders: Orders, id: PipelineId, c: ComponentId)
    requires WellFormed(input) && OrdersOf(input, orders)
    requires InPipelines(input, id) && Processes(input, id, c)
    ensures c in AllProcessorIds(input, orders.processorSubscriptions)
  {
    hide FindOutput;
    hide WellFormed;
    hide TenantsIndexed;
    hide WellNamed;
    hide OneKindEach;
    WellFormedIsNamed(input);
    match id
    case Root(t) => RootProcessorDefined(input, orders.processorSubscriptions, t, c);
    case SubscriptionPipeline(t, s) =>
      ListedInOrder(orders.processorSubscriptions, input.subscriptions.Keys);
      SubscribedTenant(input, t, s);
    case OutputPipeline(s, o) => OutputProcessorDefined(input, orders.processorSubscriptions, s, o, c);
    case _ =>
  }

  lemma ReceiversClosed(input: ConfigInput, orders: Orders, config: CollectorConfig, id: PipelineId, x: string)
    requires WellFormed(input) && OrdersOf(input, orders) && Assembled(input, orders, config) && Compilable(input)
    requires InPipelines(input, id) && x in PipelineAt(input, id).receivers
    ensures x in config.receivers || x in config.connectors
  {
    hide ComponentName;
    hide PipelineAt;
    hide InPipelines;
    hide WellFormed;
    hide OrdersOf;
    hide Compilable;
    hide Receives;
    hide IsConnector;
    hide ReceiverIds;
    AssembledConnectors(input, orders, config);
    ReceiversAre(input, id, x);
    var c :| Receives(input, id, c) && ComponentName(c) == x;
    ReceivedIsDefined(input, orders, id, c);
  }

  lemma ExportersClosed(input: ConfigInput, orders: Orders, config: CollectorConfig, id: PipelineId, x: string)
    requires WellFormed(input) && OrdersOf(input, orders) && Assembled(input, orders, config) && Compilable(input)
    requires InPipelines(input, id) && x in PipelineAt(input, id).exporters
    ensures x in config.exporters || x in config.connectors
  {
    hide ComponentName;
    hide PipelineAt;
    hide InPipelines;
    hide WellFormed;
    hide OrdersOf;
    hide Compilable;
    hide Exports;
    hide IsConnector;
    hide AllExporterIds;
    AssembledConnectors(input, orders, config);
    ExportersAre(input, id, x);
    var c :| Exports(input, id, c) && ComponentName(c) == x;
    ExportedIsDefined(input, id, c);
  }

  lemma ProcessorsClosed(input: ConfigInput, orders: Orders, config: CollectorConfig, id: PipelineId, x: string)
    requires WellFormed(input) && OrdersOf(input, orders) && Assembled(input, orders, config)
    requires InPipelines(input, id) && x in PipelineAt(input, id).processors
    ensures x in config.processors
  {
    hide ComponentName;
    hide PipelineAt;
    hide InPipelines;
    hide WellFormed;
    hide OrdersOf;
    hide Processes;
    hide AllProcessorIds;
    var c := Processed(input, id, x);
    ProcessedIsDefined(input, orders, id, c);
  }

  lemma PipelineOfIdClosed(input: ConfigInput, orders: Orders, config: CollectorConfig, id: PipelineId)
    requires WellFormed(input) && OrdersOf(input, orders) && Assembled(input, orders, config) && Compilable(input)
    requires InPipelines(input, id)
    ensures PipelineClosed(config, WithLimiter(PipelineAt(input, id)))
  {
    hide ComponentName;
    hide PipelineAt;
    hide InPipelines;
    hide WellFormed;
    hide OrdersOf;
    hide Compilable;
    hide Defines;
    hide NamedPipelinesOf;
    var p := PipelineAt(input, id);
    MemoryLimiterDefined(input, orders.processorSubscriptions, config.processors);
    forall x | x in p.receivers
      ensures x in config.receivers || x in config.connectors
    {
      ReceiversClosed(input, orders, config, id, x);
    }
    forall x | x in p.exporters
      ensures x in config.exporters || x in config.connectors
    {
      ExportersClosed(input, orders, config, id, x);
    }
    forall x | x in p.processors
      ensures x in config.processors
    {
      ProcessorsClosed(input, orders, config, id, x);
    }
  }

  lemma CompilableIsClosed(input: ConfigInput, orders: Orders, config: CollectorConfig)
    requires WellFormed(input) && OrdersOf(input, orders) && Assembled(input, orders, config) && Compilable(input)
    ensures PipelinesClosed(config)
  {
    hide Defines;
    hide PipelineAt;
    hide InPipelines;
    hide PipelineName;
    hide WellFormed;
    hide Compilable;
    hide OrdersOf;
    hide PipelineClosed;
    var named :| NamedPipelinesOf(input, named) && Limited(config.pipelines, named);
    forall k | k in config.pipelines
      ensures PipelineClosed(config, config.pipelines[k])
    {
      var id :| InPipelines(input, id) && PipelineName(id) == k;
      PipelineOfIdClosed(input, orders, config, id);
    }
  }

  // ---------------------------------------------------------------------------
  // Without the condition some reference dangles

  lemma UndefinedReference(input: ConfigInput, orders: Orders, config: CollectorConfig, id: PipelineId, c: ComponentId)
    requires WellFormed(input) && OrdersOf(input, orders) && Assembled(input, orders, config)
    requires InPipelines(input, id)
    requires || (Receives(input, id, c) && !ReceiverOrConnector(input, orders, c))
             || (Exports(input, id, c) && !ExporterOrConnector(input, c))
    ensures !PipelinesClosed(config)
  {
    hide ComponentName;
    hide PipelineAt;
    hide InPipelines;
    hide PipelineName;
    hide WellFormed;
    hide OrdersOf;
    hide Receives;
    hide Exports;
    hide IsConnector;
    hide ReceiverIds;
    hide AllExporterIds;
    AssembledConnectors(input, orders, config);
    AssembledIsCompiled(input, orders, config);
    Encode(input, config.pipelines, config.connectors.Keys, id);
    var x := ComponentName(c);
    WellFormedIsNamed(input);
    if Receives(input, id, c) && !ReceiverOrConnector(input, orders, c) {
      ReceivedIsNamed(input, id, c);
      ReceiversAre(input, id, x);
      DefinedIffMember(config.receivers, ReceiverIds(input, orders.receiverTenants), ReceiverOk(input), c);
    } else {
      ExportedIsNamed(input, id, c);
      ExportersAre(input, id, x);
      DefinedIffMember(config.exporters, AllExporterIds(input), ExporterOk(input), c);
    }
    NotAConnector(input, config.connectors.Keys, c);
  }

  lemma NotAConnector(input: ConfigInput, connectors: set<string>, c: ComponentId)
    requires WellNamed(input) && ConnectorsOf(input, connectors) && IsComponentId(c) && !IsConnector(input, c)
    ensures ComponentName(c) !in connectors
  {
    hide ComponentName;
    if ComponentName(c) in connectors {
      var d :| IsConnector(input, d) && ComponentName(d) == ComponentName(c);
      ConnectorIsNamed(input, d);
      ComponentNameInjective(c, d);
    }
  }

  lemma ConnectorIsNamed(input: ConfigInput, c: ComponentId)
    requires WellNamed(input) && IsConnector(input, c)
    ensures IsComponentId(c)
  {
  }

  lemma EmptyLogSourcesDangle(input: ConfigInput, orders: Orders, config: CollectorConfig, tenant: Tenant)
    requires WellFormed(input) && OrdersOf(input, orders) && Assembled(input, orders, config)
    requires tenant in input.tenants && tenant.logSourceNamespaces == Items([]) && !tenant.selectFromAllNamespaces
    ensures !PipelinesClosed(config)
  {
    hide WellFormed;
    hide OrdersOf;
    hide Assembled;
    hide FindTenant;
    WellFormedIsNamed(input);
    FoundTenant(input, tenant);
    assert TenantNamed(input, tenant.name, tenant);
    UndefinedReference(input, orders, config, Root(tenant.name), FileLog(tenant.name));
  }

  lemma EmptySubscriptionsDangle(input: ConfigInput, orders: Orders, config: CollectorConfig, tenant: Tenant)
    requires WellFormed(input) && OrdersOf(input, orders) && Assembled(input, orders, config)
    requires tenant in input.tenants && tenant.subscriptions == Items([])
    ensures !PipelinesClosed(config)
  {
    hide WellFormed;
    hide OrdersOf;
    hide Assembled;
    hide FindTenant;
    WellFormedIsNamed(input);
    FoundTenant(input, tenant);
    assert TenantNamed(input, tenant.name, tenant);
    UndefinedReference(input, orders, config, Root(tenant.name), RouteSubscriptions(tenant.name));
  }

  lemma OutputlessSubscriptionDangles(input: ConfigInput, orders: Orders, config: CollectorConfig, s: NamespacedName)
    requires WellFormed(input) && OrdersOf(input, orders) && Assembled(input, orders, config)
    requires s in input.subscriptions && input.OutputsOf(s) == []
    ensures !PipelinesClosed(config)
  {
    hide OrdersOf;
    hide Assembled;
    assert SubscriptionsIndexed(input);
    var t :| t in input.tenantSubscriptions && s in input.tenantSubscriptions[t];
    UndefinedReference(input, orders, config, SubscriptionPipeline(t, s), RouteOutputs(s));
  }

  // ---------------------------------------------------------------------------
  // Extensions and tables

  lemma StorageAvailable(input: ConfigInput, config: CollectorConfig, tenant: Tenant)
    requires Defines(config.extensions, ExtensionIds(input, input.outputs, input.tenants), ExtensionOk(input))
    requires tenant in input.tenants && tenant.fileStorage && !input.dryRun
    ensures ComponentName(FileStorage(tenant.name)) in config.extensions
  {
    hide ComponentName;
    assert FileStorage(tenant.name) in ExtensionIds(input, input.outputs, input.tenants);
  }

  lemma AuthenticatorAvailable(input: ConfigInput, config: CollectorConfig, kind: ExporterKind, e: OutputWithSecretData)
    requires Defines(config.extensions, ExtensionIds(input, input.outputs, input.tenants), ExtensionOk(input))
    requires e in input.outputs
    ensures Available(config, AuthenticatorOf(kind, e.output))
  {
    hide ComponentName;
    assert UsesBasicAuth(e.output) ==>
        BasicAuthExtension(e.output.id) in ExtensionIds(input, input.outputs, input.tenants);
    assert UsesBearerAuth(e.output) ==>
        BearerAuthExtension(e.output.id) in ExtensionIds(input, input.outputs, input.tenants);
  }

  lemma ReceiverStorage(input: ConfigInput, c: ComponentId, v: ReceiverConfig)
    requires ReceiverOk(input)(c, v)
    ensures exists tenant :: tenant in input.tenants && v.storage == StorageOf(input, tenant)
  {
    hide ComponentName;
    hide IncludeList;
    hide StorageOf;
    hide FindTenant;
    assert Listens(input, c.tenant);
    var tenant := FindTenant(input.tenants, c.tenant).value;
    assert v == FileLogConfig(input, tenant) || v == EventsConfig(input, tenant);
  }

  lemma ReceiverExtensionsAvailable(input: ConfigInput, orders: Orders, config: CollectorConfig, k: string)
    requires Defines(config.extensions, ExtensionIds(input, input.outputs, input.tenants), ExtensionOk(input))
    requires Defines(config.receivers, ReceiverIds(input, orders.receiverTenants), ReceiverOk(input))
    requires k in config.receivers
    ensures Available(config, config.receivers[k].storage)
  {
    hide ComponentName;
    hide ExtensionIds;
    hide ExtensionOk;
    hide ReceiverIds;
    hide ReceiverOk;
    var c :| c in ReceiverIds(input, orders.receiverTenants) && ComponentName(c) == k;
    ReceiverStorage(input, c, config.receivers[k]);
    var tenant :| tenant in input.tenants && config.receivers[k].storage == StorageOf(input, tenant);
    if !input.dryRun && tenant.fileStorage {
      StorageAvailable(input, config, tenant);
    }
  }

  lemma ExporterExtensionsAvailable(input: ConfigInput, config: CollectorConfig, k: string)
    requires Defines(config.extensions, ExtensionIds(input, input.outputs, input.tenants), ExtensionOk(input))
    requires Defines(config.exporters, AllExporterIds(input), ExporterOk(input))
    requires k in config.exporters
    ensures Available(config, config.exporters[k].storage) && Available(config, config.exporters[k].authenticator)
  {
    hide ComponentName;
    hide FindTenant;
    hide ExtensionIds;
    hide ExtensionOk;
    hide Owns;
    var c :| c in AllExporterIds(input) && ComponentName(c) == k;
    var v := config.exporters[k];
    assert ExporterOk(input)(c, v);
    if c.OutputExporter? {
      var e :| e in input.outputs && e.output.id == c.output && c.kind in e.output.kinds
               && v.authenticator == AuthenticatorOf(c.kind, e.output)
               && if c.kind.File? then v.storage == None else OwnersStorage(input, c.output, v.storage);
      AuthenticatorAvailable(input, config, c.kind, e);
      if v.storage.Some? {
        var t :| t in input.tenants && Owns(input, t.name, c.output)
                 && v.storage == if t.fileStorage then Some(ComponentName(FileStorage(t.name))) else None;
        StorageAvailable(input, config, t);
      }
    }
  }

  lemma ExtensionsAreClosed(input: ConfigInput, orders: Orders, config: CollectorConfig)
    requires Assembled(input, orders, config)
    ensures ExtensionsClosed(config)
  {
    hide Available;
    hide Defines;
    forall k | k in config.receivers
      ensures Available(config, config.receivers[k].storage)
    {
      ReceiverExtensionsAvailable(input, orders, config, k);
    }
    forall k | k in config.exporters
      ensures Available(config, config.exporters[k].storage) && Available(config, config.exporters[k].authenticator)
    {
      ExporterExtensionsAvailable(input, config, k);
    }
    ListedInOrder(config.serviceExtensions, config.extensions.Keys);
  }

  // ---------------------------------------------------------------------------
  // Tables and wiring

  ghost predicate InTable(table: seq<TableItem>, p: string) {
    exists row :: row in table && p in row.pipelines
  }

  ghost predicate ReceivingPipeline(input: ConfigInput, c: ComponentId, p: string) {
    exists id :: InPipelines(input, id) && Receives(input, id, c) && PipelineName(id) == p
  }

  lemma WhoReceives(input: ConfigInput, orders: Orders, config: CollectorConfig, c: ComponentId, p: string)
    requires WellFormed(input) && OrdersOf(input, orders) && Assembled(input, orders, config) && IsComponentId(c)
    ensures p in config.pipelines && ComponentName(c) in config.pipelines[p].receivers
            <==> ReceivingPipeline(input, c, p)
  {
    hide ComponentName;
    hide PipelineAt;
    hide InPipelines;
    hide PipelineName;
    hide WellFormed;
    hide OrdersOf;
    hide Receives;
    hide Assembled;
    hide Compiled;
    AssembledIsCompiled(input, orders, config);
    WellFormedIsNamed(input);
    if p in config.pipelines && ComponentName(c) in config.pipelines[p].receivers {
      var id := Decode(input, config.pipelines, config.connectors.Keys, p);
      ReceiversAre(input, id, ComponentName(c));
      var d :| Receives(input, id, d) && ComponentName(d) == ComponentName(c);
      ReceivedIsNamed(input, id, d);
      ComponentNameInjective(c, d);
    }
    if ReceivingPipeline(input, c, p) {
      var id :| InPipelines(input, id) && Receives(input, id, c) && PipelineName(id) == p;
      Encode(input, config.pipelines, config.connectors.Keys, id);
      ReceiversAre(input, id, ComponentName(c));
    }
  }

  lemma SubscriptionTableReceives(input: ConfigInput, table: seq<TableItem>, t: string, p: string)
    requires SubscriptionsIndexed(input)
    requires SubscriptionTable(table, t, input.SubscriptionsOf(t), input.subscriptions)
    ensures InTable(table, p) <==> ReceivingPipeline(input, RouteSubscriptions(t), p)
  {
    hide PipelineName;
    hide SubscriptionTable;
    var all := iset c: string | |c| >= 0;
    var names := input.SubscriptionsOf(t);
    GroupingPreservesRouting(table, t, names, input.subscriptions, all, p);
    if InTable(table, p) {
      var row :| row in table && p in row.pipelines;
      assert row.condition in all;
      var s :| s in names && s in input.subscriptions
               && p == PipelineName(SubscriptionPipeline(t, input.subscriptions[s].id));
      assert InPipelines(input, SubscriptionPipeline(t, s));
      assert Receives(input, SubscriptionPipeline(t, s), RouteSubscriptions(t));
    }
    if ReceivingPipeline(input, RouteSubscriptions(t), p) {
      var id :| InPipelines(input, id) && Receives(input, id, RouteSubscriptions(t)) && PipelineName(id) == p;
      var s := id.subscription;
      assert s in names && s in input.subscriptions && input.subscriptions[s].condition in all;
      assert Wanted(t, names, input.subscriptions, all, p);
      var row :| row in table && row.condition in all && p in row.pipelines;
    }
  }

  lemma OutputTable(s: NamespacedName, outputs: seq<NamespacedName>, p: string)
    ensures InTable(OutputsConnector(s, outputs).table, p) <==>
            exists o :: o in outputs && p == PipelineName(OutputPipeline(s, o))
  {
    hide PipelineName;
    hide SortNames;
    hide OutputPipelineNames;
    var item := TableItem("true", OutputPipelineNames(s, SortNames(outputs)));
    assert OutputsConnector(s, outputs).table == [item];
    assert item in [item];
    OutputPipelineNamesMembers(s, SortNames(outputs), p);
    SortNamesKeeps(outputs);
  }

  lemma OutputTableReceives(input: ConfigInput, s: NamespacedName, p: string)
    requires SubscriptionsIndexed(input) && OutputsIndexed(input) && s in input.subscriptions
    ensures InTable(OutputsConnector(s, input.OutputsOf(s)).table, p) <==>
            ReceivingPipeline(input, RouteOutputs(s), p)
  {
    hide PipelineName;
    hide FindOutput;
    hide InTable;
    hide OutputsConnector;
    var outputs := input.OutputsOf(s);
    OutputTable(s, outputs, p);
    var t :| t in input.tenantSubscriptions && s in input.tenantSubscriptions[t];
    assert s in input.SubscriptionsOf(t);
    forall o | o in outputs
      ensures InPipelines(input, OutputPipeline(s, o)) && Receives(input, OutputPipeline(s, o), RouteOutputs(s))
    {
    }
  }

  lemma BridgeTableReceives(input: ConfigInput, b: Bridge, p: string)
    requires BridgesIndexed(input) && b in input.bridges
    ensures InTable(BridgeConnector(b).table, p) <==> ReceivingPipeline(input, RouteBridge(b.name), p)
  {
    hide PipelineName;
    var item := TableItem(b.condition, [PipelineName(Root(b.target))]);
    assert BridgeConnector(b).table == [item];
    assert InTable([item], p) <==> p in item.pipelines by { assert item in [item]; }
    assert InPipelines(input, Root(b.target));
    assert Receives(input, Root(b.target), RouteBridge(b.name));
    if ReceivingPipeline(input, RouteBridge(b.name), p) {
      var id :| InPipelines(input, id) && Receives(input, id, RouteBridge(b.name)) && PipelineName(id) == p;
      var a :| a in input.bridges && a.target == id.tenant && a.name == b.name;
    }
  }

  lemma TableReceives(input: ConfigInput, c: ComponentId, v: ConnectorConfig, p: string)
    requires WellFormed(input) && IsConnector(input, c) && ConnectorOk(input)(c, v) && v.RoutingConfig?
    ensures InTable(v.rc.table, p) <==> ReceivingPipeline(input, c, p)
  {
    hide ComponentName;
    hide PipelineName;
    hide InTable;
    hide ReceivingPipeline;
    hide WellNamed;
    hide TenantsIndexed;
    hide SubscriptionsIndexed;
    hide OutputsIndexed;
    hide BridgesIndexed;
    hide SubscriptionTable;
    match c
    case RouteSubscriptions(t) => SubscriptionTableReceives(input, v.rc.table, t, p);
    case RouteOutputs(s) => OutputTableReceives(input, s, p);
    case RouteBridge(n) =>
      var b :| b in input.bridges && b.name == n && v == RoutingConfig(BridgeConnector(b));
      BridgeTableReceives(input, b, p);
  }

  // A routing connector's table names exactly the pipelines that have the connector as a receiver.
  lemma TablesAgreeWithWiring(input: ConfigInput, orders: Orders, config: CollectorConfig, k: string, p: string)
    requires WellFormed(input) && OrdersOf(input, orders) && Assembled(input, orders, config)
    requires k in config.connectors && config.connectors[k].RoutingConfig?
    ensures InTable(config.connectors[k].rc.table, p) <==>
            p in config.pipelines && k in config.pipelines[p].receivers
  {
    hide ComponentName;
    hide PipelineName;
    hide InTable;
    hide ReceivingPipeline;
    hide WellFormed;
    hide OrdersOf;
    hide ConnectorOk;
    hide ConnectorIds;
    hide IsConnector;
    ConnectorDecodes(input, orders, config);
    var c :| IsConnector(input, c) && IsComponentId(c) && ComponentName(c) == k
             && ConnectorOk(input)(c, config.connectors[k]);
    TableReceives(input, c, config.connectors[k], p);
    WhoReceives(input, orders, config, c, p);
  }

  lemma ConnectorDecodes(input: ConfigInput, orders: Orders, config: CollectorConfig)
    requires OrdersOf(input, orders) && Assembled(input, orders, config)
    ensures forall k | k in config.connectors ::
              exists c :: IsConnector(input, c) && IsComponentId(c) && ComponentName(c) == k
                          && ConnectorOk(input)(c, config.connectors[k])
  {
    hide ComponentName;
    hide ConnectorOk;
    hide ConnectorIds;
    hide IsConnector;
    hide Enumerates;
    forall k | k in config.connectors
      ensures exists c :: IsConnector(input, c) && IsComponentId(c) && ComponentName(c) == k
                          && ConnectorOk(input)(c, config.connectors[k])
    {
      var c :| c in ConnectorIds(input, input.tenants, orders.connectorSubscriptions, input.bridges)
               && ComponentName(c) == k;
      ConnectorsMatch(input, orders.connectorSubscriptions, c);
    }
  }

  lemma PipelinesAreNamed(input: ConfigInput, orders: Orders, config: CollectorConfig, p: string)
    requires Assembled(input, orders, config)
    ensures p in config.pipelines <==> NamesPipeline(input, p)
  {
    hide Defines;
    hide PipelineAt;
    hide InPipelines;
    hide PipelineName;
    var named :| NamedPipelinesOf(input, named) && Limited(config.pipelines, named);
    assert p in config.pipelines <==> p in named;
  }

  // Only the connectors of tenants have default pipelines.
  lemma OnlyTenantsHaveDefaults(input: ConfigInput, c: ComponentId, v: ConnectorConfig)
    requires ConnectorOk(input)(c, v) && v.RoutingConfig?
    ensures c.RouteSubscriptions? || v.rc.defaultPipelines == []
  {
    hide ComponentName;
    hide SubscriptionTable;
    hide OutputPipelineNames;
    hide PipelineName;
    match c
    case RouteOutputs(s) => assert v == RoutingConfig(OutputsConnector(s, input.OutputsOf(s)));
    case RouteBridge(n) => var b :| b in input.bridges && b.name == n && v == RoutingConfig(BridgeConnector(b));
    case _ =>
  }

  lemma DefaultsAre(input: ConfigInput, c: ComponentId, v: ConnectorConfig, p: string) returns (t: Tenant)
    requires IsConnector(input, c) && ConnectorOk(input)(c, v) && v.RoutingConfig? && p in v.rc.defaultPipelines
    ensures t in input.tenants && input.SubscriptionsOf(t.name) != [] && p in t.defaultPipelines
  {
    hide ComponentName;
    hide SubscriptionTable;
    OnlyTenantsHaveDefaults(input, c, v);
    t :| t in input.tenants && t.name == c.tenant && t.defaultPipelines == v.rc.defaultPipelines;
  }

  lemma DefaultsAreClosed(input: ConfigInput, orders: Orders, config: CollectorConfig, k: string, p: string)
    requires WellFormed(input) && OrdersOf(input, orders) && Assembled(input, orders, config)
    requires forall t | t in input.tenants :: DefaultsExist(input, t)
    requires k in config.connectors && config.connectors[k].RoutingConfig?
    requires p in config.connectors[k].rc.defaultPipelines
    ensures p in config.pipelines
  {
    hide WellFormed;
    hide OrdersOf;
    hide Assembled;
    hide ConnectorOk;
    hide ConnectorIds;
    hide IsConnector;
    hide NamesPipeline;
    hide ComponentName;
    ConnectorDecodes(input, orders, config);
    var c :| IsConnector(input, c) && IsComponentId(c) && ComponentName(c) == k
             && ConnectorOk(input)(c, config.connectors[k]);
    var t := DefaultsAre(input, c, config.connectors[k], p);
    PipelinesAreNamed(input, orders, config, p);
  }

  lemma TablesAreClosed(input: ConfigInput, orders: Orders, config: CollectorConfig)
    requires WellFormed(input) && OrdersOf(input, orders) && Assembled(input, orders, config)
    requires forall t | t in input.tenants :: DefaultsExist(input, t)
    ensures TablesClosed(config)
  {
    hide WellFormed;
    hide OrdersOf;
    hide Assembled;
    hide DefaultsExist;
    forall k, row, p | k in config.connectors && config.connectors[k].RoutingConfig?
                       && row in config.connectors[k].rc.table && p in row.pipelines
      ensures p in config.pipelines
    {
      TablesAgreeWithWiring(input, orders, config, k, p);
    }
    forall k, p | k in config.connectors && config.connectors[k].RoutingConfig?
                  && p in config.connectors[k].rc.defaultPipelines
      ensures p in config.pipelines
    {
      DefaultsAreClosed(input, orders, config, k, p);
    }
  }

  lemma DefinedConnector(input: ConfigInput, orders: Orders, config: CollectorConfig, c: ComponentId)
    requires Assembled(input, orders, config)
    requires c in ConnectorIds(input, input.tenants, orders.connectorSubscriptions, input.bridges)
    ensures ComponentName(c) in config.connectors && ConnectorOk(input)(c, config.connectors[ComponentName(c)])
  {
    hide ComponentName;
    hide ConnectorOk;
    hide ConnectorIds;
  }

  lemma ExtensionIff(input: ConfigInput, orders: Orders, config: CollectorConfig, c: ComponentId)
    requires Assembled(input, orders, config) && IsComponentId(c)
    ensures ComponentName(c) in config.extensions <==> c in ExtensionIds(input, input.outputs, input.tenants)
  {
    hide ComponentName, ExtensionIds, ExtensionOk;
    DefinedIffMember(config.extensions, ExtensionIds(input, input.outputs, input.tenants), ExtensionOk(input), c);
  }

  lemma HasConnector(input: ConfigInput, order: seq<NamespacedName>, tenant: Tenant)
    requires tenant in input.tenants && input.SubscriptionsOf(tenant.name) != []
    ensures RouteSubscriptions(tenant.name) in ConnectorIds(input, input.tenants, order, input.bridges)
  {
  }

  lemma ConnectorDefaults(input: ConfigInput, tenant: Tenant, v: ConnectorConfig)
    requires UniqueTenants(input.tenants) && tenant in input.tenants
    requires ConnectorOk(input)(RouteSubscriptions(tenant.name), v)
    ensures v.RoutingConfig? && v.rc.defaultPipelines == tenant.defaultPipelines
  {
    hide ComponentName;
    hide SubscriptionTable;
    var t :| t in input.tenants && t.name == tenant.name && t.defaultPipelines == v.rc.defaultPipelines;
    UniqueTenant(input.tenants, t, tenant);
  }

  // The routing connector of a tenant with subscriptions, and its default pipelines.
  lemma TenantConnector(input: ConfigInput, orders: Orders, config: CollectorConfig, tenant: Tenant) returns (k: string)
    requires TenantsIndexed(input) && Assembled(input, orders, config)
    requires tenant in input.tenants && input.SubscriptionsOf(tenant.name) != []
    ensures k in config.connectors && config.connectors[k].RoutingConfig?
    ensures config.connectors[k].rc.defaultPipelines == tenant.defaultPipelines
  {
    hide ComponentName;
    hide ConnectorIds;
    hide ConnectorOk;
    hide Assembled;
    var c := RouteSubscriptions(tenant.name);
    k := ComponentName(c);
    HasConnector(input, orders.connectorSubscriptions, tenant);
    DefinedConnector(input, orders, config, c);
    ConnectorDefaults(input, tenant, config.connectors[k]);
  }

  lemma MissingDefaultDangles(input: ConfigInput, orders: Orders, config: CollectorConfig, tenant: Tenant)
    requires WellFormed(input) && Assembled(input, orders, config)
    requires tenant in input.tenants && !DefaultsExist(input, tenant)
    ensures !TablesClosed(config)
  {
    hide WellFormed;
    hide Assembled;
    hide NamesPipeline;
    WellFormedIsNamed(input);
    var k := TenantConnector(input, orders, config, tenant);
    var p :| p in tenant.defaultPipelines && !NamesPipeline(input, p);
    PipelinesAreNamed(input, orders, config, p);
  }

  // Every name the configuration refers to is defined in it exactly when no list is empty without being nil, every
  // subscription has a valid output and all default pipelines exist; in every combination of the mode flags.
  lemma ClosedIffCompilable(input: ConfigInput, orders: Orders, config: CollectorConfig)
    requires WellFormed(input) && OrdersOf(input, orders) && Assembled(input, orders, config)
    ensures Closed(config) <==> Compilable(input)
  {
    hide WellFormed;
    hide OrdersOf;
    hide Assembled;
    hide PipelinesClosed;
    hide ExtensionsClosed;
    hide TablesClosed;
    hide DefaultsExist;
    if Compilable(input) {
      CompilableIsClosed(input, orders, config);
      ExtensionsAreClosed(input, orders, config);
      TablesAreClosed(input, orders, config);
    } else if t :| t in input.tenants && !ListsNormal(t) {
      if t.subscriptions == Items([]) {
        EmptySubscriptionsDangle(input, orders, config, t);
      } else {
        EmptyLogSourcesDangle(input, orders, config, t);
      }
    } else if s :| s in input.subscriptions && input.OutputsOf(s) == [] {
      OutputlessSubscriptionDangles(input, orders, config, s);
    } else {
      var t :| t in input.tenants && !DefaultsExist(input, t);
      MissingDefaultDangles(input, orders, config, t);
    }
  }

  // Lists read from the API are never empty without being nil.
  lemma ApiListsAreNormal(input: ConfigInput)
    requires SubscriptionsIndexed(input)
    requires forall t | t in input.tenants :: t.logSourceNamespaces.AsReadFromApi() && t.subscriptions.AsReadFromApi()
    ensures Compilable(input) <==>
            (forall s | s in input.subscriptions :: input.subscriptions[s].statusOutputs != [])
            && forall t | t in input.tenants :: DefaultsExist(input, t)
  {
    hide DefaultsExist;
    assert forall s | s in input.subscriptions :: input.OutputsOf(s) == input.subscriptions[s].statusOutputs;
  }

  // ---------------------------------------------------------------------------
  // Processors keyed by an output's bare name

  lemma {:induction false} LastNamedIsListed(outputs: seq<OutputWithSecretData>, n: string)
    ensures LastNamed(outputs, n).Some? ==>
              LastNamed(outputs, n).value.id.name == n
              && exists e :: e in outputs && e.output == LastNamed(outputs, n).value
    ensures (exists e :: e in outputs && e.output.id.name == n) ==> LastNamed(outputs, n).Some?
  {
    if outputs != [] {
      var m := |outputs| - 1;
      assert outputs == outputs[..m] + [outputs[m]];
      LastNamedIsListed(outputs[..m], n);
    }
  }

  ghost predicate LabelledRight(input: ConfigInput, config: CollectorConfig, output: Output) {
    var k := ComponentName(ExporterNameAttributes(output.id.name));
    k in config.processors && config.processors[k] == InsertAttribute("exporter", ExporterNameFor(output))
  }

  lemma ExporterNameIsWritten(input: ConfigInput, order: seq<NamespacedName>, e: OutputWithSecretData)
    requires e in input.outputs
    ensures ExporterNameAttributes(e.output.id.name) in AllProcessorIds(input, order)
  {
  }

  lemma ExporterNameValue(input: ConfigInput, n: string, v: ProcessorConfig)
    requires AllProcessorsOk(input)(ExporterNameAttributes(n), v)
    ensures LastNamed(input.outputs, n).Some?
    ensures v == InsertAttribute("exporter", ExporterNameFor(LastNamed(input.outputs, n).value))
  {
    hide ExporterNameFor;
    hide LastNamed;
  }

  lemma LabelOf(input: ConfigInput, order: seq<NamespacedName>, m: map<string, ProcessorConfig>,
                e: OutputWithSecretData)
    requires Defines(m, AllProcessorIds(input, order), AllProcessorsOk(input)) && e in input.outputs
    ensures var n := e.output.id.name;
            && LastNamed(input.outputs, n).Some?
            && ComponentName(ExporterNameAttributes(n)) in m
            && m[ComponentName(ExporterNameAttributes(n))]
               == InsertAttribute("exporter", ExporterNameFor(LastNamed(input.outputs, n).value))
  {
    hide ComponentName;
    hide ExporterNameFor;
    hide LastNamed;
    hide AllProcessorIds;
    hide AllProcessorsOk;
    var c := ExporterNameAttributes(e.output.id.name);
    ExporterNameIsWritten(input, order, e);
    ExporterNameValue(input, e.output.id.name, m[ComponentName(c)]);
  }

  ghost predicate LastWriter(outputs: seq<OutputWithSecretData>, n: string, f: OutputWithSecretData) {
    f in outputs && f.output.id.name == n && LastNamed(outputs, n) == Some(f.output)
  }

  lemma ProcessorsOfAssembled(input: ConfigInput, orders: Orders, config: CollectorConfig)
    requires Assembled(input, orders, config)
    ensures Defines(config.processors, AllProcessorIds(input, orders.processorSubscriptions), AllProcessorsOk(input))
  {
  }

  lemma LabelledByLastWriter(input: ConfigInput, orders: Orders, config: CollectorConfig, e: OutputWithSecretData)
    returns (f: OutputWithSecretData)
    requires Assembled(input, orders, config) && e in input.outputs
    ensures LastWriter(input.outputs, e.output.id.name, f)
    ensures LabelledRight(input, config, e.output) <==> ExporterNameFor(e.output) == ExporterNameFor(f.output)
  {
    hide ComponentName;
    hide ExporterNameFor;
    hide Assembled;
    hide LastNamed;
    ProcessorsOfAssembled(input, orders, config);
    LabelOf(input, orders.processorSubscriptions, config.processors, e);
    LastNamedIsListed(input.outputs, e.output.id.name);
    f :| f in input.outputs && f.output == LastNamed(input.outputs, e.output.id.name).value;
  }

  // The log records of every output carry that output's exporter name exactly when outputs with the same bare
  // name share their exporter, which for distinct outputs they never do.
  lemma ExporterLabelsAreRight(input: ConfigInput, orders: Orders, config: CollectorConfig)
    requires Assembled(input, orders, config)
    ensures (forall e | e in input.outputs :: LabelledRight(input, config, e.output)) <==>
            forall e, f | e in input.outputs && f in input.outputs && e.output.id.name == f.output.id.name ::
              ExporterNameFor(e.output) == ExporterNameFor(f.output)
  {
    hide ComponentName;
    hide ExporterNameFor;
    hide Assembled;
    hide LastNamed;
    if forall e | e in input.outputs :: LabelledRight(input, config, e.output) {
      forall e, f | e in input.outputs && f in input.outputs && e.output.id.name == f.output.id.name
        ensures ExporterNameFor(e.output) == ExporterNameFor(f.output)
      {
        assert LabelledRight(input, config, e.output) && LabelledRight(input, config, f.output);
      }
    } else {
      var e :| e in input.outputs && !LabelledRight(input, config, e.output);
      var f := LabelledByLastWriter(input, orders, config, e);
    }
  }

  lemma DistinctExportersAreNamedApart(a: Output, b: Output)
    requires HasOneKind(a) && HasOneKind(b) && IsNamespacedName(a.id) && IsNamespacedName(b.id)
    requires ExporterNameFor(a) == ExporterNameFor(b)
    ensures a.id == b.id && KindOf(a) == KindOf(b)
  {
    hide ComponentName;
    hide ExporterNameFor;
    ExporterNameOfKind(a);
    ExporterNameOfKind(b);
    ComponentNameInjective(OutputExporter(KindOf(a), a.id), OutputExporter(KindOf(b), b.id));
  }

  lemma ProcessorDefined(input: ConfigInput, orders: Orders, config: CollectorConfig, c: ComponentId)
    requires Assembled(input, orders, config) && c in AllProcessorIds(input, orders.processorSubscriptions)
    ensures ComponentName(c) in config.processors
    ensures AllProcessorsOk(input)(c, config.processors[ComponentName(c)])
  {
    hide ComponentName;
    hide AllProcessorIds;
    hide AllProcessorsOk;
  }

  ghost predicate TransformedRight(config: CollectorConfig, tenant: Tenant) {
    var k := ComponentName(TransformProcessor(tenant.transform.name));
    tenant.transform.name != "" ==>
      k in config.processors && config.processors[k] == TransformStatements(tenant.transform.statements)
  }

  lemma {:induction false} LastTransformIsListed(tenants: seq<Tenant>, n: string)
    ensures LastTransform(tenants, n).Some? ==>
              exists t :: t in tenants && t.transform == Transform(n, LastTransform(tenants, n).value)
    ensures (exists t :: t in tenants && t.transform.name == n) ==> LastTransform(tenants, n).Some?
  {
    if tenants != [] {
      var m := |tenants| - 1;
      assert tenants == tenants[..m] + [tenants[m]];
      LastTransformIsListed(tenants[..m], n);
    }
  }

  lemma TransformOfTenant(input: ConfigInput, orders: Orders, config: CollectorConfig, t: Tenant) returns (last: Tenant)
    requires Assembled(input, orders, config) && t in input.tenants && t.transform.name != ""
    ensures last in input.tenants && last.transform.name == t.transform.name
    ensures TransformedRight(config, t) <==> t.transform.statements == last.transform.statements
  {
    hide ComponentName;
    hide Assembled;
    hide LastTransform;
    hide LastNamed;
    hide LastBatch;
    var n := t.transform.name;
    assert TransformProcessor(n) in AllProcessorIds(input, orders.processorSubscriptions);
    ProcessorDefined(input, orders, config, TransformProcessor(n));
    LastTransformIsListed(input.tenants, n);
    last :| last in input.tenants && last.transform == Transform(n, LastTransform(input.tenants, n).value);
  }

  // Every tenant's records are transformed by its own statements exactly if tenants that share the name of their
  // transform share its statements.
  lemma TransformsAreRight(input: ConfigInput, orders: Orders, config: CollectorConfig)
    requires Assembled(input, orders, config)
    ensures (forall t | t in input.tenants :: TransformedRight(config, t)) <==>
            forall s, t | s in input.tenants && t in input.tenants && s.transform.name == t.transform.name != "" ::
              s.transform.statements == t.transform.statements
  {
    hide Assembled;
    hide ComponentName;
    if forall t | t in input.tenants :: TransformedRight(config, t) {
      forall s, t | s in input.tenants && t in input.tenants && s.transform.name == t.transform.name != ""
        ensures s.transform.statements == t.transform.statements
      {
        assert TransformedRight(config, s) && TransformedRight(config, t);
      }
    } else {
      var t :| t in input.tenants && !TransformedRight(config, t);
      var last := TransformOfTenant(input, orders, config, t);
    }
  }

  ghost predicate BatchedRight(config: CollectorConfig, output: Output) {
    var k := ComponentName(BatchProcessor(output.id.name));
    output.batch.Some? ==> k in config.processors && config.processors[k] == Batch(output.batch.value)
  }

  lemma {:induction false} LastBatchIsListed(outputs: seq<OutputWithSecretData>, n: string)
    ensures LastBatch(outputs, n).Some? ==>
              exists e :: e in outputs && e.output.id.name == n && e.output.batch == LastBatch(outputs, n)
    ensures (exists e :: e in outputs && e.output.id.name == n && e.output.batch.Some?) ==> LastBatch(outputs, n).Some?
  {
    if outputs != [] {
      var m := |outputs| - 1;
      assert outputs == outputs[..m] + [outputs[m]];
      LastBatchIsListed(outputs[..m], n);
    }
  }

  lemma BatchOfOutput(input: ConfigInput, orders: Orders, config: CollectorConfig, e: OutputWithSecretData)
    returns (last: OutputWithSecretData)
    requires Assembled(input, orders, config) && e in input.outputs && e.output.batch.Some?
    ensures last in input.outputs && last.output.id.name == e.output.id.name && last.output.batch.Some?
    ensures BatchedRight(config, e.output) <==> e.output.batch == last.output.batch
  {
    hide ComponentName;
    hide Assembled;
    hide LastTransform;
    hide LastNamed;
    hide LastBatch;
    var n := e.output.id.name;
    assert BatchProcessor(n) in AllProcessorIds(input, orders.processorSubscriptions);
    ProcessorDefined(input, orders, config, BatchProcessor(n));
    LastBatchIsListed(input.outputs, n);
    last :| last in input.outputs && last.output.id.name == n && last.output.batch == LastBatch(input.outputs, n);
  }

  // Every output is batched by its own settings exactly if batched outputs with the same bare name share them.
  lemma BatchesAreRight(input: ConfigInput, orders: Orders, config: CollectorConfig)
    requires Assembled(input, orders, config)
    ensures (forall e | e in input.outputs :: BatchedRight(config, e.output)) <==>
            forall e, f | e in input.outputs && f in input.outputs && e.output.id.name == f.output.id.name
                          && e.output.batch.Some? && f.output.batch.Some? :: e.output.batch == f.output.batch
  {
    hide Assembled;
    hide ComponentName;
    if forall e | e in input.outputs :: BatchedRight(config, e.output) {
      forall e, f | e in input.outputs && f in input.outputs && e.output.id.name == f.output.id.name
                    && e.output.batch.Some? && f.output.batch.Some?
        ensures e.output.batch == f.output.batch
      {
        assert BatchedRight(config, e.output) && BatchedRight(config, f.output);
      }
    } else {
      var e :| e in input.outputs && !BatchedRight(config, e.output);
      var last := BatchOfOutput(input, orders, config, e);
    }
  }
}
