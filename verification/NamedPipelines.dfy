/** generateNamedPipelines: the keyed pipeline objects, written and rewritten while the tenant map is traversed. */
module NamedPipelines {
  import opened Names
  import opened Api
  import opened Pipelines

  // ---------------------------------------------------------------------------
  // What the result should be, pipeline by pipeline

  ghost predicate InPipelines(input: ConfigInput, id: PipelineId) {
    match id
    case Root(t) => t in input.tenantSubscriptions
    case SubscriptionPipeline(t, s) => s in input.SubscriptionsOf(t)
    case OutputPipeline(s, o) =>
      && (exists t :: s in input.SubscriptionsOf(t))
      && o in input.OutputsOf(s)
      && FindOutput(input.outputs, o).Some?
    case TenantMetrics => !input.dryRun
    case OutputMetrics => !input.dryRun
    case OutputBytes => !input.dryRun && input.axoflow
  }

  function OutputProcessors(output: Output): seq<string> {
    [ComponentName(ExporterNameAttributes(output.id.name))]
    + if output.batch.Some? then [ComponentName(BatchProcessor(output.id.name))] else []
  }

  function OutputExporters(input: ConfigInput, output: Output): seq<string> {
    if input.dryRun then [ComponentName(Debug)]
    else
      (if input.debug then [ComponentName(Debug)] else [])
      + if ExporterNameFor(output) == "" then []
        else [ExporterNameFor(output), ComponentName(CountOutput)]
             + if input.axoflow then [ComponentName(BytesExporter)] else []
  }

  function MetricsPipeline(connector: ComponentId): PipelineSpec {
    PipelineSpec([ComponentName(connector)],
                 [ComponentName(DeltaToCumulative), ComponentName(MetricAttributes)],
                 [ComponentName(Prometheus)])
  }

  function SubscriptionPipelineSpec(t: string, s: NamespacedName): PipelineSpec {
    Generated([ComponentName(RouteSubscriptions(t))],
              [ComponentName(SubscriptionAttributes(s.name))],
              [ComponentName(RouteOutputs(s))])
  }

  function OutputPipelineSpec(input: ConfigInput, s: NamespacedName, output: Output): PipelineSpec {
    Generated([ComponentName(RouteOutputs(s))], OutputProcessors(output), OutputExporters(input, output))
  }

  function PipelineAt(input: ConfigInput, id: PipelineId): PipelineSpec {
    match id
    case Root(t) => AddTransform(WireBridges(RootPipeline(input, t), t, input.bridges), t, input.tenants)
    case SubscriptionPipeline(t, s) => SubscriptionPipelineSpec(t, s)
    case OutputPipeline(s, o) =>
      var output := FindOutput(input.outputs, o);
      if output.Some? then OutputPipelineSpec(input, s, output.value) else PipelineSpec([], [], [])
    case TenantMetrics => MetricsPipeline(CountTenant)
    case OutputMetrics => MetricsPipeline(CountOutput)
    case OutputBytes => MetricsPipeline(BytesExporter)
  }

  lemma PresentIdsAreNamed(input: ConfigInput, id: PipelineId)
    requires WellNamed(input) && InPipelines(input, id)
    ensures IsPipelineId(id)
  {
  }

  // The compiled pipelines: exactly the intended keys, each with its intended content.
  ghost predicate NamedPipelinesOf(input: ConfigInput, specs: map<string, PipelineSpec>) {
    && (forall id | InPipelines(input, id) ::
          PipelineName(id) in specs && specs[PipelineName(id)] == PipelineAt(input, id))
    && (forall k | k in specs :: exists id :: InPipelines(input, id) && PipelineName(id) == k)
  }

  // The traversal order of the tenant map leaves no trace.
  lemma IterationOrderDoesNotMatter(input: ConfigInput, a: map<string, PipelineSpec>, b: map<string, PipelineSpec>)
    requires NamedPipelinesOf(input, a) && NamedPipelinesOf(input, b)
    ensures a == b
  {
    hide PipelineAt;
    hide PipelineName;
    hide InPipelines;
    assert forall k | k in a :: k in b && a[k] == b[k];
    assert forall k | k in b :: k in a;
  }

  // ---------------------------------------------------------------------------
  // The generator

  ghost function Specs(m: map<string, Pipeline>): map<string, PipelineSpec>
    reads m.Values
  {
    map k | k in m :: m[k].Spec()
  }

  predicate PairwiseDistinct(m: map<string, Pipeline>) {
    forall j, k | j in m && k in m && j != k :: m[j] != m[k]
  }

  // Every key of m stands for a wanted pipeline, which is complete unless it is the root of a pending tenant.
  ghost predicate Decodes(input: ConfigInput, m: map<string, Pipeline>,
                          ids: map<string, PipelineId>, pending: set<string>)
    reads m.Values
  {
    && m.Keys == ids.Keys
    && PairwiseDistinct(m)
    && forall k | k in m ::
         && PipelineName(ids[k]) == k && InPipelines(input, ids[k])
         && ((ids[k].Root? && ids[k].tenant in pending) || m[k].Spec() == PipelineAt(input, ids[k]))
  }

  lemma PutKeepsDecoding(input: ConfigInput, m: map<string, Pipeline>, ids: map<string, PipelineId>,
                         pending: set<string>, id: PipelineId, p: Pipeline)
    requires Decodes(input, m, ids, pending) && p !in m.Values
    requires InPipelines(input, id)
    requires (id.Root? && id.tenant in pending) || p.Spec() == PipelineAt(input, id)
    ensures Decodes(input, m[PipelineName(id) := p], ids[PipelineName(id) := id], pending)
  {
    var key := PipelineName(id);
    var m', ids' := m[key := p], ids[key := id];
    assert m'.Keys == ids'.Keys;
    assert forall k | k in m && k != key :: m'[k] == m[k] && ids'[k] == ids[k];
    assert PairwiseDistinct(m');
  }

  method GenerateOutputPipeline(input: ConfigInput, subscription: NamespacedName, output: Output)
    returns (p: Pipeline)
    ensures fresh(p) && p.Spec() == OutputPipelineSpec(input, subscription, output)
  {
    var processors := [ComponentName(ExporterNameAttributes(output.id.name))];
    if output.batch.Some? {
      processors := processors + [ComponentName(BatchProcessor(output.id.name))];
    }
    assert processors == OutputProcessors(output);
    var exporters: seq<string> := [];
    if input.dryRun {
      exporters := [ComponentName(Debug)];
    } else {
      if input.debug {
        exporters := exporters + [ComponentName(Debug)];
      }
      var exporterName := ExporterNameFor(output);
      if exporterName != "" {
        exporters := exporters + [exporterName, ComponentName(CountOutput)];
        if input.axoflow {
          exporters := exporters + [ComponentName(BytesExporter)];
        }
      }
    }
    assert exporters == OutputExporters(input, output);
    p := GeneratePipeline([ComponentName(RouteOutputs(subscription))], processors, exporters);
  }

  // Here and below entries are only added or replaced, and what is new was made by the method.
  method PutOutputPipeline(input: ConfigInput, subscription: NamespacedName, outputRef: NamespacedName,
                           start: map<string, Pipeline>, ghost startIds: map<string, PipelineId>,
                           ghost pending: set<string>)
    returns (m: map<string, Pipeline>, ghost ids: map<string, PipelineId>)
    requires Decodes(input, start, startIds, pending)
    requires (exists t :: subscription in input.SubscriptionsOf(t)) && outputRef in input.OutputsOf(subscription)
    ensures Decodes(input, m, ids, pending)
    ensures start.Keys <= m.Keys && forall k | k in m :: (k in start && m[k] == start[k]) || fresh(m[k])
    ensures FindOutput(input.outputs, outputRef).Some? ==>
              PipelineName(OutputPipeline(subscription, outputRef)) in m
  {
    m, ids := start, startIds;
    var found := FindOutput(input.outputs, outputRef);
    if found.Some? {
      var p := GenerateOutputPipeline(input, subscription, found.value);
      ghost var id := OutputPipeline(subscription, outputRef);
      PutKeepsDecoding(input, m, ids, pending, id, p);
      ids := ids[PipelineName(id) := id];
      m := m[PipelineName(OutputPipeline(subscription, outputRef)) := p];
    }
  }

  method GenerateOutputPipelines(input: ConfigInput, subscription: NamespacedName, start: map<string, Pipeline>,
                                 ghost startIds: map<string, PipelineId>, ghost pending: set<string>)
    returns (m: map<string, Pipeline>, ghost ids: map<string, PipelineId>)
    requires Decodes(input, start, startIds, pending)
    requires exists t :: subscription in input.SubscriptionsOf(t)
    ensures Decodes(input, m, ids, pending)
    ensures start.Keys <= m.Keys && forall k | k in m :: (k in start && m[k] == start[k]) || fresh(m[k])
    ensures forall o | InPipelines(input, OutputPipeline(subscription, o)) ::
              PipelineName(OutputPipeline(subscription, o)) in m
  {
    hide Decodes;
    hide PipelineName;
    hide PipelineAt;
    m, ids := start, startIds;
    var outputRefs := input.OutputsOf(subscription);
    for i := 0 to |outputRefs|
      invariant Decodes(input, m, ids, pending)
      invariant start.Keys <= m.Keys && forall k | k in m :: (k in start && m[k] == start[k]) || fresh(m[k])
      invariant forall j | 0 <= j < i && FindOutput(input.outputs, outputRefs[j]).Some? ::
                  PipelineName(OutputPipeline(subscription, outputRefs[j])) in m
    {
      m, ids := PutOutputPipeline(input, subscription, outputRefs[i], m, ids, pending);
    }
  }

  method PutSubscriptionPipelines(input: ConfigInput, tenant: string, subscription: NamespacedName,
                                  start: map<string, Pipeline>, ghost startIds: map<string, PipelineId>,
                                  ghost pending: set<string>)
    returns (m: map<string, Pipeline>, ghost ids: map<string, PipelineId>)
    requires Decodes(input, start, startIds, pending) && subscription in input.SubscriptionsOf(tenant)
    ensures Decodes(input, m, ids, pending)
    ensures start.Keys <= m.Keys && forall k | k in m :: (k in start && m[k] == start[k]) || fresh(m[k])
    ensures PipelineName(SubscriptionPipeline(tenant, subscription)) in m
    ensures forall o | InPipelines(input, OutputPipeline(subscription, o)) ::
              PipelineName(OutputPipeline(subscription, o)) in m
  {
    hide Decodes;
    hide PipelineName;
    var p := GeneratePipeline([ComponentName(RouteSubscriptions(tenant))],
                              [ComponentName(SubscriptionAttributes(subscription.name))],
                              [ComponentName(RouteOutputs(subscription))]);
    ghost var id := SubscriptionPipeline(tenant, subscription);
    PutKeepsDecoding(input, start, startIds, pending, id, p);
    ids := startIds[PipelineName(id) := id];
    m := start[PipelineName(SubscriptionPipeline(tenant, subscription)) := p];
    m, ids := GenerateOutputPipelines(input, subscription, m, ids, pending);
  }

  method GenerateSubscriptionPipelines(input: ConfigInput, tenant: string, start: map<string, Pipeline>,
                                       ghost startIds: map<string, PipelineId>, ghost pending: set<string>)
    returns (m: map<string, Pipeline>, ghost ids: map<string, PipelineId>)
    requires Decodes(input, start, startIds, pending)
    ensures Decodes(input, m, ids, pending)
    ensures start.Keys <= m.Keys && forall k | k in m :: (k in start && m[k] == start[k]) || fresh(m[k])
    ensures HasSubscriptionPipelines(input, tenant, m.Keys)
  {
    hide Decodes;
    hide PipelineName;
    hide PipelineAt;
    m, ids := start, startIds;
    var subscriptions := input.SubscriptionsOf(tenant);
    for i := 0 to |subscriptions|
      invariant Decodes(input, m, ids, pending)
      invariant start.Keys <= m.Keys && forall k | k in m :: (k in start && m[k] == start[k]) || fresh(m[k])
      invariant forall j | 0 <= j < i :: HasPipelinesOf(input, tenant, subscriptions[j], m.Keys)
    {
      m, ids := PutSubscriptionPipelines(input, tenant, subscriptions[i], m, ids, pending);
    }
  }

  ghost predicate HasPipelinesOf(input: ConfigInput, tenant: string, s: NamespacedName, keys: set<string>) {
    && PipelineName(SubscriptionPipeline(tenant, s)) in keys
    && forall o | InPipelines(input, OutputPipeline(s, o)) :: PipelineName(OutputPipeline(s, o)) in keys
  }

  ghost predicate HasSubscriptionPipelines(input: ConfigInput, tenant: string, keys: set<string>) {
    forall s | s in input.SubscriptionsOf(tenant) :: HasPipelinesOf(input, tenant, s, keys)
  }

  lemma RootIsComplete(input: ConfigInput, m: map<string, Pipeline>, ids: map<string, PipelineId>,
                       pending: set<string>, tenant: string)
    requires Decodes(input, m, ids, pending) && PipelineName(Root(tenant)) in m
    requires m[PipelineName(Root(tenant))].Spec() == PipelineAt(input, Root(tenant))
    ensures Decodes(input, m, ids, pending - {tenant})
  {
  }

  // The root object is put in the map first and then mutated through the map.
  method GenerateTenantRoot(input: ConfigInput, tenant: string, start: map<string, Pipeline>,
                            ghost startIds: map<string, PipelineId>, ghost pending: set<string>)
    returns (m: map<string, Pipeline>, ghost ids: map<string, PipelineId>)
    requires Decodes(input, start, startIds, pending)
    requires tenant in input.tenantSubscriptions && tenant in pending
    ensures Decodes(input, m, ids, pending - {tenant})
    ensures start.Keys <= m.Keys && forall k | k in m :: (k in start && m[k] == start[k]) || fresh(m[k])
    ensures PipelineName(Root(tenant)) in m
  {
    var root := PipelineName(Root(tenant));
    var p := GenerateRootPipeline(input, tenant);
    m, ids := start[root := p], startIds[root := Root(tenant)];
    GenerateRoutingConnectorForBridgesTenantPipeline(tenant, m[root], input.bridges);
    GenerateTransformProcessorForTenantPipeline(tenant, m[root], input.tenants);
    PutKeepsDecoding(input, start, startIds, pending, Root(tenant), p);
    RootIsComplete(input, m, ids, pending, tenant);
  }

  method GenerateTenantPipelines(input: ConfigInput, tenant: string, start: map<string, Pipeline>,
                                 ghost startIds: map<string, PipelineId>, ghost pending: set<string>)
    returns (m: map<string, Pipeline>, ghost ids: map<string, PipelineId>)
    requires Decodes(input, start, startIds, pending)
    requires tenant in input.tenantSubscriptions && tenant in pending
    ensures Decodes(input, m, ids, pending - {tenant})
    ensures start.Keys <= m.Keys && forall k | k in m :: (k in start && m[k] == start[k]) || fresh(m[k])
    ensures PipelineName(Root(tenant)) in m && HasSubscriptionPipelines(input, tenant, m.Keys)
  {
    hide Decodes;
    hide PipelineName;
    hide PipelineAt;
    m, ids := GenerateTenantRoot(input, tenant, start, startIds, pending);
    m, ids := GenerateSubscriptionPipelines(input, tenant, m, ids, pending - {tenant});
  }

  method PutMetricsPipeline(input: ConfigInput, id: PipelineId, connector: ComponentId, start: map<string, Pipeline>,
                            ghost startIds: map<string, PipelineId>, ghost pending: set<string>)
    returns (m: map<string, Pipeline>, ghost ids: map<string, PipelineId>)
    requires Decodes(input, start, startIds, pending) && InPipelines(input, id)
    requires (id == TenantMetrics && connector == CountTenant)
          || (id == OutputMetrics && connector == CountOutput)
          || (id == OutputBytes && connector == BytesExporter)
    ensures Decodes(input, m, ids, pending) && PipelineName(id) in m
    ensures start.Keys <= m.Keys && forall k | k in m :: (k in start && m[k] == start[k]) || fresh(m[k])
  {
    var p := new Pipeline([ComponentName(connector)],
                          [ComponentName(DeltaToCumulative), ComponentName(MetricAttributes)],
                          [ComponentName(Prometheus)]);
    PutKeepsDecoding(input, start, startIds, pending, id, p);
    m, ids := start[PipelineName(id) := p], startIds[PipelineName(id) := id];
  }

  predicate HasMetricsPipelines(input: ConfigInput, keys: set<string>) {
    && PipelineName(TenantMetrics) in keys && PipelineName(OutputMetrics) in keys
    && (input.axoflow ==> PipelineName(OutputBytes) in keys)
  }

  method GenerateCountPipelines(input: ConfigInput, start: map<string, Pipeline>,
                                ghost startIds: map<string, PipelineId>, ghost pending: set<string>)
    returns (m: map<string, Pipeline>, ghost ids: map<string, PipelineId>)
    requires Decodes(input, start, startIds, pending) && !input.dryRun
    ensures Decodes(input, m, ids, pending)
    ensures start.Keys <= m.Keys && forall k | k in m :: (k in start && m[k] == start[k]) || fresh(m[k])
    ensures PipelineName(TenantMetrics) in m && PipelineName(OutputMetrics) in m
  {
    hide Decodes;
    hide PipelineName;
    hide PipelineAt;
    m, ids := PutMetricsPipeline(input, TenantMetrics, CountTenant, start, startIds, pending);
    m, ids := PutMetricsPipeline(input, OutputMetrics, CountOutput, m, ids, pending);
  }

  method GenerateMetricsPipelines(input: ConfigInput, start: map<string, Pipeline>,
                                  ghost startIds: map<string, PipelineId>, ghost pending: set<string>)
    returns (m: map<string, Pipeline>, ghost ids: map<string, PipelineId>)
    requires Decodes(input, start, startIds, pending)
    ensures Decodes(input, m, ids, pending)
    ensures start.Keys <= m.Keys && forall k | k in m :: (k in start && m[k] == start[k]) || fresh(m[k])
    ensures !input.dryRun ==> HasMetricsPipelines(input, m.Keys)
  {
    hide Decodes;
    hide PipelineName;
    hide PipelineAt;
    m, ids := start, startIds;
    if !input.dryRun {
      m, ids := GenerateCountPipelines(input, start, startIds, pending);
      if input.axoflow {
        m, ids := PutMetricsPipeline(input, OutputBytes, BytesExporter, m, ids, pending);
      }
    }
  }

  // First pass over the tenant map: a root pipeline for everybody, still to be wired.
  method GenerateRoots(input: ConfigInput, order: seq<string>)
    returns (m: map<string, Pipeline>, ghost ids: map<string, PipelineId>)
    requires Enumerates(order, input.tenantSubscriptions.Keys)
    ensures Decodes(input, m, ids, input.tenantSubscriptions.Keys)
    ensures forall k | k in m :: fresh(m[k])
  {
    m, ids := map[], map[];
    for i := 0 to |order|
      invariant Decodes(input, m, ids, input.tenantSubscriptions.Keys)
      invariant forall k | k in m :: fresh(m[k])
    {
      assert order[i] in input.tenantSubscriptions.Keys;
      var p := GenerateRootPipeline(input, order[i]);
      PutKeepsDecoding(input, m, ids, input.tenantSubscriptions.Keys, Root(order[i]), p);
      m := m[PipelineName(Root(order[i])) := p];
      ids := ids[PipelineName(Root(order[i])) := Root(order[i])];
    }
  }

  lemma AllTenantsCovered(input: ConfigInput, order: seq<string>, keys: set<string>, id: PipelineId)
    requires Enumerates(order, input.tenantSubscriptions.Keys) && InPipelines(input, id)
    requires !id.TenantMetrics? && !id.OutputMetrics? && !id.OutputBytes?
    requires forall t | t in order :: PipelineName(Root(t)) in keys && HasSubscriptionPipelines(input, t, keys)
    ensures PipelineName(id) in keys
  {
    match id
    case Root(t) =>
    case SubscriptionPipeline(t, s) => assert t in order && HasPipelinesOf(input, t, s, keys);
    case OutputPipeline(s, o) =>
      var t :| s in input.SubscriptionsOf(t);
      assert t in order && HasPipelinesOf(input, t, s, keys);
  }

  lemma DecodedIsNamed(input: ConfigInput, m: map<string, Pipeline>, ids: map<string, PipelineId>)
    requires WellNamed(input) && Decodes(input, m, ids, {})
    requires forall id | InPipelines(input, id) :: PipelineName(id) in m
    ensures NamedPipelinesOf(input, Specs(m))
  {
    forall id | InPipelines(input, id)
      ensures Specs(m)[PipelineName(id)] == PipelineAt(input, id)
    {
      var k := PipelineName(id);
      PresentIdsAreNamed(input, id);
      PresentIdsAreNamed(input, ids[k]);
      PipelineNameInjective(ids[k], id);
    }
    forall k | k in m
      ensures exists id :: InPipelines(input, id) && PipelineName(id) == k
    {
      assert InPipelines(input, ids[k]);
    }
  }

  // Second pass, in the same order.
  method GenerateTenants(input: ConfigInput, order: seq<string>, start: map<string, Pipeline>,
                         ghost startIds: map<string, PipelineId>)
    returns (m: map<string, Pipeline>, ghost ids: map<string, PipelineId>)
    requires Enumerates(order, input.tenantSubscriptions.Keys)
    requires Decodes(input, start, startIds, input.tenantSubscriptions.Keys)
    ensures Decodes(input, m, ids, {})
    ensures start.Keys <= m.Keys && forall k | k in m :: (k in start && m[k] == start[k]) || fresh(m[k])
    ensures forall t | t in order :: PipelineName(Root(t)) in m && HasSubscriptionPipelines(input, t, m.Keys)
  {
    hide Decodes;
    hide PipelineName;
    hide PipelineAt;
    m, ids := start, startIds;
    ghost var pending := input.tenantSubscriptions.Keys;
    for i := 0 to |order|
      invariant pending == set t | t in order[i..]
      invariant Decodes(input, m, ids, pending)
      invariant start.Keys <= m.Keys && forall k | k in m :: (k in start && m[k] == start[k]) || fresh(m[k])
      invariant forall j | 0 <= j < i ::
                  PipelineName(Root(order[j])) in m && HasSubscriptionPipelines(input, order[j], m.Keys)
    {
      assert order[i] in order[i..];
      m, ids := GenerateTenantPipelines(input, order[i], m, ids, pending);
      assert order[i..] == [order[i]] + order[i + 1..];
      pending := pending - {order[i]};
    }
    assert pending == {};
  }

  lemma AllPipelinesPresent(input: ConfigInput, order: seq<string>, keys: set<string>)
    requires Enumerates(order, input.tenantSubscriptions.Keys)
    requires forall t | t in order :: PipelineName(Root(t)) in keys && HasSubscriptionPipelines(input, t, keys)
    requires !input.dryRun ==> HasMetricsPipelines(input, keys)
    ensures forall id | InPipelines(input, id) :: PipelineName(id) in keys
  {
    forall id | InPipelines(input, id)
      ensures PipelineName(id) in keys
    {
      if !id.TenantMetrics? && !id.OutputMetrics? && !id.OutputBytes? {
        AllTenantsCovered(input, order, keys, id);
      }
    }
  }

  method GenerateRootsAndMetrics(input: ConfigInput, order: seq<string>)
    returns (m: map<string, Pipeline>, ghost ids: map<string, PipelineId>)
    requires Enumerates(order, input.tenantSubscriptions.Keys)
    ensures forall k | k in m :: fresh(m[k])
    ensures Decodes(input, m, ids, input.tenantSubscriptions.Keys)
    ensures !input.dryRun ==> HasMetricsPipelines(input, m.Keys)
  {
    hide Decodes;
    hide PipelineName;
    hide PipelineAt;
    var roots; ghost var rootIds;
    roots, rootIds := GenerateRoots(input, order);
    m, ids := GenerateMetricsPipelines(input, roots, rootIds, input.tenantSubscriptions.Keys);
  }

  method GenerateAllPipelines(input: ConfigInput, order: seq<string>)
    returns (m: map<string, Pipeline>, ghost ids: map<string, PipelineId>)
    requires Enumerates(order, input.tenantSubscriptions.Keys)
    ensures forall k | k in m :: fresh(m[k])
    ensures Decodes(input, m, ids, {})
    ensures forall id | InPipelines(input, id) :: PipelineName(id) in m.Keys
  {
    hide Decodes;
    hide PipelineName;
    hide PipelineAt;
    var start; ghost var startIds;
    start, startIds := GenerateRootsAndMetrics(input, order);
    m, ids := GenerateTenants(input, order, start, startIds);
    AllPipelinesPresent(input, order, m.Keys);
  }

  // One object a key, no object under two keys.
  method GenerateNamedPipelines(input: ConfigInput, order: seq<string>) returns (m: map<string, Pipeline>)
    requires WellNamed(input) && Enumerates(order, input.tenantSubscriptions.Keys)
    ensures forall k | k in m :: fresh(m[k])
    ensures PairwiseDistinct(m)
    ensures NamedPipelinesOf(input, Specs(m))
  {
    ghost var ids;
    m, ids := GenerateAllPipelines(input, order);
    DecodedIsNamed(input, m, ids);
  }
}
