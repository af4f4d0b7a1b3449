/** Nothing in an assembled configuration is defined in vain. */
module Usage {
  import opened Names
  import opened Api
  import opened Pipelines
  import opened NamedPipelines
  import opened Generators
  import opened Assembly
  import opened Meaning
  import opened Closure
  import opened Records
  import opened Stamps
  import opened Wiring
  import opened Secrets

  ghost predicate Processing(config: CollectorConfig, k: string) {
    exists p :: p in config.pipelines && k in config.pipelines[p].processors
  }

  ghost predicate Exporting(config: CollectorConfig, k: string) {
    exists p :: p in config.pipelines && k in config.pipelines[p].exporters
  }

  ghost predicate Receiving(config: CollectorConfig, k: string) {
    exists p :: p in config.pipelines && k in config.pipelines[p].receivers
  }

  lemma RootUses(input: ConfigInput, orders: Orders, config: CollectorConfig, tenant: Tenant)
    requires WellFormed(input) && Assembled(input, orders, config) && tenant in input.tenants
    ensures Processing(config, ComponentName(MemoryLimiter)) && Processing(config, ComponentName(K8sAttributes))
    ensures Processing(config, ComponentName(FilterExclude))
    ensures Processing(config, ComponentName(TenantAttributes(tenant.name)))
    ensures tenant.transform.name != "" ==>
              Processing(config, ComponentName(TransformProcessor(tenant.transform.name)))
  {
    hide ComponentName, PipelineName, Assembled, WellFormed, InPipelines;
    RootProcesses(input, orders, config, tenant);
    var p := PipelineName(Root(tenant.name));
    var ps := config.pipelines[p].processors;
    assert ps[0] in ps && ps[1] in ps && ps[2] in ps && ps[3] in ps;
    if tenant.transform.name != "" {
      assert ps[4] in ps;
    }
  }

  lemma SubscriptionUses(input: ConfigInput, orders: Orders, config: CollectorConfig, s: NamespacedName)
    requires WellFormed(input) && Assembled(input, orders, config) && s in input.subscriptions
    ensures Processing(config, ComponentName(SubscriptionAttributes(s.name)))
  {
    hide ComponentName, PipelineName, Assembled, WellFormed;
    IndexedInput(input);
    var t :| t in input.tenantSubscriptions && s in input.tenantSubscriptions[t];
    SubscriptionProcesses(input, orders, config, t, s);
    var p := PipelineName(SubscriptionPipeline(t, s));
    assert config.pipelines[p].processors[1] in config.pipelines[p].processors;
  }

  // The pipeline of an output, which the first listed output of that name decides.
  lemma PipelineOfOutput(input: ConfigInput, e: OutputWithSecretData) returns (s: NamespacedName)
    requires WellFormed(input) && OutputsAgree(input.outputs) && e in input.outputs
    ensures s in input.subscriptions && InPipelines(input, OutputPipeline(s, e.output.id))
    ensures FindOutput(input.outputs, e.output.id) == Some(e.output)
  {
    hide WellNamed, TenantsIndexed, BridgesIndexed, OneKindEach, FindOutput;
    s :| s in input.subscriptionOutputs && e.output.id in input.subscriptionOutputs[s];
    var t :| t in input.tenantSubscriptions && s in input.tenantSubscriptions[t];
    assert s in input.SubscriptionsOf(t) && e.output.id in input.OutputsOf(s);
    var found := FindOutput(input.outputs, e.output.id);
    var f :| f in input.outputs && f.output == found.value;
    assert f == e;
  }

  lemma OutputUses(input: ConfigInput, orders: Orders, config: CollectorConfig, e: OutputWithSecretData)
    requires WellFormed(input) && Assembled(input, orders, config) && OutputsAgree(input.outputs) && e in input.outputs
    ensures Processing(config, ComponentName(ExporterNameAttributes(e.output.id.name)))
    ensures e.output.batch.Some? ==> Processing(config, ComponentName(BatchProcessor(e.output.id.name)))
  {
    hide ComponentName, PipelineName, Assembled, WellFormed, InPipelines, FindOutput;
    var s := PipelineOfOutput(input, e);
    OutputProcesses(input, orders, config, s, e.output);
    var ps := config.pipelines[PipelineName(OutputPipeline(s, e.output.id))].processors;
    assert ps[1] in ps;
    if e.output.batch.Some? {
      assert ps[2] in ps;
    }
  }

  lemma MetricsUse(input: ConfigInput, orders: Orders, config: CollectorConfig)
    requires Assembled(input, orders, config) && !input.dryRun
    ensures Processing(config, ComponentName(DeltaToCumulative)) && Processing(config, ComponentName(MetricAttributes))
  {
    hide ComponentName, PipelineName, Assembled;
    MetricsProcess(input, orders, config, TenantMetrics);
    var ps := config.pipelines[PipelineName(TenantMetrics)].processors;
    assert ps[1] in ps && ps[2] in ps;
  }

  lemma ProcessorIsUsed(input: ConfigInput, orders: Orders, config: CollectorConfig, c: ComponentId)
    requires WellFormed(input) && OrdersOf(input, orders) && Assembled(input, orders, config)
    requires OutputsAgree(input.outputs) && !input.dryRun && input.tenants != []
    requires c in AllProcessorIds(input, orders.processorSubscriptions)
    ensures Processing(config, ComponentName(c))
  {
    hide ComponentName, Assembled, WellFormed, Processing, OutputsAgree;
    ListedInOrder(orders.processorSubscriptions, input.subscriptions.Keys);
    if c.TenantAttributes? {
      var t :| t in input.tenants && t.name == c.tenant;
      RootUses(input, orders, config, t);
    } else if c.TransformProcessor? {
      var t :| t in input.tenants && t.transform.name == c.name;
      RootUses(input, orders, config, t);
    } else if c.SubscriptionAttributes? {
      var s :| s in orders.processorSubscriptions && s.name == c.name;
      SubscriptionUses(input, orders, config, s);
    } else if c.ExporterNameAttributes? {
      var e :| e in input.outputs && e.output.id.name == c.name;
      OutputUses(input, orders, config, e);
    } else if c.BatchProcessor? {
      var e :| e in input.outputs && e.output.id.name == c.name && e.output.batch.Some?;
      OutputUses(input, orders, config, e);
    } else {
      RootUses(input, orders, config, input.tenants[0]);
      MetricsUse(input, orders, config);
    }
  }

  lemma OutputIsExported(input: ConfigInput, orders: Orders, config: CollectorConfig, e: OutputWithSecretData,
                         kind: ExporterKind)
    requires WellFormed(input) && OrdersOf(input, orders) && Assembled(input, orders, config)
    requires OutputsAgree(input.outputs) && !input.dryRun && e in input.outputs && kind in e.output.kinds
    ensures Exporting(config, ComponentName(OutputExporter(kind, e.output.id)))
  {
    hide ComponentName, PipelineName, Assembled, OrdersOf, WellFormed, OutputsAgree, FindOutput, InPipelines;
    var s := PipelineOfOutput(input, e);
    assert OneKindEach(input) by { IndexedInput(input); }
    assert e.output.kinds == {kind};
    ExportedThere(input, orders, config, OutputPipeline(s, e.output.id), OutputExporter(kind, e.output.id));
  }

  lemma ExporterIsUsed(input: ConfigInput, orders: Orders, config: CollectorConfig, c: ComponentId)
    requires WellFormed(input) && OrdersOf(input, orders) && Assembled(input, orders, config)
    requires OutputsAgree(input.outputs) && !input.dryRun && (input.debug ==> input.outputs != [])
    requires c in AllExporterIds(input)
    ensures Exporting(config, ComponentName(c))
  {
    hide ComponentName, PipelineName, Assembled, OrdersOf, WellFormed, OutputsAgree, FindOutput;
    if c.Prometheus? {
      ExportedThere(input, orders, config, TenantMetrics, c);
    } else if c.Debug? {
      var s := PipelineOfOutput(input, input.outputs[0]);
      ExportedThere(input, orders, config, OutputPipeline(s, input.outputs[0].output.id), c);
    } else {
      var e :| e in input.outputs && e.output.id == c.output && c.kind in e.output.kinds;
      OutputIsExported(input, orders, config, e, c.kind);
    }
  }

  lemma ReceiverIsUsed(input: ConfigInput, orders: Orders, config: CollectorConfig, c: ComponentId)
    requires WellFormed(input) && OrdersOf(input, orders) && Assembled(input, orders, config)
    requires c in ReceiverIds(input, orders.receiverTenants)
    ensures Receiving(config, ComponentName(c))
  {
    hide ComponentName, PipelineName, Assembled, WellFormed;
    ListedInOrder(orders.receiverTenants, input.tenantSubscriptions.Keys);
    assert exists tenant :: TenantNamed(input, c.tenant, tenant)
                            && (tenant.logSourceNamespaces.Items? || tenant.selectFromAllNamespaces);
    ReceivedThere(input, orders, config, Root(c.tenant), c);
  }

  // Every processor, exporter and receiver that is defined is used by some pipeline, once there is a tenant, and an
  // output for the debug exporter.
  lemma EverythingIsUsed(input: ConfigInput, orders: Orders, config: CollectorConfig)
    requires WellFormed(input) && OrdersOf(input, orders) && Assembled(input, orders, config)
    requires OutputsAgree(input.outputs) && !input.dryRun
    ensures input.tenants != [] ==> forall k | k in config.processors :: Processing(config, k)
    ensures (input.debug ==> input.outputs != []) ==> forall k | k in config.exporters :: Exporting(config, k)
    ensures forall k | k in config.receivers :: Receiving(config, k)
  {
    hide ComponentName, OrdersOf, WellFormed, OutputsAgree, AllProcessorIds, AllExporterIds, ReceiverIds,
         AllProcessorsOk, ExporterOk, ReceiverOk, Processing, Exporting, Receiving;
    forall k | k in config.processors && input.tenants != []
      ensures Processing(config, k)
    {
      var c :| c in AllProcessorIds(input, orders.processorSubscriptions) && ComponentName(c) == k;
      ProcessorIsUsed(input, orders, config, c);
    }
    forall k | k in config.exporters && (input.debug ==> input.outputs != [])
      ensures Exporting(config, k)
    {
      var c :| c in AllExporterIds(input) && ComponentName(c) == k;
      ExporterIsUsed(input, orders, config, c);
    }
    forall k | k in config.receivers
      ensures Receiving(config, k)
    {
      var c :| c in ReceiverIds(input, orders.receiverTenants) && ComponentName(c) == k;
      ReceiverIsUsed(input, orders, config, c);
    }
  }
}
