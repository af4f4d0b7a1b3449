/** What a record has been stamped with when it reaches an exporter: the tenant it came from, the subscription and the
    exporter. */
module Stamps {
  import opened Names
  import opened Api
  import opened Tables
  import opened Pipelines
  import opened NamedPipelines
  import opened Generators
  import opened Assembly
  import opened Meaning
  import opened Closure
  import opened Records

  // ---------------------------------------------------------------------------
  // The processors of each pipeline, in order

  lemma Limited(input: ConfigInput, orders: Orders, config: CollectorConfig, id: PipelineId)
    requires Assembled(input, orders, config) && InPipelines(input, id)
    ensures PipelineName(id) in config.pipelines
    ensures config.pipelines[PipelineName(id)].processors
         == [ComponentName(MemoryLimiter)] + PipelineAt(input, id).processors
  {
    hide Defines, PipelineAt, InPipelines, PipelineName, ComponentName;
    var named :| NamedPipelinesOf(input, named) && Assembly.Limited(config.pipelines, named);
  }

  lemma {:induction false} NonEmptyAll(items: seq<string>)
    requires "" !in items
    ensures NonEmpty(items) == items
  {
    if items != [] {
      assert items == items[..|items| - 1] + [items[|items| - 1]];
      NonEmptyAll(items[..|items| - 1]);
    }
  }

  lemma {:induction false} NoTransform(p: PipelineSpec, t: string, tenants: seq<Tenant>)
    requires forall u | u in tenants :: u.name != t
    ensures AddTransform(p, t, tenants) == p
  {
    if tenants != [] {
      var n := |tenants| - 1;
      assert tenants[n] in tenants;
      NoTransform(p, t, tenants[..n]);
    }
  }

  lemma {:induction false} OneTransform(p: PipelineSpec, tenant: Tenant, tenants: seq<Tenant>)
    requires UniqueTenants(tenants) && tenant in tenants
    ensures AddTransform(p, tenant.name, tenants).processors
         == p.processors + if tenant.transform.name == "" then []
                           else [ComponentName(TransformProcessor(tenant.transform.name))]
  {
    hide ComponentName;
    var n := |tenants| - 1;
    if tenants[n] == tenant {
      forall u | u in tenants[..n]
        ensures u.name != tenant.name
      {
        var i :| 0 <= i < n && tenants[i] == u;
      }
      NoTransform(p, tenant.name, tenants[..n]);
    } else {
      var i :| 0 <= i < n && tenants[i] == tenant;
      assert tenant in tenants[..n];
      OneTransform(p, tenant, tenants[..n]);
    }
  }

  lemma RootProcessorsAre(input: ConfigInput, tenant: Tenant)
    requires UniqueTenants(input.tenants) && tenant in input.tenants
    ensures PipelineAt(input, Root(tenant.name)).processors
         == [ComponentName(K8sAttributes), ComponentName(TenantAttributes(tenant.name)), ComponentName(FilterExclude)]
            + if tenant.transform.name == "" then [] else [ComponentName(TransformProcessor(tenant.transform.name))]
  {
    hide ComponentName, RootReceivers, RootExporter, NonEmpty, UniqueTenants;
    var t := tenant.name;
    var base := RootPipeline(input, t);
    WiringExtendsProcessors(base, t, input.bridges);
    OneTransform(WireBridges(base, t, input.bridges), tenant, input.tenants);
    NameNotEmpty(K8sAttributes);
    NameNotEmpty(TenantAttributes(t));
    NameNotEmpty(FilterExclude);
    NonEmptyAll(RootProcessors(t));
  }

  // Logs of a tenant get their Kubernetes attributes and the tenant's name before anything is filtered or transformed.
  lemma RootProcesses(input: ConfigInput, orders: Orders, config: CollectorConfig, tenant: Tenant)
    requires WellFormed(input) && Assembled(input, orders, config) && tenant in input.tenants
    ensures InPipelines(input, Root(tenant.name)) && PipelineName(Root(tenant.name)) in config.pipelines
    ensures config.pipelines[PipelineName(Root(tenant.name))].processors
         == [ComponentName(MemoryLimiter), ComponentName(K8sAttributes), ComponentName(TenantAttributes(tenant.name)),
             ComponentName(FilterExclude)]
            + if tenant.transform.name == "" then [] else [ComponentName(TransformProcessor(tenant.transform.name))]
  {
    hide ComponentName, PipelineName, PipelineAt, Assembled, WellFormed;
    IndexedInput(input);
    Limited(input, orders, config, Root(tenant.name));
    RootProcessorsAre(input, tenant);
  }

  lemma SubscriptionProcesses(input: ConfigInput, orders: Orders, config: CollectorConfig, t: string,
                              s: NamespacedName)
    requires Assembled(input, orders, config) && s in input.SubscriptionsOf(t)
    ensures PipelineName(SubscriptionPipeline(t, s)) in config.pipelines
    ensures config.pipelines[PipelineName(SubscriptionPipeline(t, s))].processors
         == [ComponentName(MemoryLimiter), ComponentName(SubscriptionAttributes(s.name))]
  {
    hide ComponentName, PipelineName, Assembled;
    Limited(input, orders, config, SubscriptionPipeline(t, s));
    NameNotEmpty(SubscriptionAttributes(s.name));
    NonEmptyAll([ComponentName(SubscriptionAttributes(s.name))]);
  }

  // The batch, if there is one, comes after everything that may drop data.
  lemma OutputProcesses(input: ConfigInput, orders: Orders, config: CollectorConfig, s: NamespacedName, output: Output)
    requires Assembled(input, orders, config) && InPipelines(input, OutputPipeline(s, output.id))
    requires FindOutput(input.outputs, output.id) == Some(output)
    ensures PipelineName(OutputPipeline(s, output.id)) in config.pipelines
    ensures config.pipelines[PipelineName(OutputPipeline(s, output.id))].processors
         == [ComponentName(MemoryLimiter), ComponentName(ExporterNameAttributes(output.id.name))]
            + if output.batch.None? then [] else [ComponentName(BatchProcessor(output.id.name))]
  {
    hide ComponentName, PipelineName, Assembled, InPipelines, FindOutput, OutputExporters;
    Limited(input, orders, config, OutputPipeline(s, output.id));
    NameNotEmpty(ExporterNameAttributes(output.id.name));
    NameNotEmpty(BatchProcessor(output.id.name));
    NonEmptyAll(OutputProcessors(output));
  }

  lemma MetricsProcess(input: ConfigInput, orders: Orders, config: CollectorConfig, id: PipelineId)
    requires Assembled(input, orders, config) && InPipelines(input, id)
    requires id.TenantMetrics? || id.OutputMetrics? || id.OutputBytes?
    ensures PipelineName(id) in config.pipelines
    ensures config.pipelines[PipelineName(id)].processors
         == [ComponentName(MemoryLimiter), ComponentName(DeltaToCumulative), ComponentName(MetricAttributes)]
  {
    hide ComponentName, PipelineName, Assembled;
    Limited(input, orders, config, id);
  }

  // ---------------------------------------------------------------------------
  // Attributes

  type Attributes = map<string, string>

  // An attribute is inserted unless the record has it. Other processors leave these attributes alone.
  function Stamp(v: ProcessorConfig, attributes: Attributes): Attributes {
    if v.InsertAttribute? && v.key !in attributes then attributes[v.key := v.value] else attributes
  }

  function StampAll(processors: map<string, ProcessorConfig>, names: seq<string>, attributes: Attributes): Attributes {
    if names == [] then attributes
    else
      var n := |names| - 1;
      var before := StampAll(processors, names[..n], attributes);
      if names[n] in processors then Stamp(processors[names[n]], before) else before
  }

  function Travelled(config: CollectorConfig, ps: seq<string>, attributes: Attributes): Attributes {
    if ps == [] then attributes
    else
      var n := |ps| - 1;
      var before := Travelled(config, ps[..n], attributes);
      if ps[n] in config.pipelines then StampAll(config.processors, config.pipelines[ps[n]].processors, before)
      else before
  }

  lemma StampNext(processors: map<string, ProcessorConfig>, names: seq<string>, name: string, attributes: Attributes)
    requires name in processors
    ensures StampAll(processors, names + [name], attributes)
         == Stamp(processors[name], StampAll(processors, names, attributes))
  {
    assert (names + [name])[..|names|] == names;
  }

  // Every processor in use is among the defined ones.
  lemma ProcessorsInUse(input: ConfigInput, order: seq<NamespacedName>)
    ensures forall c | IsBuiltInProcessor(c) :: c in AllProcessorIds(input, order)
    ensures forall t | t in input.tenants :: TenantAttributes(t.name) in AllProcessorIds(input, order)
    ensures forall t | t in input.tenants && t.transform.name != "" ::
              TransformProcessor(t.transform.name) in AllProcessorIds(input, order)
    ensures forall s | s in order :: SubscriptionAttributes(s.name) in AllProcessorIds(input, order)
    ensures forall e | e in input.outputs && e.output.batch.Some? ::
              BatchProcessor(e.output.id.name) in AllProcessorIds(input, order)
  {
  }

  // The only processors that insert an attribute with a value of their own.
  lemma WhatProcessorsInsert(input: ConfigInput, c: ComponentId, v: ProcessorConfig)
    requires AllProcessorsOk(input)(c, v)
    ensures c.TenantAttributes? ==> v == InsertAttribute("tenant", c.tenant)
    ensures c.SubscriptionAttributes? ==> v == InsertAttribute("subscription", c.name)
    ensures IsBuiltInProcessor(c) || c.TransformProcessor? || c.BatchProcessor? ==> !v.InsertAttribute?
  {
    hide LastNamed, LastBatch, LastTransform, ExporterNameFor;
  }

  lemma ProcessorInUse(input: ConfigInput, orders: Orders, config: CollectorConfig, c: ComponentId)
    requires Assembled(input, orders, config) && c in AllProcessorIds(input, orders.processorSubscriptions)
    ensures ComponentName(c) in config.processors
    ensures var v := config.processors[ComponentName(c)];
            && (c.TenantAttributes? ==> v == InsertAttribute("tenant", c.tenant))
            && (c.SubscriptionAttributes? ==> v == InsertAttribute("subscription", c.name))
            && (IsBuiltInProcessor(c) || c.TransformProcessor? || c.BatchProcessor? ==> !v.InsertAttribute?)
  {
    hide ComponentName, Assembled, AllProcessorIds, AllProcessorsOk;
    ProcessorDefined(input, orders, config, c);
    WhatProcessorsInsert(input, c, config.processors[ComponentName(c)]);
  }

  lemma RootStamps(input: ConfigInput, orders: Orders, config: CollectorConfig, tenant: Tenant, a: Attributes)
    requires WellFormed(input) && Assembled(input, orders, config) && tenant in input.tenants
    ensures PipelineName(Root(tenant.name)) in config.pipelines
    ensures StampAll(config.processors, config.pipelines[PipelineName(Root(tenant.name))].processors, a)
         == if "tenant" in a then a else a["tenant" := tenant.name]
  {
    hide ComponentName, PipelineName, Assembled, WellFormed, AllProcessorIds;
    RootProcesses(input, orders, config, tenant);
    ProcessorsInUse(input, orders.processorSubscriptions);
    ProcessorInUse(input, orders, config, MemoryLimiter);
    ProcessorInUse(input, orders, config, K8sAttributes);
    ProcessorInUse(input, orders, config, FilterExclude);
    ProcessorInUse(input, orders, config, TenantAttributes(tenant.name));
    var l, k, t, f := ComponentName(MemoryLimiter), ComponentName(K8sAttributes),
                      ComponentName(TenantAttributes(tenant.name)), ComponentName(FilterExclude);
    StampNext(config.processors, [], l, a);
    StampNext(config.processors, [l], k, a);
    StampNext(config.processors, [l, k], t, a);
    StampNext(config.processors, [l, k, t], f, a);
    assert [] + [l] == [l] && [l] + [k] == [l, k] && [l, k] + [t] == [l, k, t] && [l, k, t] + [f] == [l, k, t, f];
    if tenant.transform.name != "" {
      ProcessorInUse(input, orders, config, TransformProcessor(tenant.transform.name));
      StampNext(config.processors, [l, k, t, f], ComponentName(TransformProcessor(tenant.transform.name)), a);
    } else {
      assert [l, k, t, f] + [] == [l, k, t, f];
    }
  }

  lemma SubscriptionStamps(input: ConfigInput, orders: Orders, config: CollectorConfig, t: string, s: NamespacedName,
                           a: Attributes)
    requires WellFormed(input) && OrdersOf(input, orders) && Assembled(input, orders, config)
    requires s in input.SubscriptionsOf(t)
    ensures PipelineName(SubscriptionPipeline(t, s)) in config.pipelines
    ensures StampAll(config.processors, config.pipelines[PipelineName(SubscriptionPipeline(t, s))].processors, a)
         == if "subscription" in a then a else a["subscription" := s.name]
  {
    hide ComponentName, PipelineName, Assembled, WellFormed, AllProcessorIds;
    SubscriptionProcesses(input, orders, config, t, s);
    ListedSubscription(input, t, s);
    ListedInOrder(orders.processorSubscriptions, input.subscriptions.Keys);
    ProcessorsInUse(input, orders.processorSubscriptions);
    ProcessorInUse(input, orders, config, MemoryLimiter);
    ProcessorInUse(input, orders, config, SubscriptionAttributes(s.name));
    var l, c := ComponentName(MemoryLimiter), ComponentName(SubscriptionAttributes(s.name));
    StampNext(config.processors, [], l, a);
    StampNext(config.processors, [l], c, a);
    assert [] + [l] == [l] && [l] + [c] == [l, c];
  }

  // The exporter's name is that of some output with the same bare name.
  lemma OutputStamps(input: ConfigInput, orders: Orders, config: CollectorConfig, s: NamespacedName, output: Output,
                     a: Attributes)
    returns (stamp: string)
    requires Assembled(input, orders, config) && InPipelines(input, OutputPipeline(s, output.id))
    requires FindOutput(input.outputs, output.id) == Some(output)
    ensures PipelineName(OutputPipeline(s, output.id)) in config.pipelines
    ensures StampAll(config.processors, config.pipelines[PipelineName(OutputPipeline(s, output.id))].processors, a)
         == if "exporter" in a then a else a["exporter" := stamp]
    ensures stamp == ExporterNameFor(output) <==> LabelledRight(input, config, output)
  {
    hide ComponentName, PipelineName, Assembled, InPipelines, FindOutput, ExporterNameFor, LastNamed, LastBatch,
         AllProcessorIds, AllProcessorsOk;
    OutputProcesses(input, orders, config, s, output);
    ProcessorsInUse(input, orders.processorSubscriptions);
    ProcessorInUse(input, orders, config, MemoryLimiter);
    var e :| e in input.outputs && e.output == output;
    ProcessorsOfAssembled(input, orders, config);
    LabelOf(input, orders.processorSubscriptions, config.processors, e);
    var l, c := ComponentName(MemoryLimiter), ComponentName(ExporterNameAttributes(output.id.name));
    stamp := config.processors[c].value;
    StampNext(config.processors, [], l, a);
    StampNext(config.processors, [l], c, a);
    assert [] + [l] == [l] && [l] + [c] == [l, c] && [l, c] + [] == [l, c];
    if output.batch.Some? {
      ProcessorInUse(input, orders, config, BatchProcessor(output.id.name));
      StampNext(config.processors, [l, c], ComponentName(BatchProcessor(output.id.name)), a);
    }
  }

  lemma TravelNext(config: CollectorConfig, ps: seq<string>, p: string, a: Attributes)
    requires p in config.pipelines
    ensures Travelled(config, ps + [p], a)
         == StampAll(config.processors, config.pipelines[p].processors, Travelled(config, ps, a))
  {
    assert (ps + [p])[..|ps|] == ps;
  }

  // The first tenant on the way is the one whose name stays.
  lemma {:induction false} RootsStamp(input: ConfigInput, orders: Orders, config: CollectorConfig, ts: seq<string>,
                                      a: Attributes)
    requires WellFormed(input) && Assembled(input, orders, config)
    requires ts != [] && forall i | 0 <= i < |ts| :: ts[i] in input.tenantSubscriptions
    ensures Travelled(config, PipelineNames(Roots(ts)), a) == if "tenant" in a then a else a["tenant" := ts[0]]
  {
    hide PipelineName, Assembled, WellFormed;
    IndexedInput(input);
    var n := |ts| - 1;
    var tenant := TenantOf(input, ts[n]);
    var before := PipelineNames(Roots(ts[..n]));
    assert PipelineNames(Roots(ts)) == before + [PipelineName(Root(ts[n]))];
    if n > 0 {
      RootsStamp(input, orders, config, ts[..n], a);
    } else {
      assert before == [];
    }
    RootStamps(input, orders, config, tenant, Travelled(config, before, a));
    TravelNext(config, before, PipelineName(Root(ts[n])), a);
  }

  lemma CrossedTenants(input: ConfigInput, holds: iset<string>, ids: seq<PipelineId>, ts: seq<string>)
    requires Steps(input, holds, ids) && |ts| <= |ids| && forall i | 0 <= i < |ts| :: ids[i] == Root(ts[i])
    ensures forall i | 0 <= i < |ts| :: ts[i] in input.tenantSubscriptions
  {
    hide Step, FindOutput;
    forall i | 0 <= i < |ts|
      ensures ts[i] in input.tenantSubscriptions
    {
      assert InPipelines(input, ids[i]);
    }
  }

  lemma DeliveryStamps(input: ConfigInput, orders: Orders, config: CollectorConfig, ts: seq<string>,
                       s: NamespacedName, output: Output, a: Attributes)
    returns (stamp: string)
    requires WellFormed(input) && OrdersOf(input, orders) && Assembled(input, orders, config)
    requires ts != [] && forall i | 0 <= i < |ts| :: ts[i] in input.tenantSubscriptions
    requires s in input.SubscriptionsOf(ts[|ts| - 1]) && InPipelines(input, OutputPipeline(s, output.id))
    requires FindOutput(input.outputs, output.id) == Some(output)
    requires "tenant" !in a && "subscription" !in a && "exporter" !in a
    ensures var ids := Roots(ts) + [SubscriptionPipeline(ts[|ts| - 1], s), OutputPipeline(s, output.id)];
            Travelled(config, PipelineNames(ids), a)
            == a["tenant" := ts[0]]["subscription" := s.name]["exporter" := stamp]
    ensures stamp == ExporterNameFor(output) <==> LabelledRight(input, config, output)
  {
    hide PipelineName, Assembled, OrdersOf, WellFormed, InPipelines, FindOutput, ExporterNameFor, LabelledRight,
         StampAll;
    var p, q := SubscriptionPipeline(ts[|ts| - 1], s), OutputPipeline(s, output.id);
    var roots := PipelineNames(Roots(ts));
    var x, y := PipelineName(p), PipelineName(q);
    RootsStamp(input, orders, config, ts, a);
    var b := a["tenant" := ts[0]];
    SubscriptionStamps(input, orders, config, ts[|ts| - 1], s, b);
    TravelNext(config, roots, x, a);
    var c := b["subscription" := s.name];
    stamp := OutputStamps(input, orders, config, s, output, c);
    TravelNext(config, roots + [x], y, a);
    assert PipelineNames(Roots(ts) + [p, q]) == roots + [x] + [y];
  }

  // Whatever way a record takes from a tenant's log receiver to the exporter of an output, it arrives with the name of
  // the tenant that it came from, however many bridges it crossed, the name of a subscription that lists the output,
  // and an exporter name, which is the right one exactly if the output is labelled right.
  lemma RecordsCarryTheirOrigin(input: ConfigInput, orders: Orders, config: CollectorConfig, holds: iset<string>,
                                ps: seq<string>, tenant: Tenant, output: Output, a: Attributes)
    returns (s: NamespacedName, stamp: string)
    requires WellFormed(input) && OrdersOf(input, orders) && Assembled(input, orders, config)
    requires Walk(config, holds, ps)
    requires tenant in input.tenants && FindOutput(input.outputs, output.id) == Some(output)
    requires ComponentName(FileLog(tenant.name)) in config.pipelines[ps[0]].receivers
    requires ExporterNameFor(output) in config.pipelines[ps[|ps| - 1]].exporters
    requires "tenant" !in a && "subscription" !in a && "exporter" !in a
    ensures Travelled(config, ps, a) == a["tenant" := tenant.name]["subscription" := s.name]["exporter" := stamp]
    ensures s in input.subscriptions && output.id in input.OutputsOf(s)
    ensures stamp == ExporterNameFor(output) <==> LabelledRight(input, config, output)
  {
    hide PipelineName, ComponentName, Assembled, OrdersOf, WellFormed, FindOutput, ExporterNameFor, LabelledRight,
         Travelled, Passes, Step, Admits, Crosses;
    var ids := WalkIsSteps(input, orders, config, holds, ps);
    s := EndsOfWalk(input, orders, config, holds, ids, tenant, output);
    var ts := StepsAskAlong(input, holds, ids, s, output.id);
    CrossedTenants(input, holds, ids, ts);
    var last := ts[|ts| - 1];
    assert InPipelines(input, ids[|ts|]) && InPipelines(input, ids[|ts| + 1]);
    ListedSubscription(input, last, s);
    stamp := DeliveryStamps(input, orders, config, ts, s, output, a);
  }
}
