/** Pipelines as the mutable objects the generator fills, and what each generator leaves in them. */
module Pipelines {
  import opened Names
  import opened Api

  datatype PipelineSpec = PipelineSpec(receivers: seq<string>, processors: seq<string>, exporters: seq<string>)

  class Pipeline {
    var receivers: seq<string>
    var processors: seq<string>
    var exporters: seq<string>

    constructor (receivers: seq<string>, processors: seq<string>, exporters: seq<string>)
      ensures Spec() == PipelineSpec(receivers, processors, exporters)
    {
      this.receivers, this.processors, this.exporters := receivers, processors, exporters;
    }

    function Spec(): PipelineSpec
      reads this
    {
      PipelineSpec(receivers, processors, exporters)
    }
  }

  function NonEmpty(items: seq<string>): seq<string> {
    if items == [] then []
    else
      var n := |items| - 1;
      NonEmpty(items[..n]) + if items[n] != "" then [items[n]] else []
  }

  method FilterEmptyPipelines(items: seq<string>) returns (result: seq<string>)
    ensures result == NonEmpty(items)
    ensures "" !in result
  {
    result := [];
    for i := 0 to |items|
      invariant result == NonEmpty(items[..i])
      invariant "" !in result
    {
      if items[i] != "" {
        result := result + [items[i]];
      }
      assert items[..i + 1][..i] == items[..i];
    }
    assert items[..|items|] == items;
  }

  function Generated(receivers: seq<string>, processors: seq<string>, exporters: seq<string>): PipelineSpec {
    PipelineSpec(NonEmpty(receivers), NonEmpty(processors), NonEmpty(exporters))
  }

  method GeneratePipeline(receivers: seq<string>, processors: seq<string>, exporters: seq<string>)
    returns (p: Pipeline)
    ensures fresh(p) && p.Spec() == Generated(receivers, processors, exporters)
  {
    var r := FilterEmptyPipelines(receivers);
    var q := FilterEmptyPipelines(processors);
    var e := FilterEmptyPipelines(exporters);
    p := new Pipeline(r, q, e);
  }

  // ---------------------------------------------------------------------------
  // The root pipeline of a tenant

  // GenerateRootPipeline tests the list for nil, the receiver generators test its length.
  predicate RootReadsLogs(tenant: Tenant) {
    tenant.logSourceNamespaces.Items? || tenant.selectFromAllNamespaces
  }

  function SourceReceivers(tenant: Tenant, events: bool): seq<string> {
    if !RootReadsLogs(tenant) then []
    else [ComponentName(FileLog(tenant.name))]
         + if events then [ComponentName(K8sEvents(tenant.name))] else []
  }

  function RootReceivers(tenants: seq<Tenant>, name: string, events: bool): seq<string> {
    if tenants == [] then []
    else
      var n := |tenants| - 1;
      RootReceivers(tenants[..n], name, events)
      + if tenants[n].name == name then SourceReceivers(tenants[n], events) else []
  }

  function RootExporter(tenants: seq<Tenant>, name: string): string {
    if tenants == [] then ""
    else
      var n := |tenants| - 1;
      if tenants[n].name == name && tenants[n].subscriptions.Items?
      then ComponentName(RouteSubscriptions(name))
      else RootExporter(tenants[..n], name)
  }

  function RootProcessors(name: string): seq<string> {
    [ComponentName(K8sAttributes), ComponentName(TenantAttributes(name)), ComponentName(FilterExclude)]
  }

  function RootPipeline(input: ConfigInput, name: string): PipelineSpec {
    Generated(
      RootReceivers(input.tenants, name, input.eventsToLogs),
      RootProcessors(name),
      [RootExporter(input.tenants, name)] + if input.dryRun then [] else [ComponentName(CountTenant)])
  }

  method GenerateRootPipeline(input: ConfigInput, name: string) returns (p: Pipeline)
    ensures fresh(p) && p.Spec() == RootPipeline(input, name)
  {
    hide ComponentName;
    var receiverNames: seq<string> := [];
    var exporterName := "";
    var tenants := input.tenants;
    for i := 0 to |tenants|
      invariant receiverNames == RootReceivers(tenants[..i], name, input.eventsToLogs)
      invariant exporterName == RootExporter(tenants[..i], name)
    {
      var tenant := tenants[i];
      assert tenants[..i + 1][..i] == tenants[..i];
      if tenant.name == name {
        if tenant.logSourceNamespaces.Items? || tenant.selectFromAllNamespaces {
          receiverNames := receiverNames + [ComponentName(FileLog(name))];
          if input.eventsToLogs {
            receiverNames := receiverNames + [ComponentName(K8sEvents(name))];
          }
        }
        if tenant.subscriptions.Items? {
          exporterName := ComponentName(RouteSubscriptions(name));
        }
      }
    }
    assert tenants[..|tenants|] == tenants;
    if input.dryRun {
      assert [exporterName] + [] == [exporterName];
      p := GeneratePipeline(receiverNames, RootProcessors(name), [exporterName]);
    } else {
      assert [exporterName] + [ComponentName(CountTenant)] == [exporterName, ComponentName(CountTenant)];
      p := GeneratePipeline(receiverNames, RootProcessors(name), [exporterName, ComponentName(CountTenant)]);
    }
  }

  lemma {:induction false} RootOfAbsentTenant(tenants: seq<Tenant>, name: string, events: bool)
    requires forall t | t in tenants :: t.name != name
    ensures RootReceivers(tenants, name, events) == [] && RootExporter(tenants, name) == ""
  {
    if tenants != [] {
      var n := |tenants| - 1;
      assert tenants[n] in tenants;
      RootOfAbsentTenant(tenants[..n], name, events);
    }
  }

  // With unique tenant names a root pipeline is decided by its own tenant.
  lemma {:induction false} RootOfTenant(tenants: seq<Tenant>, tenant: Tenant, events: bool)
    requires UniqueTenants(tenants) && tenant in tenants
    ensures RootReceivers(tenants, tenant.name, events)
         == (if tenant.logSourceNamespaces.Nil? && !tenant.selectFromAllNamespaces then []
             else [ComponentName(FileLog(tenant.name))]
                  + if events then [ComponentName(K8sEvents(tenant.name))] else [])
    ensures RootExporter(tenants, tenant.name)
         == if tenant.subscriptions.Items? then ComponentName(RouteSubscriptions(tenant.name)) else ""
  {
    var n := |tenants| - 1;
    if tenants[n] == tenant {
      forall t | t in tenants[..n]
        ensures t.name != tenant.name
      {
        var i :| 0 <= i < n && tenants[i] == t;
      }
      RootOfAbsentTenant(tenants[..n], tenant.name, events);
    } else {
      assert tenant in tenants[..n];
      var i :| 0 <= i < n && tenants[i] == tenant;
      RootOfTenant(tenants[..n], tenant, events);
    }
  }

  // ---------------------------------------------------------------------------
  // Bridges wired into a root pipeline

  function AddConnector(p: PipelineSpec, connector: string, needsReceiver: bool, needsExporter: bool): PipelineSpec {
    if connector in p.receivers || connector in p.exporters then p
    else PipelineSpec(
           p.receivers + if needsReceiver then [connector] else [],
           p.processors,
           p.exporters + if needsExporter then [connector] else [])
  }

  method AddConnectorToPipeline(p: Pipeline, connector: string, needsReceiver: bool, needsExporter: bool)
    modifies p
    ensures p.Spec() == AddConnector(old(p.Spec()), connector, needsReceiver, needsExporter)
  {
    if !(connector in p.receivers || connector in p.exporters) {
      if needsReceiver {
        p.receivers := p.receivers + [connector];
      }
      if needsExporter {
        p.exporters := p.exporters + [connector];
      }
    }
  }

  function WireBridges(p: PipelineSpec, tenant: string, bridges: seq<Bridge>): PipelineSpec {
    if bridges == [] then p
    else
      var n := |bridges| - 1;
      var b := bridges[n];
      AddConnector(WireBridges(p, tenant, bridges[..n]), ComponentName(RouteBridge(b.name)),
                   b.target == tenant, b.source == tenant)
  }

  method GenerateRoutingConnectorForBridgesTenantPipeline(tenant: string, p: Pipeline, bridges: seq<Bridge>)
    modifies p
    ensures p.Spec() == WireBridges(old(p.Spec()), tenant, bridges)
  {
    hide ComponentName;
    for i := 0 to |bridges|
      invariant p.Spec() == WireBridges(old(p.Spec()), tenant, bridges[..i])
    {
      var b := bridges[i];
      assert bridges[..i + 1][..i] == bridges[..i];
      AddConnectorToPipeline(p, ComponentName(RouteBridge(b.name)), b.target == tenant, b.source == tenant);
    }
    assert bridges[..|bridges|] == bridges;
  }

  lemma BridgeConnectorInjective(a: string, b: string)
    requires ComponentName(RouteBridge(a)) == ComponentName(RouteBridge(b))
    ensures a == b
  {
    SamePrefix("routing/bridge_", a, b);
  }

  // No bridge connector is in the pipeline yet.
  predicate Unbridged(p: PipelineSpec, bridges: seq<Bridge>) {
    forall b | b in bridges ::
      var c := ComponentName(RouteBridge(b.name));
      c !in p.receivers && c !in p.exporters
  }

  // A connector arrives on the receiving side exactly for bridges into the tenant, and on the
  // exporting side exactly for bridges out of it, however often a bridge is listed.
  lemma {:induction false} WiredConnectors(p: PipelineSpec, tenant: string, bridges: seq<Bridge>, c: string)
    requires BridgesAgree(bridges) && Unbridged(p, bridges)
    ensures var w := WireBridges(p, tenant, bridges);
            && (c in w.receivers <==>
                (c in p.receivers
                 || exists b :: b in bridges && b.target == tenant && c == ComponentName(RouteBridge(b.name))))
            && (c in w.exporters <==>
                (c in p.exporters
                 || exists b :: b in bridges && b.source == tenant && c == ComponentName(RouteBridge(b.name))))
  {
    hide ComponentName;
    if bridges != [] {
      var n := |bridges| - 1;
      var last := bridges[n];
      var connector := ComponentName(RouteBridge(last.name));
      assert bridges == bridges[..n] + [last];
      WiredConnectors(p, tenant, bridges[..n], c);
      WiredConnectors(p, tenant, bridges[..n], connector);
      forall b | b in bridges && ComponentName(RouteBridge(b.name)) == connector
        ensures b == last
      {
        BridgeConnectorInjective(b.name, last.name);
      }
      assert last in bridges;
    }
  }

  function Distinct(bridges: seq<Bridge>): seq<Bridge> {
    if bridges == [] then []
    else
      var n := |bridges| - 1;
      var rest := Distinct(bridges[..n]);
      if bridges[n] in bridges[..n] then rest else rest + [bridges[n]]
  }

  lemma {:induction false} DistinctKeepsBridges(bridges: seq<Bridge>)
    ensures forall b :: b in Distinct(bridges) <==> b in bridges
    ensures forall i, j | 0 <= i < j < |Distinct(bridges)| :: Distinct(bridges)[i] != Distinct(bridges)[j]
  {
    if bridges != [] {
      var n := |bridges| - 1;
      DistinctKeepsBridges(bridges[..n]);
      assert bridges == bridges[..n] + [bridges[n]];
    }
  }

  // Both endpoint tenants list a bridge, and a self-bridge is listed twice: the repeats change nothing.
  lemma {:induction false} DuplicateBridgesAreHarmless(p: PipelineSpec, tenant: string, bridges: seq<Bridge>)
    requires BridgesAgree(bridges) && Unbridged(p, bridges)
    ensures WireBridges(p, tenant, bridges) == WireBridges(p, tenant, Distinct(bridges))
  {
    hide ComponentName;
    if bridges != [] {
      var n := |bridges| - 1;
      var last := bridges[n];
      assert bridges == bridges[..n] + [last];
      DuplicateBridgesAreHarmless(p, tenant, bridges[..n]);
      if last in bridges[..n] {
        WiredConnectors(p, tenant, bridges[..n], ComponentName(RouteBridge(last.name)));
      } else {
        var d := Distinct(bridges[..n]);
        assert (d + [last])[..|d|] == d;
      }
    }
  }

  predicate AtMostOnce(c: string, s: seq<string>) {
    forall i, j | 0 <= i < j < |s| :: !(s[i] == c && s[j] == c)
  }

  // What was in the pipeline stays in front, and a connector appears at most once a side.
  lemma {:induction false} WiringExtends(p: PipelineSpec, tenant: string, bridges: seq<Bridge>, c: string)
    requires AtMostOnce(c, p.receivers) && AtMostOnce(c, p.exporters)
    ensures var w := WireBridges(p, tenant, bridges);
            && p.receivers <= w.receivers && p.exporters <= w.exporters && p.processors == w.processors
            && AtMostOnce(c, w.receivers) && AtMostOnce(c, w.exporters)
  {
    hide ComponentName;
    if bridges != [] {
      WiringExtends(p, tenant, bridges[..|bridges| - 1], c);
    }
  }

  // ---------------------------------------------------------------------------
  // The transform processor of a tenant, appended to its root pipeline

  function AddTransform(p: PipelineSpec, tenant: string, tenants: seq<Tenant>): PipelineSpec {
    if tenants == [] then p
    else
      var n := |tenants| - 1;
      var q := AddTransform(p, tenant, tenants[..n]);
      if tenants[n].name == tenant && tenants[n].transform.name != ""
      then q.(processors := q.processors + [ComponentName(TransformProcessor(tenants[n].transform.name))])
      else q
  }

  method GenerateTransformProcessorForTenantPipeline(tenant: string, p: Pipeline, tenants: seq<Tenant>)
    modifies p
    ensures p.Spec() == AddTransform(old(p.Spec()), tenant, tenants)
  {
    for i := 0 to |tenants|
      invariant p.Spec() == AddTransform(old(p.Spec()), tenant, tenants[..i])
    {
      assert tenants[..i + 1][..i] == tenants[..i];
      if tenants[i].name == tenant && tenants[i].transform.name != "" {
        p.processors := p.processors + [ComponentName(TransformProcessor(tenants[i].transform.name))];
      }
    }
    assert tenants[..|tenants|] == tenants;
  }

  lemma {:induction false} TransformAddsProcessors(p: PipelineSpec, tenant: string, tenants: seq<Tenant>, c: string)
    ensures var q := AddTransform(p, tenant, tenants);
            && q.receivers == p.receivers && q.exporters == p.exporters && p.processors <= q.processors
            && (c in q.processors <==>
                (c in p.processors
                 || exists t :: t in tenants && t.name == tenant && t.transform.name != ""
                                && c == ComponentName(TransformProcessor(t.transform.name))))
  {
    if tenants != [] {
      var n := |tenants| - 1;
      assert tenants == tenants[..n] + [tenants[n]];
      TransformAddsProcessors(p, tenant, tenants[..n], c);
    }
  }
}
