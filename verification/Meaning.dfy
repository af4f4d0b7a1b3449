/** What a compiled configuration does with logs, against what the custom resources ask for. */
module Meaning {
  import opened Names
  import opened Api
  import opened Pipelines
  import opened NamedPipelines

  // ---------------------------------------------------------------------------
  // Source: logs of a tenant follow bridges to some tenant, then one of its subscriptions to an output

  ghost predicate Bridged(input: ConfigInput, from: string, to: string) {
    exists b :: b in input.bridges && b.source == from && b.target == to
  }

  ghost predicate BridgePath(input: ConfigInput, ts: seq<string>) {
    ts != [] && forall i | 0 <= i < |ts| - 1 :: Bridged(input, ts[i], ts[i + 1])
  }

  ghost predicate Subscribes(input: ConfigInput, tenant: string, s: NamespacedName, output: NamespacedName) {
    s in input.SubscriptionsOf(tenant) && output in input.OutputsOf(s)
  }

  ghost predicate DeliversAlong(input: ConfigInput, ts: seq<string>, s: NamespacedName,
                                tenant: string, output: NamespacedName)
  {
    BridgePath(input, ts) && ts[0] == tenant && Subscribes(input, ts[|ts| - 1], s, output)
  }

  ghost predicate Delivers(input: ConfigInput, tenant: string, output: NamespacedName) {
    exists ts: seq<string>, s: NamespacedName :: DeliversAlong(input, ts, s, tenant, output)
  }

  // ---------------------------------------------------------------------------
  // Target: pipelines joined by connectors

  ghost predicate Edge(specs: map<string, PipelineSpec>, connectors: set<string>, p: string, q: string) {
    && p in specs && q in specs
    && exists c :: c in connectors && c in specs[p].exporters && c in specs[q].receivers
  }

  ghost predicate Path(specs: map<string, PipelineSpec>, connectors: set<string>, ps: seq<string>) {
    && ps != []
    && (forall i | 0 <= i < |ps| :: ps[i] in specs)
    && forall i | 0 <= i < |ps| - 1 :: Edge(specs, connectors, ps[i], ps[i + 1])
  }

  ghost predicate Flows(specs: map<string, PipelineSpec>, connectors: set<string>, receiver: string, exporter: string) {
    exists ps: seq<string> ::
      && Path(specs, connectors, ps)
      && receiver in specs[ps[0]].receivers
      && exporter in specs[ps[|ps| - 1]].exporters
  }

  // ---------------------------------------------------------------------------
  // The components on either side of each pipeline, as identities instead of names

  ghost predicate TenantNamed(input: ConfigInput, t: string, tenant: Tenant) {
    tenant in input.tenants && tenant.name == t
  }

  ghost predicate Receives(input: ConfigInput, id: PipelineId, c: ComponentId) {
    match id
    case Root(t) =>
      || ((c == FileLog(t) || (c == K8sEvents(t) && input.eventsToLogs))
          && exists tenant :: TenantNamed(input, t, tenant)
               && (tenant.logSourceNamespaces.Items? || tenant.selectFromAllNamespaces))
      || (c.RouteBridge? && exists b :: b in input.bridges && b.target == t && b.name == c.bridge)
    case SubscriptionPipeline(t, s) => c == RouteSubscriptions(t)
    case OutputPipeline(s, o) => c == RouteOutputs(s)
    case TenantMetrics => c == CountTenant
    case OutputMetrics => c == CountOutput
    case OutputBytes => c == BytesExporter
  }

  ghost predicate Exports(input: ConfigInput, id: PipelineId, c: ComponentId) {
    match id
    case Root(t) =>
      || (c == RouteSubscriptions(t) && exists tenant :: TenantNamed(input, t, tenant) && tenant.subscriptions.Items?)
      || (c == CountTenant && !input.dryRun)
      || (c.RouteBridge? && exists b :: b in input.bridges && b.source == t && b.name == c.bridge)
    case SubscriptionPipeline(t, s) => c == RouteOutputs(s)
    case OutputPipeline(s, o) =>
      var output := FindOutput(input.outputs, o);
      || (c == Debug && (input.dryRun || input.debug))
      || (!input.dryRun && output.Some? && c.OutputExporter? && output.value.kinds == {c.kind} && c.output == o)
      || (!input.dryRun && c == CountOutput)
      || (!input.dryRun && input.axoflow && c == BytesExporter)
    case TenantMetrics => c == Prometheus
    case OutputMetrics => c == Prometheus
    case OutputBytes => c == Prometheus
  }

  lemma NameNotEmpty(c: ComponentId)
    ensures ComponentName(c) != ""
  {
    FirstLetter(c);
  }

  lemma {:induction false} NonEmptyMembers(items: seq<string>, x: string)
    ensures x in NonEmpty(items) <==> x in items && x != ""
  {
    if items != [] {
      var n := |items| - 1;
      assert items == items[..n] + [items[n]];
      NonEmptyMembers(items[..n], x);
    }
  }

  lemma TenantOf(input: ConfigInput, t: string) returns (tenant: Tenant)
    requires TenantsIndexed(input) && t in input.tenantSubscriptions
    ensures TenantNamed(input, t, tenant)
    ensures forall u :: TenantNamed(input, t, u) ==> u == tenant
  {
    tenant :| tenant in input.tenants && tenant.name == t;
    forall u | TenantNamed(input, t, u)
      ensures u == tenant
    {
      var i :| 0 <= i < |input.tenants| && input.tenants[i] == tenant;
      var j :| 0 <= j < |input.tenants| && input.tenants[j] == u;
    }
  }

  // Before wiring, a root pipeline receives from its log sources only.
  lemma UnwiredReceivers(input: ConfigInput, tenant: Tenant, x: string)
    requires TenantsIndexed(input) && tenant in input.tenants
    ensures x in RootPipeline(input, tenant.name).receivers <==>
            RootReadsLogs(tenant) && (x == ComponentName(FileLog(tenant.name))
                                      || (input.eventsToLogs && x == ComponentName(K8sEvents(tenant.name))))
  {
    hide ComponentName;
    hide RootReceivers;
    hide RootExporter;
    hide NonEmpty;
    RootOfTenant(input.tenants, tenant, input.eventsToLogs);
    NonEmptyMembers(SourceReceivers(tenant, input.eventsToLogs), x);
    NameNotEmpty(FileLog(tenant.name));
    NameNotEmpty(K8sEvents(tenant.name));
  }

  lemma UnwiredExporters(input: ConfigInput, tenant: Tenant, x: string)
    requires TenantsIndexed(input) && tenant in input.tenants
    ensures x in RootPipeline(input, tenant.name).exporters <==>
            (tenant.subscriptions.Items? && x == ComponentName(RouteSubscriptions(tenant.name)))
            || (!input.dryRun && x == ComponentName(CountTenant))
  {
    hide ComponentName;
    hide RootReceivers;
    hide RootExporter;
    hide NonEmpty;
    RootOfTenant(input.tenants, tenant, input.eventsToLogs);
    var items := [RootExporter(input.tenants, tenant.name)] + if input.dryRun then [] else [ComponentName(CountTenant)];
    NonEmptyMembers(items, x);
    NameNotEmpty(RouteSubscriptions(tenant.name));
    NameNotEmpty(CountTenant);
  }

  lemma RootStartsUnbridged(input: ConfigInput, tenant: Tenant)
    requires WellFormed(input) && tenant in input.tenants
    ensures Unbridged(RootPipeline(input, tenant.name), input.bridges)
  {
    forall b | b in input.bridges
      ensures ComponentName(RouteBridge(b.name)) !in RootPipeline(input, tenant.name).receivers
      ensures ComponentName(RouteBridge(b.name)) !in RootPipeline(input, tenant.name).exporters
    {
      var x := ComponentName(RouteBridge(b.name));
      UnwiredReceivers(input, tenant, x);
      UnwiredExporters(input, tenant, x);
      var id := RouteBridge(b.name);
      if x == ComponentName(FileLog(tenant.name)) { ComponentNameInjective(id, FileLog(tenant.name)); }
      if x == ComponentName(K8sEvents(tenant.name)) { ComponentNameInjective(id, K8sEvents(tenant.name)); }
      if x == ComponentName(CountTenant) { ComponentNameInjective(id, CountTenant); }
      if x == ComponentName(RouteSubscriptions(tenant.name)) {
        ComponentNameInjective(id, RouteSubscriptions(tenant.name));
      }
    }
  }

  lemma RootConnections(input: ConfigInput, tenant: Tenant, x: string)
    requires WellFormed(input) && tenant in input.tenants
    ensures var p := PipelineAt(input, Root(tenant.name));
            && (x in p.receivers <==>
                (x in RootPipeline(input, tenant.name).receivers
                 || exists b :: b in input.bridges && b.target == tenant.name
                     && x == ComponentName(RouteBridge(b.name))))
            && (x in p.exporters <==>
                (x in RootPipeline(input, tenant.name).exporters
                 || exists b :: b in input.bridges && b.source == tenant.name
                     && x == ComponentName(RouteBridge(b.name))))
  {
    var base := RootPipeline(input, tenant.name);
    RootStartsUnbridged(input, tenant);
    WiredConnectors(base, tenant.name, input.bridges, x);
    TransformAddsProcessors(WireBridges(base, tenant.name, input.bridges), tenant.name, input.tenants, x);
  }

  ghost predicate ReceivesNamed(input: ConfigInput, id: PipelineId, x: string) {
    exists c :: Receives(input, id, c) && ComponentName(c) == x
  }

  ghost predicate ExportsNamed(input: ConfigInput, id: PipelineId, x: string) {
    exists c :: Exports(input, id, c) && ComponentName(c) == x
  }

  lemma RootReceiversAre(input: ConfigInput, t: string, x: string)
    requires WellFormed(input) && t in input.tenantSubscriptions
    ensures x in PipelineAt(input, Root(t)).receivers <==> ReceivesNamed(input, Root(t), x)
  {
    hide ComponentName;
    hide PipelineAt;
    hide RootPipeline;
    hide WellFormed;
    assert TenantsIndexed(input) by { WellFormedIsNamed(input); }
    var tenant := TenantOf(input, t);
    RootConnections(input, tenant, x);
    UnwiredReceivers(input, tenant, x);
    if x in PipelineAt(input, Root(t)).receivers {
      if b :| b in input.bridges && b.target == t && x == ComponentName(RouteBridge(b.name)) {
        assert Receives(input, Root(t), RouteBridge(b.name));
      } else if x == ComponentName(FileLog(t)) {
        assert Receives(input, Root(t), FileLog(t));
      } else {
        assert Receives(input, Root(t), K8sEvents(t));
      }
    }
  }

  lemma RootExportersAre(input: ConfigInput, t: string, x: string)
    requires WellFormed(input) && t in input.tenantSubscriptions
    ensures x in PipelineAt(input, Root(t)).exporters <==> ExportsNamed(input, Root(t), x)
  {
    hide ComponentName;
    hide PipelineAt;
    hide RootPipeline;
    hide WellFormed;
    assert TenantsIndexed(input) by { WellFormedIsNamed(input); }
    var tenant := TenantOf(input, t);
    RootConnections(input, tenant, x);
    UnwiredExporters(input, tenant, x);
    if x in PipelineAt(input, Root(t)).exporters {
      if b :| b in input.bridges && b.source == t && x == ComponentName(RouteBridge(b.name)) {
        assert Exports(input, Root(t), RouteBridge(b.name));
      } else if x == ComponentName(CountTenant) && !input.dryRun {
        assert Exports(input, Root(t), CountTenant);
      } else {
        assert Exports(input, Root(t), RouteSubscriptions(t));
      }
    }
  }

  lemma OutputFound(input: ConfigInput, o: NamespacedName) returns (output: Output)
    requires OneKindEach(input) && FindOutput(input.outputs, o).Some?
    ensures output == FindOutput(input.outputs, o).value && output.id == o && HasOneKind(output)
  {
    output := FindOutput(input.outputs, o).value;
    var e :| e in input.outputs && e.output == output;
  }

  lemma OutputExporterNames(input: ConfigInput, output: Output, x: string)
    requires HasOneKind(output)
    ensures x in NonEmpty(OutputExporters(input, output)) <==>
            || (x == ComponentName(Debug) && (input.dryRun || input.debug))
            || (x == ComponentName(OutputExporter(KindOf(output), output.id)) && !input.dryRun)
            || (x == ComponentName(CountOutput) && !input.dryRun)
            || (x == ComponentName(BytesExporter) && !input.dryRun && input.axoflow)
  {
    hide ComponentName;
    ExporterNameOfKind(output);
    NameNotEmpty(OutputExporter(KindOf(output), output.id));
    NameNotEmpty(Debug);
    NameNotEmpty(CountOutput);
    NameNotEmpty(BytesExporter);
    NonEmptyMembers(OutputExporters(input, output), x);
  }

  lemma OutputExportsNamed(input: ConfigInput, s: NamespacedName, output: Output, x: string)
    requires HasOneKind(output) && FindOutput(input.outputs, output.id) == Some(output)
    ensures ExportsNamed(input, OutputPipeline(s, output.id), x) <==>
            || (x == ComponentName(Debug) && (input.dryRun || input.debug))
            || (x == ComponentName(OutputExporter(KindOf(output), output.id)) && !input.dryRun)
            || (x == ComponentName(CountOutput) && !input.dryRun)
            || (x == ComponentName(BytesExporter) && !input.dryRun && input.axoflow)
  {
    hide ComponentName;
    hide FindOutput;
    var id, k := OutputPipeline(s, output.id), KindOf(output);
    assert Exports(input, id, Debug) <==> input.dryRun || input.debug;
    assert Exports(input, id, OutputExporter(k, output.id)) <==> !input.dryRun;
    assert Exports(input, id, CountOutput) <==> !input.dryRun;
    assert Exports(input, id, BytesExporter) <==> !input.dryRun && input.axoflow;
    forall c | Exports(input, id, c)
      ensures c == Debug || c == OutputExporter(k, output.id) || c == CountOutput || c == BytesExporter
    {
      assert k in {k};
    }
  }

  lemma OutputExportersAre(input: ConfigInput, s: NamespacedName, o: NamespacedName, x: string)
    requires OneKindEach(input) && FindOutput(input.outputs, o).Some?
    ensures x in PipelineAt(input, OutputPipeline(s, o)).exporters <==>
            ExportsNamed(input, OutputPipeline(s, o), x)
  {
    hide ComponentName;
    hide ExportsNamed;
    var output := OutputFound(input, o);
    OutputExporterNames(input, output, x);
    OutputExportsNamed(input, s, output, x);
    assert PipelineAt(input, OutputPipeline(s, o)).exporters == NonEmpty(OutputExporters(input, output));
  }

  lemma SingletonMembers(c: ComponentId, x: string)
    ensures x in NonEmpty([ComponentName(c)]) <==> x == ComponentName(c)
  {
    NameNotEmpty(c);
    NonEmptyMembers([ComponentName(c)], x);
  }

  lemma LeafReceiversAre(input: ConfigInput, id: PipelineId, x: string)
    requires !id.Root? && (id.OutputPipeline? ==> FindOutput(input.outputs, id.output).Some?)
    ensures x in PipelineAt(input, id).receivers <==> ReceivesNamed(input, id, x)
  {
    hide ComponentName;
    var c := match id
      case SubscriptionPipeline(t, _) => RouteSubscriptions(t)
      case OutputPipeline(s, _) => RouteOutputs(s)
      case TenantMetrics => CountTenant
      case OutputMetrics => CountOutput
      case OutputBytes => BytesExporter;
    SingletonMembers(c, x);
    assert Receives(input, id, c);
  }

  lemma ReceiversAre(input: ConfigInput, id: PipelineId, x: string)
    requires WellFormed(input) && InPipelines(input, id)
    ensures x in PipelineAt(input, id).receivers <==> ReceivesNamed(input, id, x)
  {
    if id.Root? {
      RootReceiversAre(input, id.tenant, x);
    } else {
      LeafReceiversAre(input, id, x);
    }
  }

  lemma LeafExportersAre(input: ConfigInput, id: PipelineId, x: string)
    requires !id.Root? && !id.OutputPipeline?
    ensures x in PipelineAt(input, id).exporters <==> ExportsNamed(input, id, x)
  {
    hide ComponentName;
    var c := if id.SubscriptionPipeline? then RouteOutputs(id.subscription) else Prometheus;
    SingletonMembers(c, x);
    assert Exports(input, id, c);
  }

  lemma ExportersAre(input: ConfigInput, id: PipelineId, x: string)
    requires WellFormed(input) && InPipelines(input, id)
    ensures x in PipelineAt(input, id).exporters <==> ExportsNamed(input, id, x)
  {
    if id.Root? {
      RootExportersAre(input, id.tenant, x);
    } else if id.OutputPipeline? {
      OutputExportersAre(input, id.subscription, id.output, x);
    } else {
      LeafExportersAre(input, id, x);
    }
  }

  lemma ReceivedIsNamed(input: ConfigInput, id: PipelineId, c: ComponentId)
    requires WellNamed(input) && InPipelines(input, id) && Receives(input, id, c)
    ensures IsComponentId(c)
  {
    PresentIdsAreNamed(input, id);
  }

  lemma ExportedIsNamed(input: ConfigInput, id: PipelineId, c: ComponentId)
    requires WellNamed(input) && InPipelines(input, id) && Exports(input, id, c)
    ensures IsComponentId(c)
  {
    PresentIdsAreNamed(input, id);
  }

  // ---------------------------------------------------------------------------
  // Connectors and edges

  ghost predicate IsConnector(input: ConfigInput, c: ComponentId) {
    match c
    case CountTenant => !input.dryRun
    case CountOutput => !input.dryRun
    case BytesExporter => !input.dryRun && input.axoflow
    case RouteSubscriptions(t) => (exists tenant :: TenantNamed(input, t, tenant)) && input.SubscriptionsOf(t) != []
    case RouteOutputs(s) => s in input.subscriptions && input.OutputsOf(s) != []
    case RouteBridge(name) => exists b :: b in input.bridges && b.name == name
    case _ => false
  }

  ghost predicate ConnectorsOf(input: ConfigInput, connectors: set<string>) {
    && (forall c | IsConnector(input, c) :: ComponentName(c) in connectors)
    && forall x | x in connectors :: exists c :: IsConnector(input, c) && ComponentName(c) == x
  }

  // The pipelines of a collector configuration agree with these on everything but the memory limiter.
  ghost predicate SameConnections(specs: map<string, PipelineSpec>, named: map<string, PipelineSpec>) {
    && specs.Keys == named.Keys
    && forall k | k in specs ::
         specs[k].receivers == named[k].receivers && specs[k].exporters == named[k].exporters
  }

  ghost predicate Compiled(input: ConfigInput, specs: map<string, PipelineSpec>, connectors: set<string>) {
    && ConnectorsOf(input, connectors)
    && exists named :: NamedPipelinesOf(input, named) && SameConnections(specs, named)
  }

  // Every key of a compiled map is the name of a wanted pipeline with that pipeline's connections.
  lemma Decode(input: ConfigInput, specs: map<string, PipelineSpec>, connectors: set<string>, k: string)
    returns (id: PipelineId)
    requires Compiled(input, specs, connectors) && k in specs
    ensures InPipelines(input, id) && PipelineName(id) == k
    ensures specs[k].receivers == PipelineAt(input, id).receivers
    ensures specs[k].exporters == PipelineAt(input, id).exporters
  {
    hide PipelineAt;
    hide PipelineName;
    hide InPipelines;
    var named :| NamedPipelinesOf(input, named) && SameConnections(specs, named);
    id :| InPipelines(input, id) && PipelineName(id) == k;
  }

  lemma Encode(input: ConfigInput, specs: map<string, PipelineSpec>, connectors: set<string>, id: PipelineId)
    requires Compiled(input, specs, connectors) && InPipelines(input, id)
    ensures var k := PipelineName(id);
            && k in specs
            && specs[k].receivers == PipelineAt(input, id).receivers
            && specs[k].exporters == PipelineAt(input, id).exporters
  {
    hide PipelineAt;
    hide PipelineName;
    hide InPipelines;
    var named :| NamedPipelinesOf(input, named) && SameConnections(specs, named);
  }

  lemma DecodeUnique(input: ConfigInput, i: PipelineId, j: PipelineId)
    requires WellNamed(input) && InPipelines(input, i) && InPipelines(input, j)
    requires PipelineName(i) == PipelineName(j)
    ensures i == j
  {
    PresentIdsAreNamed(input, i);
    PresentIdsAreNamed(input, j);
    PipelineNameInjective(i, j);
  }

  ghost predicate Joined(input: ConfigInput, p: PipelineId, q: PipelineId, c: ComponentId) {
    IsConnector(input, c) && Exports(input, p, c) && Receives(input, q, c)
  }

  lemma WellFormedIsNamed(input: ConfigInput)
    requires WellFormed(input)
    ensures WellNamed(input) && TenantsIndexed(input) && OneKindEach(input)
  {
  }

  lemma SubscribedOutput(input: ConfigInput, t: string, s: NamespacedName, o: NamespacedName)
    requires SubscriptionsIndexed(input) && OutputsIndexed(input) && Subscribes(input, t, s, o)
    ensures s in input.subscriptions && FindOutput(input.outputs, o).Some?
  {
    hide FindOutput;
  }

  // The ways in which a connector joins two pipelines.
  ghost predicate Neighbours(input: ConfigInput, p: PipelineId, q: PipelineId, c: ComponentId) {
    match c
    case RouteBridge(n) =>
      p.Root? && q.Root?
      && exists b :: b in input.bridges && b.name == n && b.source == p.tenant && b.target == q.tenant
    case RouteSubscriptions(t) => p == Root(t) && q.SubscriptionPipeline? && q.tenant == t
    case RouteOutputs(s) => p.SubscriptionPipeline? && p.subscription == s && q.OutputPipeline? && q.subscription == s
    case CountTenant => p.Root? && q == TenantMetrics
    case CountOutput => p.OutputPipeline? && q == OutputMetrics
    case BytesExporter => p.OutputPipeline? && q == OutputBytes
    case _ => false
  }

  lemma JoinsNeighbours(input: ConfigInput, p: PipelineId, q: PipelineId, c: ComponentId)
    requires BridgesAgree(input.bridges) && Exports(input, p, c) && Receives(input, q, c)
    ensures Neighbours(input, p, q, c)
  {
    hide FindOutput;
    if c.RouteBridge? {
      var a :| a in input.bridges && a.source == p.tenant && a.name == c.bridge;
      var b :| b in input.bridges && b.target == q.tenant && b.name == c.bridge;
      assert a == b;
    }
  }

  lemma WellFormedBridges(input: ConfigInput)
    requires WellFormed(input)
    ensures BridgesAgree(input.bridges)
  {
  }

  // A connector that one pipeline exports to and another receives from is one of these.
  lemma JoinedBy(input: ConfigInput, specs: map<string, PipelineSpec>, connectors: set<string>,
                 p: PipelineId, q: PipelineId, x: string)
    returns (c: ComponentId)
    requires WellFormed(input) && Compiled(input, specs, connectors)
    requires InPipelines(input, p) && InPipelines(input, q)
    requires PipelineName(p) in specs && x in specs[PipelineName(p)].exporters
    requires PipelineName(q) in specs && x in specs[PipelineName(q)].receivers
    ensures ComponentName(c) == x && IsComponentId(c)
    ensures Exports(input, p, c) && Receives(input, q, c) && Neighbours(input, p, q, c)
  {
    hide Neighbours;
    hide BridgesAgree;
    hide ComponentName;
    hide PipelineName;
    hide PipelineAt;
    hide Exports;
    hide Receives;
    hide WellFormed;
    Encode(input, specs, connectors, p);
    Encode(input, specs, connectors, q);
    ExportersAre(input, p, x);
    ReceiversAre(input, q, x);
    c :| Exports(input, p, c) && ComponentName(c) == x;
    var d :| Receives(input, q, d) && ComponentName(d) == x;
    assert WellNamed(input) by { WellFormedIsNamed(input); }
    ExportedIsNamed(input, p, c);
    ReceivedIsNamed(input, q, d);
    ComponentNameInjective(c, d);
    WellFormedBridges(input);
    JoinsNeighbours(input, p, q, c);
  }

  // Every edge is one of these, and each of these is an edge.
  lemma EdgeIsJoin(input: ConfigInput, specs: map<string, PipelineSpec>, connectors: set<string>,
                   p: PipelineId, q: PipelineId)
    returns (c: ComponentId)
    requires WellFormed(input) && Compiled(input, specs, connectors)
    requires InPipelines(input, p) && InPipelines(input, q)
    requires Edge(specs, connectors, PipelineName(p), PipelineName(q))
    ensures Exports(input, p, c) && Receives(input, q, c) && Neighbours(input, p, q, c)
  {
    hide Neighbours;
    hide ComponentName;
    hide PipelineName;
    hide Exports;
    hide Receives;
    hide WellFormed;
    hide Compiled;
    var x :| x in connectors && x in specs[PipelineName(p)].exporters && x in specs[PipelineName(q)].receivers;
    c := JoinedBy(input, specs, connectors, p, q, x);
  }

  lemma JoinIsEdge(input: ConfigInput, specs: map<string, PipelineSpec>, connectors: set<string>,
                   p: PipelineId, q: PipelineId, c: ComponentId)
    requires WellFormed(input) && Compiled(input, specs, connectors)
    requires InPipelines(input, p) && InPipelines(input, q) && Joined(input, p, q, c)
    ensures Edge(specs, connectors, PipelineName(p), PipelineName(q))
  {
    hide ComponentName;
    hide PipelineName;
    hide PipelineAt;
    hide Exports;
    hide Receives;
    hide WellFormed;
    Encode(input, specs, connectors, p);
    Encode(input, specs, connectors, q);
    ExportersAre(input, p, ComponentName(c));
    ReceiversAre(input, q, ComponentName(c));
  }

  // ---------------------------------------------------------------------------
  // From the source to the target

  lemma BridgeEdge(input: ConfigInput, specs: map<string, PipelineSpec>, connectors: set<string>, a: string, b: string)
    requires WellFormed(input) && Compiled(input, specs, connectors) && Bridged(input, a, b)
    ensures a in input.tenantSubscriptions && b in input.tenantSubscriptions
    ensures Edge(specs, connectors, PipelineName(Root(a)), PipelineName(Root(b)))
  {
    hide ComponentName;
    hide PipelineName;
    hide Compiled;
    var bridge :| bridge in input.bridges && bridge.source == a && bridge.target == b;
    assert BridgesIndexed(input);
    assert Joined(input, Root(a), Root(b), RouteBridge(bridge.name));
    JoinIsEdge(input, specs, connectors, Root(a), Root(b), RouteBridge(bridge.name));
  }

  lemma SubscriptionEdge(input: ConfigInput, specs: map<string, PipelineSpec>, connectors: set<string>,
                         t: string, s: NamespacedName)
    requires WellFormed(input) && Compiled(input, specs, connectors) && s in input.SubscriptionsOf(t)
    ensures Edge(specs, connectors, PipelineName(Root(t)), PipelineName(SubscriptionPipeline(t, s)))
  {
    hide ComponentName;
    hide PipelineName;
    hide Compiled;
    var tenant := TenantOf(input, t);
    var c := RouteSubscriptions(t);
    assert tenant.subscriptions.Items?;
    assert Joined(input, Root(t), SubscriptionPipeline(t, s), c);
    JoinIsEdge(input, specs, connectors, Root(t), SubscriptionPipeline(t, s), c);
  }

  lemma OutputEdge(input: ConfigInput, specs: map<string, PipelineSpec>, connectors: set<string>,
                   t: string, s: NamespacedName, o: NamespacedName)
    requires WellFormed(input) && Compiled(input, specs, connectors) && Subscribes(input, t, s, o)
    ensures InPipelines(input, OutputPipeline(s, o))
    ensures Edge(specs, connectors, PipelineName(SubscriptionPipeline(t, s)), PipelineName(OutputPipeline(s, o)))
  {
    hide ComponentName;
    hide PipelineName;
    hide Compiled;
    hide FindOutput;
    hide SubscriptionsIndexed;
    hide OutputsIndexed;
    hide TenantsIndexed;
    hide BridgesIndexed;
    hide WellNamed;
    SubscribedOutput(input, t, s, o);
    assert Joined(input, SubscriptionPipeline(t, s), OutputPipeline(s, o), RouteOutputs(s));
    JoinIsEdge(input, specs, connectors, SubscriptionPipeline(t, s), OutputPipeline(s, o), RouteOutputs(s));
  }

  lemma {:induction false} RootsPath(input: ConfigInput, specs: map<string, PipelineSpec>, connectors: set<string>,
                                     ts: seq<string>)
    returns (ps: seq<string>)
    requires WellFormed(input) && Compiled(input, specs, connectors)
    requires BridgePath(input, ts) && ts[0] in input.tenantSubscriptions
    ensures Path(specs, connectors, ps)
    ensures ps[0] == PipelineName(Root(ts[0])) && ps[|ps| - 1] == PipelineName(Root(ts[|ts| - 1]))
  {
    hide WellFormed;
    hide Compiled;
    hide PipelineName;
    if |ts| == 1 {
      Encode(input, specs, connectors, Root(ts[0]));
      ps := [PipelineName(Root(ts[0]))];
    } else {
      assert Bridged(input, ts[0], ts[1]);
      BridgeEdge(input, specs, connectors, ts[0], ts[1]);
      assert BridgePath(input, ts[1..]) by {
        var tail := ts[1..];
        forall i | 0 <= i < |tail| - 1
          ensures Bridged(input, tail[i], tail[i + 1])
        {
          assert tail[i] == ts[i + 1] && tail[i + 1] == ts[i + 2];
        }
      }
      var rest := RootsPath(input, specs, connectors, ts[1..]);
      ps := [PipelineName(Root(ts[0]))] + rest;
    }
  }

  lemma FirstOfDelivery(input: ConfigInput, ts: seq<string>, s: NamespacedName, tenant: Tenant, o: NamespacedName)
    requires WellFormed(input) && tenant in input.tenants && DeliversAlong(input, ts, s, tenant.name, o)
    ensures ts[0] in input.tenantSubscriptions && FindOutput(input.outputs, o).Some?
  {
    hide FindOutput;
    assert TenantsIndexed(input);
    SubscribedOutput(input, ts[|ts| - 1], s, o);
  }

  lemma DeliveryFlows(input: ConfigInput, specs: map<string, PipelineSpec>, connectors: set<string>,
                      ts: seq<string>, s: NamespacedName, tenant: Tenant, o: NamespacedName)
    requires WellFormed(input) && !input.dryRun && Compiled(input, specs, connectors)
    requires tenant in input.tenants && (tenant.logSourceNamespaces.Items? || tenant.selectFromAllNamespaces)
    requires DeliversAlong(input, ts, s, tenant.name, o)
    ensures FindOutput(input.outputs, o).Some?
    ensures Flows(specs, connectors, ComponentName(FileLog(tenant.name)),
                  ExporterNameFor(FindOutput(input.outputs, o).value))
  {
    hide ComponentName;
    hide PipelineName;
    hide Compiled;
    hide PipelineAt;
    hide Edge;
    hide WellFormed;
    hide InPipelines;
    hide ExporterNameFor;
    hide FindOutput;
    var last := ts[|ts| - 1];
    FirstOfDelivery(input, ts, s, tenant, o);
    var ps := RootsPath(input, specs, connectors, ts);
    SubscriptionEdge(input, specs, connectors, last, s);
    OutputEdge(input, specs, connectors, last, s, o);
    RootReceivesLogs(input, specs, connectors, tenant);
    OutputPipelineExports(input, specs, connectors, s, o);
    AppendTwo(specs, connectors, ps, PipelineName(SubscriptionPipeline(last, s)), PipelineName(OutputPipeline(s, o)));
    var all := ps + [PipelineName(SubscriptionPipeline(last, s)), PipelineName(OutputPipeline(s, o))];
    assert all[0] == ps[0];
  }

  lemma AppendTwo(specs: map<string, PipelineSpec>, connectors: set<string>, ps: seq<string>, p: string, q: string)
    requires Path(specs, connectors, ps)
    requires Edge(specs, connectors, ps[|ps| - 1], p) && Edge(specs, connectors, p, q)
    ensures Path(specs, connectors, ps + [p, q])
  {
    var all := ps + [p, q];
    forall i | 0 <= i < |all| - 1
      ensures Edge(specs, connectors, all[i], all[i + 1])
    {
      if i < |ps| - 1 {
        assert all[i] == ps[i] && all[i + 1] == ps[i + 1];
      }
    }
  }

  lemma RootReceivesLogs(input: ConfigInput, specs: map<string, PipelineSpec>, connectors: set<string>, tenant: Tenant)
    requires WellFormed(input) && Compiled(input, specs, connectors)
    requires tenant in input.tenants && RootReadsLogs(tenant)
    ensures PipelineName(Root(tenant.name)) in specs
    ensures ComponentName(FileLog(tenant.name)) in specs[PipelineName(Root(tenant.name))].receivers
  {
    hide ComponentName;
    hide PipelineName;
    hide PipelineAt;
    hide Compiled;
    assert TenantsIndexed(input);
    assert TenantNamed(input, tenant.name, tenant);
    assert Receives(input, Root(tenant.name), FileLog(tenant.name));
    Encode(input, specs, connectors, Root(tenant.name));
    ReceiversAre(input, Root(tenant.name), ComponentName(FileLog(tenant.name)));
  }

  lemma OutputPipelineExports(input: ConfigInput, specs: map<string, PipelineSpec>, connectors: set<string>,
                              s: NamespacedName, o: NamespacedName)
    requires WellFormed(input) && !input.dryRun && Compiled(input, specs, connectors)
    requires InPipelines(input, OutputPipeline(s, o))
    ensures PipelineName(OutputPipeline(s, o)) in specs
    ensures ExporterNameFor(FindOutput(input.outputs, o).value)
         in specs[PipelineName(OutputPipeline(s, o))].exporters
  {
    hide ComponentName;
    hide PipelineName;
    hide PipelineAt;
    hide Compiled;
    assert OneKindEach(input);
    var output := OutputFound(input, o);
    ExporterNameOfKind(output);
    assert Exports(input, OutputPipeline(s, o), OutputExporter(KindOf(output), o));
    Encode(input, specs, connectors, OutputPipeline(s, o));
    ExportersAre(input, OutputPipeline(s, o), ExporterNameFor(output));
  }

  // ---------------------------------------------------------------------------
  // From the target back to the source

  lemma WhoReceivesLogs(input: ConfigInput, specs: map<string, PipelineSpec>, connectors: set<string>,
                        k: string, tenant: Tenant)
    requires WellFormed(input) && Compiled(input, specs, connectors) && tenant in input.tenants
    requires k in specs && ComponentName(FileLog(tenant.name)) in specs[k].receivers
    ensures k == PipelineName(Root(tenant.name)) && RootReadsLogs(tenant)
  {
    hide ComponentName;
    hide PipelineName;
    hide PipelineAt;
    hide Compiled;
    var id := Decode(input, specs, connectors, k);
    var x := ComponentName(FileLog(tenant.name));
    ReceiversAre(input, id, x);
    var c :| Receives(input, id, c) && ComponentName(c) == x;
    assert WellNamed(input) && TenantsIndexed(input);
    ReceivedIsNamed(input, id, c);
    ComponentNameInjective(c, FileLog(tenant.name));
    var u := TenantOf(input, tenant.name);
    assert TenantNamed(input, tenant.name, tenant);
  }

  lemma WhoExportsTo(input: ConfigInput, specs: map<string, PipelineSpec>, connectors: set<string>,
                     k: string, output: Output)
    returns (s: NamespacedName)
    requires WellFormed(input) && Compiled(input, specs, connectors)
    requires FindOutput(input.outputs, output.id) == Some(output)
    requires k in specs && ExporterNameFor(output) in specs[k].exporters
    ensures k == PipelineName(OutputPipeline(s, output.id)) && InPipelines(input, OutputPipeline(s, output.id))
  {
    hide ComponentName;
    hide PipelineName;
    hide PipelineAt;
    hide Compiled;
    hide ExporterNameFor;
    hide WellFormed;
    hide WellNamed;
    hide TenantsIndexed;
    hide FindOutput;
    WellFormedIsNamed(input);
    var found := OutputFound(input, output.id);
    ExporterNameOfKind(output);
    var e := OutputExporter(KindOf(output), output.id);
    var id := Decode(input, specs, connectors, k);
    var x := ComponentName(e);
    ExportersAre(input, id, x);
    var c :| Exports(input, id, c) && ComponentName(c) == x;
    ExportedIsNamed(input, id, c);
    FoundIsNamed(input, output);
    ComponentNameInjective(c, e);
    s := id.subscription;
  }

  lemma FoundIsNamed(input: ConfigInput, output: Output)
    requires WellNamed(input) && FindOutput(input.outputs, output.id) == Some(output)
    ensures IsNamespacedName(output.id)
  {
    var e :| e in input.outputs && e.output == output;
  }

  // Logs enter an output pipeline only from a subscription pipeline of that subscription.
  lemma IntoOutputPipeline(input: ConfigInput, specs: map<string, PipelineSpec>, connectors: set<string>,
                           k: string, s: NamespacedName, o: NamespacedName)
    returns (t: string)
    requires WellFormed(input) && Compiled(input, specs, connectors)
    requires InPipelines(input, OutputPipeline(s, o)) && Edge(specs, connectors, k, PipelineName(OutputPipeline(s, o)))
    ensures k == PipelineName(SubscriptionPipeline(t, s)) && s in input.SubscriptionsOf(t)
  {
    hide PipelineName;
    hide Compiled;
    hide WellFormed;
    var p := Decode(input, specs, connectors, k);
    var c := EdgeIsJoin(input, specs, connectors, p, OutputPipeline(s, o));
    t := p.tenant;
  }

  lemma IntoSubscriptionPipeline(input: ConfigInput, specs: map<string, PipelineSpec>, connectors: set<string>,
                                 k: string, t: string, s: NamespacedName)
    requires WellFormed(input) && Compiled(input, specs, connectors)
    requires s in input.SubscriptionsOf(t) && Edge(specs, connectors, k, PipelineName(SubscriptionPipeline(t, s)))
    ensures k == PipelineName(Root(t))
  {
    hide PipelineName;
    hide Compiled;
    hide WellFormed;
    var p := Decode(input, specs, connectors, k);
    var c := EdgeIsJoin(input, specs, connectors, p, SubscriptionPipeline(t, s));
  }

  lemma IntoRoot(input: ConfigInput, specs: map<string, PipelineSpec>, connectors: set<string>, k: string, t: string)
    returns (from: string)
    requires WellFormed(input) && Compiled(input, specs, connectors)
    requires t in input.tenantSubscriptions && Edge(specs, connectors, k, PipelineName(Root(t)))
    ensures from in input.tenantSubscriptions && k == PipelineName(Root(from)) && Bridged(input, from, t)
  {
    hide PipelineName;
    hide Compiled;
    hide WellNamed;
    hide TenantsIndexed;
    hide SubscriptionsIndexed;
    hide OutputsIndexed;
    var p := Decode(input, specs, connectors, k);
    var c := EdgeIsJoin(input, specs, connectors, p, Root(t));
    from := p.tenant;
    var a :| a in input.bridges && a.target == t && a.name == c.bridge;
    var b :| b in input.bridges && b.source == from && b.name == c.bridge;
    assert BridgesAgree(input.bridges);
    assert a == b;
  }

  // A path that starts in one root and ends in another runs along bridges.
  lemma {:induction false} PathBetweenRoots(input: ConfigInput, specs: map<string, PipelineSpec>,
                                            connectors: set<string>, ps: seq<string>, from: string, to: string)
    returns (ts: seq<string>)
    requires WellFormed(input) && Compiled(input, specs, connectors) && Path(specs, connectors, ps)
    requires from in input.tenantSubscriptions && to in input.tenantSubscriptions
    requires ps[0] == PipelineName(Root(from)) && ps[|ps| - 1] == PipelineName(Root(to))
    ensures BridgePath(input, ts) && ts[0] == from && ts[|ts| - 1] == to
  {
    hide PipelineName;
    hide Compiled;
    hide WellFormed;
    hide Bridged;
    hide Edge;
    var n := |ps| - 1;
    if n == 0 {
      WellFormedIsNamed(input);
      DecodeUnique(input, Root(from), Root(to));
      ts := [from];
    } else {
      assert Edge(specs, connectors, ps[n - 1], ps[n]);
      var prev := IntoRoot(input, specs, connectors, ps[n - 1], to);
      assert Path(specs, connectors, ps[..n]);
      var rest := PathBetweenRoots(input, specs, connectors, ps[..n], from, prev);
      ts := rest + [to];
      assert BridgePath(input, ts) by {
        forall i | 0 <= i < |ts| - 1
          ensures Bridged(input, ts[i], ts[i + 1])
        {
          if i < |rest| - 1 {
            assert ts[i] == rest[i] && ts[i + 1] == rest[i + 1];
          }
        }
      }
    }
  }

  lemma FlowDelivers(input: ConfigInput, specs: map<string, PipelineSpec>, connectors: set<string>,
                     ps: seq<string>, tenant: Tenant, output: Output)
    requires WellFormed(input) && Compiled(input, specs, connectors) && Path(specs, connectors, ps)
    requires tenant in input.tenants && FindOutput(input.outputs, output.id) == Some(output)
    requires ComponentName(FileLog(tenant.name)) in specs[ps[0]].receivers
    requires ExporterNameFor(output) in specs[ps[|ps| - 1]].exporters
    ensures RootReadsLogs(tenant) && Delivers(input, tenant.name, output.id)
  {
    hide PipelineName;
    hide ComponentName;
    hide Compiled;
    hide WellFormed;
    hide ExporterNameFor;
    hide FindOutput;
    hide Edge;
    hide BridgePath;
    WellFormedIsNamed(input);
    WhoReceivesLogs(input, specs, connectors, ps[0], tenant);
    var s := WhoExportsTo(input, specs, connectors, ps[|ps| - 1], output);
    var o := output.id;
    var n := |ps|;
    if n == 1 { DecodeUnique(input, Root(tenant.name), OutputPipeline(s, o)); }
    assert n > 1;
    assert Edge(specs, connectors, ps[n - 2], ps[n - 1]);
    var t := IntoOutputPipeline(input, specs, connectors, ps[n - 2], s, o);
    if n == 2 { DecodeUnique(input, Root(tenant.name), SubscriptionPipeline(t, s)); }
    assert n > 2;
    assert Edge(specs, connectors, ps[n - 3], ps[n - 2]);
    IntoSubscriptionPipeline(input, specs, connectors, ps[n - 3], t, s);
    assert Path(specs, connectors, ps[..n - 2]);
    var ts := PathBetweenRoots(input, specs, connectors, ps[..n - 2], tenant.name, t);
    assert DeliversAlong(input, ts, s, tenant.name, o);
  }

  // The compiled graph carries the logs of a tenant to the exporter of an output exactly when the
  // resources ask for it: along bridges, possibly none, to a tenant with a subscription listing the output.
  lemma CompilationPreservesMeaning(input: ConfigInput, specs: map<string, PipelineSpec>, connectors: set<string>,
                                    tenant: Tenant, output: Output)
    requires WellFormed(input) && !input.dryRun && Compiled(input, specs, connectors)
    requires tenant in input.tenants && FindOutput(input.outputs, output.id) == Some(output)
    ensures Flows(specs, connectors, ComponentName(FileLog(tenant.name)), ExporterNameFor(output)) <==>
            (tenant.logSourceNamespaces.Items? || tenant.selectFromAllNamespaces)
            && Delivers(input, tenant.name, output.id)
  {
    hide ComponentName;
    hide WellFormed;
    hide Compiled;
    hide ExporterNameFor;
    hide FindOutput;
    hide DeliversAlong;
    var receiver, exporter := ComponentName(FileLog(tenant.name)), ExporterNameFor(output);
    if Flows(specs, connectors, receiver, exporter) {
      var ps :| Path(specs, connectors, ps) && receiver in specs[ps[0]].receivers
                && exporter in specs[ps[|ps| - 1]].exporters;
      FlowDelivers(input, specs, connectors, ps, tenant, output);
    }
    if RootReadsLogs(tenant) && Delivers(input, tenant.name, output.id) {
      var ts, s :| DeliversAlong(input, ts, s, tenant.name, output.id);
      DeliveryFlows(input, specs, connectors, ts, s, tenant, output.id);
    }
  }
}
