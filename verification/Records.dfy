/** One log record on its way through an assembled configuration, for any truth assignment to the conditions of the
    routing tables: where it goes, and what it has been stamped with when it gets there. */
module Records {
  import opened Names
  import opened Api
  import opened NamedPipelines
  import opened Routing
  import opened Generators
  import opened Assembly
  import opened Meaning
  import opened Closure

  // ---------------------------------------------------------------------------
  // What each routing connector of the configuration does with a record

  // A routing connector sends a record to the pipelines of every row whose condition holds, or to its default
  // pipelines if there is none. Other connectors send on whatever they get.
  ghost predicate Sends(v: ConnectorConfig, holds: iset<string>, q: string) {
    v.RoutingConfig? ==>
      || Routed(v.rc.table, holds, q)
      || (q in v.rc.defaultPipelines && forall row | row in v.rc.table :: row.condition !in holds)
  }

  lemma ConnectorAt(input: ConfigInput, orders: Orders, config: CollectorConfig, c: ComponentId)
    requires OrdersOf(input, orders) && Assembled(input, orders, config) && IsConnector(input, c)
    ensures ComponentName(c) in config.connectors && ConnectorOk(input)(c, config.connectors[ComponentName(c)])
  {
    hide ComponentName, ConnectorOk, IsConnector, ConnectorIds, Assembled, OrdersOf;
    OrdersEnumerate(input, orders);
    ConnectorsMatch(input, orders.connectorSubscriptions, c);
    DefinedConnector(input, orders, config, c);
  }

  lemma OrdersEnumerate(input: ConfigInput, orders: Orders)
    requires OrdersOf(input, orders)
    ensures Enumerates(orders.connectorSubscriptions, input.subscriptions.Keys)
  {
  }

  // The connector of a bridge passes a record on to the tenant at the other end, exactly if the bridge's condition
  // holds.
  lemma BridgeRoutes(input: ConfigInput, orders: Orders, config: CollectorConfig, b: Bridge, holds: iset<string>,
                     q: string)
    requires BridgesAgree(input.bridges) && OrdersOf(input, orders) && Assembled(input, orders, config)
    requires b in input.bridges
    ensures ComponentName(RouteBridge(b.name)) in config.connectors
    ensures var v := config.connectors[ComponentName(RouteBridge(b.name))];
            v.RoutingConfig? && (Sends(v, holds, q) <==> b.condition in holds && q == PipelineName(Root(b.target)))
  {
    hide ComponentName, PipelineName, OrdersOf, Assembled;
    ConnectorAt(input, orders, config, RouteBridge(b.name));
    var v := config.connectors[ComponentName(RouteBridge(b.name))];
    var a :| a in input.bridges && a.name == b.name && v == RoutingConfig(BridgeConnector(a));
    assert v.rc.table[0] in v.rc.table;
  }

  // The connector of a subscription passes every record on to the pipelines of all its outputs.
  lemma OutputsRoute(input: ConfigInput, orders: Orders, config: CollectorConfig, s: NamespacedName,
                     holds: iset<string>, q: string)
    requires OrdersOf(input, orders) && Assembled(input, orders, config)
    requires s in input.subscriptions && input.OutputsOf(s) != [] && "true" in holds
    ensures ComponentName(RouteOutputs(s)) in config.connectors
    ensures var v := config.connectors[ComponentName(RouteOutputs(s))];
            v.RoutingConfig?
            && (Sends(v, holds, q) <==> exists o :: o in input.OutputsOf(s) && q == PipelineName(OutputPipeline(s, o)))
  {
    hide ComponentName, PipelineName, OrdersOf, Assembled, SortNames, OutputPipelineNames;
    ConnectorAt(input, orders, config, RouteOutputs(s));
    var v := config.connectors[ComponentName(RouteOutputs(s))];
    assert v == RoutingConfig(OutputsConnector(s, input.OutputsOf(s)));
    OutputTable(s, input.OutputsOf(s), q);
    assert v.rc.table[0] in v.rc.table;
  }

  ghost predicate Holds(input: ConfigInput, holds: iset<string>, s: NamespacedName) {
    s in input.subscriptions && input.subscriptions[s].condition in holds
  }

  // The connector of a tenant passes a record on to the subscriptions whose condition holds, or to the default
  // pipelines if there is none.
  lemma SubscriptionsRoute(input: ConfigInput, orders: Orders, config: CollectorConfig, tenant: Tenant,
                           holds: iset<string>, q: string)
    requires UniqueTenants(input.tenants) && SubscriptionsIndexed(input)
    requires OrdersOf(input, orders) && Assembled(input, orders, config)
    requires tenant in input.tenants && input.SubscriptionsOf(tenant.name) != []
             && tenant.name in input.tenantSubscriptions
    ensures ComponentName(RouteSubscriptions(tenant.name)) in config.connectors
    ensures var v := config.connectors[ComponentName(RouteSubscriptions(tenant.name))];
            v.RoutingConfig?
            && (Sends(v, holds, q) <==>
                || (exists s :: s in input.SubscriptionsOf(tenant.name) && Holds(input, holds, s)
                                && q == PipelineName(SubscriptionPipeline(tenant.name, s)))
                || (q in tenant.defaultPipelines
                    && forall s | s in input.SubscriptionsOf(tenant.name) :: !Holds(input, holds, s)))
  {
    hide ComponentName, PipelineName, OrdersOf, Assembled, SubscriptionTable;
    assert TenantNamed(input, tenant.name, tenant);
    ConnectorAt(input, orders, config, RouteSubscriptions(tenant.name));
    var v := config.connectors[ComponentName(RouteSubscriptions(tenant.name))];
    ConnectorDefaults(input, tenant, v);
    var t, names := tenant.name, input.SubscriptionsOf(tenant.name);
    GroupingPreservesRouting(v.rc.table, t, names, input.subscriptions, holds, q);
    if s :| s in names && Holds(input, holds, s) {
      var p := PipelineName(SubscriptionPipeline(t, s));
      GroupingPreservesRouting(v.rc.table, t, names, input.subscriptions, holds, p);
      assert Wanted(t, names, input.subscriptions, holds, p);
    } else if row :| row in v.rc.table && row.condition in holds {
      var j :| 0 <= j < |v.rc.table| && v.rc.table[j] == row;
      var p := RowIsWanted(v.rc.table, t, names, input.subscriptions, j, holds);
      assert false;
    }
  }

  // ---------------------------------------------------------------------------
  // From pipeline to pipeline

  ghost predicate Passes(config: CollectorConfig, holds: iset<string>, p: string, q: string) {
    && p in config.pipelines && q in config.pipelines
    && exists k :: k in config.connectors && k in config.pipelines[p].exporters && k in config.pipelines[q].receivers
                   && Sends(config.connectors[k], holds, q)
  }

  ghost predicate Walk(config: CollectorConfig, holds: iset<string>, ps: seq<string>) {
    && ps != []
    && (forall i | 0 <= i < |ps| :: ps[i] in config.pipelines)
    && forall i | 0 <= i < |ps| - 1 :: Passes(config, holds, ps[i], ps[i + 1])
  }

  // A record for which exactly these conditions hold gets from the receiver to the exporter.
  ghost predicate Arrives(config: CollectorConfig, holds: iset<string>, receiver: string, exporter: string) {
    exists ps: seq<string> ::
      && Walk(config, holds, ps)
      && receiver in config.pipelines[ps[0]].receivers && exporter in config.pipelines[ps[|ps| - 1]].exporters
  }

  // What the resources ask for: a subscription gets the records for which its condition holds, and those for which
  // no subscription's condition holds if it is a default pipeline of its tenant.
  ghost predicate Admits(input: ConfigInput, holds: iset<string>, t: string, s: NamespacedName) {
    && s in input.SubscriptionsOf(t)
    && (|| Holds(input, holds, s)
        || ((exists u :: TenantNamed(input, t, u) && PipelineName(SubscriptionPipeline(t, s)) in u.defaultPipelines)
            && forall r | r in input.SubscriptionsOf(t) :: !Holds(input, holds, r)))
  }

  ghost predicate Crosses(input: ConfigInput, holds: iset<string>, from: string, to: string) {
    exists b :: b in input.bridges && b.source == from && b.target == to && b.condition in holds
  }

  // The ways a record goes from one pipeline to the next.
  ghost predicate Step(input: ConfigInput, holds: iset<string>, p: PipelineId, q: PipelineId) {
    match q
    case Root(b) => p.Root? && Crosses(input, holds, p.tenant, b)
    case SubscriptionPipeline(t, s) => p == Root(t) && Admits(input, holds, t, s)
    case OutputPipeline(s, _) => p.SubscriptionPipeline? && p.subscription == s
    case TenantMetrics => p.Root?
    case _ => p.OutputPipeline?
  }

  lemma ListedSubscription(input: ConfigInput, t: string, s: NamespacedName)
    requires WellFormed(input) && s in input.SubscriptionsOf(t)
    ensures t in input.tenantSubscriptions && s in input.subscriptions
    ensures exists u :: TenantNamed(input, t, u) && u.subscriptions.Items?
  {
    assert TenantsIndexed(input) && SubscriptionsIndexed(input);
    var u := TenantOf(input, t);
  }

  lemma ListingTenant(input: ConfigInput, t: string, s: NamespacedName) returns (u: Tenant)
    requires WellFormed(input) && s in input.SubscriptionsOf(t)
    ensures TenantNamed(input, t, u) && forall v :: TenantNamed(input, t, v) ==> v == u
  {
    assert TenantsIndexed(input);
    u := TenantOf(input, t);
  }

  lemma SamePipeline(input: ConfigInput, t: string, s: NamespacedName, r: NamespacedName)
    requires WellNamed(input) && s in input.SubscriptionsOf(t) && r in input.SubscriptionsOf(t)
    requires PipelineName(SubscriptionPipeline(t, s)) == PipelineName(SubscriptionPipeline(t, r))
    ensures s == r
  {
    hide PipelineName;
    PresentIdsAreNamed(input, SubscriptionPipeline(t, s));
    PresentIdsAreNamed(input, SubscriptionPipeline(t, r));
    PipelineNameInjective(SubscriptionPipeline(t, s), SubscriptionPipeline(t, r));
  }

  lemma IndexedInput(input: ConfigInput)
    requires WellFormed(input)
    ensures WellNamed(input) && UniqueTenants(input.tenants) && SubscriptionsIndexed(input) && OneKindEach(input)
    ensures BridgesAgree(input.bridges) && TenantsIndexed(input)
  {
  }

  // A tenant's connector sends a record to a subscription's pipeline exactly if the subscription admits it.
  lemma SentIfAdmitted(input: ConfigInput, orders: Orders, config: CollectorConfig, t: string, s: NamespacedName,
                       holds: iset<string>)
    requires WellFormed(input) && OrdersOf(input, orders) && Assembled(input, orders, config)
    requires s in input.SubscriptionsOf(t)
    ensures ComponentName(RouteSubscriptions(t)) in config.connectors
    ensures var v := config.connectors[ComponentName(RouteSubscriptions(t))];
            Sends(v, holds, PipelineName(SubscriptionPipeline(t, s))) <==> Admits(input, holds, t, s)
  {
    hide ComponentName, PipelineName, OrdersOf, Assembled, Sends, WellFormed, WellNamed, TenantsIndexed,
         SubscriptionsIndexed, Holds;
    IndexedInput(input);
    var tenant := ListingTenant(input, t, s);
    ListedSubscription(input, t, s);
    var q := PipelineName(SubscriptionPipeline(t, s));
    SubscriptionsRoute(input, orders, config, tenant, holds, q);
    if r :| r in input.SubscriptionsOf(t) && Holds(input, holds, r) && q == PipelineName(SubscriptionPipeline(t, r)) {
      SamePipeline(input, t, s, r);
    }
    assert (exists u :: TenantNamed(input, t, u) && q in u.defaultPipelines) <==> q in tenant.defaultPipelines;
  }

  lemma PassIsStep(input: ConfigInput, orders: Orders, config: CollectorConfig, holds: iset<string>, p: PipelineId,
                   q: PipelineId)
    requires WellFormed(input) && OrdersOf(input, orders) && Assembled(input, orders, config)
    requires InPipelines(input, p) && InPipelines(input, q)
    requires Passes(config, holds, PipelineName(p), PipelineName(q))
    ensures Step(input, holds, p, q)
  {
    hide ComponentName, PipelineName, OrdersOf, Assembled, Compiled, WellFormed, Sends, Exports, Receives, Admits,
         FindOutput;
    AssembledIsCompiled(input, orders, config);
    var k :| k in config.connectors && k in config.pipelines[PipelineName(p)].exporters
             && k in config.pipelines[PipelineName(q)].receivers && Sends(config.connectors[k], holds, PipelineName(q));
    var c := JoinedBy(input, config.pipelines, config.connectors.Keys, p, q, k);
    if c.RouteBridge? {
      var b :| b in input.bridges && b.name == c.bridge && b.source == p.tenant && b.target == q.tenant;
      IndexedInput(input);
      BridgeRoutes(input, orders, config, b, holds, PipelineName(q));
    } else if c.RouteSubscriptions? {
      SentIfAdmitted(input, orders, config, q.tenant, q.subscription, holds);
    }
  }

  lemma JoinIsPass(input: ConfigInput, orders: Orders, config: CollectorConfig, holds: iset<string>, p: PipelineId,
                   q: PipelineId, c: ComponentId)
    requires WellFormed(input) && OrdersOf(input, orders) && Assembled(input, orders, config)
    requires InPipelines(input, p) && InPipelines(input, q) && Exports(input, p, c) && Receives(input, q, c)
    requires ComponentName(c) in config.connectors
             && Sends(config.connectors[ComponentName(c)], holds, PipelineName(q))
    ensures Passes(config, holds, PipelineName(p), PipelineName(q))
  {
    hide ComponentName, PipelineName, PipelineAt, OrdersOf, Assembled, Compiled, WellFormed, Sends, Exports, Receives;
    AssembledIsCompiled(input, orders, config);
    Encode(input, config.pipelines, config.connectors.Keys, p);
    Encode(input, config.pipelines, config.connectors.Keys, q);
    ExportersAre(input, p, ComponentName(c));
    ReceiversAre(input, q, ComponentName(c));
  }

  lemma BridgePasses(input: ConfigInput, orders: Orders, config: CollectorConfig, holds: iset<string>, p: PipelineId,
                     q: PipelineId)
    requires WellFormed(input) && OrdersOf(input, orders) && Assembled(input, orders, config)
    requires InPipelines(input, p) && InPipelines(input, q) && p.Root? && q.Root?
    requires Crosses(input, holds, p.tenant, q.tenant)
    ensures Passes(config, holds, PipelineName(p), PipelineName(q))
  {
    hide ComponentName, PipelineName, OrdersOf, Assembled, Sends, WellFormed, Passes;
    IndexedInput(input);
    var b :| b in input.bridges && b.source == p.tenant && b.target == q.tenant && b.condition in holds;
    BridgeRoutes(input, orders, config, b, holds, PipelineName(q));
    JoinIsPass(input, orders, config, holds, p, q, RouteBridge(b.name));
  }

  lemma SubscriptionPasses(input: ConfigInput, orders: Orders, config: CollectorConfig, holds: iset<string>, t: string,
                           s: NamespacedName)
    requires WellFormed(input) && OrdersOf(input, orders) && Assembled(input, orders, config)
    requires InPipelines(input, Root(t)) && InPipelines(input, SubscriptionPipeline(t, s)) && Admits(input, holds, t, s)
    ensures Passes(config, holds, PipelineName(Root(t)), PipelineName(SubscriptionPipeline(t, s)))
  {
    hide ComponentName, PipelineName, OrdersOf, Assembled, Sends, WellFormed, Admits, Passes;
    ListedSubscription(input, t, s);
    SentIfAdmitted(input, orders, config, t, s, holds);
    JoinIsPass(input, orders, config, holds, Root(t), SubscriptionPipeline(t, s), RouteSubscriptions(t));
  }

  lemma OutputPasses(input: ConfigInput, orders: Orders, config: CollectorConfig, holds: iset<string>, t: string,
                     s: NamespacedName, o: NamespacedName)
    requires WellFormed(input) && OrdersOf(input, orders) && Assembled(input, orders, config) && "true" in holds
    requires InPipelines(input, SubscriptionPipeline(t, s)) && InPipelines(input, OutputPipeline(s, o))
    ensures Passes(config, holds, PipelineName(SubscriptionPipeline(t, s)), PipelineName(OutputPipeline(s, o)))
  {
    hide ComponentName, PipelineName, OrdersOf, Assembled, Sends, WellFormed, FindOutput, Passes;
    ListedSubscription(input, t, s);
    OutputsRoute(input, orders, config, s, holds, PipelineName(OutputPipeline(s, o)));
    JoinIsPass(input, orders, config, holds, SubscriptionPipeline(t, s), OutputPipeline(s, o), RouteOutputs(s));
  }

  lemma StepIsPass(input: ConfigInput, orders: Orders, config: CollectorConfig, holds: iset<string>, p: PipelineId,
                   q: PipelineId)
    requires WellFormed(input) && OrdersOf(input, orders) && Assembled(input, orders, config) && "true" in holds
    requires InPipelines(input, p) && InPipelines(input, q) && Step(input, holds, p, q)
    ensures Passes(config, holds, PipelineName(p), PipelineName(q))
  {
    hide PipelineName, OrdersOf, Assembled, WellFormed, Admits, Crosses, Passes, FindOutput;
    match q
    case Root(to) => BridgePasses(input, orders, config, holds, p, q);
    case SubscriptionPipeline(t, s) => SubscriptionPasses(input, orders, config, holds, t, s);
    case OutputPipeline(s, o) => OutputPasses(input, orders, config, holds, p.tenant, s, o);
    case TenantMetrics => CountsPass(input, orders, config, holds, p, q, CountTenant);
    case OutputMetrics => CountsPass(input, orders, config, holds, p, q, CountOutput);
    case OutputBytes => CountsPass(input, orders, config, holds, p, q, BytesExporter);
  }

  lemma CountsPass(input: ConfigInput, orders: Orders, config: CollectorConfig, holds: iset<string>, p: PipelineId,
                   q: PipelineId, c: ComponentId)
    requires WellFormed(input) && OrdersOf(input, orders) && Assembled(input, orders, config)
    requires InPipelines(input, p) && InPipelines(input, q) && Exports(input, p, c) && Receives(input, q, c)
    requires IsConnector(input, c) && (c.CountTenant? || c.CountOutput? || c.BytesExporter?)
    ensures Passes(config, holds, PipelineName(p), PipelineName(q))
  {
    hide ComponentName, PipelineName, OrdersOf, Assembled, WellFormed, Exports, Receives, IsConnector;
    ConnectorAt(input, orders, config, c);
    JoinIsPass(input, orders, config, holds, p, q, c);
  }

  // A record gets from one pipeline to the next exactly in these ways.
  lemma PassesIffStep(input: ConfigInput, orders: Orders, config: CollectorConfig, holds: iset<string>, p: PipelineId,
                      q: PipelineId)
    requires WellFormed(input) && OrdersOf(input, orders) && Assembled(input, orders, config) && "true" in holds
    requires InPipelines(input, p) && InPipelines(input, q)
    ensures Passes(config, holds, PipelineName(p), PipelineName(q)) <==> Step(input, holds, p, q)
  {
    hide PipelineName, InPipelines, OrdersOf, Assembled, WellFormed, Passes, Step;
    if Passes(config, holds, PipelineName(p), PipelineName(q)) {
      PassIsStep(input, orders, config, holds, p, q);
    }
    if Step(input, holds, p, q) {
      StepIsPass(input, orders, config, holds, p, q);
    }
  }

  // ---------------------------------------------------------------------------
  // From receiver to exporter

  ghost predicate Steps(input: ConfigInput, holds: iset<string>, ids: seq<PipelineId>) {
    && ids != []
    && (forall i | 0 <= i < |ids| :: InPipelines(input, ids[i]))
    && forall i | 0 <= i < |ids| - 1 :: Step(input, holds, ids[i], ids[i + 1])
  }

  function PipelineNames(ids: seq<PipelineId>): seq<string> {
    seq(|ids|, i requires 0 <= i < |ids| => PipelineName(ids[i]))
  }

  lemma StepsAreWalk(input: ConfigInput, orders: Orders, config: CollectorConfig, holds: iset<string>,
                     ids: seq<PipelineId>)
    requires WellFormed(input) && OrdersOf(input, orders) && Assembled(input, orders, config) && "true" in holds
    requires Steps(input, holds, ids)
    ensures Walk(config, holds, PipelineNames(ids))
  {
    hide PipelineName, PipelineAt, InPipelines, OrdersOf, Assembled, Compiled, WellFormed, Passes, Step;
    AssembledIsCompiled(input, orders, config);
    var ps := PipelineNames(ids);
    forall i | 0 <= i < |ps|
      ensures ps[i] in config.pipelines
    {
      Encode(input, config.pipelines, config.connectors.Keys, ids[i]);
    }
    forall i | 0 <= i < |ps| - 1
      ensures Passes(config, holds, ps[i], ps[i + 1])
    {
      StepIsPass(input, orders, config, holds, ids[i], ids[i + 1]);
    }
  }

  lemma {:induction false} WalkIsSteps(input: ConfigInput, orders: Orders, config: CollectorConfig, holds: iset<string>,
                                       ps: seq<string>)
    returns (ids: seq<PipelineId>)
    requires WellFormed(input) && OrdersOf(input, orders) && Assembled(input, orders, config)
    requires Walk(config, holds, ps)
    ensures Steps(input, holds, ids) && ps == PipelineNames(ids)
  {
    hide PipelineName, PipelineAt, InPipelines, OrdersOf, Assembled, Compiled, WellFormed, Passes, Step;
    AssembledIsCompiled(input, orders, config);
    var n := |ps| - 1;
    var last := Decode(input, config.pipelines, config.connectors.Keys, ps[n]);
    if n == 0 {
      ids := [last];
    } else {
      assert Passes(config, holds, ps[n - 1], ps[n]);
      var before := WalkIsSteps(input, orders, config, holds, ps[..n]);
      assert PipelineName(before[n - 1]) == PipelineNames(before)[n - 1] == ps[n - 1];
      PassIsStep(input, orders, config, holds, before[n - 1], last);
      ids := before + [last];
    }
  }

  // Some subscription asks for this output and admits the record at the end of bridges that it crosses.
  ghost predicate AsksAlong(input: ConfigInput, holds: iset<string>, ts: seq<string>, s: NamespacedName,
                            tenant: string, output: NamespacedName)
  {
    && ts != [] && ts[0] == tenant && (forall i | 0 <= i < |ts| - 1 :: Crosses(input, holds, ts[i], ts[i + 1]))
    && Admits(input, holds, ts[|ts| - 1], s) && output in input.OutputsOf(s)
  }

  ghost predicate Asks(input: ConfigInput, holds: iset<string>, tenant: string, output: NamespacedName) {
    exists ts: seq<string>, s: NamespacedName :: AsksAlong(input, holds, ts, s, tenant, output)
  }

  function Roots(ts: seq<string>): seq<PipelineId> {
    seq(|ts|, i requires 0 <= i < |ts| => Root(ts[i]))
  }

  // Only root pipelines come before a root pipeline.
  lemma {:induction false} RootsComeFirst(input: ConfigInput, holds: iset<string>, ids: seq<PipelineId>)
    requires Steps(input, holds, ids) && ids[|ids| - 1].Root?
    ensures forall i | 0 <= i < |ids| :: ids[i].Root?
  {
    hide InPipelines, Crosses, Admits;
    var n := |ids| - 1;
    if n > 0 {
      assert Step(input, holds, ids[n - 1], ids[n]);
      RootsComeFirst(input, holds, ids[..n]);
    }
  }

  lemma StepsAskAlong(input: ConfigInput, holds: iset<string>, ids: seq<PipelineId>, s: NamespacedName,
                      o: NamespacedName)
    returns (ts: seq<string>)
    requires Steps(input, holds, ids) && ids[0].Root? && ids[|ids| - 1] == OutputPipeline(s, o)
    ensures AsksAlong(input, holds, ts, s, ids[0].tenant, o) && |ids| == |ts| + 2
    ensures ids == Roots(ts) + [SubscriptionPipeline(ts[|ts| - 1], s), OutputPipeline(s, o)]
  {
    hide Crosses, Admits, FindOutput;
    var n := |ids|;
    assert Step(input, holds, ids[n - 2], ids[n - 1]);
    assert Step(input, holds, ids[n - 3], ids[n - 2]);
    var roots := ids[..n - 2];
    RootsComeFirst(input, holds, roots);
    ts := seq(n - 2, i requires 0 <= i < n - 2 => roots[i].tenant);
    assert roots == Roots(ts);
    assert ids == roots + [ids[n - 2], ids[n - 1]];
    forall i | 0 <= i < |ts| - 1
      ensures Crosses(input, holds, ts[i], ts[i + 1])
    {
      assert Step(input, holds, ids[i], ids[i + 1]);
    }
  }

  lemma AsksAlongSteps(input: ConfigInput, holds: iset<string>, ts: seq<string>, s: NamespacedName, tenant: string,
                       o: NamespacedName)
    requires WellFormed(input) && tenant in input.tenantSubscriptions && AsksAlong(input, holds, ts, s, tenant, o)
    ensures Steps(input, holds, Roots(ts) + [SubscriptionPipeline(ts[|ts| - 1], s), OutputPipeline(s, o)])
  {
    hide FindOutput, WellNamed, TenantsIndexed, OneKindEach;
    var last := ts[|ts| - 1];
    var ids := Roots(ts) + [SubscriptionPipeline(last, s), OutputPipeline(s, o)];
    forall i | 0 <= i < |ts|
      ensures InPipelines(input, Root(ts[i]))
    {
      if i > 0 {
        assert Crosses(input, holds, ts[i - 1], ts[i]);
      }
    }
    SubscribedOutput(input, last, s, o);
    hide WellFormed, SubscriptionsIndexed, OutputsIndexed, BridgesIndexed, Crosses, Admits;
    forall i | 0 <= i < |ids| - 1
      ensures Step(input, holds, ids[i], ids[i + 1])
    {
      if i < |ts| - 1 {
        assert Crosses(input, holds, ts[i], ts[i + 1]);
      }
    }
  }

  // The ends of a walk from a tenant's log receiver to an output's exporter.
  lemma EndsOfWalk(input: ConfigInput, orders: Orders, config: CollectorConfig, holds: iset<string>,
                   ids: seq<PipelineId>, tenant: Tenant, output: Output)
    returns (s: NamespacedName)
    requires WellFormed(input) && OrdersOf(input, orders) && Assembled(input, orders, config)
    requires Steps(input, holds, ids) && PipelineNames(ids)[0] in config.pipelines
             && PipelineNames(ids)[|ids| - 1] in config.pipelines
    requires tenant in input.tenants && FindOutput(input.outputs, output.id) == Some(output)
    requires ComponentName(FileLog(tenant.name)) in config.pipelines[PipelineNames(ids)[0]].receivers
    requires ExporterNameFor(output) in config.pipelines[PipelineNames(ids)[|ids| - 1]].exporters
    ensures tenant.logSourceNamespaces.Items? || tenant.selectFromAllNamespaces
    ensures ids[0] == Root(tenant.name) && ids[|ids| - 1] == OutputPipeline(s, output.id)
  {
    hide ComponentName, PipelineName, OrdersOf, Assembled, Compiled, WellFormed, FindOutput, ExporterNameFor, Step;
    AssembledIsCompiled(input, orders, config);
    IndexedInput(input);
    var n := |ids| - 1;
    assert PipelineNames(ids)[0] == PipelineName(ids[0]) && PipelineNames(ids)[n] == PipelineName(ids[n]);
    WhoReceivesLogs(input, config.pipelines, config.connectors.Keys, PipelineName(ids[0]), tenant);
    s := WhoExportsTo(input, config.pipelines, config.connectors.Keys, PipelineName(ids[n]), output);
    assert InPipelines(input, Root(tenant.name)) by { assert TenantsIndexed(input); }
    DecodeUnique(input, ids[0], Root(tenant.name));
    DecodeUnique(input, ids[n], OutputPipeline(s, output.id));
  }

  // For any truth assignment to the conditions, a record of a tenant gets from its log receiver to the exporter of an
  // output exactly if the tenant reads logs and the record crosses bridges whose conditions hold, possibly none, to
  // a tenant with a subscription that admits it and lists the output.
  lemma RecordsArriveIffAsked(input: ConfigInput, orders: Orders, config: CollectorConfig, holds: iset<string>,
                              tenant: Tenant, output: Output)
    requires WellFormed(input) && !input.dryRun && OrdersOf(input, orders) && Assembled(input, orders, config)
    requires "true" in holds
    requires tenant in input.tenants && FindOutput(input.outputs, output.id) == Some(output)
    ensures Arrives(config, holds, ComponentName(FileLog(tenant.name)), ExporterNameFor(output)) <==>
            (tenant.logSourceNamespaces.Items? || tenant.selectFromAllNamespaces)
            && Asks(input, holds, tenant.name, output.id)
  {
    hide ComponentName, OrdersOf, Assembled, WellFormed, FindOutput, ExporterNameFor, Passes, Steps, AsksAlong;
    var receiver, exporter := ComponentName(FileLog(tenant.name)), ExporterNameFor(output);
    if Arrives(config, holds, receiver, exporter) {
      var ps :| Walk(config, holds, ps) && receiver in config.pipelines[ps[0]].receivers
                && exporter in config.pipelines[ps[|ps| - 1]].exporters;
      var ids := WalkIsSteps(input, orders, config, holds, ps);
      var s := EndsOfWalk(input, orders, config, holds, ids, tenant, output);
      var ts := StepsAskAlong(input, holds, ids, s, output.id);
    }
    if (tenant.logSourceNamespaces.Items? || tenant.selectFromAllNamespaces)
       && Asks(input, holds, tenant.name, output.id) {
      var ts, s :| AsksAlong(input, holds, ts, s, tenant.name, output.id);
      AskedArrives(input, orders, config, holds, ts, s, tenant, output);
    }
  }

  lemma AskedArrives(input: ConfigInput, orders: Orders, config: CollectorConfig, holds: iset<string>, ts: seq<string>,
                     s: NamespacedName, tenant: Tenant, output: Output)
    requires WellFormed(input) && !input.dryRun && OrdersOf(input, orders) && Assembled(input, orders, config)
    requires "true" in holds
    requires tenant in input.tenants && FindOutput(input.outputs, output.id) == Some(output)
    requires tenant.logSourceNamespaces.Items? || tenant.selectFromAllNamespaces
    requires AsksAlong(input, holds, ts, s, tenant.name, output.id)
    ensures Arrives(config, holds, ComponentName(FileLog(tenant.name)), ExporterNameFor(output))
  {
    hide ComponentName, PipelineName, OrdersOf, Assembled, Compiled, WellFormed, FindOutput, ExporterNameFor, Walk,
         Step, Crosses, Admits;
    IndexedInput(input);
    AssembledIsCompiled(input, orders, config);
    assert tenant.name in input.tenantSubscriptions by { assert TenantsIndexed(input); }
    AsksAlongSteps(input, holds, ts, s, tenant.name, output.id);
    var ids := Roots(ts) + [SubscriptionPipeline(ts[|ts| - 1], s), OutputPipeline(s, output.id)];
    var ps := PipelineNames(ids);
    StepsAreWalk(input, orders, config, holds, ids);
    RootReceivesLogs(input, config.pipelines, config.connectors.Keys, tenant);
    assert ids[|ids| - 1] == OutputPipeline(s, output.id) && ids[0] == Root(tenant.name);
    OutputPipelineExports(input, config.pipelines, config.connectors.Keys, s, output.id);
    assert ps[0] == PipelineName(ids[0]) && ps[|ps| - 1] == PipelineName(ids[|ids| - 1]);
  }
}
