/** Where the collector of an assembled configuration reads logs, and where it keeps its place and its queues. */
module Sources {
  import opened Names
  import opened Api
  import opened Tables
  import opened NamedPipelines
  import opened Owners
  import opened Generators
  import opened Assembly
  import opened Meaning
  import opened Closure
  import opened Records
  import Volumes

  lemma {:induction false} IncludedPaths(namespaces: seq<string>, path: string)
    ensures path in IncludeList(namespaces) <==>
            exists n :: n in namespaces && n != "" && path == "/var/log/pods/" + n + "_*/*/*.log"
  {
    if namespaces != [] {
      var m := |namespaces| - 1;
      assert namespaces == namespaces[..m] + [namespaces[m]];
      IncludedPaths(namespaces[..m], path);
    }
  }

  lemma ListedTenant(input: ConfigInput, tenant: Tenant)
    requires WellFormed(input) && tenant in input.tenants
    ensures FindTenant(input.tenants, tenant.name) == Some(tenant) && IsName(tenant.name)
    ensures tenant.name in input.tenantSubscriptions
    ensures TenantNamed(input, tenant.name, tenant) && forall u | TenantNamed(input, tenant.name, u) :: u == tenant
  {
    hide FindTenant, IsName;
    IndexedInput(input);
    FoundTenant(input, tenant);
    var u := TenantOf(input, tenant.name);
    assert TenantNamed(input, tenant.name, tenant);
  }

  lemma DefinedReceiver(input: ConfigInput, orders: Orders, config: CollectorConfig, tenant: Tenant, c: ComponentId)
    requires WellFormed(input) && OrdersOf(input, orders) && Assembled(input, orders, config)
    requires tenant in input.tenants && (c == FileLog(tenant.name) || c == K8sEvents(tenant.name))
    ensures ComponentName(c) in config.receivers <==>
            (tenant.selectFromAllNamespaces || tenant.logSourceNamespaces.Elements() != [])
            && (c.K8sEvents? ==> input.eventsToLogs)
    ensures ComponentName(c) in config.receivers ==> ReceiverOk(input)(c, config.receivers[ComponentName(c)])
  {
    hide ComponentName, FindTenant, WellFormed, ReceiverOk, ReceiverIds, IsName, OrdersOf, Assembled;
    ListedTenant(input, tenant);
    ReceiverInUse(input, orders, tenant, c);
    ReceiversDefined(input, orders, config, c);
  }

  lemma ReceiverInUse(input: ConfigInput, orders: Orders, tenant: Tenant, c: ComponentId)
    requires OrdersOf(input, orders) && FindTenant(input.tenants, tenant.name) == Some(tenant)
    requires tenant.name in input.tenantSubscriptions && (c == FileLog(tenant.name) || c == K8sEvents(tenant.name))
    ensures c in ReceiverIds(input, orders.receiverTenants) <==>
            (tenant.selectFromAllNamespaces || tenant.logSourceNamespaces.Elements() != [])
            && (c.K8sEvents? ==> input.eventsToLogs)
  {
    hide FindTenant;
    ListedInOrder(orders.receiverTenants, input.tenantSubscriptions.Keys);
  }

  lemma ReceiversDefined(input: ConfigInput, orders: Orders, config: CollectorConfig, c: ComponentId)
    requires Assembled(input, orders, config) && IsComponentId(c)
    ensures ComponentName(c) in config.receivers <==> c in ReceiverIds(input, orders.receiverTenants)
    ensures ComponentName(c) in config.receivers ==> ReceiverOk(input)(c, config.receivers[ComponentName(c)])
  {
    hide ComponentName, ReceiverIds, ReceiverOk;
    DefinedIffMember(config.receivers, ReceiverIds(input, orders.receiverTenants), ReceiverOk(input), c);
  }

  // A tenant's log receiver is defined exactly if the tenant has log sources. It reads the logs of all namespaces, or
  // of those the tenant lists, keeps its place in the tenant's storage, and feeds the tenant's root pipeline.
  lemma LogReceiverIs(input: ConfigInput, orders: Orders, config: CollectorConfig, tenant: Tenant)
    requires WellFormed(input) && OrdersOf(input, orders) && Assembled(input, orders, config)
    requires tenant in input.tenants
    ensures var k, p := ComponentName(FileLog(tenant.name)), PipelineName(Root(tenant.name));
            && (k in config.receivers <==>
                tenant.selectFromAllNamespaces || tenant.logSourceNamespaces.Elements() != [])
            && (k in config.receivers ==> p in config.pipelines && k in config.pipelines[p].receivers)
            && (ListsNormal(tenant) && p in config.pipelines && k in config.pipelines[p].receivers ==>
                k in config.receivers)
    ensures var k := ComponentName(FileLog(tenant.name));
            k in config.receivers ==>
              && config.receivers[k].FileLogReceiver?
              && config.receivers[k].storage == (if tenant.fileStorage && !input.dryRun
                                                 then Some(ComponentName(FileStorage(tenant.name))) else None)
              && forall path :: path in config.receivers[k].paths <==>
                   if tenant.selectFromAllNamespaces then path == "/var/log/pods/*/*/*.log"
                   else exists n :: n in tenant.logSourceNamespaces.Elements() && n != ""
                                    && path == "/var/log/pods/" + n + "_*/*/*.log"
  {
    hide ComponentName, PipelineName, FindTenant, WellFormed, OrdersOf, Assembled, IncludeList;
    ListedTenant(input, tenant);
    DefinedReceiver(input, orders, config, tenant, FileLog(tenant.name));
    forall path
      ensures path in IncludeList(tenant.logSourceNamespaces.Elements()) <==>
              exists n :: n in tenant.logSourceNamespaces.Elements() && n != ""
                          && path == "/var/log/pods/" + n + "_*/*/*.log"
    {
      IncludedPaths(tenant.logSourceNamespaces.Elements(), path);
    }
    RootListens(input, orders, config, tenant, FileLog(tenant.name));
  }

  lemma RootListens(input: ConfigInput, orders: Orders, config: CollectorConfig, tenant: Tenant, c: ComponentId)
    requires WellFormed(input) && OrdersOf(input, orders) && Assembled(input, orders, config)
    requires tenant in input.tenants
    requires c == FileLog(tenant.name) || (c == K8sEvents(tenant.name) && input.eventsToLogs)
    ensures var p := PipelineName(Root(tenant.name));
            p in config.pipelines && ComponentName(c) in config.pipelines[p].receivers <==>
            tenant.logSourceNamespaces.Items? || tenant.selectFromAllNamespaces
  {
    hide ComponentName, PipelineName, OrdersOf, Assembled, WellFormed, FindTenant, FindOutput, IsName;
    ListedTenant(input, tenant);
    var p := PipelineName(Root(tenant.name));
    WhoReceives(input, orders, config, c, p);
    if ReceivingPipeline(input, c, p) {
      var id :| InPipelines(input, id) && Receives(input, id, c) && PipelineName(id) == p;
      assert id == Root(tenant.name);
    }
    if tenant.logSourceNamespaces.Items? || tenant.selectFromAllNamespaces {
      assert InPipelines(input, Root(tenant.name)) && Receives(input, Root(tenant.name), c);
    }
  }

  // The receiver of Kubernetes events watches the same namespaces; none listed means all.
  lemma EventsReceiverIs(input: ConfigInput, orders: Orders, config: CollectorConfig, tenant: Tenant)
    requires WellFormed(input) && OrdersOf(input, orders) && Assembled(input, orders, config)
    requires tenant in input.tenants
    ensures var k, p := ComponentName(K8sEvents(tenant.name)), PipelineName(Root(tenant.name));
            && (k in config.receivers <==>
                input.eventsToLogs
                && (tenant.selectFromAllNamespaces || tenant.logSourceNamespaces.Elements() != []))
            && (k in config.receivers ==>
                && p in config.pipelines && k in config.pipelines[p].receivers
                && config.receivers[k].EventsReceiver?
                && config.receivers[k].namespaces == (if tenant.selectFromAllNamespaces then []
                                                      else tenant.logSourceNamespaces.Elements())
                && config.receivers[k].storage == (if tenant.fileStorage && !input.dryRun
                                                   then Some(ComponentName(FileStorage(tenant.name))) else None))
  {
    hide ComponentName, PipelineName, FindTenant, WellFormed, OrdersOf, Assembled, IncludeList;
    ListedTenant(input, tenant);
    DefinedReceiver(input, orders, config, tenant, K8sEvents(tenant.name));
    var k := ComponentName(K8sEvents(tenant.name));
    if k in config.receivers {
      assert config.receivers[k] == EventsConfig(input, tenant);
    }
    if input.eventsToLogs {
      RootListens(input, orders, config, tenant, K8sEvents(tenant.name));
    }
  }

  lemma DefinedStorage(input: ConfigInput, orders: Orders, config: CollectorConfig, tenant: Tenant)
    requires Assembled(input, orders, config) && !input.dryRun && tenant in input.tenants && tenant.fileStorage
    ensures var k := ComponentName(FileStorage(tenant.name));
            k in config.extensions && ExtensionOk(input)(FileStorage(tenant.name), config.extensions[k])
  {
    hide ComponentName, ExtensionOk;
    assert FileStorage(tenant.name) in ExtensionIds(input, input.outputs, input.tenants);
  }

  // A storage extension is defined exactly outside dry-run mode for the tenants that ask for one.
  lemma StorageIff(input: ConfigInput, orders: Orders, config: CollectorConfig, t: string)
    requires Assembled(input, orders, config) && IsName(t)
    ensures ComponentName(FileStorage(t)) in config.extensions <==>
            !input.dryRun && exists tenant :: tenant in input.tenants && tenant.name == t && tenant.fileStorage
  {
    hide ComponentName, ExtensionIds, Assembled, IsName;
    StorageInUse(input, t);
    ExtensionIff(input, orders, config, FileStorage(t));
  }

  lemma StorageInUse(input: ConfigInput, t: string)
    ensures FileStorage(t) in ExtensionIds(input, input.outputs, input.tenants) <==>
            !input.dryRun && exists tenant :: tenant in input.tenants && tenant.name == t && tenant.fileStorage
  {
  }

  lemma StorageDirectory(input: ConfigInput, tenant: Tenant, v: ExtensionConfig)
    requires UniqueTenants(input.tenants) && tenant in input.tenants
    requires ExtensionOk(input)(FileStorage(tenant.name), v)
    ensures v == StorageConfig(if tenant.directory == "" then "/var/lib/otelcol/file_storage/" + tenant.name
                               else tenant.directory)
  {
    var t :| t in input.tenants && t.name == tenant.name && t.fileStorage
             && v == StorageConfig(DetermineFileStorageDirectory(t));
    UniqueTenant(input.tenants, t, tenant);
  }

  // A tenant's storage extension keeps its files in the directory that the tenant asks for, or in its own default, and
  // the collector gets this very directory mounted, writable, exactly if the name of the volume was free.
  lemma StorageIsMounted(input: ConfigInput, orders: Orders, config: CollectorConfig, tenant: Tenant,
                         f: Volumes.Fields)
    requires UniqueTenants(input.tenants) && Assembled(input, orders, config)
    requires !input.dryRun && tenant in input.tenants && tenant.fileStorage
    ensures var k := ComponentName(FileStorage(tenant.name));
            && k in config.extensions && config.extensions[k].StorageConfig?
            && config.extensions[k].directory == (if tenant.directory == ""
                                                  then "/var/lib/otelcol/file_storage/" + tenant.name
                                                  else tenant.directory)
            && (Volumes.AddsMount(f, Volumes.VolumesHandled(f, input.tenants, input.outputs),
                                  Volumes.Mount("buffervolume-" + tenant.name, config.extensions[k].directory, false))
                <==> "buffervolume-" + tenant.name !in Volumes.VolumeNames(f.volumes))
  {
    hide ComponentName, Assembled, ExtensionOk, Volumes.VolumesHandled, Volumes.VolumeNames, Volumes.AddsMount;
    DefinedStorage(input, orders, config, tenant);
    StorageDirectory(input, tenant, config.extensions[ComponentName(FileStorage(tenant.name))]);
    Volumes.BuffersMounted(f, input.tenants, input.outputs, tenant);
  }

  // ---------------------------------------------------------------------------
  // What the mode adds

  lemma FixedComponents(input: ConfigInput, order: seq<NamespacedName>)
    ensures Debug in AllExporterIds(input) <==> input.dryRun || input.debug
    ensures Prometheus in AllExporterIds(input) <==> !input.dryRun
    ensures forall kind, o :: OutputExporter(kind, o) in AllExporterIds(input) ==> !input.dryRun
    ensures HealthCheck in ExtensionIds(input, input.outputs, input.tenants) <==> !input.dryRun
    ensures forall t :: FileStorage(t) in ExtensionIds(input, input.outputs, input.tenants) ==> !input.dryRun
    ensures CountTenant in ConnectorIds(input, input.tenants, order, input.bridges) <==> !input.dryRun
    ensures CountOutput in ConnectorIds(input, input.tenants, order, input.bridges) <==> !input.dryRun
    ensures BytesExporter in ConnectorIds(input, input.tenants, order, input.bridges)
            <==> !input.dryRun && input.axoflow
  {
  }

  // Dry-run mode has a debug exporter and no exporter, metric, health check or storage; the debug mode adds a debug
  // exporter to them; only the Axoflow distribution counts bytes.
  lemma ModeAdds(input: ConfigInput, orders: Orders, config: CollectorConfig)
    requires Assembled(input, orders, config)
    ensures ComponentName(Debug) in config.exporters <==> input.dryRun || input.debug
    ensures ComponentName(Prometheus) in config.exporters <==> !input.dryRun
    ensures ComponentName(HealthCheck) in config.extensions <==> !input.dryRun
    ensures ComponentName(CountTenant) in config.connectors <==> !input.dryRun
    ensures ComponentName(CountOutput) in config.connectors <==> !input.dryRun
    ensures ComponentName(BytesExporter) in config.connectors <==> !input.dryRun && input.axoflow
  {
    hide ComponentName, Defines, AllExporterIds, ExtensionIds, ConnectorIds, ExporterOk, ExtensionOk, ConnectorOk;
    FixedComponents(input, orders.connectorSubscriptions);
    var connectors := ConnectorIds(input, input.tenants, orders.connectorSubscriptions, input.bridges);
    var extensions := ExtensionIds(input, input.outputs, input.tenants);
    DefinedIffMember(config.exporters, AllExporterIds(input), ExporterOk(input), Debug);
    DefinedIffMember(config.exporters, AllExporterIds(input), ExporterOk(input), Prometheus);
    DefinedIffMember(config.extensions, extensions, ExtensionOk(input), HealthCheck);
    DefinedIffMember(config.connectors, connectors, ConnectorOk(input), CountTenant);
    DefinedIffMember(config.connectors, connectors, ConnectorOk(input), CountOutput);
    DefinedIffMember(config.connectors, connectors, ConnectorOk(input), BytesExporter);
  }

  lemma NoExportersInDryRun(input: ConfigInput, m: map<string, ExporterConfig>)
    requires Defines(m, AllExporterIds(input), ExporterOk(input)) && input.dryRun
    ensures m.Keys == {ComponentName(Debug)}
  {
    hide ComponentName, ExporterOk;
    forall k | k in m
      ensures k == ComponentName(Debug)
    {
      var c :| c in AllExporterIds(input) && ComponentName(c) == k;
    }
    assert Debug in AllExporterIds(input);
  }

  lemma NoPlaceInDryRun(input: ConfigInput, order: seq<string>, m: map<string, ReceiverConfig>)
    requires Defines(m, ReceiverIds(input, order), ReceiverOk(input)) && input.dryRun
    ensures forall k | k in m :: m[k].storage == None
  {
    hide ComponentName, ReceiverIds, ReceiverOk;
    forall k | k in m
      ensures m[k].storage == None
    {
      var c :| c in ReceiverIds(input, order) && ComponentName(c) == k;
      ReceiverStorage(input, c, m[k]);
    }
  }

  lemma NoStorageInDryRun(input: ConfigInput, m: map<string, ExtensionConfig>)
    requires Defines(m, ExtensionIds(input, input.outputs, input.tenants), ExtensionOk(input)) && input.dryRun
    ensures forall k | k in m :: !m[k].StorageConfig?
  {
    hide ComponentName, EnvReference, DetermineFileStorageDirectory;
    forall k | k in m
      ensures !m[k].StorageConfig?
    {
      var c :| c in ExtensionIds(input, input.outputs, input.tenants) && ComponentName(c) == k;
    }
  }

  // In dry-run mode nothing is sent and nothing is stored.
  lemma DryRunStoresNothing(input: ConfigInput, orders: Orders, config: CollectorConfig)
    requires Assembled(input, orders, config) && input.dryRun
    ensures config.exporters.Keys == {ComponentName(Debug)}
    ensures forall k | k in config.receivers :: config.receivers[k].storage == None
    ensures forall k | k in config.extensions :: !config.extensions[k].StorageConfig?
  {
    hide ComponentName, Defines, AllExporterIds, ExtensionIds, ReceiverIds, ExporterOk, ExtensionOk, ReceiverOk;
    NoExportersInDryRun(input, config.exporters);
    NoPlaceInDryRun(input, orders.receiverTenants, config.receivers);
    NoStorageInDryRun(input, config.extensions);
  }
}
