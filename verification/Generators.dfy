/** The component sections of a collector configuration: receivers, processors, extensions, exporters, connectors. */
module Generators {
  import opened Names
  import Ordering
  import opened Api
  import opened Tables
  import opened Owners
  import opened Routing
  import Credentials

  function StorageOf(input: ConfigInput, tenant: Tenant): Option<string> {
    if !input.dryRun && tenant.fileStorage then Some(ComponentName(FileStorage(tenant.name))) else None
  }

  // ---------------------------------------------------------------------------
  // Receivers

  datatype ReceiverConfig =
    | FileLogReceiver(paths: seq<string>, storage: Option<string>)
    | EventsReceiver(namespaces: seq<string>, storage: Option<string>)

  function IncludeList(namespaces: seq<string>): seq<string> {
    if namespaces == [] then []
    else
      var n := |namespaces| - 1;
      IncludeList(namespaces[..n])
      + if namespaces[n] != "" then ["/var/log/pods/" + namespaces[n] + "_*/*/*.log"] else []
  }

  method CreateIncludeList(namespaces: seq<string>, includeAll: bool) returns (paths: seq<string>)
    ensures paths == if includeAll then ["/var/log/pods/*/*/*.log"] else IncludeList(namespaces)
  {
    if includeAll {
      return ["/var/log/pods/*/*/*.log"];
    }
    paths := [];
    for i := 0 to |namespaces|
      invariant paths == IncludeList(namespaces[..i])
    {
      assert namespaces[..i + 1][..i] == namespaces[..i];
      if namespaces[i] != "" {
        paths := paths + ["/var/log/pods/" + namespaces[i] + "_*/*/*.log"];
      }
    }
    assert namespaces[..|namespaces|] == namespaces;
  }

  function FileLogConfig(input: ConfigInput, tenant: Tenant): ReceiverConfig {
    FileLogReceiver(
      if tenant.selectFromAllNamespaces then ["/var/log/pods/*/*/*.log"]
      else IncludeList(tenant.logSourceNamespaces.Elements()),
      StorageOf(input, tenant))
  }

  function EventsConfig(input: ConfigInput, tenant: Tenant): ReceiverConfig {
    EventsReceiver(if tenant.selectFromAllNamespaces then [] else tenant.logSourceNamespaces.Elements(),
                   StorageOf(input, tenant))
  }

  predicate Listens(input: ConfigInput, t: string) {
    var tenant := FindTenant(input.tenants, t);
    tenant.Some? && HasLogSources(tenant.value)
  }

  predicate IsReceiver(input: ConfigInput, ts: seq<string>, c: ComponentId) {
    || (c.FileLog? && c.tenant in ts && Listens(input, c.tenant))
    || (c.K8sEvents? && c.tenant in ts && Listens(input, c.tenant) && input.eventsToLogs)
  }

  ghost function ReceiverIds(input: ConfigInput, ts: seq<string>): iset<ComponentId> {
    iset c | IsReceiver(input, ts, c)
  }

  function ReceiverOk(input: ConfigInput): (ComponentId, ReceiverConfig) -> bool {
    (c: ComponentId, v: ReceiverConfig) =>
      (c.FileLog? && Listens(input, c.tenant) && v == FileLogConfig(input, FindTenant(input.tenants, c.tenant).value))
      || (c.K8sEvents? && Listens(input, c.tenant)
          && v == EventsConfig(input, FindTenant(input.tenants, c.tenant).value))
  }

  method PutReceivers(input: ConfigInput, ghost done: seq<string>, t: string, start: map<string, ReceiverConfig>)
    returns (m: map<string, ReceiverConfig>)
    requires IsName(t) && Defines(start, ReceiverIds(input, done), ReceiverOk(input))
    ensures Defines(m, ReceiverIds(input, done + [t]), ReceiverOk(input))
  {
    hide ComponentName;
    hide FindTenant;
    hide Defines;
    m := start;
    ghost var ids := ReceiverIds(input, done);
    var found := FindTenant(input.tenants, t);
    if found.Some? {
      var tenant := found.value;
      if tenant.logSourceNamespaces.Elements() != [] || tenant.selectFromAllNamespaces {
        var paths := CreateIncludeList(tenant.logSourceNamespaces.Elements(), tenant.selectFromAllNamespaces);
        var config := FileLogReceiver(paths, StorageOf(input, tenant));
        assert Listens(input, t);
        assert config == FileLogConfig(input, tenant);
        assert ReceiverOk(input)(FileLog(t), config);
        DefinesPut(m, ids, ReceiverOk(input), FileLog(t), config, ReceiverOk(input));
        m, ids := m[ComponentName(FileLog(t)) := config], ids + iset{FileLog(t)};
        if input.eventsToLogs {
          var events := EventsConfig(input, tenant);
          DefinesPut(m, ids, ReceiverOk(input), K8sEvents(t), events, ReceiverOk(input));
          m, ids := m[ComponentName(K8sEvents(t)) := events], ids + iset{K8sEvents(t)};
        }
      }
    }
    assert forall c :: c in ids <==> c in ReceiverIds(input, done + [t]);
    assert ids == ReceiverIds(input, done + [t]);
  }

  lemma NothingDefined<V(!new)>(ids: iset<ComponentId>, ok: (ComponentId, V) -> bool)
    requires forall c :: c !in ids
    ensures Defines(map[], ids, ok)
  {
  }

  lemma NoReceivers(input: ConfigInput)
    ensures Defines(map[], ReceiverIds(input, []), ReceiverOk(input))
  {
    NothingDefined(ReceiverIds(input, []), ReceiverOk(input));
  }

  method GenerateReceivers(input: ConfigInput, order: seq<string>) returns (m: map<string, ReceiverConfig>)
    requires WellNamed(input) && Enumerates(order, input.tenantSubscriptions.Keys)
    ensures Defines(m, ReceiverIds(input, order), ReceiverOk(input))
  {
    hide Defines;
    hide IsReceiver;
    hide ReceiverOk;
    m := map[];
    NoReceivers(input);
    for i := 0 to |order|
      invariant Defines(m, ReceiverIds(input, order[..i]), ReceiverOk(input))
    {
      assert order[i] in input.tenantSubscriptions.Keys;
      m := PutReceivers(input, order[..i], order[i], m);
      assert order[..i + 1] == order[..i] + [order[i]];
    }
    assert order[..|order|] == order;
  }

  // ---------------------------------------------------------------------------
  // Extensions

  datatype ExtensionConfig =
    | HealthCheckConfig
    | BasicAuthConfig(username: string, password: string)
    | BearerAuthConfig(token: string)
    | StorageConfig(directory: string)

  function EnvReference(c: Credentials.Credential): string {
    "${" + Credentials.EnvVarName(c) + "}"
  }

  function DetermineFileStorageDirectory(tenant: Tenant): string {
    if tenant.directory != "" then tenant.directory
    else "/var/lib/otelcol/file_storage/" + tenant.name
  }

  predicate UsesBasicAuth(output: Output) {
    output.auth.Some? && output.auth.value.basic.Some?
  }

  predicate UsesBearerAuth(output: Output) {
    output.auth.Some? && output.auth.value.bearer.Some?
  }

  ghost predicate IsAuthExtension(outputs: seq<OutputWithSecretData>, c: ComponentId) {
    || (c.BasicAuthExtension? && exists e :: e in outputs && e.output.id == c.output && UsesBasicAuth(e.output))
    || (c.BearerAuthExtension? && exists e :: e in outputs && e.output.id == c.output && UsesBearerAuth(e.output))
  }

  ghost predicate IsStorageExtension(tenants: seq<Tenant>, c: ComponentId) {
    c.FileStorage? && exists t :: t in tenants && t.name == c.tenant && t.fileStorage
  }

  ghost predicate IsExtension(input: ConfigInput, outputs: seq<OutputWithSecretData>, tenants: seq<Tenant>,
                              c: ComponentId) {
    || (c.HealthCheck? && !input.dryRun)
    || IsAuthExtension(outputs, c)
    || (!input.dryRun && IsStorageExtension(tenants, c))
  }

  ghost function ExtensionIds(input: ConfigInput, outputs: seq<OutputWithSecretData>,
                              tenants: seq<Tenant>): iset<ComponentId> {
    iset c | IsExtension(input, outputs, tenants, c)
  }

  // A name defined twice is defined with the same content, except storage of two tenants of one name.
  ghost function ExtensionOk(input: ConfigInput): (ComponentId, ExtensionConfig) -> bool {
    (c: ComponentId, v: ExtensionConfig) =>
      match c
      case HealthCheck => v == HealthCheckConfig
      case BasicAuthExtension(o) =>
        v == BasicAuthConfig(EnvReference(Credentials.Username(o)), EnvReference(Credentials.Password(o)))
      case BearerAuthExtension(o) => v == BearerAuthConfig(EnvReference(Credentials.Token(o)))
      case FileStorage(n) =>
        exists t :: t in input.tenants && t.name == n && t.fileStorage
                    && v == StorageConfig(DetermineFileStorageDirectory(t))
      case _ => false
  }

  method PutAuthExtensions(input: ConfigInput, ghost done: seq<OutputWithSecretData>, e: OutputWithSecretData,
                           start: map<string, ExtensionConfig>)
    returns (m: map<string, ExtensionConfig>)
    requires IsNamespacedName(e.output.id) && Defines(start, ExtensionIds(input, done, []), ExtensionOk(input))
    ensures Defines(m, ExtensionIds(input, done + [e], []), ExtensionOk(input))
  {
    hide ComponentName;
    hide Defines;
    hide EnvReference;
    m := start;
    var o := e.output.id;
    ghost var ids := ExtensionIds(input, done, []);
    ghost var ok := ExtensionOk(input);
    if e.output.auth.Some? {
      if e.output.auth.value.basic.Some? {
        var v := BasicAuthConfig(EnvReference(Credentials.Username(o)), EnvReference(Credentials.Password(o)));
        assert ok(BasicAuthExtension(o), v);
        DefinesPut(m, ids, ok, BasicAuthExtension(o), v, ok);
        m, ids := m[ComponentName(BasicAuthExtension(o)) := v], ids + iset{BasicAuthExtension(o)};
      }
      if e.output.auth.value.bearer.Some? {
        var v := BearerAuthConfig(EnvReference(Credentials.Token(o)));
        assert ok(BearerAuthExtension(o), v);
        DefinesPut(m, ids, ok, BearerAuthExtension(o), v, ok);
        m, ids := m[ComponentName(BearerAuthExtension(o)) := v], ids + iset{BearerAuthExtension(o)};
      }
    }
    AuthExtensionIdsStep(input, done, e);
    assert ids == ExtensionIds(input, done + [e], []);
  }

  lemma AuthExtensionIdsStep(input: ConfigInput, done: seq<OutputWithSecretData>, e: OutputWithSecretData)
    ensures ExtensionIds(input, done + [e], [])
         == ExtensionIds(input, done, [])
            + (if UsesBasicAuth(e.output) then iset{BasicAuthExtension(e.output.id)} else iset{})
            + (if UsesBearerAuth(e.output) then iset{BearerAuthExtension(e.output.id)} else iset{})
  {
    assert forall x :: x in done + [e] <==> x in done || x == e;
  }

  method PutStorageExtension(input: ConfigInput, ghost done: seq<Tenant>, t: Tenant,
                             start: map<string, ExtensionConfig>)
    returns (m: map<string, ExtensionConfig>)
    requires IsName(t.name) && t in input.tenants
    requires Defines(start, ExtensionIds(input, input.outputs, done), ExtensionOk(input))
    ensures Defines(m, ExtensionIds(input, input.outputs, done + [t]), ExtensionOk(input))
  {
    hide ComponentName;
    hide Defines;
    hide IsAuthExtension;
    m := start;
    ghost var ids := ExtensionIds(input, input.outputs, done);
    ghost var ok := ExtensionOk(input);
    if !input.dryRun && t.fileStorage {
      var v := StorageConfig(DetermineFileStorageDirectory(t));
      assert ok(FileStorage(t.name), v);
      DefinesPut(m, ids, ok, FileStorage(t.name), v, ok);
      m, ids := m[ComponentName(FileStorage(t.name)) := v], ids + iset{FileStorage(t.name)};
    }
    assert forall x :: x in done + [t] <==> x in done || x == t;
    assert ids == ExtensionIds(input, input.outputs, done + [t]);
  }

  method StartExtensions(input: ConfigInput) returns (m: map<string, ExtensionConfig>)
    ensures Defines(m, ExtensionIds(input, [], []), ExtensionOk(input))
  {
    hide ComponentName;
    m := map[];
    NothingDefined(iset{}, ExtensionOk(input));
    if !input.dryRun {
      assert ExtensionOk(input)(HealthCheck, HealthCheckConfig);
      DefinesPut(m, iset{}, ExtensionOk(input), HealthCheck, HealthCheckConfig, ExtensionOk(input));
      m := m[ComponentName(HealthCheck) := HealthCheckConfig];
      assert ExtensionIds(input, [], []) == iset{} + iset{HealthCheck};
    } else {
      assert ExtensionIds(input, [], []) == iset{};
    }
  }

  // The extension names of the service section: the defined ones, sorted.
  method SortedKeys<V>(m: map<string, V>) returns (names: seq<string>)
    ensures Ordering.Sorted((s: string) => s, names) && Enumerates(names, m.Keys)
  {
    var listed: seq<string> := [];
    var remaining := m.Keys;
    while remaining != {}
      invariant remaining <= m.Keys
      invariant Ordering.NoDup(listed) && forall k :: k in listed <==> k in m && k !in remaining
    {
      var k :| k in remaining;
      listed := listed + [k];
      remaining := remaining - {k};
    }
    names := Ordering.Sort((s: string) => s, listed);
    Ordering.SortSorts((s: string) => s, listed);
    Ordering.SortKeepsElements((s: string) => s, listed);
    Ordering.SortKeepsNoDup((s: string) => s, listed);
  }

  method GenerateExtensions(input: ConfigInput) returns (m: map<string, ExtensionConfig>, names: seq<string>)
    requires WellNamed(input)
    ensures Defines(m, ExtensionIds(input, input.outputs, input.tenants), ExtensionOk(input))
    ensures Ordering.Sorted((s: string) => s, names) && Enumerates(names, m.Keys)
  {
    hide Defines;
    hide ExtensionIds;
    hide ExtensionOk;
    m := StartExtensions(input);
    for i := 0 to |input.outputs|
      invariant Defines(m, ExtensionIds(input, input.outputs[..i], []), ExtensionOk(input))
    {
      m := PutAuthExtensions(input, input.outputs[..i], input.outputs[i], m);
      assert input.outputs[..i + 1] == input.outputs[..i] + [input.outputs[i]];
    }
    assert input.outputs[..|input.outputs|] == input.outputs;
    for i := 0 to |input.tenants|
      invariant Defines(m, ExtensionIds(input, input.outputs, input.tenants[..i]), ExtensionOk(input))
    {
      m := PutStorageExtension(input, input.tenants[..i], input.tenants[i], m);
      assert input.tenants[..i + 1] == input.tenants[..i] + [input.tenants[i]];
    }
    assert input.tenants[..|input.tenants|] == input.tenants;
    names := SortedKeys(m);
  }

  // ---------------------------------------------------------------------------
  // Processors. Some are keyed by a name that several resources may share; the last writer wins.

  datatype ProcessorConfig =
    | BuiltIn
    | InsertAttribute(key: string, value: string)
    | Batch(settings: string)
    | TransformStatements(statements: string)

  function LastTransform(tenants: seq<Tenant>, name: string): Option<string> {
    if tenants == [] then None
    else
      var n := |tenants| - 1;
      if tenants[n].transform.name == name then Some(tenants[n].transform.statements)
      else LastTransform(tenants[..n], name)
  }

  function LastNamed(outputs: seq<OutputWithSecretData>, name: string): Option<Output> {
    if outputs == [] then None
    else
      var n := |outputs| - 1;
      if outputs[n].output.id.name == name then Some(outputs[n].output) else LastNamed(outputs[..n], name)
  }

  function LastBatch(outputs: seq<OutputWithSecretData>, name: string): Option<string> {
    if outputs == [] then None
    else
      var n := |outputs| - 1;
      if outputs[n].output.id.name == name && outputs[n].output.batch.Some? then outputs[n].output.batch
      else LastBatch(outputs[..n], name)
  }

  predicate IsBuiltInProcessor(c: ComponentId) {
    c.K8sAttributes? || c.MemoryLimiter? || c.FilterExclude? || c.DeltaToCumulative? || c.MetricAttributes?
  }

  ghost predicate IsProcessor(tenants: seq<Tenant>, subscriptions: seq<NamespacedName>,
                              named: seq<OutputWithSecretData>, batched: seq<OutputWithSecretData>, c: ComponentId)
  {
    || IsBuiltInProcessor(c)
    || (c.TenantAttributes? && exists t :: t in tenants && t.name == c.tenant)
    || (c.TransformProcessor? && c.name != "" && exists t :: t in tenants && t.transform.name == c.name)
    || (c.SubscriptionAttributes? && exists s :: s in subscriptions && s.name == c.name)
    || (c.ExporterNameAttributes? && exists e :: e in named && e.output.id.name == c.name)
    || (c.BatchProcessor? && exists e :: e in batched && e.output.id.name == c.name && e.output.batch.Some?)
  }

  ghost function ProcessorIds(tenants: seq<Tenant>, subscriptions: seq<NamespacedName>,
                              named: seq<OutputWithSecretData>, batched: seq<OutputWithSecretData>): iset<ComponentId>
  {
    iset c | IsProcessor(tenants, subscriptions, named, batched, c)
  }

  // `named` and `batched` are the outputs whose exporter name and batch processors are written already.
  function ProcessorAt(tenants: seq<Tenant>, named: seq<OutputWithSecretData>, batched: seq<OutputWithSecretData>,
                       c: ComponentId): Option<ProcessorConfig>
  {
    match c
    case TenantAttributes(t) => Some(InsertAttribute("tenant", t))
    case SubscriptionAttributes(s) => Some(InsertAttribute("subscription", s))
    case ExporterNameAttributes(n) =>
      var output := LastNamed(named, n);
      if output.Some? then Some(InsertAttribute("exporter", ExporterNameFor(output.value))) else None
    case BatchProcessor(n) =>
      var batch := LastBatch(batched, n);
      if batch.Some? then Some(Batch(batch.value)) else None
    case TransformProcessor(n) =>
      var transform := LastTransform(tenants, n);
      if transform.Some? then Some(TransformStatements(transform.value)) else None
    case _ => Some(BuiltIn)
  }

  function ProcessorOk(tenants: seq<Tenant>, named: seq<OutputWithSecretData>, batched: seq<OutputWithSecretData>)
    : (ComponentId, ProcessorConfig) -> bool
  {
    (c: ComponentId, v: ProcessorConfig) => Some(v) == ProcessorAt(tenants, named, batched, c)
  }

  method StartProcessors() returns (m: map<string, ProcessorConfig>)
    ensures Defines(m, ProcessorIds([], [], [], []), ProcessorOk([], [], []))
  {
    hide ComponentName;
    hide Defines;
    m := map[];
    ghost var ids: iset<ComponentId> := iset{};
    ghost var ok := ProcessorOk([], [], []);
    NothingDefined(ids, ok);
    var builtIns := [K8sAttributes, MemoryLimiter, FilterExclude, DeltaToCumulative, MetricAttributes];
    for i := 0 to 5
      invariant ids == iset c | c in builtIns[..i]
      invariant Defines(m, ids, ok)
    {
      DefinesPut(m, ids, ok, builtIns[i], BuiltIn, ok);
      m, ids := m[ComponentName(builtIns[i]) := BuiltIn], ids + iset{builtIns[i]};
      assert builtIns[..i + 1] == builtIns[..i] + [builtIns[i]];
    }
    assert builtIns[..5] == builtIns;
    assert forall c :: c in builtIns <==> IsBuiltInProcessor(c);
    assert ids == ProcessorIds([], [], [], []);
  }

  lemma TenantProcessorIdsStep(done: seq<Tenant>, t: Tenant)
    ensures ProcessorIds(done + [t], [], [], [])
         == ProcessorIds(done, [], [], [])
            + (if t.transform.name != "" then iset{TransformProcessor(t.transform.name)} else iset{})
            + iset{TenantAttributes(t.name)}
  {
    assert forall x :: x in done + [t] <==> x in done || x == t;
  }

  // A tenant changes the transform processor of its own transform name only.
  lemma TenantProcessorsOkStep(done: seq<Tenant>, t: Tenant)
    ensures var c := TransformProcessor(t.transform.name);
            && ProcessorOk(done + [t], [], [])(c, TransformStatements(t.transform.statements))
            && forall d, w | d in ProcessorIds(done, [], [], []) && (c.name == "" || d != c)
                             && ProcessorOk(done, [], [])(d, w) :: ProcessorOk(done + [t], [], [])(d, w)
  {
    assert (done + [t])[..|done|] == done;
  }

  method PutTenantProcessors(ghost done: seq<Tenant>, t: Tenant, start: map<string, ProcessorConfig>)
    returns (m: map<string, ProcessorConfig>)
    requires IsName(t.name) && Defines(start, ProcessorIds(done, [], [], []), ProcessorOk(done, [], []))
    ensures Defines(m, ProcessorIds(done + [t], [], [], []), ProcessorOk(done + [t], [], []))
  {
    hide ComponentName;
    hide Defines;
    hide LastNamed;
    hide LastBatch;
    hide ProcessorIds;
    hide LastTransform;
    ghost var ids := ProcessorIds(done, [], [], []);
    ghost var after := done + [t];
    ghost var c := TransformProcessor(t.transform.name);
    TenantProcessorsOkStep(done, t);
    m := start;
    if t.transform.name != "" {
      DefinesPut(m, ids, ProcessorOk(done, [], []), c, TransformStatements(t.transform.statements),
                 ProcessorOk(after, [], []));
      m := m[ComponentName(TransformProcessor(t.transform.name)) := TransformStatements(t.transform.statements)];
      ids := ids + iset{c};
    } else {
      DefinesSame(m, ids, ProcessorOk(done, [], []), ids, ProcessorOk(after, [], []));
    }
    DefinesPut(m, ids, ProcessorOk(after, [], []), TenantAttributes(t.name), InsertAttribute("tenant", t.name),
               ProcessorOk(after, [], []));
    m := m[ComponentName(TenantAttributes(t.name)) := InsertAttribute("tenant", t.name)];
    ids := ids + iset{TenantAttributes(t.name)};
    TenantProcessorIdsStep(done, t);
    assert ids == ProcessorIds(after, [], [], []);
  }

  method PutSubscriptionProcessor(ghost tenants: seq<Tenant>, ghost done: seq<NamespacedName>, s: NamespacedName,
                                  start: map<string, ProcessorConfig>)
    returns (m: map<string, ProcessorConfig>)
    requires IsName(s.name) && Defines(start, ProcessorIds(tenants, done, [], []), ProcessorOk(tenants, [], []))
    ensures Defines(m, ProcessorIds(tenants, done + [s], [], []), ProcessorOk(tenants, [], []))
  {
    hide ComponentName;
    hide Defines;
    ghost var ids := ProcessorIds(tenants, done, [], []);
    DefinesPut(start, ids, ProcessorOk(tenants, [], []), SubscriptionAttributes(s.name),
               InsertAttribute("subscription", s.name), ProcessorOk(tenants, [], []));
    m := start[ComponentName(SubscriptionAttributes(s.name)) := InsertAttribute("subscription", s.name)];
    assert forall x :: x in done + [s] <==> x in done || x == s;
    assert ids + iset{SubscriptionAttributes(s.name)} == ProcessorIds(tenants, done + [s], [], []);
  }

  method PutExporterNameProcessor(ghost tenants: seq<Tenant>, ghost subscriptions: seq<NamespacedName>,
                                  ghost done: seq<OutputWithSecretData>, e: OutputWithSecretData,
                                  start: map<string, ProcessorConfig>)
    returns (m: map<string, ProcessorConfig>)
    requires IsName(e.output.id.name)
    requires Defines(start, ProcessorIds(tenants, subscriptions, done, done), ProcessorOk(tenants, done, done))
    ensures Defines(m, ProcessorIds(tenants, subscriptions, done + [e], done), ProcessorOk(tenants, done + [e], done))
  {
    hide ComponentName;
    hide Defines;
    hide ExporterNameFor;
    hide LastTransform;
    ghost var ids := ProcessorIds(tenants, subscriptions, done, done);
    ghost var after := done + [e];
    assert after[..|done|] == done;
    var n := e.output.id.name;
    var v := InsertAttribute("exporter", ExporterNameFor(e.output));
    DefinesPut(start, ids, ProcessorOk(tenants, done, done), ExporterNameAttributes(n), v,
               ProcessorOk(tenants, after, done));
    m := start[ComponentName(ExporterNameAttributes(n)) := v];
    assert forall x :: x in after <==> x in done || x == e;
    assert ids + iset{ExporterNameAttributes(n)} == ProcessorIds(tenants, subscriptions, after, done);
  }

  method PutBatchProcessor(ghost tenants: seq<Tenant>, ghost subscriptions: seq<NamespacedName>,
                           ghost done: seq<OutputWithSecretData>, e: OutputWithSecretData,
                           start: map<string, ProcessorConfig>)
    returns (m: map<string, ProcessorConfig>)
    requires IsName(e.output.id.name)
    requires Defines(start, ProcessorIds(tenants, subscriptions, done + [e], done),
                     ProcessorOk(tenants, done + [e], done))
    ensures Defines(m, ProcessorIds(tenants, subscriptions, done + [e], done + [e]),
                    ProcessorOk(tenants, done + [e], done + [e]))
  {
    hide ComponentName;
    hide Defines;
    hide ExporterNameFor;
    hide LastNamed;
    hide LastTransform;
    ghost var ids := ProcessorIds(tenants, subscriptions, done + [e], done);
    ghost var after := done + [e];
    assert after[..|done|] == done;
    var n := e.output.id.name;
    m := start;
    assert forall x :: x in after <==> x in done || x == e;
    if e.output.batch.Some? {
      var v := Batch(e.output.batch.value);
      assert ProcessorOk(tenants, after, after)(BatchProcessor(n), v);
      DefinesPut(m, ids, ProcessorOk(tenants, after, done), BatchProcessor(n), v, ProcessorOk(tenants, after, after));
      m, ids := m[ComponentName(BatchProcessor(n)) := v], ids + iset{BatchProcessor(n)};
      assert ids == ProcessorIds(tenants, subscriptions, after, after);
    } else {
      assert ids == ProcessorIds(tenants, subscriptions, after, after);
      DefinesSame(m, ids, ProcessorOk(tenants, after, done), ids, ProcessorOk(tenants, after, after));
    }
  }

  ghost function AllProcessorIds(input: ConfigInput, order: seq<NamespacedName>): iset<ComponentId> {
    ProcessorIds(input.tenants, order, input.outputs, input.outputs)
  }

  function AllProcessorsOk(input: ConfigInput): (ComponentId, ProcessorConfig) -> bool {
    ProcessorOk(input.tenants, input.outputs, input.outputs)
  }

  method GenerateProcessors(input: ConfigInput, order: seq<NamespacedName>) returns (m: map<string, ProcessorConfig>)
    requires WellNamed(input) && Enumerates(order, input.subscriptions.Keys)
    ensures Defines(m, AllProcessorIds(input, order), AllProcessorsOk(input))
  {
    hide Defines;
    hide ProcessorIds;
    hide ProcessorOk;
    m := StartProcessors();
    for i := 0 to |input.tenants|
      invariant Defines(m, ProcessorIds(input.tenants[..i], [], [], []), ProcessorOk(input.tenants[..i], [], []))
    {
      m := PutTenantProcessors(input.tenants[..i], input.tenants[i], m);
      assert input.tenants[..i + 1] == input.tenants[..i] + [input.tenants[i]];
    }
    assert input.tenants[..|input.tenants|] == input.tenants;
    for i := 0 to |order|
      invariant Defines(m, ProcessorIds(input.tenants, order[..i], [], []), ProcessorOk(input.tenants, [], []))
    {
      assert order[i] in input.subscriptions.Keys;
      m := PutSubscriptionProcessor(input.tenants, order[..i], order[i], m);
      assert order[..i + 1] == order[..i] + [order[i]];
    }
    assert order[..|order|] == order;
    for i := 0 to |input.outputs|
      invariant Defines(m, ProcessorIds(input.tenants, order, input.outputs[..i], input.outputs[..i]),
                        ProcessorOk(input.tenants, input.outputs[..i], input.outputs[..i]))
    {
      m := PutExporterNameProcessor(input.tenants, order, input.outputs[..i], input.outputs[i], m);
      m := PutBatchProcessor(input.tenants, order, input.outputs[..i], input.outputs[i], m);
      assert input.outputs[..i + 1] == input.outputs[..i] + [input.outputs[i]];
    }
    assert input.outputs[..|input.outputs|] == input.outputs;
  }

  // ---------------------------------------------------------------------------
  // Exporters. Bodies are opaque; what matters is the storage and the authenticator they refer to.

  datatype ExporterConfig = ExporterConfig(storage: Option<string>, authenticator: Option<string>)

  function AuthenticatorOf(kind: ExporterKind, output: Output): Option<string> {
    if !(kind.OTLPGRPC? || kind.OTLPHTTP? || kind.Elasticsearch?) then None
    else if UsesBasicAuth(output) then Some(ComponentName(BasicAuthExtension(output.id)))
    else if UsesBearerAuth(output) then Some(ComponentName(BearerAuthExtension(output.id)))
    else None
  }

  // The storage is that of a tenant subscribing to the output.
  ghost predicate OwnersStorage(input: ConfigInput, output: NamespacedName, storage: Option<string>) {
    exists t :: t in input.tenants && Owns(input, t.name, output)
                && storage == if t.fileStorage then Some(ComponentName(FileStorage(t.name))) else None
  }

  ghost predicate IsExporterConfig(input: ConfigInput, outputs: seq<OutputWithSecretData>, c: ComponentId,
                                   v: ExporterConfig)
    requires c.OutputExporter?
  {
    exists e :: e in outputs && e.output.id == c.output && c.kind in e.output.kinds
                && v.authenticator == AuthenticatorOf(c.kind, e.output)
                && if c.kind.File? then v.storage == None else OwnersStorage(input, c.output, v.storage)
  }

  ghost function ExporterOk(input: ConfigInput): (ComponentId, ExporterConfig) -> bool {
    (c: ComponentId, v: ExporterConfig) =>
      if c.OutputExporter? then IsExporterConfig(input, input.outputs, c, v) else v == ExporterConfig(None, None)
  }

  ghost predicate IsExporter(input: ConfigInput, outputs: seq<OutputWithSecretData>, kind: ExporterKind,
                             c: ComponentId) {
    && c.OutputExporter? && c.kind == kind
    && (kind.File? || exists t :: t in input.tenants && Owns(input, t.name, c.output))
    && exists e :: e in outputs && e.output.id == c.output && kind in e.output.kinds
  }

  ghost function ExporterIds(input: ConfigInput, outputs: seq<OutputWithSecretData>,
                             kind: ExporterKind): iset<ComponentId> {
    iset c | IsExporter(input, outputs, kind, c)
  }

  method PutExporter(input: ConfigInput, order: seq<string>, kind: ExporterKind, ghost done: seq<OutputWithSecretData>,
                     e: OutputWithSecretData, start: map<string, ExporterConfig>)
    returns (m: map<string, ExporterConfig>)
    requires TenantsIndexed(input) && Enumerates(order, input.tenantSubscriptions.Keys)
    requires IsNamespacedName(e.output.id) && e in input.outputs && HasOneKind(e.output)
    requires Defines(start, ExporterIds(input, done, kind), ExporterOk(input))
    ensures Defines(m, ExporterIds(input, done + [e], kind), ExporterOk(input))
  {
    hide ComponentName;
    hide Defines;
    hide Owns;
    hide TenantsIndexed;
    m := start;
    ghost var ids := ExporterIds(input, done, kind);
    assert forall x :: x in done + [e] <==> x in done || x == e;
    if kind in e.output.kinds {
      var storage: Option<string> := None;
      var skip := false;
      if !kind.File? {
        var tenant := FindTenantForOutput(input, order, e.output.id);
        OwnerFound(input, order, e.output.id);
        if tenant.None? {
          skip := true;
        } else if tenant.value.fileStorage {
          storage := Some(ComponentName(FileStorage(tenant.value.name)));
        }
      }
      if !skip {
        var v := ExporterConfig(storage, AuthenticatorOf(kind, e.output));
        ghost var c := OutputExporter(kind, e.output.id);
        assert ExporterOk(input)(c, v);
        DefinesPut(m, ids, ExporterOk(input), c, v, ExporterOk(input));
        OneKindName(e.output, kind);
        m, ids := m[ExporterNameFor(e.output) := v], ids + iset{c};
      }
    }
    assert ids == ExporterIds(input, done + [e], kind);
  }

  lemma OneKindName(output: Output, kind: ExporterKind)
    requires HasOneKind(output) && kind in output.kinds
    ensures ExporterNameFor(output) == ComponentName(OutputExporter(kind, output.id))
  {
    hide ComponentName;
    ExporterNameOfKind(output);
  }

  lemma OwnerFound(input: ConfigInput, order: seq<string>, o: NamespacedName)
    requires TenantsIndexed(input) && Enumerates(order, input.tenantSubscriptions.Keys)
    ensures var r := OwnerIn(input, order, o);
            && (r.Some? <==> exists t :: t in input.tenants && Owns(input, t.name, o))
            && (r.Some? ==> r.value in input.tenants && Owns(input, r.value.name, o))
  {
    hide Owns;
    hide OwnerIn;
    NamesAreFound(input, order);
    OwnerInOwns(input, order, o);
    var listed := set k | k in order;
    assert forall t :: t in order <==> t in listed;
  }

  method GenerateExportersOfKind(input: ConfigInput, order: seq<string>, kind: ExporterKind)
    returns (m: map<string, ExporterConfig>)
    requires WellNamed(input) && TenantsIndexed(input) && OneKindEach(input)
    requires Enumerates(order, input.tenantSubscriptions.Keys)
    ensures Defines(m, ExporterIds(input, input.outputs, kind), ExporterOk(input))
  {
    hide Defines;
    hide ExporterOk;
    hide TenantsIndexed;
    m := map[];
    NothingDefined(ExporterIds(input, [], kind), ExporterOk(input));
    for i := 0 to |input.outputs|
      invariant Defines(m, ExporterIds(input, input.outputs[..i], kind), ExporterOk(input))
    {
      assert input.outputs[i] in input.outputs;
      m := PutExporter(input, order, kind, input.outputs[..i], input.outputs[i], m);
      assert input.outputs[..i + 1] == input.outputs[..i] + [input.outputs[i]];
    }
    assert input.outputs[..|input.outputs|] == input.outputs;
  }

  ghost function AllExporterIds(input: ConfigInput): iset<ComponentId> {
    iset c: ComponentId |
      || (c.Debug? && (input.dryRun || input.debug))
      || (c.Prometheus? && !input.dryRun)
      || (c.OutputExporter? && !input.dryRun && IsExporter(input, input.outputs, c.kind, c))
  }

  ghost function FixedExporterIds(input: ConfigInput): iset<ComponentId> {
    iset c: ComponentId | (c.Debug? && (input.dryRun || input.debug)) || (c.Prometheus? && !input.dryRun)
  }

  method StartExporters(input: ConfigInput) returns (m: map<string, ExporterConfig>)
    ensures Defines(m, FixedExporterIds(input), ExporterOk(input))
  {
    hide ComponentName;
    hide Defines;
    m := map[];
    ghost var ids: iset<ComponentId> := iset{};
    NothingDefined(ids, ExporterOk(input));
    if input.dryRun || input.debug {
      DefinesPut(m, ids, ExporterOk(input), Debug, ExporterConfig(None, None), ExporterOk(input));
      m, ids := m[ComponentName(Debug) := ExporterConfig(None, None)], ids + iset{Debug};
    }
    if !input.dryRun {
      DefinesPut(m, ids, ExporterOk(input), Prometheus, ExporterConfig(None, None), ExporterOk(input));
      m, ids := m[ComponentName(Prometheus) := ExporterConfig(None, None)], ids + iset{Prometheus};
    }
    assert ids == FixedExporterIds(input);
  }

  method GenerateExporters(input: ConfigInput, order: seq<string>) returns (m: map<string, ExporterConfig>)
    requires WellNamed(input) && TenantsIndexed(input) && OneKindEach(input)
    requires Enumerates(order, input.tenantSubscriptions.Keys)
    ensures Defines(m, AllExporterIds(input), ExporterOk(input))
  {
    hide Defines;
    hide ExporterOk;
    hide IsExporter;
    hide WellNamed;
    hide TenantsIndexed;
    hide OneKindEach;
    hide Enumerates;
    m := StartExporters(input);
    ghost var ids := FixedExporterIds(input);
    if !input.dryRun {
      var kinds := [OTLPGRPC, OTLPHTTP, Fluentforward, File, Elasticsearch, AWSS3];
      ghost var base := ids;
      for i := 0 to 6
        invariant ids == base + ExporterIdsOf(input, kinds[..i])
        invariant Defines(m, ids, ExporterOk(input))
      {
        var n := GenerateExportersOfKind(input, order, kinds[i]);
        DefinesUnion(m, ids, n, ExporterIds(input, input.outputs, kinds[i]), ExporterOk(input));
        m, ids := m + n, ids + ExporterIds(input, input.outputs, kinds[i]);
        assert forall k :: k in kinds[..i + 1] <==> k in kinds[..i] || k == kinds[i];
        KindOfExporter(input, kinds[i]);
      }
      assert kinds[..6] == kinds;
      AllKindsListed(kinds);
    }
    assert ids == AllExporterIds(input);
  }

  ghost function ExporterIdsOf(input: ConfigInput, kinds: seq<ExporterKind>): iset<ComponentId> {
    iset c: ComponentId | c.OutputExporter? && c.kind in kinds && IsExporter(input, input.outputs, c.kind, c)
  }

  lemma AllKindsListed(kinds: seq<ExporterKind>)
    requires kinds == [OTLPGRPC, OTLPHTTP, Fluentforward, File, Elasticsearch, AWSS3]
    ensures forall k: ExporterKind :: k in kinds
  {
    forall k: ExporterKind
      ensures k in kinds
    {
      var i := match k
        case OTLPGRPC => 0
        case OTLPHTTP => 1
        case Fluentforward => 2
        case File => 3
        case Elasticsearch => 4
        case AWSS3 => 5;
      assert kinds[i] == k;
    }
  }

  lemma KindOfExporter(input: ConfigInput, kind: ExporterKind)
    ensures ExporterIds(input, input.outputs, kind) == ExporterIdsOf(input, [kind])
  {
  }

  // ---------------------------------------------------------------------------
  // Connectors

  datatype ConnectorConfig = CountConfig | BytesConfig | RoutingConfig(rc: RoutingConnector)

  ghost predicate IsConnectorOf(input: ConfigInput, tenants: seq<Tenant>, subscriptions: seq<NamespacedName>,
                                bridges: seq<Bridge>, c: ComponentId)
  {
    match c
    case CountTenant => !input.dryRun
    case CountOutput => !input.dryRun
    case BytesExporter => !input.dryRun && input.axoflow
    case RouteSubscriptions(n) => (exists t :: t in tenants && t.name == n) && input.SubscriptionsOf(n) != []
    case RouteOutputs(s) => s in subscriptions && input.OutputsOf(s) != []
    case RouteBridge(n) => exists b :: b in bridges && b.name == n
    case _ => false
  }

  ghost function ConnectorIds(input: ConfigInput, tenants: seq<Tenant>, subscriptions: seq<NamespacedName>,
                              bridges: seq<Bridge>): iset<ComponentId>
  {
    iset c | IsConnectorOf(input, tenants, subscriptions, bridges, c)
  }

  // The default pipelines are those the tenant's own configuration names, whether or not they exist.
  ghost predicate DefaultsOf(tenants: seq<Tenant>, name: string, defaultPipelines: seq<string>) {
    exists t :: t in tenants && t.name == name && t.defaultPipelines == defaultPipelines
  }

  ghost function ConnectorOk(input: ConfigInput): (ComponentId, ConnectorConfig) -> bool {
    (c: ComponentId, v: ConnectorConfig) =>
      match c
      case CountTenant => v == CountConfig
      case CountOutput => v == CountConfig
      case BytesExporter => v == BytesConfig
      case RouteSubscriptions(n) =>
        && v.RoutingConfig? && v.rc.name == ComponentName(c) && DefaultsOf(input.tenants, n, v.rc.defaultPipelines)
        && SubscriptionTable(v.rc.table, n, input.SubscriptionsOf(n), input.subscriptions)
      case RouteOutputs(s) => v == RoutingConfig(OutputsConnector(s, input.OutputsOf(s)))
      case RouteBridge(n) => exists b :: b in input.bridges && b.name == n && v == RoutingConfig(BridgeConnector(b))
      case _ => false
  }

  method StartConnectors(input: ConfigInput) returns (m: map<string, ConnectorConfig>)
    ensures Defines(m, ConnectorIds(input, [], [], []), ConnectorOk(input))
  {
    hide ComponentName;
    hide Defines;
    m := map[];
    ghost var ids: iset<ComponentId> := iset{};
    ghost var ok := ConnectorOk(input);
    NothingDefined(ids, ok);
    if !input.dryRun {
      DefinesPut(m, ids, ok, CountTenant, CountConfig, ok);
      m, ids := m[ComponentName(CountTenant) := CountConfig], ids + iset{CountTenant};
      DefinesPut(m, ids, ok, CountOutput, CountConfig, ok);
      m, ids := m[ComponentName(CountOutput) := CountConfig], ids + iset{CountOutput};
      if input.axoflow {
        DefinesPut(m, ids, ok, BytesExporter, BytesConfig, ok);
        m, ids := m[ComponentName(BytesExporter) := BytesConfig], ids + iset{BytesExporter};
      }
    }
    assert ids == ConnectorIds(input, [], [], []);
  }

  method PutTenantConnector(input: ConfigInput, ghost done: seq<Tenant>, t: Tenant, start: map<string, ConnectorConfig>)
    returns (m: map<string, ConnectorConfig>)
    requires IsName(t.name) && t in input.tenants
    requires Defines(start, ConnectorIds(input, done, [], []), ConnectorOk(input))
    ensures Defines(m, ConnectorIds(input, done + [t], [], []), ConnectorOk(input))
  {
    hide ComponentName;
    hide Defines;
    hide SubscriptionTable;
    m := start;
    ghost var ids := ConnectorIds(input, done, [], []);
    ghost var ok := ConnectorOk(input);
    if input.SubscriptionsOf(t.name) != [] {
      var rc := GenerateRoutingConnectorForTenantsSubscriptions(t, input.SubscriptionsOf(t.name), input.subscriptions);
      assert ok(RouteSubscriptions(t.name), RoutingConfig(rc));
      DefinesPut(m, ids, ok, RouteSubscriptions(t.name), RoutingConfig(rc), ok);
      m, ids := m[rc.name := RoutingConfig(rc)], ids + iset{RouteSubscriptions(t.name)};
    }
    assert forall x :: x in done + [t] <==> x in done || x == t;
    assert ids == ConnectorIds(input, done + [t], [], []);
  }

  method PutSubscriptionConnector(input: ConfigInput, ghost done: seq<NamespacedName>, s: NamespacedName,
                                  start: map<string, ConnectorConfig>)
    returns (m: map<string, ConnectorConfig>)
    requires IsNamespacedName(s) && Defines(start, ConnectorIds(input, input.tenants, done, []), ConnectorOk(input))
    ensures Defines(m, ConnectorIds(input, input.tenants, done + [s], []), ConnectorOk(input))
  {
    hide ComponentName;
    hide Defines;
    hide OutputsConnector;
    m := start;
    ghost var ids := ConnectorIds(input, input.tenants, done, []);
    ghost var ok := ConnectorOk(input);
    if input.OutputsOf(s) != [] {
      var rc := GenerateRoutingConnectorForSubscriptionsOutputs(s, input.OutputsOf(s));
      assert ok(RouteOutputs(s), RoutingConfig(rc));
      DefinesPut(m, ids, ok, RouteOutputs(s), RoutingConfig(rc), ok);
      OutputsConnectorName(s, input.OutputsOf(s));
      m, ids := m[rc.name := RoutingConfig(rc)], ids + iset{RouteOutputs(s)};
    }
    assert forall x :: x in done + [s] <==> x in done || x == s;
    assert ids == ConnectorIds(input, input.tenants, done + [s], []);
  }

  lemma OutputsConnectorName(s: NamespacedName, outputs: seq<NamespacedName>)
    ensures OutputsConnector(s, outputs).name == ComponentName(RouteOutputs(s))
  {
  }

  method PutBridgeConnector(input: ConfigInput, order: seq<NamespacedName>, ghost done: seq<Bridge>, b: Bridge,
                            start: map<string, ConnectorConfig>)
    returns (m: map<string, ConnectorConfig>)
    requires IsName(b.name) && b in input.bridges
    requires Defines(start, ConnectorIds(input, input.tenants, order, done), ConnectorOk(input))
    ensures Defines(m, ConnectorIds(input, input.tenants, order, done + [b]), ConnectorOk(input))
  {
    hide ComponentName;
    hide Defines;
    ghost var ids := ConnectorIds(input, input.tenants, order, done);
    ghost var ok := ConnectorOk(input);
    var rc := BridgeConnector(b);
    assert ok(RouteBridge(b.name), RoutingConfig(rc));
    DefinesPut(start, ids, ok, RouteBridge(b.name), RoutingConfig(rc), ok);
    m := start[rc.name := RoutingConfig(rc)];
    assert forall x :: x in done + [b] <==> x in done || x == b;
    assert ids + iset{RouteBridge(b.name)} == ConnectorIds(input, input.tenants, order, done + [b]);
  }

  method GenerateConnectors(input: ConfigInput, order: seq<NamespacedName>) returns (m: map<string, ConnectorConfig>)
    requires WellNamed(input) && SubscriptionsIndexed(input) && Enumerates(order, input.subscriptions.Keys)
    ensures Defines(m, ConnectorIds(input, input.tenants, order, input.bridges), ConnectorOk(input))
  {
    hide Defines;
    hide ConnectorIds;
    hide ConnectorOk;
    m := StartConnectors(input);
    for i := 0 to |input.tenants|
      invariant Defines(m, ConnectorIds(input, input.tenants[..i], [], []), ConnectorOk(input))
    {
      m := PutTenantConnector(input, input.tenants[..i], input.tenants[i], m);
      assert input.tenants[..i + 1] == input.tenants[..i] + [input.tenants[i]];
    }
    assert input.tenants[..|input.tenants|] == input.tenants;
    for i := 0 to |order|
      invariant Defines(m, ConnectorIds(input, input.tenants, order[..i], []), ConnectorOk(input))
    {
      assert order[i] in input.subscriptions.Keys;
      m := PutSubscriptionConnector(input, order[..i], input.subscriptions[order[i]].id, m);
      assert order[..i + 1] == order[..i] + [order[i]];
    }
    assert order[..|order|] == order;
    for i := 0 to |input.bridges|
      invariant Defines(m, ConnectorIds(input, input.tenants, order, input.bridges[..i]), ConnectorOk(input))
    {
      m := PutBridgeConnector(input, order, input.bridges[..i], input.bridges[i], m);
      assert input.bridges[..i + 1] == input.bridges[..i] + [input.bridges[i]];
    }
    assert input.bridges[..|input.bridges|] == input.bridges;
  }
}
