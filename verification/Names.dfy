/** Names of Kubernetes objects and of the OpenTelemetry components and pipelines generated from them. */
module Names {

  datatype Option<+T> = None | Some(value: T)

  datatype Result<+T, +E> = Ok(value: T) | Err(error: E)

  datatype NamespacedName = NamespacedName(namespace: string, name: string) {
    // The general purpose representation, also the sort key of every list of names.
    function String(): string {
      namespace + "/" + name
    }
  }

  // Section 2.1 of RFC 1123: lower-case alphanumerics, '-' and '.'.
  predicate IsNameChar(c: char) {
    'a' <= c <= 'z' || '0' <= c <= '9' || c == '-' || c == '.'
  }

  predicate IsName(s: string) {
    s != "" && forall i | 0 <= i < |s| :: IsNameChar(s[i])
  }

  predicate IsNamespacedName(n: NamespacedName) {
    IsName(n.namespace) && IsName(n.name)
  }

  predicate Free(s: string, c: char) {
    forall i | 0 <= i < |s| :: s[i] != c
  }

  lemma SlashSplitsOnce(a: string, b: string, c: string, d: string)
    requires Free(a, '/') && Free(c, '/')
    requires a + "/" + b == c + "/" + d
    ensures a == c && b == d
  {
    var x, y := a + "/" + b, c + "/" + d;
    assert x[|a|] == '/' && y[|c|] == '/';
    assert forall k | 0 <= k < |c| :: y[k] == c[k];
    assert forall k | 0 <= k < |a| :: x[k] == a[k];
    assert |a| == |c|;
    assert x[..|a|] == a && y[..|c|] == c;
    assert x[|a| + 1..] == b && y[|c| + 1..] == d;
  }

  // Sorting by String() is sorting by a key that identifies the name.
  lemma StringIdentifies(m: NamespacedName, n: NamespacedName)
    requires IsNamespacedName(m) && IsNamespacedName(n)
    requires m.String() == n.String()
    ensures m == n
  {
    SlashSplitsOnce(m.namespace, m.name, n.namespace, n.name);
  }

  // ---------------------------------------------------------------------------
  // Every generated name is a sequence of parts joined by '_', and no part
  // contains '_'. That makes the parts readable off the name.

  function Join(parts: seq<string>): string
    requires parts != []
  {
    if |parts| == 1 then parts[0]
    else Join(parts[..|parts| - 1]) + "_" + parts[|parts| - 1]
  }

  predicate Parts(parts: seq<string>) {
    parts != [] && forall i | 0 <= i < |parts| :: Free(parts[i], '_')
  }

  lemma LastUnderscore(x: string, a: string, y: string, b: string)
    requires Free(a, '_') && Free(b, '_') && x + "_" + a == y + "_" + b
    ensures x == y && a == b
  {
    var s, t := x + "_" + a, y + "_" + b;
    assert s[|x|] == '_' && t[|y|] == '_';
    assert forall k | |x| < k < |s| :: s[k] == a[k - |x| - 1];
    assert forall k | |y| < k < |t| :: t[k] == b[k - |y| - 1];
    assert |x| == |y|;
    assert s[..|x|] == x && t[..|y|] == y;
    assert s[|x| + 1..] == a && t[|y| + 1..] == b;
  }

  lemma JoinEndsInPart(x: string, a: string, b: string)
    requires Free(b, '_')
    ensures x + "_" + a != b
  {
    assert (x + "_" + a)[|x|] == '_';
  }

  lemma {:induction false} JoinInjective(p: seq<string>, q: seq<string>)
    requires Parts(p) && Parts(q) && Join(p) == Join(q)
    ensures p == q
  {
    var i, j := |p| - 1, |q| - 1;
    if i == 0 && j == 0 {
      assert p == q;
    } else if i == 0 {
      JoinEndsInPart(Join(q[..j]), q[j], p[0]);
    } else if j == 0 {
      JoinEndsInPart(Join(p[..i]), p[i], q[0]);
    } else {
      LastUnderscore(Join(p[..i]), p[i], Join(q[..j]), q[j]);
      JoinInjective(p[..i], q[..j]);
      assert p == p[..i] + [p[i]] && q == q[..j] + [q[j]];
    }
  }

  // ---------------------------------------------------------------------------
  // Pipelines

  datatype PipelineId =
    | Root(tenant: string)
    | SubscriptionPipeline(tenant: string, subscription: NamespacedName)
    | OutputPipeline(subscription: NamespacedName, output: NamespacedName)
    | TenantMetrics
    | OutputMetrics
    | OutputBytes

  predicate IsPipelineId(id: PipelineId) {
    match id
    case Root(t) => IsName(t)
    case SubscriptionPipeline(t, s) => IsName(t) && IsNamespacedName(s)
    case OutputPipeline(s, o) => IsNamespacedName(s) && IsNamespacedName(o)
    case _ => true
  }

  function PipelineName(id: PipelineId): string {
    match id
    case Root(t) => "logs/tenant_" + t
    case SubscriptionPipeline(t, s) =>
      "logs/tenant_" + t + "_subscription_" + s.namespace + "_" + s.name
    case OutputPipeline(s, o) =>
      "logs/output_" + s.namespace + "_" + s.name + "_" + o.namespace + "_" + o.name
    case TenantMetrics => "metrics/tenant"
    case OutputMetrics => "metrics/output"
    case OutputBytes => "metrics/output_bytes"
  }

  function PipelineParts(id: PipelineId): seq<string> {
    match id
    case Root(t) => ["logs/tenant", t]
    case SubscriptionPipeline(t, s) => ["logs/tenant", t, "subscription", s.namespace, s.name]
    case OutputPipeline(s, o) => ["logs/output", s.namespace, s.name, o.namespace, o.name]
    case TenantMetrics => ["metrics/tenant"]
    case OutputMetrics => ["metrics/output"]
    case OutputBytes => ["metrics/output", "bytes"]
  }

  lemma JoinStep(parts: seq<string>, last: string)
    requires parts != []
    ensures Join(parts + [last]) == Join(parts) + "_" + last
  {
    assert (parts + [last])[..|parts|] == parts;
  }

  lemma FiveParts(a: string, b: string, c: string, d: string, e: string)
    ensures Join([a, b, c, d, e]) == a + "_" + b + "_" + c + "_" + d + "_" + e
  {
    assert [a, b, c, d, e] == [a] + [b] + [c] + [d] + [e];
    JoinStep([a], b);
    JoinStep([a] + [b], c);
    JoinStep([a] + [b] + [c], d);
    JoinStep([a] + [b] + [c] + [d], e);
  }

  lemma SubscriptionPipelineJoins(t: string, s: NamespacedName)
    ensures PipelineName(SubscriptionPipeline(t, s)) == Join(PipelineParts(SubscriptionPipeline(t, s)))
  {
    FiveParts("logs/tenant", t, "subscription", s.namespace, s.name);
    var root := "logs/tenant_" + t;
    assert "logs/tenant" + "_" == "logs/tenant_";
    assert root + "_subscription_" == root + "_" + "subscription" + "_";
  }

  lemma OutputPipelineJoins(s: NamespacedName, o: NamespacedName)
    ensures PipelineName(OutputPipeline(s, o)) == Join(PipelineParts(OutputPipeline(s, o)))
  {
    FiveParts("logs/output", s.namespace, s.name, o.namespace, o.name);
    assert "logs/output" + "_" == "logs/output_";
  }

  lemma RootJoins(t: string)
    ensures PipelineName(Root(t)) == Join(PipelineParts(Root(t)))
  {
    JoinStep(["logs/tenant"], t);
    assert ["logs/tenant", t] == ["logs/tenant"] + [t];
  }

  lemma OutputBytesJoins()
    ensures PipelineName(OutputBytes) == Join(PipelineParts(OutputBytes))
  {
    JoinStep(["metrics/output"], "bytes");
    assert ["metrics/output", "bytes"] == ["metrics/output"] + ["bytes"];
  }

  lemma PipelinePartsFree(id: PipelineId)
    requires IsPipelineId(id)
    ensures Parts(PipelineParts(id))
  {
  }

  lemma PipelineNameJoins(id: PipelineId)
    requires IsPipelineId(id)
    ensures Parts(PipelineParts(id)) && PipelineName(id) == Join(PipelineParts(id))
  {
    PipelinePartsFree(id);
    match id
    case Root(t) => RootJoins(t);
    case SubscriptionPipeline(t, s) => SubscriptionPipelineJoins(t, s);
    case OutputPipeline(s, o) => OutputPipelineJoins(s, o);
    case TenantMetrics =>
    case OutputMetrics =>
    case OutputBytes => OutputBytesJoins();
  }

  // No two pipelines share a key: a pipeline key decodes to one tuple.
  lemma PipelineNameInjective(i: PipelineId, j: PipelineId)
    requires IsPipelineId(i) && IsPipelineId(j) && PipelineName(i) == PipelineName(j)
    ensures i == j
  {
    PipelineNameJoins(i);
    PipelineNameJoins(j);
    JoinInjective(PipelineParts(i), PipelineParts(j));
    var p, q := PipelineParts(i), PipelineParts(j);
    assert p[0] == q[0];
    assert p[0][5] == q[0][5] && p[0][8] == q[0][8];
  }

  // ---------------------------------------------------------------------------
  // Receivers, processors, exporters, connectors and extensions. The name of a
  // transform processor is free text written by the user.

  datatype ExporterKind = OTLPGRPC | OTLPHTTP | Fluentforward | File | Elasticsearch | AWSS3

  datatype ComponentId =
    | FileLog(tenant: string)
    | K8sEvents(tenant: string)
    | RouteSubscriptions(tenant: string)
    | RouteOutputs(subscription: NamespacedName)
    | RouteBridge(bridge: string)
    | CountTenant
    | CountOutput
    | BytesExporter
    | OutputExporter(kind: ExporterKind, output: NamespacedName)
    | Debug
    | Prometheus
    | K8sAttributes
    | MemoryLimiter
    | FilterExclude
    | DeltaToCumulative
    | MetricAttributes
    | TenantAttributes(tenant: string)
    | SubscriptionAttributes(name: string)
    | ExporterNameAttributes(name: string)
    | BatchProcessor(name: string)
    | TransformProcessor(name: string)
    | HealthCheck
    | BasicAuthExtension(output: NamespacedName)
    | BearerAuthExtension(output: NamespacedName)
    | FileStorage(tenant: string)

  predicate IsComponentId(id: ComponentId) {
    match id
    case FileLog(t) => IsName(t)
    case K8sEvents(t) => IsName(t)
    case RouteSubscriptions(t) => IsName(t)
    case RouteOutputs(s) => IsNamespacedName(s)
    case RouteBridge(b) => IsName(b)
    case OutputExporter(_, o) => IsNamespacedName(o)
    case TenantAttributes(t) => IsName(t)
    case SubscriptionAttributes(n) => IsName(n)
    case ExporterNameAttributes(n) => IsName(n)
    case BatchProcessor(n) => IsName(n)
    case BasicAuthExtension(o) => IsNamespacedName(o)
    case BearerAuthExtension(o) => IsNamespacedName(o)
    case FileStorage(t) => IsName(t)
    case _ => true
  }

  function ExporterPrefix(kind: ExporterKind): string {
    match kind
    case OTLPGRPC => "otlp_grpc/"
    case OTLPHTTP => "otlp_http/"
    case Fluentforward => "fluentforwardexporter/"
    case File => "file/"
    case Elasticsearch => "elasticsearch/"
    case AWSS3 => "awss3/"
  }

  function ComponentName(id: ComponentId): string {
    match id
    case FileLog(t) => "file_log/" + t
    case K8sEvents(t) => "k8s_events/" + t
    case RouteSubscriptions(t) => "routing/tenant_" + t + "_subscriptions"
    case RouteOutputs(s) => "routing/subscription_" + s.namespace + "_" + s.name + "_outputs"
    case RouteBridge(b) => "routing/bridge_" + b
    case CountTenant => "count/tenant_metrics"
    case CountOutput => "count/output_metrics"
    case BytesExporter => "bytes/exporter"
    case OutputExporter(k, o) => ExporterPrefix(k) + o.namespace + "_" + o.name
    case Debug => "debug"
    case Prometheus => "prometheus/message_metrics_exporter"
    case K8sAttributes => "k8s_attributes"
    case MemoryLimiter => "memory_limiter"
    case FilterExclude => "filter/exclude"
    case DeltaToCumulative => "deltatocumulative"
    case MetricAttributes => "attributes/metricattributes"
    case TenantAttributes(t) => "attributes/tenant_" + t
    case SubscriptionAttributes(n) => "attributes/subscription_" + n
    case ExporterNameAttributes(n) => "attributes/exporter_name_" + n
    case BatchProcessor(n) => "batch/" + n
    case TransformProcessor(n) => "transform/" + n
    case HealthCheck => "health_check"
    case BasicAuthExtension(o) => "basicauth/" + o.namespace + "_" + o.name
    case BearerAuthExtension(o) => "bearertokenauth/" + o.namespace + "_" + o.name
    case FileStorage(t) => "file_storage/" + t
  }

  function ExporterParts(kind: ExporterKind, o: NamespacedName): seq<string> {
    match kind
    case OTLPGRPC => ["otlp", "grpc/" + o.namespace, o.name]
    case OTLPHTTP => ["otlp", "http/" + o.namespace, o.name]
    case Fluentforward => ["fluentforwardexporter/" + o.namespace, o.name]
    case File => ["file/" + o.namespace, o.name]
    case Elasticsearch => ["elasticsearch/" + o.namespace, o.name]
    case AWSS3 => ["awss3/" + o.namespace, o.name]
  }

  function ComponentParts(id: ComponentId): seq<string> {
    match id
    case FileLog(t) => ["file", "log/" + t]
    case K8sEvents(t) => ["k8s", "events/" + t]
    case RouteSubscriptions(t) => ["routing/tenant", t, "subscriptions"]
    case RouteOutputs(s) => ["routing/subscription", s.namespace, s.name, "outputs"]
    case RouteBridge(b) => ["routing/bridge", b]
    case CountTenant => ["count/tenant", "metrics"]
    case CountOutput => ["count/output", "metrics"]
    case BytesExporter => ["bytes/exporter"]
    case OutputExporter(k, o) => ExporterParts(k, o)
    case Debug => ["debug"]
    case Prometheus => ["prometheus/message", "metrics", "exporter"]
    case K8sAttributes => ["k8s", "attributes"]
    case MemoryLimiter => ["memory", "limiter"]
    case FilterExclude => ["filter/exclude"]
    case DeltaToCumulative => ["deltatocumulative"]
    case MetricAttributes => ["attributes/metricattributes"]
    case TenantAttributes(t) => ["attributes/tenant", t]
    case SubscriptionAttributes(n) => ["attributes/subscription", n]
    case ExporterNameAttributes(n) => ["attributes/exporter", "name", n]
    case BatchProcessor(n) => ["batch/" + n]
    case TransformProcessor(n) => ["transform/" + n]
    case HealthCheck => ["health", "check"]
    case BasicAuthExtension(o) => ["basicauth/" + o.namespace, o.name]
    case BearerAuthExtension(o) => ["bearertokenauth/" + o.namespace, o.name]
    case FileStorage(t) => ["file", "storage/" + t]
  }

  lemma TwoParts(a: string, b: string)
    ensures Join([a, b]) == a + "_" + b
  {
    JoinStep([a], b);
    assert [a, b] == [a] + [b];
  }

  lemma ThreeParts(a: string, b: string, c: string)
    ensures Join([a, b, c]) == a + "_" + b + "_" + c
  {
    TwoParts(a, b);
    JoinStep([a, b], c);
    assert [a, b, c] == [a, b] + [c];
  }

  lemma FourParts(a: string, b: string, c: string, d: string)
    ensures Join([a, b, c, d]) == a + "_" + b + "_" + c + "_" + d
  {
    ThreeParts(a, b, c);
    JoinStep([a, b, c], d);
    assert [a, b, c, d] == [a, b, c] + [d];
  }

  lemma PrefixedPair(prefix: string, o: NamespacedName)
    requires IsNamespacedName(o) && Free(prefix, '_')
    ensures Parts([prefix + o.namespace, o.name])
    ensures Join([prefix + o.namespace, o.name]) == prefix + o.namespace + "_" + o.name
  {
    TwoParts(prefix + o.namespace, o.name);
  }

  lemma PrefixedTriple(head: string, prefix: string, o: NamespacedName)
    requires IsNamespacedName(o) && Free(head, '_') && Free(prefix, '_')
    ensures Parts([head, prefix + o.namespace, o.name])
    ensures Join([head, prefix + o.namespace, o.name]) == head + "_" + prefix + o.namespace + "_" + o.name
  {
    ThreeParts(head, prefix + o.namespace, o.name);
    assert head + "_" + (prefix + o.namespace) == head + "_" + prefix + o.namespace;
  }

  lemma ExporterJoins(k: ExporterKind, o: NamespacedName)
    requires IsNamespacedName(o)
    ensures Parts(ExporterParts(k, o))
    ensures ComponentName(OutputExporter(k, o)) == Join(ExporterParts(k, o))
  {
    match k
    case OTLPGRPC =>
      PrefixedTriple("otlp", "grpc/", o);
      assert "otlp" + "_" + "grpc/" == ExporterPrefix(k);
    case OTLPHTTP =>
      PrefixedTriple("otlp", "http/", o);
      assert "otlp" + "_" + "http/" == ExporterPrefix(k);
    case _ => PrefixedPair(ExporterPrefix(k), o);
  }

  lemma RouteSubscriptionsJoins(t: string)
    requires IsName(t)
    ensures Parts(ComponentParts(RouteSubscriptions(t)))
    ensures ComponentName(RouteSubscriptions(t)) == Join(ComponentParts(RouteSubscriptions(t)))
  {
    ThreeParts("routing/tenant", t, "subscriptions");
    assert "routing/tenant" + "_" == "routing/tenant_";
    assert "routing/tenant_" + t + "_" + "subscriptions" == "routing/tenant_" + t + "_subscriptions";
  }

  lemma RouteOutputsJoins(s: NamespacedName)
    requires IsNamespacedName(s)
    ensures Parts(ComponentParts(RouteOutputs(s)))
    ensures ComponentName(RouteOutputs(s)) == Join(ComponentParts(RouteOutputs(s)))
  {
    FourParts("routing/subscription", s.namespace, s.name, "outputs");
    assert "routing/subscription" + "_" == "routing/subscription_";
    var x := "routing/subscription_" + s.namespace + "_" + s.name;
    assert x + "_" + "outputs" == x + "_outputs";
  }

  lemma RouteBridgeJoins(b: string)
    requires IsName(b)
    ensures Parts(ComponentParts(RouteBridge(b)))
    ensures ComponentName(RouteBridge(b)) == Join(ComponentParts(RouteBridge(b)))
  {
    TwoParts("routing/bridge", b);
    assert "routing/bridge" + "_" == "routing/bridge_";
  }

  lemma StorageJoins(t: string, a: string, b: string, id: ComponentId)
    requires IsName(t)
    requires (id == FileLog(t) && a == "file" && b == "log/")
          || (id == K8sEvents(t) && a == "k8s" && b == "events/")
          || (id == FileStorage(t) && a == "file" && b == "storage/")
    ensures Parts(ComponentParts(id)) && ComponentName(id) == Join(ComponentParts(id))
  {
    TwoParts(a, b + t);
    assert a + "_" + (b + t) == a + "_" + b + t;
    match id
    case FileLog(_) => assert a + "_" + b == "file_log/";
    case K8sEvents(_) => assert a + "_" + b == "k8s_events/";
    case FileStorage(_) => assert a + "_" + b == "file_storage/";
  }

  lemma AttributeJoins(id: ComponentId)
    requires IsAttributes(id) && IsComponentId(id)
    ensures Parts(ComponentParts(id)) && ComponentName(id) == Join(ComponentParts(id))
  {
    match id
    case TenantAttributes(t) => TenantAttributesJoin(t);
    case SubscriptionAttributes(n) => SubscriptionAttributesJoin(n);
    case ExporterNameAttributes(n) => ExporterNameAttributesJoin(n);
  }

  lemma TenantAttributesJoin(t: string)
    requires IsName(t)
    ensures var id := TenantAttributes(t);
            Parts(ComponentParts(id)) && ComponentName(id) == Join(ComponentParts(id))
  {
    TwoParts("attributes/tenant", t);
    assert "attributes/tenant" + "_" == "attributes/tenant_";
  }

  lemma SubscriptionAttributesJoin(n: string)
    requires IsName(n)
    ensures var id := SubscriptionAttributes(n);
            Parts(ComponentParts(id)) && ComponentName(id) == Join(ComponentParts(id))
  {
    TwoParts("attributes/subscription", n);
    assert "attributes/subscription" + "_" == "attributes/subscription_";
  }

  lemma ExporterNameAttributesJoin(n: string)
    requires IsName(n)
    ensures var id := ExporterNameAttributes(n);
            Parts(ComponentParts(id)) && ComponentName(id) == Join(ComponentParts(id))
  {
    ThreeParts("attributes/exporter", "name", n);
    assert "attributes/exporter" + "_" + "name" + "_" == "attributes/exporter_name_";
  }

  lemma ConstantPair(id: ComponentId, a: string, b: string)
    requires ComponentParts(id) == [a, b] && ComponentName(id) == a + "_" + b
    requires Free(a, '_') && Free(b, '_')
    ensures Parts(ComponentParts(id)) && ComponentName(id) == Join(ComponentParts(id))
  {
    TwoParts(a, b);
  }

  lemma CountJoins(id: ComponentId)
    requires id.CountTenant? || id.CountOutput?
    ensures Parts(ComponentParts(id)) && ComponentName(id) == Join(ComponentParts(id))
  {
    ConstantPair(id, if id.CountTenant? then "count/tenant" else "count/output", "metrics");
  }

  lemma ConstantJoins(id: ComponentId)
    requires id.K8sAttributes? || id.MemoryLimiter? || id.HealthCheck?
    ensures Parts(ComponentParts(id)) && ComponentName(id) == Join(ComponentParts(id))
  {
    match id
    case K8sAttributes => ConstantPair(id, "k8s", "attributes");
    case MemoryLimiter => ConstantPair(id, "memory", "limiter");
    case HealthCheck => ConstantPair(id, "health", "check");
  }

  lemma PrometheusJoins()
    ensures Parts(ComponentParts(Prometheus))
    ensures ComponentName(Prometheus) == Join(ComponentParts(Prometheus))
  {
    ThreeParts("prometheus/message", "metrics", "exporter");
  }

  predicate HasOnePart(id: ComponentId) {
    || id.BytesExporter? || id.Debug? || id.FilterExclude? || id.DeltaToCumulative? || id.MetricAttributes?
    || id.BatchProcessor?
  }

  lemma ConstantIsFree(id: ComponentId)
    requires HasOnePart(id) && !id.BatchProcessor?
    ensures Free(ComponentName(id), '_')
  {
    match id
    case BytesExporter => assert Free("bytes/exporter", '_');
    case Debug => assert Free("debug", '_');
    case FilterExclude => assert Free("filter/exclude", '_');
    case DeltaToCumulative => assert Free("deltatocumulative", '_');
    case MetricAttributes => assert Free("attributes/metricattributes", '_');
  }

  lemma BatchIsFree(n: string)
    requires IsName(n)
    ensures Free(ComponentName(BatchProcessor(n)), '_')
  {
    assert Free("batch/", '_');
  }

  lemma OnePart(s: string)
    requires Free(s, '_')
    ensures Parts([s]) && Join([s]) == s
  {
  }

  lemma PlainJoins(id: ComponentId)
    requires HasOnePart(id) && IsComponentId(id)
    ensures Parts(ComponentParts(id)) && ComponentName(id) == Join(ComponentParts(id))
  {
    hide Free, Join, Parts;
    if id.BatchProcessor? {
      BatchIsFree(id.name);
    } else {
      ConstantIsFree(id);
    }
    OnePart(ComponentName(id));
  }

  lemma ComponentNameJoins(id: ComponentId)
    requires IsComponentId(id) && !id.TransformProcessor?
    ensures Parts(ComponentParts(id)) && ComponentName(id) == Join(ComponentParts(id))
  {
    match id
    case FileLog(t) => StorageJoins(t, "file", "log/", id);
    case K8sEvents(t) => StorageJoins(t, "k8s", "events/", id);
    case FileStorage(t) => StorageJoins(t, "file", "storage/", id);
    case OutputExporter(k, o) => ExporterJoins(k, o);
    case BasicAuthExtension(o) => PrefixedPair("basicauth/", o);
    case BearerAuthExtension(o) => PrefixedPair("bearertokenauth/", o);
    case Prometheus => PrometheusJoins();
    case CountTenant => CountJoins(id);
    case CountOutput => CountJoins(id);
    case BytesExporter => PlainJoins(id);
    case Debug => PlainJoins(id);
    case FilterExclude => PlainJoins(id);
    case DeltaToCumulative => PlainJoins(id);
    case MetricAttributes => PlainJoins(id);
    case BatchProcessor(_) => PlainJoins(id);
    case RouteSubscriptions(t) => RouteSubscriptionsJoins(t);
    case RouteOutputs(s) => RouteOutputsJoins(s);
    case RouteBridge(b) => RouteBridgeJoins(b);
    case TenantAttributes(_) => AttributeJoins(id);
    case SubscriptionAttributes(_) => AttributeJoins(id);
    case ExporterNameAttributes(_) => AttributeJoins(id);
    case _ => ConstantJoins(id);
  }

  // Which constructor made a name, as a number read off a few of its letters.
  function Family(p: seq<string>): nat
    requires p != []
  {
    var h := p[0];
    var second := if |p| > 1 && p[1] != "" then p[1][0] else ' ';
    if |h| < 3 then 0
    else match h[0]
      case 'r' => if |h| > 8 then (if h[8] == 't' then 1 else if h[8] == 's' then 2 else 3) else 0
      case 'c' => if |h| > 6 && h[6] == 't' then 4 else 5
      case 'b' => if h[1] == 'y' then 6 else if h[1] == 'e' then 7 else if h[2] == 's' then 8 else 9
      case 'f' =>
        if h[1] == 'l' then 10
        else if |h| > 3 && h[3] == 't' then 11
        else if |h| == 4 then (if second == 'l' then 12 else 13)
        else 14
      case 'k' => if second == 'e' then 15 else 16
      case 'o' => if second == 'g' then 17 else 18
      case 'e' => 19
      case 'a' =>
        if h[1] == 'w' then 20
        else if |h| > 11 then
          (if h[11] == 'm' then 21 else if h[11] == 't' then 22 else if h[11] == 's' then 23 else 24)
        else 0
      case 'd' => if h[2] == 'b' then 25 else 26
      case 'p' => 27
      case 'h' => 28
      case 'm' => 29
      case 't' => 30
      case _ => 0
  }

  function FamilyOf(id: ComponentId): nat {
    match id
    case RouteSubscriptions(_) => 1
    case RouteOutputs(_) => 2
    case RouteBridge(_) => 3
    case CountTenant => 4
    case CountOutput => 5
    case BytesExporter => 6
    case BearerAuthExtension(_) => 7
    case BasicAuthExtension(_) => 8
    case BatchProcessor(_) => 9
    case FilterExclude => 11
    case FileLog(_) => 12
    case FileStorage(_) => 13
    case K8sEvents(_) => 15
    case K8sAttributes => 16
    case MetricAttributes => 21
    case TenantAttributes(_) => 22
    case SubscriptionAttributes(_) => 23
    case ExporterNameAttributes(_) => 24
    case Debug => 25
    case DeltaToCumulative => 26
    case Prometheus => 27
    case HealthCheck => 28
    case MemoryLimiter => 29
    case TransformProcessor(_) => 30
    case OutputExporter(k, _) =>
      match k
      case Fluentforward => 10
      case File => 14
      case OTLPGRPC => 17
      case OTLPHTTP => 18
      case Elasticsearch => 19
      case AWSS3 => 20
  }

  lemma ExporterFamilyReads(k: ExporterKind, o: NamespacedName)
    ensures Family(ExporterParts(k, o)) == FamilyOf(OutputExporter(k, o))
  {
  }

  predicate IsConstant(id: ComponentId) {
    id.CountTenant? || id.CountOutput? || id.BytesExporter? || id.Debug? || id.Prometheus?
    || id.K8sAttributes? || id.MemoryLimiter? || id.FilterExclude? || id.DeltaToCumulative?
    || id.MetricAttributes? || id.HealthCheck?
  }

  lemma ConstantFamilyReads(id: ComponentId)
    requires IsConstant(id)
    ensures Family(ComponentParts(id)) == FamilyOf(id)
  {
  }

  lemma VariableFamilyReads(id: ComponentId)
    requires !IsConstant(id) && !id.OutputExporter?
    ensures Family(ComponentParts(id)) == FamilyOf(id)
  {
  }

  lemma FamilyReads(id: ComponentId)
    ensures Family(ComponentParts(id)) == FamilyOf(id)
  {
    if IsConstant(id) {
      ConstantFamilyReads(id);
    } else if id.OutputExporter? {
      ExporterFamilyReads(id.kind, id.output);
    } else {
      VariableFamilyReads(id);
    }
  }

  lemma SamePrefix(prefix: string, a: string, b: string)
    requires prefix + a == prefix + b
    ensures a == b
  {
    assert (prefix + a)[|prefix|..] == a && (prefix + b)[|prefix|..] == b;
  }

  lemma ExporterPartsInjective(k: ExporterKind, m: NamespacedName, n: NamespacedName)
    requires ExporterParts(k, m) == ExporterParts(k, n)
    ensures m == n
  {
    var p, q := ExporterParts(k, m), ExporterParts(k, n);
    match k
    case OTLPGRPC =>
      assert p[1] == q[1] && p[2] == q[2];
      SamePrefix("grpc/", m.namespace, n.namespace);
    case OTLPHTTP =>
      assert p[1] == q[1] && p[2] == q[2];
      SamePrefix("http/", m.namespace, n.namespace);
    case _ =>
      assert p[0] == q[0] && p[1] == q[1];
      SamePrefix(ExporterPrefix(k), m.namespace, n.namespace);
  }

  lemma ComponentPartsInjective(i: ComponentId, j: ComponentId)
    requires IsComponentId(i) && IsComponentId(j)
    requires FamilyOf(i) == FamilyOf(j) && ComponentParts(i) == ComponentParts(j)
    ensures i == j
  {
    if IsConstant(i) {
    } else if i.RouteSubscriptions? || i.RouteOutputs? || i.RouteBridge? || IsAttributes(i) {
      SeparateNamesInjective(i, j);
    } else {
      PrefixedNamesInjective(i, j);
    }
  }

  predicate IsAttributes(id: ComponentId) {
    id.TenantAttributes? || id.SubscriptionAttributes? || id.ExporterNameAttributes?
  }

  // Parts that are the names themselves.
  lemma SeparateNamesInjective(i: ComponentId, j: ComponentId)
    requires i.RouteSubscriptions? || i.RouteOutputs? || i.RouteBridge? || IsAttributes(i)
    requires FamilyOf(i) == FamilyOf(j) && ComponentParts(i) == ComponentParts(j)
    ensures i == j
  {
    var p, q := ComponentParts(i), ComponentParts(j);
    match i
    case RouteSubscriptions(t) => assert p[1] == q[1];
    case RouteOutputs(s) => assert p[1] == q[1] && p[2] == q[2];
    case RouteBridge(b) => assert p[1] == q[1];
    case TenantAttributes(t) => assert p[1] == q[1];
    case SubscriptionAttributes(n) => assert p[1] == q[1];
    case ExporterNameAttributes(n) => assert p[2] == q[2];
  }

  // Parts in which a prefix comes before the name.
  lemma PrefixedNamesInjective(i: ComponentId, j: ComponentId)
    requires IsComponentId(i) && IsComponentId(j) && !IsConstant(i) && !IsAttributes(i)
    requires !i.RouteSubscriptions? && !i.RouteOutputs? && !i.RouteBridge?
    requires FamilyOf(i) == FamilyOf(j) && ComponentParts(i) == ComponentParts(j)
    ensures i == j
  {
    var p, q := ComponentParts(i), ComponentParts(j);
    match i
    case FileLog(t) => assert p[1] == q[1]; SamePrefix("log/", t, j.tenant);
    case K8sEvents(t) => assert p[1] == q[1]; SamePrefix("events/", t, j.tenant);
    case FileStorage(t) => assert p[1] == q[1]; SamePrefix("storage/", t, j.tenant);
    case OutputExporter(k, o) => ExporterPartsInjective(k, o, j.output);
    case BatchProcessor(n) => assert p[0] == q[0]; SamePrefix("batch/", n, j.name);
    case BasicAuthExtension(o) =>
      assert p[0] == q[0] && p[1] == q[1];
      SamePrefix("basicauth/", o.namespace, j.output.namespace);
    case BearerAuthExtension(o) =>
      assert p[0] == q[0] && p[1] == q[1];
      SamePrefix("bearertokenauth/", o.namespace, j.output.namespace);
    case TransformProcessor(n) => assert p[0] == q[0]; SamePrefix("transform/", n, j.name);
  }

  // Only transform processors start with a 't', so free text cannot make them clash with anything.
  lemma FirstLetter(id: ComponentId)
    ensures ComponentName(id) != "" && (ComponentName(id)[0] == 't' <==> id.TransformProcessor?)
  {
    if IsConstant(id) {
      FirstLetterOfConstant(id);
    } else if id.OutputExporter? {
      FirstLetterOfExporter(id.kind, id.output);
    } else {
      FirstLetterOfNamed(id);
    }
  }

  lemma FirstLetterOfConstant(id: ComponentId)
    requires IsConstant(id)
    ensures ComponentName(id) != "" && ComponentName(id)[0] != 't'
  {
  }

  lemma FirstLetterOfExporter(kind: ExporterKind, o: NamespacedName)
    ensures ComponentName(OutputExporter(kind, o)) != "" && ComponentName(OutputExporter(kind, o))[0] != 't'
  {
    assert |ExporterPrefix(kind)| > 0 && ComponentName(OutputExporter(kind, o))[0] == ExporterPrefix(kind)[0];
  }

  lemma FirstLetterOfNamed(id: ComponentId)
    requires !IsConstant(id) && !id.OutputExporter?
    ensures ComponentName(id) != "" && (ComponentName(id)[0] == 't' <==> id.TransformProcessor?)
  {
  }

  // Components of different kinds, tenants, subscriptions, bridges or outputs never share a name.
  lemma ComponentNameInjective(i: ComponentId, j: ComponentId)
    requires IsComponentId(i) && IsComponentId(j) && ComponentName(i) == ComponentName(j)
    ensures i == j
  {
    hide Family;
    FirstLetter(i);
    FirstLetter(j);
    if i.TransformProcessor? {
      SamePrefix("transform/", i.name, j.name);
    } else {
      ComponentNameJoins(i);
      ComponentNameJoins(j);
      JoinInjective(ComponentParts(i), ComponentParts(j));
      FamilyReads(i);
      FamilyReads(j);
      ComponentPartsInjective(i, j);
    }
  }
}
