/** The two parsers that read component and pipeline names back before a configuration is validated. */
module ComponentIds {
  import opened Names

  datatype Id = Id(kind: string, name: string) {
    // As an identifier prints itself: no slash without a name.
    function Print(): string {
      if name == "" then kind else kind + "/" + name
    }
  }

  // Both sides of the first slash.
  function SplitOnce(s: string): (r: Option<(string, string)>)
    ensures r.Some? <==> '/' in s
    ensures r.Some? ==> s == r.value.0 + "/" + r.value.1 && '/' !in r.value.0
  {
    if s == "" then None
    else if s[0] == '/' then Some(("", s[1..]))
    else
      match SplitOnce(s[1..])
      case None => None
      case Some(parts) =>
        assert s == [s[0]] + s[1..];
        Some(([s[0]] + parts.0, parts.1))
  }

  function Split(s: string): (parts: seq<string>)
    ensures |parts| > 0
    decreases |s|
  {
    match SplitOnce(s)
    case None => [s]
    case Some(parts) => [parts.0] + Split(parts.1)
  }

  const EXCEPTIONS := {"debug", "deltatocumulative", "memory_limiter", "k8s_attributes", "health_check"}

  function DecodeComponentId(s: string): Option<Id> {
    match SplitOnce(s)
    case None => if s in EXCEPTIONS then Some(Id(s, "")) else None
    case Some(parts) => Some(Id(parts.0, parts.1))
  }

  const SIGNALS := {"logs", "metrics", "traces"}

  function DecodePipelineId(s: string): Option<Id> {
    match SplitOnce(s)
    case None => None
    case Some(parts) => if parts.0 in SIGNALS then Some(Id(parts.0, parts.1)) else None
  }

  // An extension's name in the service section is read by a parser of its own.
  function DecodeExtension(s: string): Id {
    var parts := Split(s);
    if |parts| != 2 then Id(s, "") else Id(parts[0], parts[1])
  }

  method DecodeExtensionsConfig(names: seq<string>) returns (ids: seq<Id>)
    ensures ids == seq(|names|, i requires 0 <= i < |names| => DecodeExtension(names[i]))
  {
    ids := [];
    for i := 0 to |names|
      invariant |ids| == i && forall j | 0 <= j < i :: ids[j] == DecodeExtension(names[j])
    {
      ids := ids + [DecodeExtension(names[i])];
    }
  }

  // ---------------------------------------------------------------------------
  // Parsing and printing

  // An accepted name prints back to itself, unless nothing follows its first slash.
  lemma RoundTrip(s: string)
    ensures DecodeComponentId(s).Some? <==> '/' in s || s in EXCEPTIONS
    ensures DecodeComponentId(s).Some? ==>
              (DecodeComponentId(s).value.Print() == s <==> !(SplitOnce(s).Some? && SplitOnce(s).value.1 == ""))
  {
    if SplitOnce(s).Some? && SplitOnce(s).value.1 == "" {
      assert |s| == |SplitOnce(s).value.0| + 1;
    }
  }

  lemma SplitsAt(head: string, rest: string)
    requires '/' !in head
    ensures SplitOnce(head + "/" + rest) == Some((head, rest))
  {
    var s := head + "/" + rest;
    assert s[|head|] == '/';
    var parts := SplitOnce(s).value;
    assert forall i | 0 <= i < |head| :: head[i] in head;
    assert forall i | 0 <= i < |parts.0| :: parts.0[i] in parts.0;
    SlashSplitsOnce(parts.0, parts.1, head, rest);
  }

  lemma AfterFirstSlash(s: string, k: nat)
    requires k < |s| && s[k] == '/'
    ensures '/' in s && SplitOnce(s).Some?
    ensures k + 1 < |s| ==> SplitOnce(s).value.1 != ""
  {
    assert '/' in s;
    var parts := SplitOnce(s).value;
    assert forall i | 0 <= i < |parts.0| :: s[i] == parts.0[i] && parts.0[i] in parts.0;
    assert |s| == |parts.0| + 1 + |parts.1|;
  }

  // The names that are a type and no more.
  predicate IsPlain(id: ComponentId) {
    id.Debug? || id.K8sAttributes? || id.MemoryLimiter? || id.DeltaToCumulative? || id.HealthCheck?
  }

  predicate IsConnector(id: ComponentId) {
    || id.RouteSubscriptions? || id.RouteOutputs? || id.RouteBridge?
    || id.CountTenant? || id.CountOutput? || id.BytesExporter?
  }

  predicate IsReceiverOrExporter(id: ComponentId) {
    id.FileLog? || id.K8sEvents? || id.OutputExporter? || id.Prometheus?
  }

  lemma ConnectorSlash(id: ComponentId) returns (k: nat)
    requires IsComponentId(id) && IsConnector(id)
    ensures k + 1 < |ComponentName(id)| && ComponentName(id)[k] == '/'
  {
    match id
    case RouteSubscriptions(_) => k := 7;
    case RouteOutputs(_) => k := 7;
    case RouteBridge(_) => k := 7;
    case CountTenant => k := 5;
    case CountOutput => k := 5;
    case BytesExporter => k := 5;
  }

  lemma ReceiverOrExporterSlash(id: ComponentId) returns (k: nat)
    requires IsComponentId(id) && IsReceiverOrExporter(id)
    ensures k + 1 < |ComponentName(id)| && ComponentName(id)[k] == '/'
  {
    match id
    case FileLog(_) => k := 8;
    case K8sEvents(_) => k := 10;
    case OutputExporter(kind, _) => k := |ExporterPrefix(kind)| - 1;
    case Prometheus => k := 10;
  }

  lemma ProcessorOrExtensionSlash(id: ComponentId) returns (k: nat)
    requires IsComponentId(id) && !IsPlain(id) && !IsConnector(id) && !IsReceiverOrExporter(id)
    ensures k < |ComponentName(id)| && ComponentName(id)[k] == '/'
    ensures k + 1 < |ComponentName(id)| <==> id != TransformProcessor("")
  {
    match id
    case FilterExclude => k := 6;
    case MetricAttributes => k := 10;
    case TenantAttributes(_) => k := 10;
    case SubscriptionAttributes(_) => k := 10;
    case ExporterNameAttributes(_) => k := 10;
    case BatchProcessor(_) => k := 5;
    case TransformProcessor(_) => k := 9;
    case BasicAuthExtension(_) => k := 9;
    case BearerAuthExtension(_) => k := 15;
    case FileStorage(_) => k := 12;
  }

  lemma PlainParses(id: ComponentId)
    requires IsPlain(id)
    ensures DecodeComponentId(ComponentName(id)) == Some(Id(ComponentName(id), ""))
  {
    hide ComponentName, DecodeComponentId;
    PlainIsException(id);
    PlainStringParses(ComponentName(id));
  }

  lemma PlainIsException(id: ComponentId)
    requires IsPlain(id)
    ensures ComponentName(id) in EXCEPTIONS
  {
  }

  lemma PlainStringParses(s: string)
    requires s in EXCEPTIONS
    ensures DecodeComponentId(s) == Some(Id(s, ""))
  {
    hide SplitOnce;
    if '/' in s {
      ExceptionsHaveNoSlash(s);
    }
  }

  lemma UnnamedTransform()
    ensures DecodeComponentId(ComponentName(TransformProcessor(""))) == Some(Id("transform", ""))
    ensures Id("transform", "").Print() != ComponentName(TransformProcessor(""))
  {
    assert ComponentName(TransformProcessor("")) == "transform" + "/" + "";
    SplitsAt("transform", "");
  }

  lemma NamedParses(id: ComponentId)
    requires IsComponentId(id) && !IsPlain(id) && id != TransformProcessor("")
    ensures DecodeComponentId(ComponentName(id)).Some?
    ensures DecodeComponentId(ComponentName(id)).value.Print() == ComponentName(id)
  {
    hide ComponentName, SplitOnce, DecodeComponentId;
    var k: nat;
    if IsConnector(id) {
      k := ConnectorSlash(id);
    } else if IsReceiverOrExporter(id) {
      k := ReceiverOrExporterSlash(id);
    } else {
      k := ProcessorOrExtensionSlash(id);
    }
    AfterFirstSlash(ComponentName(id), k);
    RoundTrip(ComponentName(id));
  }

  // Every generated component name is accepted and prints back to itself; the one exception would be a transform
  // processor without a name.
  lemma GeneratedComponentsParse(id: ComponentId)
    requires IsComponentId(id)
    ensures DecodeComponentId(ComponentName(id)).Some?
    ensures DecodeComponentId(ComponentName(id)).value.Print() == ComponentName(id) <==> id != TransformProcessor("")
  {
    hide ComponentName, DecodeComponentId;
    if IsPlain(id) {
      PlainParses(id);
    } else if id == TransformProcessor("") {
      UnnamedTransform();
    } else {
      NamedParses(id);
    }
  }

  lemma KindIs(s: string, kind: string)
    requires '/' !in kind && kind + "/" <= s
    ensures DecodeComponentId(s).Some? && DecodeComponentId(s).value.kind == kind
  {
    assert s == kind + "/" + s[|kind| + 1..];
    SplitsAt(kind, s[|kind| + 1..]);
  }

  lemma ReceiverKinds(id: ComponentId)
    requires id.FileLog? || id.K8sEvents?
    ensures DecodeComponentId(ComponentName(id)).Some?
    ensures DecodeComponentId(ComponentName(id)).value.kind in {"file_log", "k8s_events"}
  {
    KindIs(ComponentName(id), if id.FileLog? then "file_log" else "k8s_events");
  }

  lemma ExporterKinds(kind: ExporterKind, o: NamespacedName)
    ensures var id := DecodeComponentId(ComponentName(OutputExporter(kind, o)));
            id.Some? && id.value.kind == match kind
                                         case OTLPGRPC => "otlp_grpc"
                                         case OTLPHTTP => "otlp_http"
                                         case Fluentforward => "fluentforwardexporter"
                                         case File => "file"
                                         case Elasticsearch => "elasticsearch"
                                         case AWSS3 => "awss3"
  {
    var s := ComponentName(OutputExporter(kind, o));
    match kind
    case OTLPGRPC => KindIs(s, "otlp_grpc");
    case OTLPHTTP => KindIs(s, "otlp_http");
    case Fluentforward => KindIs(s, "fluentforwardexporter");
    case File => KindIs(s, "file");
    case Elasticsearch => KindIs(s, "elasticsearch");
    case AWSS3 => KindIs(s, "awss3");
  }

  lemma ConnectorKinds(id: ComponentId)
    requires IsConnector(id)
    ensures DecodeComponentId(ComponentName(id)).Some?
    ensures DecodeComponentId(ComponentName(id)).value.kind
         == if id.BytesExporter? then "bytes" else if id.CountTenant? || id.CountOutput? then "count" else "routing"
  {
    KindIs(ComponentName(id), if id.BytesExporter? then "bytes"
                              else if id.CountTenant? || id.CountOutput? then "count" else "routing");
  }

  lemma AttributesKind(id: ComponentId)
    requires id.MetricAttributes? || IsAttributes(id)
    ensures DecodeComponentId(ComponentName(id)).Some?
    ensures DecodeComponentId(ComponentName(id)).value.kind == "attributes"
  {
    KindIs(ComponentName(id), "attributes");
  }

  lemma ProcessorKinds(id: ComponentId)
    requires id.FilterExclude? || id.BatchProcessor? || id.TransformProcessor?
    ensures DecodeComponentId(ComponentName(id)).Some?
    ensures DecodeComponentId(ComponentName(id)).value.kind
         == if id.FilterExclude? then "filter" else if id.BatchProcessor? then "batch" else "transform"
  {
    KindIs(ComponentName(id), if id.FilterExclude? then "filter" else if id.BatchProcessor? then "batch"
                              else "transform");
  }

  lemma ExtensionKinds(id: ComponentId)
    requires id.BasicAuthExtension? || id.BearerAuthExtension? || id.FileStorage?
    ensures DecodeComponentId(ComponentName(id)).Some?
    ensures DecodeComponentId(ComponentName(id)).value.kind
         == if id.FileStorage? then "file_storage"
            else if id.BasicAuthExtension? then "basicauth" else "bearertokenauth"
  {
    KindIs(ComponentName(id), if id.FileStorage? then "file_storage"
                              else if id.BasicAuthExtension? then "basicauth" else "bearertokenauth");
  }

  // Names that differ are read as different identifiers, so that no component of a section replaces another.
  lemma NoComponentIsLost(i: ComponentId, j: ComponentId)
    requires IsComponentId(i) && IsComponentId(j) && i != TransformProcessor("") && j != TransformProcessor("")
    requires DecodeComponentId(ComponentName(i)) == DecodeComponentId(ComponentName(j))
    ensures i == j
  {
    hide ComponentName, DecodeComponentId;
    GeneratedComponentsParse(i);
    GeneratedComponentsParse(j);
    ComponentNameInjective(i, j);
  }

  lemma SignalParses(signal: string, s: string)
    requires signal in SIGNALS && signal + "/" <= s && |s| > |signal| + 1
    ensures DecodePipelineId(s).Some? && DecodePipelineId(s).value.Print() == s
    ensures DecodePipelineId(s).value.kind == signal
  {
    var n := |signal|;
    assert signal == s[..n] && s[n] == '/';
    assert s == signal + "/" + s[n + 1..];
    SplitsAt(signal, s[n + 1..]);
  }

  lemma Signals(id: PipelineId) returns (signal: string)
    requires IsPipelineId(id)
    ensures signal in SIGNALS && signal + "/" <= PipelineName(id) && |PipelineName(id)| > |signal| + 1
    ensures signal == if id.TenantMetrics? || id.OutputMetrics? || id.OutputBytes? then "metrics" else "logs"
  {
    match id
    case Root(_) => signal := "logs";
    case SubscriptionPipeline(_, _) => signal := "logs";
    case OutputPipeline(_, _) => signal := "logs";
    case TenantMetrics => signal := "metrics";
    case OutputMetrics => signal := "metrics";
    case OutputBytes => signal := "metrics";
  }

  // Every generated pipeline name is accepted as the name of a pipeline of its signal, and prints back to itself.
  lemma GeneratedPipelinesParse(id: PipelineId)
    requires IsPipelineId(id)
    ensures DecodePipelineId(PipelineName(id)).Some?
    ensures DecodePipelineId(PipelineName(id)).value.Print() == PipelineName(id)
    ensures DecodePipelineId(PipelineName(id)).value.kind
         == if id.TenantMetrics? || id.OutputMetrics? || id.OutputBytes? then "metrics" else "logs"
  {
    hide PipelineName, DecodePipelineId;
    var signal := Signals(id);
    SignalParses(signal, PipelineName(id));
  }

  // No pipeline of a section replaces another.
  lemma NoPipelineIsLost(i: PipelineId, j: PipelineId)
    requires IsPipelineId(i) && IsPipelineId(j)
    requires DecodePipelineId(PipelineName(i)) == DecodePipelineId(PipelineName(j))
    ensures i == j
  {
    hide PipelineName, DecodePipelineId;
    GeneratedPipelinesParse(i);
    GeneratedPipelinesParse(j);
    PipelineNameInjective(i, j);
  }

  // ---------------------------------------------------------------------------
  // The two parsers

  // They agree on a name exactly if it has one slash, or none and is one of the exceptions.
  lemma ParsersAgreeIff(s: string)
    ensures DecodeComponentId(s) == Some(DecodeExtension(s)) <==> |Split(s)| == 2 || s in EXCEPTIONS
  {
    if '/' in s {
      var parts := SplitOnce(s).value;
      assert Split(s) == [parts.0] + Split(parts.1);
      if |Split(s)| == 2 {
        assert SplitOnce(parts.1).None?;
      } else {
        assert '/' in s && '/' !in parts.0;
      }
      ExceptionsHaveNoSlash(s);
    }
  }

  lemma ExceptionsHaveNoSlash(s: string)
    requires '/' in s
    ensures s !in EXCEPTIONS
  {
  }

  predicate IsExtension(id: ComponentId) {
    id.HealthCheck? || id.BasicAuthExtension? || id.BearerAuthExtension? || id.FileStorage?
  }

  lemma OneSlash(head: string, rest: string)
    requires '/' !in head && '/' !in rest
    ensures |Split(head + "/" + rest)| == 2
  {
    SplitsAt(head, rest);
  }

  lemma NameHasNoSlash(n: string)
    requires IsName(n)
    ensures '/' !in n
  {
  }

  lemma AuthNameParts(kind: string, o: NamespacedName)
    requires IsNamespacedName(o) && '/' !in kind
    ensures |Split(kind + "/" + o.namespace + "_" + o.name)| == 2
  {
    NameHasNoSlash(o.namespace);
    NameHasNoSlash(o.name);
    var rest := o.namespace + "_" + o.name;
    assert kind + "/" + o.namespace + "_" + o.name == kind + "/" + rest;
    OneSlash(kind, rest);
  }

  lemma AuthNames(o: NamespacedName)
    ensures ComponentName(BasicAuthExtension(o)) == "basicauth" + "/" + o.namespace + "_" + o.name
    ensures ComponentName(BearerAuthExtension(o)) == "bearertokenauth" + "/" + o.namespace + "_" + o.name
  {
    assert "basicauth" + "/" == "basicauth/" && "bearertokenauth" + "/" == "bearertokenauth/";
  }

  lemma StorageName(t: string)
    ensures ComponentName(FileStorage(t)) == "file_storage" + "/" + t
  {
    assert "file_storage" + "/" == "file_storage/";
  }

  lemma ExtensionParts(id: ComponentId)
    requires IsComponentId(id) && IsExtension(id) && !IsPlain(id)
    ensures |Split(ComponentName(id))| == 2
  {
    hide ComponentName, Split, IsName;
    match id
    case BasicAuthExtension(o) =>
      AuthNames(o);
      AuthNameParts("basicauth", o);
    case BearerAuthExtension(o) =>
      AuthNames(o);
      AuthNameParts("bearertokenauth", o);
    case FileStorage(t) =>
      StorageName(t);
      NameHasNoSlash(t);
      OneSlash("file_storage", t);
  }

  // An extension listed in the service section is read as the identifier it is defined under.
  lemma ExtensionsAgree(id: ComponentId)
    requires IsComponentId(id) && IsExtension(id)
    ensures DecodeComponentId(ComponentName(id)) == Some(DecodeExtension(ComponentName(id)))
  {
    hide ComponentName, DecodeComponentId, DecodeExtension, Split;
    ParsersAgreeIff(ComponentName(id));
    if IsPlain(id) {
      PlainIsException(id);
    } else {
      ExtensionParts(id);
    }
  }
}
