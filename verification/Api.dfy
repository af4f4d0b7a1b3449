/** The custom resources and the relations between them that a collector is compiled from. */
module Api {
  import opened Names
  import Ordering

  // A Go slice: a list read back from the API is nil or non-empty (`omitempty`), but code tells nil from empty.
  datatype Slice<+T> = Nil | Items(items: seq<T>) {
    function Elements(): seq<T> {
      if Nil? then [] else items
    }

    predicate AsReadFromApi() {
      Nil? || items != []
    }
  }

  datatype State = NoState | Ready | Failed

  datatype Transform = Transform(name: string, statements: string)

  datatype Tenant = Tenant(
    name: string,
    selectFromAllNamespaces: bool,
    fileStorage: bool,
    directory: string,
    transform: Transform,
    defaultPipelines: seq<string>,
    logSourceNamespaces: Slice<string>,
    subscriptions: Slice<NamespacedName>,
    connectedBridges: seq<string>,
    state: State)

  datatype Subscription = Subscription(
    id: NamespacedName,
    condition: string,
    specOutputs: seq<NamespacedName>,
    statusOutputs: seq<NamespacedName>)

  datatype Bridge = Bridge(name: string, source: string, target: string, condition: string)

  datatype BasicAuth = BasicAuth(secretRef: Option<NamespacedName>, usernameField: string, passwordField: string)
  datatype BearerAuth = BearerAuth(secretRef: Option<NamespacedName>, tokenField: string)
  datatype OutputAuth = OutputAuth(basic: Option<BasicAuth>, bearer: Option<BearerAuth>)

  // `kinds` lists the exporter sections that are set; `batch` holds the batch settings, opaque here;
  // `directory` is the directory part of the file exporter's path.
  datatype Output = Output(
    id: NamespacedName,
    kinds: set<ExporterKind>,
    auth: Option<OutputAuth>,
    batch: Option<string>,
    directory: string)

  type SecretData = map<string, string>

  datatype OutputWithSecretData = OutputWithSecretData(output: Output, secret: SecretData)

  datatype ConfigInput = ConfigInput(
    tenants: seq<Tenant>,
    subscriptions: map<NamespacedName, Subscription>,
    bridges: seq<Bridge>,
    outputs: seq<OutputWithSecretData>,
    tenantSubscriptions: map<string, seq<NamespacedName>>,
    subscriptionOutputs: map<NamespacedName, seq<NamespacedName>>,
    eventsToLogs: bool,
    debug: bool,
    dryRun: bool,
    axoflow: bool)
  {
    // Reading a missing key of a Go map gives the nil slice.
    function SubscriptionsOf(tenant: string): seq<NamespacedName> {
      if tenant in tenantSubscriptions then tenantSubscriptions[tenant] else []
    }

    function OutputsOf(subscription: NamespacedName): seq<NamespacedName> {
      if subscription in subscriptionOutputs then subscriptionOutputs[subscription] else []
    }
  }

  function StringKey(): NamespacedName -> string {
    (n: NamespacedName) => n.String()
  }

  function SortNames(names: seq<NamespacedName>): seq<NamespacedName> {
    Ordering.Sort(StringKey(), names)
  }

  lemma SortNamesKeeps(names: seq<NamespacedName>)
    ensures |SortNames(names)| == |names| && forall n :: n in SortNames(names) <==> n in names
  {
    Ordering.SortKeepsElements(StringKey(), names);
  }

  // Names are listed in the order of their strings, namespace first, and no name is lost or added.
  lemma NamesAreSorted(names: seq<NamespacedName>)
    ensures multiset(SortNames(names)) == multiset(names)
    ensures var r := SortNames(names);
            forall i, j | 0 <= i < j < |r| ::
              Ordering.Leq(r[i].namespace + "/" + r[i].name, r[j].namespace + "/" + r[j].name)
  {
    Ordering.SortSorts(StringKey(), names);
    var r := SortNames(names);
    forall i, j | 0 <= i < j < |r|
      ensures Ordering.Leq(r[i].namespace + "/" + r[i].name, r[j].namespace + "/" + r[j].name)
    {
      assert Ordering.Leq(StringKey()(r[i]), StringKey()(r[j]));
    }
  }

  // The first listed output with this name.
  function FindOutput(outputs: seq<OutputWithSecretData>, id: NamespacedName): (r: Option<Output>)
    ensures r.Some? <==> exists e :: e in outputs && e.output.id == id
    ensures r.Some? ==> r.value.id == id && exists e :: e in outputs && e.output == r.value
  {
    if outputs == [] then None
    else if outputs[0].output.id == id then
      assert outputs[0] in outputs;
      Some(outputs[0].output)
    else
      assert forall e :: e in outputs <==> e == outputs[0] || e in outputs[1..];
      FindOutput(outputs[1..], id)
  }

  // The name of the exporter of an output; empty when no supported section is set.
  function ExporterNameFor(output: Output): string {
    if OTLPGRPC in output.kinds then ComponentName(OutputExporter(OTLPGRPC, output.id))
    else if OTLPHTTP in output.kinds then ComponentName(OutputExporter(OTLPHTTP, output.id))
    else if Fluentforward in output.kinds then ComponentName(OutputExporter(Fluentforward, output.id))
    else if File in output.kinds then ComponentName(OutputExporter(File, output.id))
    else if Elasticsearch in output.kinds then ComponentName(OutputExporter(Elasticsearch, output.id))
    else if AWSS3 in output.kinds then ComponentName(OutputExporter(AWSS3, output.id))
    else ""
  }

  predicate HasOneKind(output: Output) {
    exists k: ExporterKind :: output.kinds == {k}
  }

  function KindOf(output: Output): (k: ExporterKind)
    requires HasOneKind(output)
    ensures output.kinds == {k}
  {
    if OTLPGRPC in output.kinds then OTLPGRPC
    else if OTLPHTTP in output.kinds then OTLPHTTP
    else if Fluentforward in output.kinds then Fluentforward
    else if File in output.kinds then File
    else if Elasticsearch in output.kinds then Elasticsearch
    else
      assert output.kinds == {AWSS3} by {
        var x: ExporterKind :| output.kinds == {x};
        assert x in output.kinds && x.AWSS3?;
      }
      AWSS3
  }

  lemma ExporterNameOfKind(output: Output)
    requires HasOneKind(output)
    ensures ExporterNameFor(output) == ComponentName(OutputExporter(KindOf(output), output.id))
  {
    var k := KindOf(output);
    assert forall x :: x in output.kinds <==> x == k;
  }

  // A traversal of a Go map: each key once, in any order.
  predicate Enumerates<K(==)>(order: seq<K>, keys: set<K>) {
    && Ordering.NoDup(order)
    && (set k | k in order) == keys
  }

  predicate UniqueTenants(tenants: seq<Tenant>) {
    forall i, j | 0 <= i < j < |tenants| :: tenants[i].name != tenants[j].name
  }

  predicate BridgesAgree(bridges: seq<Bridge>) {
    forall a, b | a in bridges && b in bridges && a.name == b.name :: a == b
  }

  // Every name in the input is a Kubernetes object name.
  predicate WellNamed(input: ConfigInput) {
    && (forall t | t in input.tenants :: IsName(t.name))
    && (forall t | t in input.tenantSubscriptions ::
         IsName(t) && forall s | s in input.tenantSubscriptions[t] :: IsNamespacedName(s))
    && (forall s | s in input.subscriptionOutputs ::
         IsNamespacedName(s) && forall o | o in input.subscriptionOutputs[s] :: IsNamespacedName(o))
    && (forall s | s in input.subscriptions :: IsNamespacedName(s))
    && (forall b | b in input.bridges :: IsName(b.name) && IsName(b.source) && IsName(b.target))
    && (forall e | e in input.outputs :: IsNamespacedName(e.output.id))
  }

  // Tenant logs reach the collector only when namespaces are listed or all are selected.
  predicate HasLogSources(tenant: Tenant) {
    tenant.logSourceNamespaces.Elements() != [] || tenant.selectFromAllNamespaces
  }

  // ---------------------------------------------------------------------------
  // What BuildConfigInputForCollector and ValidateConfigInput establish

  predicate TenantsIndexed(input: ConfigInput) {
    && UniqueTenants(input.tenants)
    && (forall t | t in input.tenants ::
          t.name in input.tenantSubscriptions
          && input.tenantSubscriptions[t.name] == t.subscriptions.Elements())
    && (forall n | n in input.tenantSubscriptions :: exists t :: t in input.tenants && t.name == n)
  }

  predicate SubscriptionsIndexed(input: ConfigInput) {
    && (forall t | t in input.tenantSubscriptions ::
          forall s | s in input.tenantSubscriptions[t] :: s in input.subscriptions)
    && (forall s | s in input.subscriptions ::
          && input.subscriptions[s].id == s
          && exists t :: t in input.tenantSubscriptions && s in input.tenantSubscriptions[t])
    && input.subscriptionOutputs.Keys == input.subscriptions.Keys
    && (forall s | s in input.subscriptions ::
          input.subscriptionOutputs[s] == input.subscriptions[s].statusOutputs)
  }

  predicate OutputsIndexed(input: ConfigInput) {
    && (forall s | s in input.subscriptionOutputs ::
          forall o | o in input.subscriptionOutputs[s] :: FindOutput(input.outputs, o).Some?)
    && (forall e | e in input.outputs ::
          exists s :: s in input.subscriptionOutputs && e.output.id in input.subscriptionOutputs[s])
  }

  predicate BridgesIndexed(input: ConfigInput) {
    && BridgesAgree(input.bridges)
    && forall b | b in input.bridges :: b.source in input.tenantSubscriptions && b.target in input.tenantSubscriptions
  }

  predicate OneKindEach(input: ConfigInput) {
    forall e | e in input.outputs :: HasOneKind(e.output)
  }

  predicate WellFormed(input: ConfigInput) {
    && WellNamed(input)
    && TenantsIndexed(input)
    && SubscriptionsIndexed(input)
    && OutputsIndexed(input)
    && BridgesIndexed(input)
    && OneKindEach(input)
  }
}
