/** Small inputs at which the code does not do what one would wish, one for each exact condition that can fail. */
module Counterexamples {
  import opened Names
  import opened Api
  import opened Ownership
  import opened ApiClient
  import opened Convergence
  import opened Rounds
  import opened Assembly
  import opened Closure
  import opened Wiring
  import Credentials
  import Example

  // ---------------------------------------------------------------------------
  // Two outputs of one bare name in two namespaces

  const S := NamespacedName("ns", "s")
  const NEAR := Output(NamespacedName("ns", "o"), {OTLPGRPC}, None, Some("small"), "")
  const FAR := Output(NamespacedName("far", "o"), {OTLPGRPC}, None, Some("large"), "")

  const CLASHING := ConfigInput(
    [Tenant("b", false, false, "", Transform("", ""), [], Items(["ns"]), Items([S]), [], Ready)],
    map[S := Subscription(S, "true", [NEAR.id, FAR.id], [NEAR.id, FAR.id])],
    [],
    [OutputWithSecretData(NEAR, map[]), OutputWithSecretData(FAR, map[])],
    map["b" := [S]],
    map[S := [NEAR.id, FAR.id]],
    false, false, false, true)

  lemma ClashingNames()
    ensures IsName("b") && IsNamespacedName(S) && IsNamespacedName(NEAR.id) && IsNamespacedName(FAR.id)
  {
  }

  lemma ClashingIsWellNamed()
    ensures WellNamed(CLASHING)
  {
    hide IsName;
    ClashingNames();
  }

  lemma ClashingOutputs()
    ensures OneKindEach(CLASHING) && OutputsIndexed(CLASHING)
    ensures OutputWithSecretData(NEAR, map[]) in CLASHING.outputs
            && OutputWithSecretData(FAR, map[]) in CLASHING.outputs
  {
    assert NEAR.kinds == {OTLPGRPC} && HasOneKind(NEAR) && FAR.kinds == {OTLPGRPC} && HasOneKind(FAR);
    assert CLASHING.outputs[0] == OutputWithSecretData(NEAR, map[]);
    assert CLASHING.outputs[1] == OutputWithSecretData(FAR, map[]);
    assert NEAR.id in CLASHING.subscriptionOutputs[S] && FAR.id in CLASHING.subscriptionOutputs[S];
  }

  lemma ClashingIsWellFormed()
    ensures WellFormed(CLASHING)
  {
    hide WellNamed, OutputsIndexed, OneKindEach;
    ClashingIsWellNamed();
    ClashingOutputs();
    assert CLASHING.tenants[0].name == "b" && CLASHING.tenants[0] in CLASHING.tenants;
    assert S in CLASHING.tenantSubscriptions["b"];
  }

  // The records of one of them carry the exporter name of the other, and one is batched by the other's settings.
  lemma OneIsMislabelled(orders: Orders, config: CollectorConfig)
    requires Assembled(CLASHING, orders, config)
    ensures exists e :: e in CLASHING.outputs && !LabelledRight(CLASHING, config, e.output)
    ensures exists e :: e in CLASHING.outputs && !BatchedRight(config, e.output)
  {
    hide Assembled, LabelledRight, BatchedRight, WellNamed, OutputsIndexed;
    ClashingOutputs();
    ClashingNames();
    ExporterLabelsAreRight(CLASHING, orders, config);
    BatchesAreRight(CLASHING, orders, config);
    if ExporterNameFor(NEAR) == ExporterNameFor(FAR) {
      DistinctExportersAreNamedApart(NEAR, FAR);
      assert false;
    }
  }

  // ---------------------------------------------------------------------------
  // Two tenants with one transform name

  function Transforming(name: string, statements: string): Tenant {
    Tenant(name, false, false, "", Transform("t", statements), [], Nil, Nil, [], Ready)
  }

  const TRANSFORMING := ConfigInput(
    [Transforming("a", "keep"), Transforming("b", "drop")], map[], [], [], map["a" := [], "b" := []], map[],
    false, false, false, true)

  lemma OneIsTransformedByTheOther(orders: Orders, config: CollectorConfig)
    requires Assembled(TRANSFORMING, orders, config)
    ensures exists t :: t in TRANSFORMING.tenants && !TransformedRight(config, t)
  {
    hide Assembled, TransformedRight;
    TransformsAreRight(TRANSFORMING, orders, config);
    assert TRANSFORMING.tenants[0] == Transforming("a", "keep") && TRANSFORMING.tenants[1] == Transforming("b", "drop");
    assert Transforming("a", "keep") in TRANSFORMING.tenants && Transforming("b", "drop") in TRANSFORMING.tenants;
  }

  // ---------------------------------------------------------------------------
  // A default pipeline that does not exist

  const DANGLING := Example.INPUT.(
    tenants := [Example.Listed("a", Nil), Example.Listed("b", Items([S])).(defaultPipelines := ["logs/nowhere"])])

  lemma NowhereIsNoPipeline()
    ensures !NamesPipeline(DANGLING, "logs/nowhere")
  {
    forall id
      ensures PipelineName(id) != "logs/nowhere"
    {
      assert "logs/nowhere"[5] == 'n';
      match id
      case Root(t) => assert PipelineName(id)[5] == 't';
      case SubscriptionPipeline(t, s) => assert PipelineName(id)[5] == 't';
      case OutputPipeline(s, o) => assert PipelineName(id)[5] == 'o';
      case TenantMetrics => assert PipelineName(id)[0] == 'm';
      case OutputMetrics => assert PipelineName(id)[0] == 'm';
      case OutputBytes => assert PipelineName(id)[0] == 'm';
    }
  }

  // Most of the conditions do not look at the tenants.
  lemma OtherTenants(input: ConfigInput, tenants: seq<Tenant>)
    requires SubscriptionsIndexed(input) && OutputsIndexed(input) && BridgesIndexed(input) && OneKindEach(input)
    ensures var other := input.(tenants := tenants);
            SubscriptionsIndexed(other) && OutputsIndexed(other) && BridgesIndexed(other) && OneKindEach(other)
  {
  }

  lemma TenantsNamed(input: ConfigInput, tenants: seq<Tenant>)
    requires WellNamed(input) && forall t | t in tenants :: IsName(t.name)
    ensures WellNamed(input.(tenants := tenants))
  {
    hide IsName;
  }

  lemma DanglingTenants()
    ensures TenantsIndexed(DANGLING)
  {
    var a, b := DANGLING.tenants[0], DANGLING.tenants[1];
    assert a in DANGLING.tenants && b in DANGLING.tenants;
  }

  lemma DanglingIsWellFormed()
    ensures WellFormed(DANGLING)
  {
    hide WellNamed, TenantsIndexed, SubscriptionsIndexed, OutputsIndexed, BridgesIndexed, OneKindEach, IsName;
    Example.LogsCrossTheBridge();
    Example.NamesAreNames();
    OtherTenants(Example.INPUT, DANGLING.tenants);
    TenantsNamed(Example.INPUT, DANGLING.tenants);
    DanglingTenants();
  }

  lemma DefaultDangles(orders: Orders, config: CollectorConfig)
    requires Assembled(DANGLING, orders, config)
    ensures !TablesClosed(config)
  {
    hide WellFormed, Assembled, TablesClosed, NamesPipeline;
    var tenant := DANGLING.tenants[1];
    DanglingIsWellFormed();
    NowhereIsNoPipeline();
    assert DANGLING.SubscriptionsOf(tenant.name) == [S] && tenant.defaultPipelines == ["logs/nowhere"];
    assert "logs/nowhere" in tenant.defaultPipelines;
    MissingDefaultDangles(DANGLING, orders, config, tenant);
  }

  // ---------------------------------------------------------------------------
  // Two tenants with a bridge and no subscription

  const BRIDGED := ConfigInput(
    [Example.Listed("a", Nil), Example.Listed("b", Nil)], map[], [Bridge("ab", "a", "b", "true")], [],
    map["a" := [], "b" := []], map[], false, false, false, true)

  lemma BridgedIsWellFormed()
    ensures WellFormed(BRIDGED)
  {
    hide IsName;
    Example.NamesAreNames();
    var a, b := BRIDGED.tenants[0], BRIDGED.tenants[1];
    assert a in BRIDGED.tenants && b in BRIDGED.tenants;
  }

  // The connector that counts outputs has nothing to count.
  lemma OneConnectorIsLoose(orders: Orders, config: CollectorConfig)
    requires OrdersOf(BRIDGED, orders) && Assembled(BRIDGED, orders, config)
    ensures exists k :: k in config.connectors && !IsJoined(config, k)
  {
    hide Assembled, OrdersOf, WellFormed, IsJoined;
    BridgedIsWellFormed();
    ConnectorsAreJoinedIff(BRIDGED, orders, config);
  }

  // ---------------------------------------------------------------------------
  // Credentials of two outputs whose sanitized names collide

  function Secured(id: NamespacedName, token: string): OutputWithSecretData {
    var auth := OutputAuth(None, Some(BearerAuth(Some(id), "")));
    OutputWithSecretData(Output(id, {OTLPGRPC}, Some(auth), None, ""), map["token" := token])
  }

  const FIRST := Secured(NamespacedName("a-b", "c"), "red")
  const SECOND := Secured(NamespacedName("a", "b-c"), "blue")

  lemma BothNamed()
    ensures IsNamespacedName(FIRST.output.id) && IsNamespacedName(SECOND.output.id)
    ensures Credentials.KeyBody(FIRST.output.id) == Credentials.KeyBody(SECOND.output.id)
  {
    Credentials.SanitizedNamesCanCollide();
  }

  // Whatever the derived secret holds, one of the two outputs gets the other's token.
  lemma OneGetsTheOthersToken(collector: string, base: seq<Credentials.EnvVar>, data: SecretData)
    requires Credentials.Derived([FIRST, SECOND], data)
    ensures var env := base + Credentials.AuthEnv(Credentials.AuthSecretName(collector),
                                                  Credentials.CredentialsOfAll([FIRST, SECOND]));
            !Credentials.Intact([FIRST, SECOND], env, Credentials.AuthSecretName(collector), data)
  {
    hide Credentials.Derived, Credentials.Intact, Credentials.SecretKey, Credentials.KeyBody,
         Credentials.CredentialsOfAll, Credentials.AuthEnv, Credentials.AuthSecretName, IsNamespacedName;
    BothNamed();
    var outputs := [FIRST, SECOND];
    Credentials.CredentialsArriveIntact(collector, base, outputs, data);
    var c, d := Credentials.Token(FIRST.output.id), Credentials.Token(SECOND.output.id);
    Credentials.SecretKeyClash(c, d);
    assert outputs[0] == FIRST && outputs[1] == SECOND && FIRST in outputs && SECOND in outputs;
    assert Credentials.Provided(FIRST, c) == Some(Some("red")) && Credentials.Provided(SECOND, d) == Some(Some("blue"));
  }

  // ---------------------------------------------------------------------------
  // Tenant a selects the namespace, tenant b does not but owns the output

  const ALL := Selector("all")
  const OUTPUT := Key(OutputKind, NamespacedName("ns", "o"))

  const HANDOVER := Selection(map[ALL := {"ns"}], map["a" := [ALL], "b" := []])

  // In this order one round gives the output up after a ran, and leaves it free although a selects it.
  lemma OneRoundIsNotEnough()
    ensures IsRound(HANDOVER, ["a", "b"]) && OwnersExist(HANDOVER, map[OUTPUT := "b"])
    ensures !Stable(HANDOVER, Passes(HANDOVER, ["a", "b"], map[OUTPUT := "b"]))
  {
    var owners: map<Key, string> := map[OUTPUT := "b"];
    assert HANDOVER.Selects("a", OUTPUT) by { assert ALL in HANDOVER.tenants["a"]; }
    assert !HANDOVER.Selects("b", OUTPUT);
    PassesAreSeparate(HANDOVER, ["a", "b"], owners, OUTPUT);
    assert ["a", "b"][..1] == ["a"] && ["a"][..0] == [];
    assert OwnerAfter(HANDOVER, ["a"], OUTPUT, "b") == "b";
    assert OwnerAfter(HANDOVER, ["a", "b"], OUTPUT, "b") == "";
    assert !Settled(HANDOVER, OUTPUT, "");
  }

  // ---------------------------------------------------------------------------
  // Two tenants select one output

  const DISPUTE := Selection(map[ALL := {"ns"}], map["a" := [ALL], "b" := [ALL]])

  const OWNED: Store := map[OUTPUT := Resource(OUTPUT, 0, [], false, "a", Ready, [])]

  // One run of b is enough: a, which owns the ready output and selects it, is never Ready again.
  method OwnerIsStopped(order: seq<string>) returns (written: seq<Written>)
    requires forall t | t in order :: t in {"a", "b"}
    ensures |written| == |order| && forall i | 0 <= i < |order| && order[i] == "a" :: NeverReady(written[i].statuses)
  {
    assert DISPUTE.Selects("a", OUTPUT) by { assert ALL in DISPUTE.tenants["a"]; }
    assert DISPUTE.Selects("b", OUTPUT) by { assert ALL in DISPUTE.tenants["b"]; }
    assert OWNED[OUTPUT].key == OUTPUT && Initial(OWNED) && LegalLog(OWNED, []);
    var after;
    after, written := DisputeStopsOwner(DISPUTE, "b", order, OUTPUT, OWNED, []);
  }
}
