/** A small input that meets every condition of the compiler theorems: logs of one tenant reach the output of
    another over a bridge. */
module Example {
  import opened Names
  import opened Api
  import opened Meaning

  const S := NamespacedName("ns", "s")
  const O := NamespacedName("ns", "o")

  function Listed(name: string, subscriptions: Slice<NamespacedName>): Tenant {
    Tenant(name, false, true, "", Transform("", ""), [], Items(["ns"]), subscriptions, ["ab"], Ready)
  }

  const OUTPUT := Output(O, {OTLPGRPC}, None, None, "")

  const INPUT := ConfigInput(
    [Listed("a", Nil), Listed("b", Items([S]))],
    map[S := Subscription(S, "true", [O], [O])],
    [Bridge("ab", "a", "b", "true"), Bridge("ab", "a", "b", "true")],
    [OutputWithSecretData(OUTPUT, map[])],
    map["a" := [], "b" := [S]],
    map[S := [O]],
    true, false, false, true)

  lemma NamesAreNames()
    ensures IsName("a") && IsName("b") && IsName("ab") && IsName("ns") && IsName("s") && IsName("o")
    ensures IsNamespacedName(S) && IsNamespacedName(O)
  {
  }

  lemma InputIsWellNamed()
    ensures WellNamed(INPUT)
  {
    hide IsName;
    NamesAreNames();
  }

  lemma TenantsAreIndexed()
    ensures TenantsIndexed(INPUT) && BridgesIndexed(INPUT)
  {
    assert Listed("a", Nil) == INPUT.tenants[0] && Listed("b", Items([S])) == INPUT.tenants[1];
    assert Listed("a", Nil) in INPUT.tenants && Listed("b", Items([S])) in INPUT.tenants;
  }

  lemma SubscriptionsAreIndexed()
    ensures SubscriptionsIndexed(INPUT)
  {
    assert S in INPUT.tenantSubscriptions["b"];
  }

  lemma OutputsAreIndexed()
    ensures OutputsIndexed(INPUT) && OneKindEach(INPUT) && FindOutput(INPUT.outputs, O) == Some(OUTPUT)
  {
    assert OUTPUT.kinds == {OTLPGRPC} && HasOneKind(OUTPUT);
    assert INPUT.outputs[0] == OutputWithSecretData(OUTPUT, map[]);
    assert O in INPUT.subscriptionOutputs[S];
  }

  // The conditions of the theorems can be met, and there is something to deliver.
  lemma LogsCrossTheBridge()
    ensures WellFormed(INPUT) && !INPUT.dryRun
    ensures INPUT.tenants[0].logSourceNamespaces.Items? && Delivers(INPUT, "a", O)
  {
    hide WellNamed, TenantsIndexed, SubscriptionsIndexed, OutputsIndexed, BridgesIndexed, OneKindEach;
    InputIsWellNamed();
    TenantsAreIndexed();
    SubscriptionsAreIndexed();
    OutputsAreIndexed();
    assert Bridge("ab", "a", "b", "true") == INPUT.bridges[0];
    assert Bridged(INPUT, "a", "b");
    assert BridgePath(INPUT, ["a", "b"]);
    assert Subscribes(INPUT, "b", S, O);
    assert DeliversAlong(INPUT, ["a", "b"], S, "a", O);
  }
}
