/** BuildConfigInputForCollector and ValidateConfigInput: from API objects to the input of the compiler. */
module Collector {
  import opened Names
  import Ordering
  import opened Api
  import opened Assembly
  import opened Closure
  import opened Credentials
  import Secrets
  import Volumes

  // What the API server answers while one input is built: the tenants the selector matches, and every
  // other object that can be fetched. A missing key stands for any failure to fetch it.
  datatype Snapshot = Snapshot(
    tenants: seq<Tenant>,
    subscriptions: map<NamespacedName, Subscription>,
    bridges: map<string, Bridge>,
    outputs: map<NamespacedName, Output>,
    secrets: map<NamespacedName, SecretData>)

  // Objects are stored under their own names, which are Kubernetes names; an output has one exporter section.
  predicate IsSnapshot(api: Snapshot) {
    && UniqueTenants(api.tenants)
    && (forall t | t in api.tenants ::
          IsName(t.name) && forall s | s in t.subscriptions.Elements() :: IsNamespacedName(s))
    && (forall s | s in api.subscriptions ::
          IsNamespacedName(s) && api.subscriptions[s].id == s
          && forall o | o in api.subscriptions[s].statusOutputs :: IsNamespacedName(o))
    && (forall b | b in api.bridges ::
          api.bridges[b].name == b && IsName(b) && IsName(api.bridges[b].source) && IsName(api.bridges[b].target))
    && (forall o | o in api.outputs :: api.outputs[o].id == o && HasOneKind(api.outputs[o]))
  }

  datatype BuildError =
    | TenantFailed
    | SubscriptionNotFound(subscription: NamespacedName)
    | BridgeNotFound(bridge: string)
    | OutputNotFound(output: NamespacedName)
    | SecretNotFound(output: NamespacedName)

  // The error names an output that cannot be fetched, or whose secret cannot.
  predicate OutputMissing(api: Snapshot, o: NamespacedName, e: BuildError) {
    || (e == OutputNotFound(o) && o !in api.outputs)
    || (e == SecretNotFound(o) && o in api.outputs && !OutputFetchable(api, o))
  }

  // The error names something that the tenants' statuses mention and that cannot be fetched, or a tenant has failed.
  ghost predicate Unfetched(api: Snapshot, e: BuildError) {
    match e
    case TenantFailed => exists t :: t in api.tenants && t.state.Failed?
    case SubscriptionNotFound(s) =>
      s !in api.subscriptions && exists t :: t in api.tenants && s in t.subscriptions.Elements()
    case BridgeNotFound(b) => b !in api.bridges && exists t :: t in api.tenants && b in t.connectedBridges
    case OutputNotFound(o) => OutputMissing(api, o, e) && IsListedOutput(api, o)
    case SecretNotFound(o) => OutputMissing(api, o, e) && IsListedOutput(api, o)
  }

  ghost predicate IsListedOutput(api: Snapshot, o: NamespacedName) {
    exists t, s :: t in api.tenants && s in t.subscriptions.Elements() && s in api.subscriptions
                   && o in api.subscriptions[s].statusOutputs
  }

  // Exactly one authentication method must name a secret.
  function SecretRefOf(auth: OutputAuth): Option<NamespacedName> {
    var basic := if auth.basic.Some? then auth.basic.value.secretRef else None;
    var bearer := if auth.bearer.Some? then auth.bearer.value.secretRef else None;
    if basic.Some? && bearer.None? then basic
    else if basic.None? && bearer.Some? then bearer
    else None
  }

  lemma SecretRefIs(auth: OutputAuth)
    ensures var basic := auth.basic.Some? && auth.basic.value.secretRef.Some?;
            var bearer := auth.bearer.Some? && auth.bearer.value.secretRef.Some?;
            SecretRefOf(auth) == if basic && !bearer then auth.basic.value.secretRef
                                 else if bearer && !basic then auth.bearer.value.secretRef else None
  {
  }

  method QueryOutputSecretWithData(api: Snapshot, auth: OutputAuth) returns (r: Option<SecretData>)
    ensures var basic := auth.basic.Some? && auth.basic.value.secretRef.Some?;
            var bearer := auth.bearer.Some? && auth.bearer.value.secretRef.Some?;
            if basic && !bearer then r == Get(api.secrets, auth.basic.value.secretRef.value)
            else if bearer && !basic then r == Get(api.secrets, auth.bearer.value.secretRef.value)
            else r == None
  {
    var matches: seq<NamespacedName> := [];
    if auth.basic.Some? && auth.basic.value.secretRef.Some? {
      matches := matches + [auth.basic.value.secretRef.value];
    }
    if auth.bearer.Some? && auth.bearer.value.secretRef.Some? {
      matches := matches + [auth.bearer.value.secretRef.value];
    }
    if |matches| != 1 || matches[0] !in api.secrets {
      return None;
    }
    return Some(api.secrets[matches[0]]);
  }

  // ---------------------------------------------------------------------------
  // Tenants, their subscriptions and their bridges

  predicate TenantsRead(api: Snapshot, n: nat, listed: map<string, seq<NamespacedName>>)
    requires n <= |api.tenants|
  {
    && (forall i | 0 <= i < n ::
          api.tenants[i].name in listed
          && listed[api.tenants[i].name] == api.tenants[i].subscriptions.Elements()
          && !api.tenants[i].state.Failed?)
    && (forall t | t in listed :: exists i :: 0 <= i < n && api.tenants[i].name == t)
  }

  predicate SubscriptionsRead(api: Snapshot, listed: map<string, seq<NamespacedName>>,
                              subscriptions: map<NamespacedName, Subscription>)
  {
    && (forall t | t in listed :: forall s | s in listed[t] :: s in subscriptions)
    && (forall s | s in subscriptions ::
          s in api.subscriptions && subscriptions[s] == api.subscriptions[s]
          && exists t :: t in listed && s in listed[t])
  }

  predicate BridgesRead(api: Snapshot, bridges: seq<Bridge>) {
    forall b | b in bridges :: b.name in api.bridges && api.bridges[b.name] == b
  }

  method ReadSubscriptions(api: Snapshot, names: seq<NamespacedName>, start: map<NamespacedName, Subscription>)
    returns (r: Result<map<NamespacedName, Subscription>, BuildError>)
    ensures r.Ok? ==> r.value.Keys == start.Keys + (set s | s in names)
    ensures r.Ok? ==> forall s | s in r.value ::
              (s in start && r.value[s] == start[s]) || (s in api.subscriptions && r.value[s] == api.subscriptions[s])
    ensures r.Ok? <==> forall s | s in names :: s in api.subscriptions
    ensures r.Err? ==> exists s :: s in names && s !in api.subscriptions && r.error == SubscriptionNotFound(s)
  {
    var m := start;
    for i := 0 to |names|
      invariant m.Keys == start.Keys + (set s | s in names[..i])
      invariant forall s | s in m ::
                  (s in start && m[s] == start[s]) || (s in api.subscriptions && m[s] == api.subscriptions[s])
      invariant forall s | s in names[..i] :: s in api.subscriptions
    {
      if names[i] !in api.subscriptions {
        assert names[i] in names;
        return Err(SubscriptionNotFound(names[i]));
      }
      m := m[names[i] := api.subscriptions[names[i]]];
      assert names[..i + 1] == names[..i] + [names[i]];
    }
    assert names[..|names|] == names;
    r := Ok(m);
  }

  predicate AllFound(api: Snapshot, names: seq<string>) {
    forall n | n in names :: n in api.bridges
  }

  function Fetched(api: Snapshot, names: seq<string>): seq<Bridge>
    requires AllFound(api, names)
  {
    seq(|names|, i requires 0 <= i < |names| => assert names[i] in names; api.bridges[names[i]])
  }

  lemma FetchedMembers(api: Snapshot, names: seq<string>)
    requires IsSnapshot(api) && AllFound(api, names)
    ensures BridgesRead(api, Fetched(api, names))
    ensures forall n | n in names :: api.bridges[n] in Fetched(api, names)
  {
    hide HasOneKind;
    var bridges := Fetched(api, names);
    forall n | n in names
      ensures api.bridges[n] in bridges
    {
      var i :| 0 <= i < |names| && names[i] == n;
      assert bridges[i] == api.bridges[n];
    }
    forall b | b in bridges
      ensures b.name in api.bridges && api.bridges[b.name] == b
    {
      var i :| 0 <= i < |bridges| && bridges[i] == b;
      assert names[i] in names;
    }
  }

  method ReadBridges(api: Snapshot, names: seq<string>, start: seq<Bridge>) returns (r: Result<seq<Bridge>, BuildError>)
    ensures r.Ok? <==> AllFound(api, names)
    ensures r.Ok? ==> r.value == start + Fetched(api, names)
    ensures r.Err? ==> exists n :: n in names && n !in api.bridges && r.error == BridgeNotFound(n)
  {
    var bridges := start;
    for i := 0 to |names|
      invariant AllFound(api, names[..i]) && bridges == start + Fetched(api, names[..i])
    {
      if names[i] !in api.bridges {
        assert names[i] in names;
        return Err(BridgeNotFound(names[i]));
      }
      assert names[..i + 1] == names[..i] + [names[i]];
      assert Fetched(api, names[..i + 1]) == Fetched(api, names[..i]) + [api.bridges[names[i]]];
      bridges := bridges + [api.bridges[names[i]]];
    }
    assert names[..|names|] == names;
    r := Ok(bridges);
  }

  // The bridges that the tenants list, tenant by tenant; a bridge between two listed tenants comes twice.
  function ListedBridges(api: Snapshot, tenants: seq<Tenant>): seq<Bridge>
    requires forall t | t in tenants :: AllFound(api, t.connectedBridges)
  {
    if tenants == [] then []
    else
      var n := |tenants| - 1;
      ListedBridges(api, tenants[..n]) + Fetched(api, tenants[n].connectedBridges)
  }

  datatype TenantPart = TenantPart(
    listed: map<string, seq<NamespacedName>>,
    subscriptions: map<NamespacedName, Subscription>,
    bridges: seq<Bridge>)

  predicate TenantPartRead(api: Snapshot, n: nat, part: TenantPart)
    requires n <= |api.tenants|
  {
    && TenantsRead(api, n, part.listed)
    && SubscriptionsRead(api, part.listed, part.subscriptions)
    && (forall t | t in api.tenants[..n] :: TenantFetchable(api, t))
    && part.bridges == ListedBridges(api, api.tenants[..n])
  }

  // Nothing stands in the way of reading this tenant.
  predicate TenantFetchable(api: Snapshot, t: Tenant) {
    && !t.state.Failed? && AllFound(api, t.connectedBridges)
    && forall s | s in t.subscriptions.Elements() :: s in api.subscriptions
  }

  lemma SubscriptionsReadStep(api: Snapshot, listed: map<string, seq<NamespacedName>>, tenant: string,
                              names: seq<NamespacedName>, before: map<NamespacedName, Subscription>,
                              subscriptions: map<NamespacedName, Subscription>)
    requires SubscriptionsRead(api, listed, before) && tenant !in listed
    requires subscriptions.Keys == before.Keys + (set s | s in names)
    requires forall s | s in subscriptions ::
               (s in before && subscriptions[s] == before[s])
               || (s in api.subscriptions && subscriptions[s] == api.subscriptions[s])
    ensures SubscriptionsRead(api, listed[tenant := names], subscriptions)
  {
    var listed' := listed[tenant := names];
    forall s | s in subscriptions
      ensures exists t :: t in listed' && s in listed'[t]
    {
      if s in before {
        var t :| t in listed && s in listed[t];
        assert t in listed' && s in listed'[t];
      } else {
        assert s in listed'[tenant];
      }
    }
  }

  lemma NotYetListed(api: Snapshot, n: nat, listed: map<string, seq<NamespacedName>>)
    requires UniqueTenants(api.tenants) && n < |api.tenants| && TenantsRead(api, n, listed)
    ensures api.tenants[n].name !in listed
  {
  }

  lemma TenantsReadStep(api: Snapshot, n: nat, listed: map<string, seq<NamespacedName>>)
    requires UniqueTenants(api.tenants) && n < |api.tenants| && TenantsRead(api, n, listed)
    requires !api.tenants[n].state.Failed?
    ensures TenantsRead(api, n + 1, listed[api.tenants[n].name := api.tenants[n].subscriptions.Elements()])
  {
  }

  method ReadTenants(api: Snapshot) returns (r: Result<TenantPart, BuildError>)
    requires IsSnapshot(api)
    ensures r.Ok? ==> TenantPartRead(api, |api.tenants|, r.value)
    ensures r.Ok? <==> forall t | t in api.tenants :: TenantFetchable(api, t)
    ensures r.Err? ==> Unfetched(api, r.error)
  {
    hide HasOneKind;
    hide SubscriptionsRead;
    hide TenantsRead;
    hide IsSnapshot;
    var part := TenantPart(map[], map[], []);
    NothingRead(api);
    assert UniqueTenants(api.tenants) by { SnapshotTenants(api); }
    for i := 0 to |api.tenants|
      invariant TenantPartRead(api, i, part)
    {
      assert api.tenants[..i + 1] == api.tenants[..i] + [api.tenants[i]];
      var tenant := api.tenants[i];
      assert tenant in api.tenants;
      if tenant.state.Failed? {
        return Err(TenantFailed);
      }
      var names := tenant.subscriptions.Elements();
      var subscriptions := ReadSubscriptions(api, names, part.subscriptions);
      if subscriptions.Err? {
        return Err(subscriptions.error);
      }
      var bridges := ReadBridges(api, tenant.connectedBridges, part.bridges);
      if bridges.Err? {
        return Err(bridges.error);
      }
      NotYetListed(api, i, part.listed);
      SubscriptionsReadStep(api, part.listed, tenant.name, names, part.subscriptions, subscriptions.value);
      TenantsReadStep(api, i, part.listed);
      assert api.tenants[..i + 1][..i] == api.tenants[..i];
      part := TenantPart(part.listed[tenant.name := names], subscriptions.value, bridges.value);
    }
    assert api.tenants[..|api.tenants|] == api.tenants;
    r := Ok(part);
  }

  lemma NothingRead(api: Snapshot)
    ensures TenantPartRead(api, 0, TenantPart(map[], map[], []))
  {
  }

  lemma SnapshotTenants(api: Snapshot)
    requires IsSnapshot(api)
    ensures UniqueTenants(api.tenants)
  {
  }

  // ---------------------------------------------------------------------------
  // Outputs of the subscriptions, with their secrets

  predicate OutputsRead(api: Snapshot, outputs: seq<OutputWithSecretData>) {
    forall e | e in outputs ::
      && e.output.id in api.outputs && api.outputs[e.output.id] == e.output
      && (e.output.auth.Some? ==>
            var ref := SecretRefOf(e.output.auth.value);
            ref.Some? && ref.value in api.secrets && e.secret == api.secrets[ref.value])
      && (e.output.auth.None? ==> e.secret == map[])
  }

  // The output exists, and its secret if it needs one.
  predicate OutputFetchable(api: Snapshot, o: NamespacedName) {
    && o in api.outputs
    && (api.outputs[o].auth.Some? ==>
          var ref := SecretRefOf(api.outputs[o].auth.value); ref.Some? && ref.value in api.secrets)
  }

  ghost predicate Contains(outputs: seq<OutputWithSecretData>, o: NamespacedName) {
    exists e :: e in outputs && e.output.id == o
  }

  method ReadOutputs(api: Snapshot, names: seq<NamespacedName>, start: seq<OutputWithSecretData>)
    returns (r: Result<seq<OutputWithSecretData>, BuildError>)
    requires IsSnapshot(api) && OutputsRead(api, start)
    ensures r.Ok? ==> OutputsRead(api, r.value) && start <= r.value
    ensures r.Ok? ==> forall o | o in names :: Contains(r.value, o)
    ensures r.Ok? ==> forall e | e in r.value :: e in start || e.output.id in names
    ensures r.Ok? <==> forall o | o in names :: OutputFetchable(api, o)
    ensures r.Err? ==> exists o :: o in names && OutputMissing(api, o, r.error)
  {
    hide HasOneKind;
    hide SecretRefOf;
    var outputs := start;
    for i := 0 to |names|
      invariant OutputsRead(api, outputs) && start <= outputs
      invariant forall o | o in names[..i] :: Contains(outputs, o)
      invariant forall e | e in outputs :: e in start || e.output.id in names
      invariant forall o | o in names[..i] :: OutputFetchable(api, o)
    {
      assert names[i] in names;
      if names[i] !in api.outputs {
        return Err(OutputNotFound(names[i]));
      }
      var output := api.outputs[names[i]];
      var e := OutputWithSecretData(output, map[]);
      if output.auth.Some? {
        SecretRefIs(output.auth.value);
        var secret := QueryOutputSecretWithData(api, output.auth.value);
        if secret.None? {
          return Err(SecretNotFound(names[i]));
        }
        e := OutputWithSecretData(output, secret.value);
      }
      ghost var before := outputs;
      outputs := outputs + [e];
      assert names[..i + 1] == names[..i] + [names[i]];
      assert e in outputs;
      assert forall x :: x in outputs <==> x in before || x == e;
      assert forall o :: Contains(before, o) ==> Contains(outputs, o);
    }
    assert names[..|names|] == names;
    r := Ok(outputs);
  }

  datatype OutputPart = OutputPart(
    subscriptionOutputs: map<NamespacedName, seq<NamespacedName>>,
    outputs: seq<OutputWithSecretData>)

  ghost predicate OutputPartRead(api: Snapshot, subscriptions: map<NamespacedName, Subscription>,
                                 done: seq<NamespacedName>, part: OutputPart)
  {
    && part.subscriptionOutputs.Keys == (set s | s in done)
    && (forall s | s in part.subscriptionOutputs ::
          s in subscriptions && part.subscriptionOutputs[s] == subscriptions[s].statusOutputs
          && forall o | o in part.subscriptionOutputs[s] :: Contains(part.outputs, o))
    && OutputsRead(api, part.outputs)
    && (forall e | e in part.outputs ::
          exists s :: s in part.subscriptionOutputs && e.output.id in part.subscriptionOutputs[s])
  }

  lemma OutputPartStep(api: Snapshot, subscriptions: map<NamespacedName, Subscription>, done: seq<NamespacedName>,
                       s: NamespacedName, part: OutputPart, outputs: seq<OutputWithSecretData>)
    requires OutputPartRead(api, subscriptions, done, part) && s in subscriptions && s !in done
    requires OutputsRead(api, outputs) && part.outputs <= outputs
    requires forall o | o in subscriptions[s].statusOutputs :: Contains(outputs, o)
    requires forall e | e in outputs :: e in part.outputs || e.output.id in subscriptions[s].statusOutputs
    ensures OutputPartRead(api, subscriptions, done + [s],
                           OutputPart(part.subscriptionOutputs[s := subscriptions[s].statusOutputs], outputs))
  {
    hide OutputsRead;
    var som := part.subscriptionOutputs[s := subscriptions[s].statusOutputs];
    assert forall e :: e in part.outputs ==> e in outputs;
    forall e | e in outputs
      ensures exists t :: t in som && e.output.id in som[t]
    {
      if e in part.outputs {
        var t :| t in part.subscriptionOutputs && e.output.id in part.subscriptionOutputs[t];
        assert t in som && e.output.id in som[t];
      } else {
        assert s in som && e.output.id in som[s];
      }
    }
    assert forall o :: Contains(part.outputs, o) ==> Contains(outputs, o);
  }

  method ReadAllOutputs(api: Snapshot, subscriptions: map<NamespacedName, Subscription>, order: seq<NamespacedName>)
    returns (r: Result<OutputPart, BuildError>)
    requires IsSnapshot(api) && Enumerates(order, subscriptions.Keys)
    requires forall s | s in subscriptions :: subscriptions[s].id == s
    ensures r.Ok? ==> OutputPartRead(api, subscriptions, order, r.value)
    ensures r.Ok? <==> forall s | s in subscriptions ::
                         forall o | o in subscriptions[s].statusOutputs :: OutputFetchable(api, o)
    ensures r.Err? ==> exists s, o :: s in subscriptions && o in subscriptions[s].statusOutputs
                                      && OutputMissing(api, o, r.error)
  {
    hide IsSnapshot;
    hide OutputMissing;
    hide OutputPartRead;
    hide Contains;
    hide OutputFetchable;
    var part := OutputPart(map[], []);
    NoOutputsRead(api, subscriptions);
    for i := 0 to |order|
      invariant OutputPartRead(api, subscriptions, order[..i], part)
      invariant forall s | s in order[..i] :: s in subscriptions
                  && forall o | o in subscriptions[s].statusOutputs :: OutputFetchable(api, o)
    {
      assert order[i] in subscriptions.Keys;
      var subscription := subscriptions[order[i]];
      var outputs := ReadMore(api, subscriptions, order[..i], part, subscription.statusOutputs);
      if outputs.Err? {
        return Err(outputs.error);
      }
      OutputPartStep(api, subscriptions, order[..i], order[i], part, outputs.value);
      part := OutputPart(part.subscriptionOutputs[subscription.id := subscription.statusOutputs], outputs.value);
      assert order[..i + 1] == order[..i] + [order[i]];
    }
    assert order[..|order|] == order;
    assert forall s | s in subscriptions :: s in subscriptions.Keys && s in order;
    r := Ok(part);
  }

  lemma NoOutputsRead(api: Snapshot, subscriptions: map<NamespacedName, Subscription>)
    ensures OutputPartRead(api, subscriptions, [], OutputPart(map[], []))
  {
  }

  method ReadMore(api: Snapshot, ghost subscriptions: map<NamespacedName, Subscription>,
                  ghost done: seq<NamespacedName>,
                  part: OutputPart, names: seq<NamespacedName>)
    returns (r: Result<seq<OutputWithSecretData>, BuildError>)
    requires IsSnapshot(api) && OutputPartRead(api, subscriptions, done, part)
    ensures r.Ok? ==> OutputsRead(api, r.value) && part.outputs <= r.value
    ensures r.Ok? ==> forall o | o in names :: Contains(r.value, o)
    ensures r.Ok? ==> forall e | e in r.value :: e in part.outputs || e.output.id in names
    ensures r.Ok? <==> forall o | o in names :: OutputFetchable(api, o)
    ensures r.Err? ==> exists o :: o in names && OutputMissing(api, o, r.error)
  {
    r := ReadOutputs(api, names, part.outputs);
  }

  // ---------------------------------------------------------------------------
  // The input

  datatype Mode = Mode(eventsToLogs: bool, debug: bool, dryRun: bool, image: string)

  predicate IsAxoflowDistribution(image: string) {
    image == "" || Volumes.AXOFLOW_REPOSITORY + "/" <= image || Volumes.AXOFLOW_REPOSITORY + ":" <= image
  }

  // No tenant has failed, and everything the statuses mention can be fetched.
  predicate Fetchable(api: Snapshot) {
    forall t | t in api.tenants ::
      && TenantFetchable(api, t)
      && forall s | s in t.subscriptions.Elements() ::
           s in api.subscriptions && forall o | o in api.subscriptions[s].statusOutputs :: OutputFetchable(api, o)
  }

  lemma FetchableParts(api: Snapshot, part: TenantPart)
    requires TenantPartRead(api, |api.tenants|, part)
    ensures Fetchable(api) <==>
            (forall t | t in api.tenants :: TenantFetchable(api, t))
            && forall s | s in part.subscriptions ::
                 forall o | o in part.subscriptions[s].statusOutputs :: OutputFetchable(api, o)
  {
    hide OutputFetchable;
    forall t, s | t in api.tenants && s in t.subscriptions.Elements()
      ensures s in part.subscriptions && s in api.subscriptions && part.subscriptions[s] == api.subscriptions[s]
    {
      var i :| 0 <= i < |api.tenants| && api.tenants[i] == t;
      assert s in part.listed[t.name];
    }
    forall s | s in part.subscriptions
      ensures exists t :: t in api.tenants && s in t.subscriptions.Elements()
    {
      var n :| n in part.listed && s in part.listed[n];
      var i :| 0 <= i < |api.tenants| && api.tenants[i].name == n;
      assert api.tenants[i] in api.tenants && s in api.tenants[i].subscriptions.Elements();
    }
  }

  method BuildConfigInputForCollector(api: Snapshot, mode: Mode) returns (r: Result<ConfigInput, BuildError>)
    requires IsSnapshot(api)
    ensures r.Ok? ==> BuiltFrom(api, mode, r.value)
    ensures r.Ok? <==> Fetchable(api)
    ensures r.Err? ==> Unfetched(api, r.error)
  {
    hide IsSnapshot;
    hide TenantPartRead;
    hide OutputPartRead;
    hide TenantFetchable;
    hide OutputFetchable;
    var tenants := ReadTenants(api);
    if tenants.Err? {
      return Err(tenants.error);
    }
    var part := tenants.value;
    FetchableParts(api, part);
    var order := Traverse(part.subscriptions);
    SubscriptionIds(api, part);
    var outputs := ReadAllOutputs(api, part.subscriptions, order);
    if outputs.Err? {
      ghost var s, o :| s in part.subscriptions && o in part.subscriptions[s].statusOutputs
                        && OutputMissing(api, o, outputs.error);
      ReadIsListed(api, part, s, o);
      return Err(outputs.error);
    }
    r := Ok(ConfigInput(api.tenants, part.subscriptions, part.bridges, outputs.value.outputs, part.listed,
                        outputs.value.subscriptionOutputs, mode.eventsToLogs, mode.debug, mode.dryRun,
                        IsAxoflowDistribution(mode.image)));
    InputIsBuilt(api, mode, part, order, outputs.value);
  }

  lemma ReadIsListed(api: Snapshot, part: TenantPart, s: NamespacedName, o: NamespacedName)
    requires TenantPartRead(api, |api.tenants|, part) && s in part.subscriptions
    requires o in part.subscriptions[s].statusOutputs
    ensures IsListedOutput(api, o)
  {
    hide TenantFetchable, ListedBridges;
    var n :| n in part.listed && s in part.listed[n];
    var i :| 0 <= i < |api.tenants| && api.tenants[i].name == n;
    assert api.tenants[i] in api.tenants && s in api.tenants[i].subscriptions.Elements();
  }

  // Any order in which Go may walk the map.
  method Traverse(m: map<NamespacedName, Subscription>) returns (order: seq<NamespacedName>)
    ensures Enumerates(order, m.Keys)
  {
    order := [];
    var remaining := m.Keys;
    while remaining != {}
      invariant remaining <= m.Keys
      invariant Ordering.NoDup(order) && forall k :: k in order <==> k in m && k !in remaining
    {
      var k :| k in remaining;
      order := order + [k];
      remaining := remaining - {k};
    }
  }

  lemma SubscriptionIds(api: Snapshot, part: TenantPart)
    requires IsSnapshot(api) && TenantPartRead(api, |api.tenants|, part)
    ensures forall s | s in part.subscriptions :: part.subscriptions[s].id == s
  {
    hide HasOneKind;
  }

  function InputOf(api: Snapshot, mode: Mode, part: TenantPart, outputs: OutputPart): ConfigInput {
    ConfigInput(api.tenants, part.subscriptions, part.bridges, outputs.outputs, part.listed,
                outputs.subscriptionOutputs, mode.eventsToLogs, mode.debug, mode.dryRun,
                IsAxoflowDistribution(mode.image))
  }

  lemma TenantsAreIndexed(api: Snapshot, mode: Mode, part: TenantPart, outputs: OutputPart)
    requires IsSnapshot(api) && TenantPartRead(api, |api.tenants|, part)
    ensures var input := InputOf(api, mode, part, outputs);
            TenantsIndexed(input) && forall t | t in input.tenants :: !t.state.Failed?
  {
    hide HasOneKind;
    hide SubscriptionsRead;
    hide BridgesRead;
    forall t | t in api.tenants
      ensures t.name in part.listed && part.listed[t.name] == t.subscriptions.Elements() && !t.state.Failed?
    {
      var i :| 0 <= i < |api.tenants| && api.tenants[i] == t;
    }
    forall n | n in part.listed
      ensures exists t :: t in api.tenants && t.name == n
    {
      var i :| 0 <= i < |api.tenants| && api.tenants[i].name == n;
      assert api.tenants[i] in api.tenants;
    }
  }

  lemma SubscriptionsAreIndexed(api: Snapshot, mode: Mode, part: TenantPart, order: seq<NamespacedName>,
                                outputs: OutputPart)
    requires IsSnapshot(api) && TenantPartRead(api, |api.tenants|, part)
    requires Enumerates(order, part.subscriptions.Keys) && OutputPartRead(api, part.subscriptions, order, outputs)
    ensures SubscriptionsIndexed(InputOf(api, mode, part, outputs))
  {
    hide HasOneKind;
    hide TenantsRead;
    hide BridgesRead;
    hide OutputsRead;
    hide Contains;
  }

  lemma OutputsAreIndexed(api: Snapshot, mode: Mode, part: TenantPart, order: seq<NamespacedName>, outputs: OutputPart)
    requires IsSnapshot(api) && OutputPartRead(api, part.subscriptions, order, outputs)
    ensures var input := InputOf(api, mode, part, outputs); OutputsIndexed(input) && OneKindEach(input)
  {
    hide HasOneKind;
    hide FindOutput;
    forall o | Contains(outputs.outputs, o)
      ensures FindOutput(outputs.outputs, o).Some?
    {
      var e :| e in outputs.outputs && e.output.id == o;
    }
  }

  lemma NamesAreGood(api: Snapshot, mode: Mode, part: TenantPart, order: seq<NamespacedName>, outputs: OutputPart)
    requires IsSnapshot(api) && TenantPartRead(api, |api.tenants|, part)
    requires Enumerates(order, part.subscriptions.Keys) && OutputPartRead(api, part.subscriptions, order, outputs)
    ensures WellNamed(InputOf(api, mode, part, outputs))
  {
    hide HasOneKind;
    hide IsName;
    hide Contains;
    BridgesAreListed(api, mode, part, outputs);
    hide TenantFetchable;
    hide AllFound;
    hide ListedBridges;
    TenantsAreIndexed(api, mode, part, outputs);
    forall e | e in outputs.outputs
      ensures IsNamespacedName(e.output.id)
    {
      var s :| s in outputs.subscriptionOutputs && e.output.id in outputs.subscriptionOutputs[s];
    }
  }

  lemma {:induction false} ListedAreRead(api: Snapshot, tenants: seq<Tenant>)
    requires IsSnapshot(api) && forall t | t in tenants :: AllFound(api, t.connectedBridges)
    ensures BridgesRead(api, ListedBridges(api, tenants))
  {
    hide HasOneKind;
    if tenants != [] {
      var n := |tenants| - 1;
      assert tenants[n] in tenants;
      ListedAreRead(api, tenants[..n]);
      FetchedMembers(api, tenants[n].connectedBridges);
    }
  }

  lemma BridgesAreListed(api: Snapshot, mode: Mode, part: TenantPart, outputs: OutputPart)
    requires IsSnapshot(api) && TenantPartRead(api, |api.tenants|, part)
    ensures var input := InputOf(api, mode, part, outputs);
            && BridgesAgree(input.bridges) && BridgesRead(api, input.bridges)
            && (forall t | t in input.tenants :: AllFound(api, t.connectedBridges))
            && input.bridges == ListedBridges(api, input.tenants)
  {
    hide HasOneKind;
    hide SubscriptionsRead;
    hide TenantsRead;
    assert api.tenants[..|api.tenants|] == api.tenants;
    ListedAreRead(api, api.tenants);
  }

  lemma InputIsBuilt(api: Snapshot, mode: Mode, part: TenantPart, order: seq<NamespacedName>, outputs: OutputPart)
    requires IsSnapshot(api) && TenantPartRead(api, |api.tenants|, part)
    requires Enumerates(order, part.subscriptions.Keys) && OutputPartRead(api, part.subscriptions, order, outputs)
    ensures BuiltFrom(api, mode, InputOf(api, mode, part, outputs))
  {
    hide IsSnapshot;
    hide TenantsIndexed;
    hide SubscriptionsIndexed;
    hide OutputsIndexed;
    hide BridgesAgree;
    hide WellNamed;
    hide OneKindEach;
    hide OutputsRead;
    TenantsAreIndexed(api, mode, part, outputs);
    SubscriptionsAreIndexed(api, mode, part, order, outputs);
    OutputsAreIndexed(api, mode, part, order, outputs);
    NamesAreGood(api, mode, part, order, outputs);
    BridgesAreListed(api, mode, part, outputs);
  }

  predicate BuiltFrom(api: Snapshot, mode: Mode, input: ConfigInput) {
    && TenantsIndexed(input) && SubscriptionsIndexed(input) && OutputsIndexed(input) && BridgesAgree(input.bridges)
    && WellNamed(input) && OneKindEach(input)
    && input.tenants == api.tenants
    && (forall s | s in input.subscriptions :: s in api.subscriptions && input.subscriptions[s] == api.subscriptions[s])
    && OutputsRead(api, input.outputs)
    && (forall t | t in input.tenants :: !t.state.Failed?)
    && (forall t | t in input.tenants :: AllFound(api, t.connectedBridges))
    && input.bridges == ListedBridges(api, input.tenants)
    && input.eventsToLogs == mode.eventsToLogs && input.debug == mode.debug && input.dryRun == mode.dryRun
    && input.axoflow == IsAxoflowDistribution(mode.image)
  }

  // ---------------------------------------------------------------------------
  // Validation

  datatype InputError =
    | NoTenants
    | BothLogSources(tenant: string)
    | NoSubscriptionsOrBridges
    | SubscriptionWithoutOutputs(subscription: NamespacedName)
    | UnknownSource(bridge: string)
    | UnknownTarget(bridge: string)

  predicate SelectsOneWay(tenant: Tenant) {
    !(tenant.logSourceNamespaces.Items? && tenant.selectFromAllNamespaces)
  }

  method ValidateTenants(tenants: seq<Tenant>) returns (errors: seq<InputError>)
    ensures errors == [] <==>
            tenants != [] && forall t | t in tenants :: t.logSourceNamespaces.Nil? || !t.selectFromAllNamespaces
    ensures forall e | e in errors ::
              || (e == NoTenants && tenants == [])
              || exists t :: t in tenants && t.logSourceNamespaces.Items? && t.selectFromAllNamespaces
                             && e == BothLogSources(t.name)
  {
    if tenants == [] {
      return [NoTenants];
    }
    errors := [];
    for i := 0 to |tenants|
      invariant errors == [] <==> forall t | t in tenants[..i] :: SelectsOneWay(t)
      invariant forall e | e in errors :: exists t ::
                  t in tenants && t.logSourceNamespaces.Items? && t.selectFromAllNamespaces
                  && e == BothLogSources(t.name)
    {
      assert tenants[..i + 1] == tenants[..i] + [tenants[i]];
      assert tenants[i] in tenants[..i + 1];
      assert forall t :: t in tenants[..i + 1] <==> t in tenants[..i] || t == tenants[i];
      if tenants[i].logSourceNamespaces.Items? && tenants[i].selectFromAllNamespaces {
        errors := errors + [BothLogSources(tenants[i].name)];
      }
    }
    assert tenants[..|tenants|] == tenants;
  }

  method ValidateSubscriptions(subscriptions: map<NamespacedName, Subscription>) returns (errors: seq<InputError>)
    ensures errors == [] <==> forall s | s in subscriptions :: subscriptions[s].specOutputs != []
    ensures forall e | e in errors ::
              exists s :: s in subscriptions && subscriptions[s].specOutputs == [] && e == SubscriptionWithoutOutputs(s)
  {
    errors := [];
    var remaining := subscriptions.Keys;
    while remaining != {}
      invariant remaining <= subscriptions.Keys
      invariant errors == [] <==> forall s | s in subscriptions && s !in remaining :: subscriptions[s].specOutputs != []
      invariant forall e | e in errors :: exists s ::
                  s in subscriptions && subscriptions[s].specOutputs == [] && e == SubscriptionWithoutOutputs(s)
    {
      var s :| s in remaining;
      if subscriptions[s].specOutputs == [] {
        errors := errors + [SubscriptionWithoutOutputs(s)];
      }
      remaining := remaining - {s};
    }
  }

  method ValidateBridges(tenants: seq<Tenant>, bridges: seq<Bridge>) returns (errors: seq<InputError>)
    ensures errors == [] <==>
            forall b | b in bridges :: IsTenantName(tenants, b.source) && IsTenantName(tenants, b.target)
    ensures forall e | e in errors :: exists b :: b in bridges && IsLooseEnd(tenants, b, e)
  {
    var names := set t | t in tenants :: t.name;
    errors := [];
    for i := 0 to |bridges|
      invariant errors == [] <==>
                forall b | b in bridges[..i] :: IsTenantName(tenants, b.source) && IsTenantName(tenants, b.target)
      invariant forall e | e in errors :: exists b :: b in bridges && IsLooseEnd(tenants, b, e)
    {
      assert bridges[..i + 1] == bridges[..i] + [bridges[i]];
      assert bridges[i] in bridges;
      if bridges[i].source !in names {
        assert IsLooseEnd(tenants, bridges[i], UnknownSource(bridges[i].name));
        errors := errors + [UnknownSource(bridges[i].name)];
      }
      if bridges[i].target !in names {
        assert IsLooseEnd(tenants, bridges[i], UnknownTarget(bridges[i].name));
        errors := errors + [UnknownTarget(bridges[i].name)];
      }
    }
    assert bridges[..|bridges|] == bridges;
  }

  predicate IsLooseEnd(tenants: seq<Tenant>, b: Bridge, e: InputError) {
    || (e == UnknownSource(b.name) && !IsTenantName(tenants, b.source))
    || (e == UnknownTarget(b.name) && !IsTenantName(tenants, b.target))
  }

  predicate IsTenantName(tenants: seq<Tenant>, name: string) {
    exists t :: t in tenants && t.name == name
  }

  method ValidateConfigInput(input: ConfigInput) returns (errors: seq<InputError>)
    ensures errors == [] <==> Valid(input)
  {
    errors := ValidateTenants(input.tenants);
    if input.subscriptions.Keys == {} && input.bridges == [] {
      errors := errors + [NoSubscriptionsOrBridges];
    } else {
      if input.subscriptions.Keys != {} {
        var more := ValidateSubscriptions(input.subscriptions);
        errors := errors + more;
      }
      if input.bridges != [] {
        var more := ValidateBridges(input.tenants, input.bridges);
        errors := errors + more;
      }
    }
  }

  predicate Valid(input: ConfigInput) {
    && input.tenants != [] && (forall t | t in input.tenants :: SelectsOneWay(t))
    && (input.subscriptions.Keys != {} || input.bridges != [])
    && (forall s | s in input.subscriptions :: input.subscriptions[s].specOutputs != [])
    && (forall b | b in input.bridges :: IsTenantName(input.tenants, b.source) && IsTenantName(input.tenants, b.target))
  }

  // An input that was built and validated is one the compiler theorems apply to.
  lemma BuiltAndValidIsWellFormed(api: Snapshot, mode: Mode, input: ConfigInput)
    requires BuiltFrom(api, mode, input) && Valid(input)
    ensures WellFormed(input)
  {
    hide SubscriptionsIndexed;
    hide OutputsIndexed;
    hide WellNamed;
    hide OneKindEach;
    hide BridgesAgree;
    hide OutputsRead;
    forall b | b in input.bridges
      ensures b.source in input.tenantSubscriptions && b.target in input.tenantSubscriptions
    {
      assert IsTenantName(input.tenants, b.source) && IsTenantName(input.tenants, b.target);
    }
  }

  // An output is read once for each subscription that lists it, always with the same secret: the one that the only
  // authentication method with a reference refers to.
  lemma BuiltOutputsAgree(api: Snapshot, mode: Mode, input: ConfigInput)
    requires BuiltFrom(api, mode, input)
    ensures Secrets.OutputsAgree(input.outputs)
    ensures forall e | e in input.outputs ::
              e.output.id in api.outputs && e.output == api.outputs[e.output.id]
              && (e.output.auth.Some? ==>
                    var auth := e.output.auth.value;
                    exists ref :: ref in api.secrets && e.secret == api.secrets[ref]
                      && ((auth.basic.Some? && auth.basic.value.secretRef == Some(ref))
                          || (auth.bearer.Some? && auth.bearer.value.secretRef == Some(ref))))
  {
    hide TenantsIndexed, SubscriptionsIndexed, OutputsIndexed, WellNamed, OneKindEach, BridgesAgree;
  }

  // The input has the bridges that the tenants list, and no other.
  lemma BuiltBridgesAre(api: Snapshot, mode: Mode, input: ConfigInput, b: Bridge)
    requires BuiltFrom(api, mode, input)
    ensures b in input.bridges <==>
            exists t, n :: t in api.tenants && n in t.connectedBridges && n in api.bridges && b == api.bridges[n]
  {
    hide TenantsIndexed, SubscriptionsIndexed, OutputsIndexed, WellNamed, OneKindEach, BridgesAgree, OutputsRead,
         ListedBridges;
    ListedBridgesAre(api, input.tenants, b);
  }

  lemma {:induction false} ListedBridgesAre(api: Snapshot, tenants: seq<Tenant>, b: Bridge)
    requires forall t | t in tenants :: AllFound(api, t.connectedBridges)
    ensures b in ListedBridges(api, tenants) <==>
            exists t, n :: t in tenants && n in t.connectedBridges && n in api.bridges && b == api.bridges[n]
  {
    if tenants != [] {
      var m := |tenants| - 1;
      var names := tenants[m].connectedBridges;
      assert tenants[m] in tenants;
      ListedBridgesAre(api, tenants[..m], b);
      assert forall t :: t in tenants <==> t in tenants[..m] || t == tenants[m];
      if b in Fetched(api, names) {
        var i :| 0 <= i < |names| && Fetched(api, names)[i] == b;
        assert names[i] in names && b == api.bridges[names[i]];
      }
      if n :| n in names && n in api.bridges && b == api.bridges[n] {
        var i :| 0 <= i < |names| && names[i] == n;
        assert Fetched(api, names)[i] == b;
      }
    }
  }

  // No image means the default image, and that one is of the Axoflow distribution. Others are if they come from its
  // repository, not if their name only starts alike.
  lemma AxoflowImages(image: string)
    ensures IsAxoflowDistribution("") && IsAxoflowDistribution(Volumes.IMAGE)
    ensures image != "" ==>
              (IsAxoflowDistribution(image) <==>
               exists rest :: image == "ghcr.io/axoflow/axoflow-otel-collector/" + rest
                              || image == "ghcr.io/axoflow/axoflow-otel-collector:" + rest)
  {
    var repository := Volumes.AXOFLOW_REPOSITORY;
    if repository + "/" <= image {
      assert image == "ghcr.io/axoflow/axoflow-otel-collector/" + image[|repository| + 1..];
    }
    if repository + ":" <= image {
      assert image == "ghcr.io/axoflow/axoflow-otel-collector:" + image[|repository| + 1..];
    }
  }

  predicate ListsReadFromApi(api: Snapshot) {
    forall t | t in api.tenants :: t.logSourceNamespaces.AsReadFromApi() && t.subscriptions.AsReadFromApi()
  }

  // End to end: once building and validating succeed, the assembled configuration is closed exactly when every
  // subscription the tenants list has outputs in its status and the default pipelines that tenants configure exist.
  // Validation looks at the specified outputs instead, and not at default pipelines.
  lemma EndToEndClosure(api: Snapshot, mode: Mode, input: ConfigInput, orders: Orders, config: CollectorConfig)
    requires BuiltFrom(api, mode, input) && Valid(input) && ListsReadFromApi(api)
    requires OrdersOf(input, orders) && Assembled(input, orders, config)
    ensures WellFormed(input)
    ensures Closed(config) <==>
            (forall s | s in input.subscriptions :: input.subscriptions[s].statusOutputs != [])
            && forall t | t in input.tenants :: DefaultsExist(input, t)
  {
    hide WellFormed;
    hide TenantsIndexed;
    hide SubscriptionsIndexed;
    hide OutputsIndexed;
    hide WellNamed;
    hide OneKindEach;
    hide BridgesAgree;
    hide OutputsRead;
    hide Assembled;
    hide Closed;
    hide Compilable;
    hide DefaultsExist;
    hide OrdersOf;
    BuiltAndValidIsWellFormed(api, mode, input);
    ClosedIffCompilable(input, orders, config);
    ApiListsAreNormal(input);
  }
}
