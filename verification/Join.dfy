/** From Ready tenants to a closed configuration: what the runs of the tenants earned is what the compiler needs. */
module Join {
  import opened Names
  import opened Api
  import opened Ownership
  import opened ApiClient
  import opened RouteController
  import opened Meaning
  import Owners
  import opened Assembly
  import opened Closure
  import opened Collector

  // What is known of the run that wrote a tenant's Ready status.
  datatype Run = Run(calls: seq<Call>, selectors: seq<Selector>)

  // The subscription still is as the run wrote it.
  ghost predicate AsWritten(api: Snapshot, tenant: string, run: Run, s: NamespacedName) {
    exists w :: EarnedBy(run.calls, tenant, run.selectors, s, w)
                && (s in api.subscriptions ==>
                      api.subscriptions[s].specOutputs == w.specOutputs
                      && api.subscriptions[s].statusOutputs == w.statusOutputs)
  }

  // Every listed tenant has the subscriptions that its run earned.
  ghost predicate Backed(api: Snapshot, runs: map<string, Run>) {
    forall t | t in api.tenants ::
      && t.name in runs
      && SubscriptionsEarned(runs[t.name].calls, t.name, runs[t.name].selectors, Items(t.subscriptions.Elements()))
      && forall s | s in t.subscriptions.Elements() :: AsWritten(api, t.name, runs[t.name], s)
  }

  // The outputs that the runs saw have the same owners now.
  ghost predicate OwnersHeld(store: Store, runs: map<string, Run>) {
    forall t | t in runs ::
      forall o | OutputSeen(runs[t].calls, t, runs[t].selectors, o) ::
        Key(OutputKind, o) in store && store[Key(OutputKind, o)].owner == t
  }

  lemma StatusIsEarned(api: Snapshot, tenant: string, run: Run, s: NamespacedName)
    requires AsWritten(api, tenant, run, s) && s in api.subscriptions
    ensures api.subscriptions[s].statusOutputs == SortNames(api.subscriptions[s].specOutputs)
    ensures forall o | o in api.subscriptions[s].statusOutputs :: OutputSeen(run.calls, tenant, run.selectors, o)
  {
    hide OutputSeen;
    var w :| EarnedBy(run.calls, tenant, run.selectors, s, w)
             && api.subscriptions[s].specOutputs == w.specOutputs
             && api.subscriptions[s].statusOutputs == w.statusOutputs;
    SortNamesKeeps(w.specOutputs);
  }

  // A listed subscription was earned by the run of the tenant that lists it.
  lemma ListedIsEarned(api: Snapshot, mode: Mode, input: ConfigInput, runs: map<string, Run>, t: string,
                       s: NamespacedName)
    requires Backed(api, runs) && BuiltFrom(api, mode, input)
    requires t in input.tenantSubscriptions && s in input.tenantSubscriptions[t]
    ensures t in runs && s in input.subscriptions && s in api.subscriptions
            && input.subscriptions[s] == api.subscriptions[s]
    ensures AsWritten(api, t, runs[t], s)
    ensures input.OutputsOf(s) == api.subscriptions[s].statusOutputs
  {
    hide AsWritten, SubscriptionsEarned, OutputsIndexed, WellNamed, OneKindEach, OutputsRead, BridgesAgree;
    var tenant :| tenant in input.tenants && tenant.name == t;
  }

  lemma OutputsAreEarned(api: Snapshot, mode: Mode, input: ConfigInput, runs: map<string, Run>, s: NamespacedName)
    requires Backed(api, runs) && BuiltFrom(api, mode, input) && s in input.subscriptions
    ensures input.subscriptions[s].statusOutputs == SortNames(input.subscriptions[s].specOutputs)
  {
    hide AsWritten, Backed;
    var t := ListedSomewhere(api, mode, input, s);
    ListedIsEarned(api, mode, input, runs, t, s);
    StatusIsEarned(api, t, runs[t], s);
  }

  lemma ListedSomewhere(api: Snapshot, mode: Mode, input: ConfigInput, s: NamespacedName) returns (t: string)
    requires BuiltFrom(api, mode, input) && s in input.subscriptions
    ensures t in input.tenantSubscriptions && s in input.tenantSubscriptions[t]
  {
    hide OutputsIndexed, WellNamed, OneKindEach, OutputsRead, BridgesAgree;
    t :| t in input.tenantSubscriptions && s in input.tenantSubscriptions[t];
  }

  // The join: when the tenants' statuses were earned, an input that builds and validates compiles to a closed
  // configuration exactly if the default pipelines that tenants configure exist, and the collector forwards exactly
  // the outputs the subscriptions ask for.
  lemma ReadyTenantsCompile(api: Snapshot, mode: Mode, input: ConfigInput, orders: Orders, config: CollectorConfig,
                            runs: map<string, Run>)
    requires Backed(api, runs) && BuiltFrom(api, mode, input) && Valid(input) && ListsReadFromApi(api)
    requires OrdersOf(input, orders) && Assembled(input, orders, config)
    ensures WellFormed(input)
    ensures Closed(config) <==> forall t | t in input.tenants :: DefaultsExist(input, t)
    ensures forall s | s in input.subscriptions ::
              input.subscriptions[s].statusOutputs == SortNames(input.subscriptions[s].specOutputs)
  {
    hide Backed, BuiltFrom, ListsReadFromApi, OrdersOf, Assembled, WellFormed, Closed, SortNames, DefaultsExist;
    forall s | s in input.subscriptions
      ensures input.subscriptions[s].statusOutputs == SortNames(input.subscriptions[s].specOutputs)
      ensures input.subscriptions[s].statusOutputs != []
    {
      OutputsAreEarned(api, mode, input, runs, s);
      SortNamesKeeps(input.subscriptions[s].specOutputs);
    }
    EndToEndClosure(api, mode, input, orders, config);
  }

  // And as long as the owners held, every output has one owner, whatever the order of the tenant map: the queue
  // storage of its exporter is its owner's.
  lemma ReadyOutputsHaveOneOwner(api: Snapshot, mode: Mode, input: ConfigInput, runs: map<string, Run>, store: Store,
                                 output: NamespacedName)
    requires Backed(api, runs) && BuiltFrom(api, mode, input) && OwnersHeld(store, runs)
    ensures Owners.AtMostOneOwner(input, output)
    ensures forall t | t in input.tenantSubscriptions && Owners.Owns(input, t, output) ::
              Key(OutputKind, output) in store && store[Key(OutputKind, output)].owner == t
  {
    hide BuiltFrom, Backed, OutputSeen, AsWritten;
    forall t | t in input.tenantSubscriptions && Owners.Owns(input, t, output)
      ensures Key(OutputKind, output) in store && store[Key(OutputKind, output)].owner == t
    {
      var s :| Subscribes(input, t, s, output);
      ListedIsEarned(api, mode, input, runs, t, s);
      StatusIsEarned(api, t, runs[t], s);
      assert OutputSeen(runs[t].calls, t, runs[t].selectors, output);
    }
  }
}
