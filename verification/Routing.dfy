/** Routing connectors: tables grouped by condition, and their agreement with the wiring of the pipelines. */
module Routing {
  import opened Names
  import opened Api

  datatype TableItem = TableItem(condition: string, pipelines: seq<string>)

  datatype RoutingConnector = RoutingConnector(name: string, defaultPipelines: seq<string>, table: seq<TableItem>)

  // ---------------------------------------------------------------------------
  // A tenant's subscriptions, one row per distinct condition

  // The pipelines of the listed subscriptions that exist and have this condition, in list order.
  function PipelinesFor(tenant: string, condition: string, names: seq<NamespacedName>,
                        subscriptions: map<NamespacedName, Subscription>): seq<string>
  {
    if names == [] then []
    else
      var n := |names| - 1;
      var s := names[n];
      PipelinesFor(tenant, condition, names[..n], subscriptions)
      + if s in subscriptions && subscriptions[s].condition == condition
        then [PipelineName(SubscriptionPipeline(tenant, subscriptions[s].id))] else []
  }

  predicate Groups(seen: map<string, seq<string>>, tenant: string, names: seq<NamespacedName>,
                   subscriptions: map<NamespacedName, Subscription>)
  {
    && (forall c | c in seen :: seen[c] == PipelinesFor(tenant, c, names, subscriptions) && seen[c] != [])
    && (forall s | s in names && s in subscriptions :: subscriptions[s].condition in seen)
  }

  lemma {:induction false} UnseenCondition(tenant: string, condition: string, names: seq<NamespacedName>,
                                           subscriptions: map<NamespacedName, Subscription>)
    requires forall s | s in names && s in subscriptions :: subscriptions[s].condition != condition
    ensures PipelinesFor(tenant, condition, names, subscriptions) == []
  {
    if names != [] {
      UnseenCondition(tenant, condition, names[..|names| - 1], subscriptions);
    }
  }

  function AddToGroup(seen: map<string, seq<string>>, condition: string, pipeline: string): map<string, seq<string>> {
    if condition !in seen then seen[condition := [pipeline]]
    else seen[condition := seen[condition] + [pipeline]]
  }

  lemma GroupsStep(seen: map<string, seq<string>>, tenant: string, names: seq<NamespacedName>, s: NamespacedName,
                   subscriptions: map<NamespacedName, Subscription>)
    requires Groups(seen, tenant, names, subscriptions) && s in subscriptions
    ensures Groups(AddToGroup(seen, subscriptions[s].condition,
                              PipelineName(SubscriptionPipeline(tenant, subscriptions[s].id))),
                   tenant, names + [s], subscriptions)
  {
    hide PipelineName;
    assert (names + [s])[..|names|] == names;
    var c := subscriptions[s].condition;
    if c !in seen {
      UnseenCondition(tenant, c, names, subscriptions);
    }
  }

  lemma GroupsSkip(seen: map<string, seq<string>>, tenant: string, names: seq<NamespacedName>, s: NamespacedName,
                   subscriptions: map<NamespacedName, Subscription>)
    requires Groups(seen, tenant, names, subscriptions) && s !in subscriptions
    ensures Groups(seen, tenant, names + [s], subscriptions)
  {
    assert (names + [s])[..|names|] == names;
  }

  method GroupByCondition(tenant: string, names: seq<NamespacedName>,
                          subscriptions: map<NamespacedName, Subscription>)
    returns (seen: map<string, seq<string>>)
    ensures Groups(seen, tenant, names, subscriptions)
  {
    hide PipelineName;
    hide PipelinesFor;
    seen := map[];
    for i := 0 to |names|
      invariant Groups(seen, tenant, names[..i], subscriptions)
    {
      assert names[..i + 1] == names[..i] + [names[i]];
      if names[i] in subscriptions {
        var subscription := subscriptions[names[i]];
        var pipelineName := PipelineName(SubscriptionPipeline(tenant, subscription.id));
        GroupsStep(seen, tenant, names[..i], names[i], subscriptions);
        if subscription.condition !in seen {
          seen := seen[subscription.condition := [pipelineName]];
        } else {
          seen := seen[subscription.condition := seen[subscription.condition] + [pipelineName]];
        }
      } else {
        GroupsSkip(seen, tenant, names[..i], names[i], subscriptions);
      }
    }
    assert names[..|names|] == names;
  }

  // The rows are the groups, in whatever order the map is traversed.
  predicate RowsOf(table: seq<TableItem>, seen: map<string, seq<string>>) {
    && (forall i, j | 0 <= i < j < |table| :: table[i].condition != table[j].condition)
    && (forall row | row in table :: row.condition in seen && row.pipelines == seen[row.condition])
    && (forall c | c in seen :: exists row :: row in table && row.condition == c)
  }

  method PopulateRoutingConnectorTable(seen: map<string, seq<string>>) returns (table: seq<TableItem>)
    ensures RowsOf(table, seen)
  {
    table := [];
    var remaining := seen.Keys;
    while remaining != {}
      invariant remaining <= seen.Keys
      invariant forall i, j | 0 <= i < j < |table| :: table[i].condition != table[j].condition
      invariant forall row | row in table ::
                  row.condition in seen && row.pipelines == seen[row.condition] && row.condition !in remaining
      invariant forall c | c in seen && c !in remaining :: exists row :: row in table && row.condition == c
    {
      var condition :| condition in remaining;
      var item := TableItem(condition, seen[condition]);
      ghost var before := table;
      table := table + [item];
      remaining := remaining - {condition};
      assert forall row :: row in table <==> row in before || row == item;
    }
  }

  ghost predicate SubscriptionTable(table: seq<TableItem>, tenant: string, names: seq<NamespacedName>,
                                    subscriptions: map<NamespacedName, Subscription>)
  {
    exists seen ::
      RowsOf(table, seen) && Groups(seen, tenant, SortNames(names), subscriptions)
  }

  method GenerateRoutingConnectorForTenantsSubscriptions(tenant: Tenant, names: seq<NamespacedName>,
                                                         subscriptions: map<NamespacedName, Subscription>)
    returns (rc: RoutingConnector)
    ensures rc.name == ComponentName(RouteSubscriptions(tenant.name)) && rc.defaultPipelines == tenant.defaultPipelines
    ensures SubscriptionTable(rc.table, tenant.name, names, subscriptions)
  {
    var sorted := SortNames(names);
    var seen := GroupByCondition(tenant.name, sorted, subscriptions);
    var table := PopulateRoutingConnectorTable(seen);
    rc := RoutingConnector(ComponentName(RouteSubscriptions(tenant.name)), tenant.defaultPipelines, table);
  }

  lemma {:induction false} PipelinesForMembers(tenant: string, condition: string, names: seq<NamespacedName>,
                                               subscriptions: map<NamespacedName, Subscription>, p: string)
    ensures p in PipelinesFor(tenant, condition, names, subscriptions) <==>
            exists s :: s in names && s in subscriptions && subscriptions[s].condition == condition
                        && p == PipelineName(SubscriptionPipeline(tenant, subscriptions[s].id))
  {
    hide PipelineName;
    if names != [] {
      var n := |names| - 1;
      assert names == names[..n] + [names[n]];
      PipelinesForMembers(tenant, condition, names[..n], subscriptions, p);
    }
  }

  ghost predicate Routed(table: seq<TableItem>, holds: iset<string>, p: string) {
    exists row :: row in table && row.condition in holds && p in row.pipelines
  }

  ghost predicate Wanted(tenant: string, names: seq<NamespacedName>, subscriptions: map<NamespacedName, Subscription>,
                         holds: iset<string>, p: string)
  {
    exists s :: s in names && s in subscriptions && subscriptions[s].condition in holds
                && p == PipelineName(SubscriptionPipeline(tenant, subscriptions[s].id))
  }

  // Grouping neither loses nor adds a route: for any truth assignment and any row order, the pipelines in
  // matching rows are those of the subscriptions whose condition holds.
  lemma GroupingPreservesRouting(table: seq<TableItem>, tenant: string, names: seq<NamespacedName>,
                                 subscriptions: map<NamespacedName, Subscription>, holds: iset<string>, p: string)
    requires SubscriptionTable(table, tenant, names, subscriptions)
    ensures Routed(table, holds, p) <==> Wanted(tenant, names, subscriptions, holds, p)
  {
    hide PipelineName;
    hide SortNames;
    hide PipelinesFor;
    var seen :| RowsOf(table, seen) && Groups(seen, tenant, SortNames(names), subscriptions);
    SortNamesKeeps(names);
    if row :| row in table && row.condition in holds && p in row.pipelines {
      PipelinesForMembers(tenant, row.condition, SortNames(names), subscriptions, p);
    }
    if s :| s in names && s in subscriptions && subscriptions[s].condition in holds
            && p == PipelineName(SubscriptionPipeline(tenant, subscriptions[s].id)) {
      var c := subscriptions[s].condition;
      assert s in SortNames(names);
      PipelinesForMembers(tenant, c, SortNames(names), subscriptions, p);
      var row :| row in table && row.condition == c;
    }
  }

  // A subscription sits in one row only.
  lemma OneRowEach(table: seq<TableItem>, tenant: string, names: seq<NamespacedName>,
                   subscriptions: map<NamespacedName, Subscription>, i: nat, j: nat, p: string)
    requires SubscriptionTable(table, tenant, names, subscriptions)
    requires IsName(tenant)
    requires forall s | s in subscriptions :: IsNamespacedName(s) && subscriptions[s].id == s
    requires i < |table| && j < |table| && p in table[i].pipelines && p in table[j].pipelines
    ensures i == j
  {
    hide PipelineName;
    hide SortNames;
    hide PipelinesFor;
    var seen :| RowsOf(table, seen) && Groups(seen, tenant, SortNames(names), subscriptions);
    assert table[i] in table && table[j] in table;
    PipelinesForMembers(tenant, table[i].condition, SortNames(names), subscriptions, p);
    PipelinesForMembers(tenant, table[j].condition, SortNames(names), subscriptions, p);
    var s :| s in SortNames(names) && s in subscriptions && subscriptions[s].condition == table[i].condition
             && p == PipelineName(SubscriptionPipeline(tenant, subscriptions[s].id));
    var t :| t in SortNames(names) && t in subscriptions && subscriptions[t].condition == table[j].condition
             && p == PipelineName(SubscriptionPipeline(tenant, subscriptions[t].id));
    PipelineNameInjective(SubscriptionPipeline(tenant, s), SubscriptionPipeline(tenant, t));
  }

  // The first matching row serves its whole condition class, which is all there is when a single condition holds.
  lemma FirstMatchServesOneCondition(table: seq<TableItem>, tenant: string, names: seq<NamespacedName>,
                                     subscriptions: map<NamespacedName, Subscription>, i: nat, holds: iset<string>,
                                     p: string)
    requires SubscriptionTable(table, tenant, names, subscriptions)
    requires i < |table| && table[i].condition in holds
    requires forall c | c in holds :: c == table[i].condition
    ensures p in table[i].pipelines <==> Wanted(tenant, names, subscriptions, holds, p)
  {
    hide PipelineName;
    hide SortNames;
    hide PipelinesFor;
    GroupingPreservesRouting(table, tenant, names, subscriptions, holds, p);
    assert table[i] in table;
    if Routed(table, holds, p) {
      var row :| row in table && row.condition in holds && p in row.pipelines;
      var j :| 0 <= j < |table| && table[j] == row;
      assert i == j;
    }
  }

  lemma RowIsWanted(table: seq<TableItem>, tenant: string, names: seq<NamespacedName>,
                    subscriptions: map<NamespacedName, Subscription>, j: nat, holds: iset<string>)
    returns (p: string)
    requires SubscriptionTable(table, tenant, names, subscriptions)
    requires j < |table| && table[j].condition in holds
    ensures p in table[j].pipelines && Wanted(tenant, names, subscriptions, holds, p)
  {
    hide PipelineName, SortNames, PipelinesFor;
    var seen :| RowsOf(table, seen) && Groups(seen, tenant, SortNames(names), subscriptions);
    assert table[j] in table;
    p := table[j].pipelines[0];
    assert Routed(table, holds, p);
    GroupingPreservesRouting(table, tenant, names, subscriptions, holds, p);
  }

  // A record that goes to the first matching row only, in the order the rows happen to have, reaches all that want
  // it exactly if no other row matches.
  lemma FirstMatchServesAllIff(table: seq<TableItem>, tenant: string, names: seq<NamespacedName>,
                               subscriptions: map<NamespacedName, Subscription>, i: nat, holds: iset<string>)
    requires SubscriptionTable(table, tenant, names, subscriptions) && IsName(tenant)
    requires forall s | s in subscriptions :: IsNamespacedName(s) && subscriptions[s].id == s
    requires i < |table| && table[i].condition in holds
    ensures (forall p | Wanted(tenant, names, subscriptions, holds, p) :: p in table[i].pipelines) <==>
            forall j | 0 <= j < |table| && table[j].condition in holds :: j == i
  {
    hide PipelineName, SortNames, PipelinesFor, SubscriptionTable, Wanted;
    if forall j | 0 <= j < |table| && table[j].condition in holds :: j == i {
      forall p | Wanted(tenant, names, subscriptions, holds, p)
        ensures p in table[i].pipelines
      {
        GroupingPreservesRouting(table, tenant, names, subscriptions, holds, p);
        var row :| row in table && row.condition in holds && p in row.pipelines;
        var j :| 0 <= j < |table| && table[j] == row;
      }
    } else {
      var j :| 0 <= j < |table| && table[j].condition in holds && j != i;
      var p := RowIsWanted(table, tenant, names, subscriptions, j, holds);
      if p in table[i].pipelines {
        OneRowEach(table, tenant, names, subscriptions, i, j, p);
      }
    }
  }

  // ---------------------------------------------------------------------------
  // A subscription's outputs, and a bridge

  function OutputPipelineNames(s: NamespacedName, outputs: seq<NamespacedName>): seq<string> {
    if outputs == [] then []
    else
      var n := |outputs| - 1;
      OutputPipelineNames(s, outputs[..n]) + [PipelineName(OutputPipeline(s, outputs[n]))]
  }

  method GenerateRoutingConnectorForSubscriptionsOutputs(s: NamespacedName, outputs: seq<NamespacedName>)
    returns (rc: RoutingConnector)
    ensures rc == OutputsConnector(s, outputs)
  {
    var sorted := SortNames(outputs);
    var pipelines: seq<string> := [];
    for i := 0 to |sorted|
      invariant pipelines == OutputPipelineNames(s, sorted[..i])
    {
      assert sorted[..i + 1][..i] == sorted[..i];
      pipelines := pipelines + [PipelineName(OutputPipeline(s, sorted[i]))];
    }
    assert sorted[..|sorted|] == sorted;
    rc := RoutingConnector(ComponentName(RouteOutputs(s)), [], [TableItem("true", pipelines)]);
  }

  function OutputsConnector(s: NamespacedName, outputs: seq<NamespacedName>): RoutingConnector {
    RoutingConnector(ComponentName(RouteOutputs(s)), [],
                     [TableItem("true", OutputPipelineNames(s, SortNames(outputs)))])
  }

  function BridgeConnector(b: Bridge): RoutingConnector {
    RoutingConnector(ComponentName(RouteBridge(b.name)), [],
                     [TableItem(b.condition, [PipelineName(Root(b.target))])])
  }

  lemma {:induction false} OutputPipelineNamesMembers(s: NamespacedName, outputs: seq<NamespacedName>, p: string)
    ensures p in OutputPipelineNames(s, outputs) <==>
            exists o :: o in outputs && p == PipelineName(OutputPipeline(s, o))
  {
    hide PipelineName;
    if outputs != [] {
      var n := |outputs| - 1;
      assert outputs == outputs[..n] + [outputs[n]];
      OutputPipelineNamesMembers(s, outputs[..n], p);
    }
  }
}
