/** What passes over the owners of one kind of resource do in a calm cluster: selectors are fixed, reads are
    current, writes succeed, every owner exists. */
module Convergence {
  import opened Ownership
  import opened ApiClient
  import opened TenantResources

  // The tenants that exist, with their selectors, and the namespaces a selector matches.
  datatype Selection = Selection(matches: map<Selector, set<string>>, tenants: map<string, seq<Selector>>) {
    predicate Selects(tenant: string, k: Key) {
      tenant in tenants && Matched(matches, tenants[tenant], k.id.namespace)
    }

    ghost predicate SelectedBySome(k: Key) {
      exists t :: t != "" && Selects(t, k)
    }
  }

  type Owners = map<Key, string>

  // One pass of a tenant: it adopts what is free and selected and gives up what it no longer selects.
  function PassOwner(tenant: string, selected: bool, owner: string): string {
    if owner == "" then if selected then tenant else ""
    else if owner == tenant then if selected then tenant else ""
    else owner
  }

  function Pass(sel: Selection, tenant: string, owners: Owners): Owners {
    map k | k in owners :: PassOwner(tenant, sel.Selects(tenant, k), owners[k])
  }

  function Passes(sel: Selection, order: seq<string>, owners: Owners): Owners {
    if order == [] then owners
    else Pass(sel, order[|order| - 1], Passes(sel, order[..|order| - 1], owners))
  }

  ghost predicate OwnersExist(sel: Selection, owners: Owners) {
    && "" !in sel.tenants
    && forall k | k in owners :: owners[k] == "" || owners[k] in sel.tenants
  }

  // Every selected resource is owned by a tenant that selects it, every other one is free.
  ghost predicate Settled(sel: Selection, k: Key, owner: string) {
    if owner == "" then !sel.SelectedBySome(k) else sel.Selects(owner, k)
  }

  ghost predicate Stable(sel: Selection, owners: Owners) {
    forall k | k in owners :: Settled(sel, k, owners[k])
  }

  predicate IsRound(sel: Selection, order: seq<string>) {
    (forall t | t in order :: t in sel.tenants) && forall t | t in sel.tenants :: t in order
  }

  // ---------------------------------------------------------------------------
  // The measure

  ghost function Weight(sel: Selection, k: Key, owner: string): nat {
    if owner == "" then if sel.SelectedBySome(k) then 1 else 0
    else if sel.Selects(owner, k) then 0 else 2
  }

  ghost function Measure(sel: Selection, keys: seq<Key>, owners: Owners): nat
    requires forall k | k in keys :: k in owners
  {
    if keys == [] then 0
    else Measure(sel, keys[1..], owners) + Weight(sel, keys[0], owners[keys[0]])
  }

  function Changes(keys: seq<Key>, before: Owners, after: Owners): nat
    requires forall k | k in keys :: k in before && k in after
  {
    if keys == [] then 0
    else Changes(keys[1..], before, after) + if before[keys[0]] == after[keys[0]] then 0 else 1
  }

  // Each owner that a pass changes takes at least one from the measure.
  lemma {:induction false} PassLowersMeasure(sel: Selection, keys: seq<Key>, tenant: string, owners: Owners)
    requires tenant != "" && tenant in sel.tenants && forall k | k in keys :: k in owners
    ensures Measure(sel, keys, Pass(sel, tenant, owners)) + Changes(keys, owners, Pass(sel, tenant, owners))
            <= Measure(sel, keys, owners)
  {
    if keys != [] {
      PassLowersMeasure(sel, keys[1..], tenant, owners);
      var k := keys[0];
      if sel.Selects(tenant, k) {
        assert sel.SelectedBySome(k);
      }
    }
  }

  function TotalChanges(sel: Selection, keys: seq<Key>, order: seq<string>, owners: Owners): nat
    requires forall k | k in keys :: k in owners
  {
    if order == [] then 0
    else
      var n := |order| - 1;
      PassesKeepKeys(sel, order[..n], owners);
      var before := Passes(sel, order[..n], owners);
      TotalChanges(sel, keys, order[..n], owners) + Changes(keys, before, Pass(sel, order[n], before))
  }

  lemma {:induction false} PassesKeepKeys(sel: Selection, order: seq<string>, owners: Owners)
    ensures Passes(sel, order, owners).Keys == owners.Keys
  {
    if order != [] {
      PassesKeepKeys(sel, order[..|order| - 1], owners);
    }
  }

  lemma {:induction false} MeasureBound(sel: Selection, keys: seq<Key>, owners: Owners)
    requires forall k | k in keys :: k in owners
    ensures Measure(sel, keys, owners) <= 2 * |keys|
  {
    if keys != [] {
      MeasureBound(sel, keys[1..], owners);
    }
  }

  // However many passes run, and in whatever order: at most two owner changes a resource.
  lemma {:induction false} OwnerChangesAreBounded(sel: Selection, keys: seq<Key>, order: seq<string>, owners: Owners)
    requires "" !in sel.tenants && (forall t | t in order :: t in sel.tenants) && forall k | k in keys :: k in owners
    ensures Passes(sel, order, owners).Keys == owners.Keys
    ensures TotalChanges(sel, keys, order, owners) + Measure(sel, keys, Passes(sel, order, owners))
            <= Measure(sel, keys, owners) <= 2 * |keys|
  {
    PassesKeepKeys(sel, order, owners);
    MeasureBound(sel, keys, owners);
    if order != [] {
      var n := |order| - 1;
      OwnerChangesAreBounded(sel, keys, order[..n], owners);
      PassLowersMeasure(sel, keys, order[n], Passes(sel, order[..n], owners));
    }
  }

  // ---------------------------------------------------------------------------
  // Two rounds settle every owner

  // The passes on one resource.
  function OwnerAfter(sel: Selection, order: seq<string>, k: Key, owner: string): string {
    if order == [] then owner
    else
      var t := order[|order| - 1];
      PassOwner(t, sel.Selects(t, k), OwnerAfter(sel, order[..|order| - 1], k, owner))
  }

  lemma {:induction false} PassesAreSeparate(sel: Selection, order: seq<string>, owners: Owners, k: Key)
    requires k in owners
    ensures k in Passes(sel, order, owners) && Passes(sel, order, owners)[k] == OwnerAfter(sel, order, k, owners[k])
  {
    if order != [] {
      PassesAreSeparate(sel, order[..|order| - 1], owners, k);
    }
  }

  lemma {:induction false} OwnerAfterAll(sel: Selection, a: seq<string>, b: seq<string>, k: Key, owner: string)
    ensures OwnerAfter(sel, a + b, k, owner) == OwnerAfter(sel, b, k, OwnerAfter(sel, a, k, owner))
  {
    if b == [] {
      assert a + b == a;
    } else {
      assert (a + b)[..|a + b| - 1] == a + b[..|b| - 1];
      OwnerAfterAll(sel, a, b[..|b| - 1], k, owner);
    }
  }

  // An owner that selects the resource keeps it for good.
  lemma {:induction false} SelectingOwnerStays(sel: Selection, order: seq<string>, k: Key, owner: string)
    requires owner != "" && sel.Selects(owner, k)
    ensures OwnerAfter(sel, order, k, owner) == owner
  {
    if order != [] {
      SelectingOwnerStays(sel, order[..|order| - 1], k, owner);
    }
  }

  // While its owner has not run, a resource waits.
  lemma {:induction false} OwnerWaits(sel: Selection, order: seq<string>, k: Key, owner: string)
    requires owner != "" && owner !in order
    ensures OwnerAfter(sel, order, k, owner) == owner
  {
    if order != [] {
      OwnerWaits(sel, order[..|order| - 1], k, owner);
    }
  }

  // A free resource goes to the first tenant in the order that selects it, and stays free if none does.
  lemma {:induction false} FreeIsAdopted(sel: Selection, order: seq<string>, k: Key)
    requires "" !in order
    ensures var owner := OwnerAfter(sel, order, k, "");
            if owner == "" then forall t | t in order :: !sel.Selects(t, k) else owner in order && sel.Selects(owner, k)
  {
    if order != [] {
      FreeIsAdopted(sel, order[..|order| - 1], k);
      assert order == order[..|order| - 1] + [order[|order| - 1]];
    }
  }

  lemma FirstOccurrence(order: seq<string>, t: string) returns (i: nat)
    requires t in order
    ensures i < |order| && order[i] == t && t !in order[..i]
  {
    i := 0;
    while order[i] != t
      invariant i < |order| && t !in order[..i]
      invariant t in order[i..]
      decreases |order| - i
    {
      assert order[..i + 1] == order[..i] + [order[i]];
      assert order[i..] == [order[i]] + order[i + 1..];
      i := i + 1;
    }
  }

  // An owner that does not select the resource gives it up at its first turn.
  lemma GivenUp(sel: Selection, order: seq<string>, i: nat, k: Key, owner: string)
    requires owner != "" && !sel.Selects(owner, k)
    requires i < |order| && order[i] == owner && owner !in order[..i]
    ensures OwnerAfter(sel, order, k, owner) == OwnerAfter(sel, order[i + 1..], k, "")
  {
    OwnerWaits(sel, order[..i], k, owner);
    assert order[..i + 1][..i] == order[..i];
    assert OwnerAfter(sel, order[..i + 1], k, owner) == "";
    assert order == order[..i + 1] + order[i + 1..];
    OwnerAfterAll(sel, order[..i + 1], order[i + 1..], k, owner);
  }

  // One round leaves a resource free, or with an owner that selects it.
  lemma OneRoundFrees(sel: Selection, order: seq<string>, k: Key, owner: string)
    requires "" !in sel.tenants && IsRound(sel, order) && (owner == "" || owner in sel.tenants)
    ensures var after := OwnerAfter(sel, order, k, owner); after == "" || sel.Selects(after, k)
  {
    if owner == "" {
      FreeIsAdopted(sel, order, k);
    } else if sel.Selects(owner, k) {
      SelectingOwnerStays(sel, order, k, owner);
    } else {
      var i := FirstOccurrence(order, owner);
      GivenUp(sel, order, i, k, owner);
      FreeIsAdopted(sel, order[i + 1..], k);
    }
  }

  lemma SecondRoundSettles(sel: Selection, order: seq<string>, k: Key, owner: string)
    requires "" !in sel.tenants && IsRound(sel, order) && (owner == "" || sel.Selects(owner, k))
    ensures Settled(sel, k, OwnerAfter(sel, order, k, owner))
  {
    if owner == "" {
      FreeIsAdopted(sel, order, k);
    } else {
      SelectingOwnerStays(sel, order, k, owner);
    }
  }

  // After any two rounds over all tenants, in any orders, the owners are stable.
  lemma TwoRoundsConverge(sel: Selection, first: seq<string>, second: seq<string>, owners: Owners)
    requires OwnersExist(sel, owners) && IsRound(sel, first) && IsRound(sel, second)
    ensures Stable(sel, Passes(sel, first + second, owners))
  {
    var all := first + second;
    PassesKeepKeys(sel, all, owners);
    forall k | k in owners
      ensures Settled(sel, k, Passes(sel, all, owners)[k])
    {
      PassesAreSeparate(sel, all, owners, k);
      OwnerAfterAll(sel, first, second, k, owners[k]);
      OneRoundFrees(sel, first, k, owners[k]);
      SecondRoundSettles(sel, second, k, OwnerAfter(sel, first, k, owners[k]));
    }
  }

  // Stable owners are exactly those that no pass changes.
  lemma StableIffUnchanging(sel: Selection, owners: Owners)
    requires OwnersExist(sel, owners)
    ensures Stable(sel, owners) <==> forall t | t in sel.tenants :: Pass(sel, t, owners) == owners
  {
    if Stable(sel, owners) {
      forall t | t in sel.tenants
        ensures Pass(sel, t, owners) == owners
      {
        forall k | k in owners
          ensures Pass(sel, t, owners)[k] == owners[k]
        {
          assert Settled(sel, k, owners[k]);
        }
      }
    } else {
      var k :| k in owners && !Settled(sel, k, owners[k]);
      var t := owners[k];
      if t == "" {
        t :| t != "" && sel.Selects(t, k);
      }
      assert Pass(sel, t, owners)[k] != owners[k];
    }
  }

  // One round is enough for a resource unless its owner must give it up and nobody who selects it runs later.
  lemma OneRoundSettlesIff(sel: Selection, order: seq<string>, i: nat, k: Key, owner: string)
    requires "" !in sel.tenants && IsRound(sel, order) && (owner == "" || owner in sel.tenants)
    requires owner != "" ==> i < |order| && order[i] == owner && owner !in order[..i]
    ensures Settled(sel, k, OwnerAfter(sel, order, k, owner)) <==>
            (owner == "" || sel.Selects(owner, k) || !sel.SelectedBySome(k)
             || exists t :: t in order[i + 1..] && sel.Selects(t, k))
  {
    if owner == "" || sel.Selects(owner, k) {
      SecondRoundSettles(sel, order, k, owner);
    } else {
      GivenUp(sel, order, i, k, owner);
      FreeIsAdopted(sel, order[i + 1..], k);
    }
  }

  // ---------------------------------------------------------------------------
  // Owners in the store

  function OwnersOf(kind: Kind, store: Store): Owners {
    map k | k in store && k.kind == kind :: store[k].owner
  }

  // The owner of every resource of the kind went through one pass; all other owners are as before.
  ghost predicate PassedOver(client: Client, kind: Kind, selectors: seq<Selector>, before: Store, after: Store)
  {
    && after.Keys == before.Keys
    && forall k | k in before ::
         after[k].owner == if k.kind == kind
                           then PassOwner(client.tenant, Matched(client.matches, selectors, k.id.namespace),
                                          before[k].owner)
                           else before[k].owner
  }

  ghost predicate KindPassedOver(client: Client, kind: Kind, selectors: seq<Selector>, before: Store, after: Store) {
    && after.Keys == before.Keys
    && forall k | k in before && k.kind == kind ::
         after[k].owner == PassOwner(client.tenant, Matched(client.matches, selectors, k.id.namespace), before[k].owner)
  }

  lemma KindPassedOverIsPass(client: Client, kind: Kind, sel: Selection, before: Store, after: Store)
    requires sel.matches == client.matches && client.tenant in sel.tenants
    requires KindPassedOver(client, kind, sel.tenants[client.tenant], before, after)
    ensures OwnersOf(kind, after) == Pass(sel, client.tenant, OwnersOf(kind, before))
  {
    assert OwnersOf(kind, after).Keys == OwnersOf(kind, before).Keys;
  }

  // The stores before and after each of these runs.
  ghost predicate AreRuns(sel: Selection, kind: Kind, order: seq<string>, stores: seq<Store>) {
    && |stores| == |order| + 1
    && forall i | 0 <= i < |order| :: OwnersOf(kind, stores[i + 1]) == Pass(sel, order[i], OwnersOf(kind, stores[i]))
  }

  lemma EarlierRuns(sel: Selection, kind: Kind, order: seq<string>, stores: seq<Store>, n: nat)
    requires AreRuns(sel, kind, order, stores) && n <= |order|
    ensures AreRuns(sel, kind, order[..n], stores[..n + 1])
  {
    hide OwnersOf, Pass;
    forall i | 0 <= i < n
      ensures OwnersOf(kind, stores[..n + 1][i + 1]) == Pass(sel, order[..n][i], OwnersOf(kind, stores[..n + 1][i]))
    {
      assert OwnersOf(kind, stores[i + 1]) == Pass(sel, order[i], OwnersOf(kind, stores[i]));
    }
  }

  lemma {:induction false} RunsArePasses(sel: Selection, kind: Kind, order: seq<string>, stores: seq<Store>)
    requires AreRuns(sel, kind, order, stores)
    ensures OwnersOf(kind, stores[|order|]) == Passes(sel, order, OwnersOf(kind, stores[0]))
  {
    hide OwnersOf, Pass;
    if order != [] {
      var n := |order| - 1;
      EarlierRuns(sel, kind, order, stores, n);
      RunsArePasses(sel, kind, order[..n], stores[..n + 1]);
      assert OwnersOf(kind, stores[n + 1]) == Pass(sel, order[n], OwnersOf(kind, stores[n]));
    }
  }

  // Two rounds of runs settle the owners in the store, and no later run changes one.
  lemma RunsConverge(sel: Selection, kind: Kind, first: seq<string>, second: seq<string>, later: seq<string>,
                     stores: seq<Store>)
    requires |stores| > 0 && OwnersExist(sel, OwnersOf(kind, stores[0])) && IsRound(sel, first) && IsRound(sel, second)
    requires (forall t | t in later :: t in sel.tenants) && AreRuns(sel, kind, first + second + later, stores)
    ensures Stable(sel, OwnersOf(kind, stores[|first| + |second|]))
    ensures OwnersOf(kind, stores[|stores| - 1]) == OwnersOf(kind, stores[|first| + |second|])
  {
    hide OwnersOf, Pass, Passes, Stable, OwnersExist;
    var n := |first| + |second|;
    var all := first + second + later;
    assert all[..n] == first + second;
    EarlierRuns(sel, kind, all, stores, n);
    RunsArePasses(sel, kind, first + second, stores[..n + 1]);
    var start, settled := OwnersOf(kind, stores[0]), OwnersOf(kind, stores[n]);
    TwoRoundsConverge(sel, first, second, start);
    forall i | 0 <= i < |later|
      ensures OwnersOf(kind, stores[n..][i + 1]) == Pass(sel, later[i], OwnersOf(kind, stores[n..][i]))
    {
      assert all[n + i] == later[i];
    }
    RunsArePasses(sel, kind, later, stores[n..]);
    OwnersStillExist(sel, first + second, start);
    StaysStable(sel, later, settled);
  }

  lemma {:induction false} OwnersStillExist(sel: Selection, order: seq<string>, owners: Owners)
    requires OwnersExist(sel, owners) && forall t | t in order :: t in sel.tenants
    ensures OwnersExist(sel, Passes(sel, order, owners))
  {
    if order != [] {
      OwnersStillExist(sel, order[..|order| - 1], owners);
    }
  }

  lemma {:induction false} StaysStable(sel: Selection, order: seq<string>, owners: Owners)
    requires OwnersExist(sel, owners) && Stable(sel, owners) && forall t | t in order :: t in sel.tenants
    ensures Passes(sel, order, owners) == owners
  {
    if order != [] {
      StaysStable(sel, order[..|order| - 1], owners);
      StableIffUnchanging(sel, owners);
    }
  }
}
