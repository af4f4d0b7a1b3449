/** RouteReconciler: one run for one tenant, from its selectors to its written status. */
module RouteController {
  import opened Names
  import opened Ordering
  import opened Api
  import opened Ownership
  import opened ApiClient
  import opened TenantResources
  import opened Convergence
  import opened SubscriptionOutputs

  // ---------------------------------------------------------------------------
  // Taking ownership of one kind of resource

  // This run was told that the tenant selects the namespace of each.
  ghost predicate AllInSelected(calls: seq<Call>, selectors: seq<Selector>, items: seq<Resource>) {
    forall x | x in items :: SeenSelected(calls, selectors, x.key.id.namespace)
  }

  ghost predicate Keyed(store: Store) {
    forall k | k in store :: store[k].key == k
  }

  // Exactly the resources of this kind and owner in the selected namespaces.
  ghost predicate Takes(client: Client, kind: Kind, selectors: seq<Selector>, store: Store, keys: set<Key>,
                        owner: string) {
    forall k :: k in keys <==>
      k in store && k.kind == kind && store[k].owner == owner && Matched(client.matches, selectors, k.id.namespace)
  }

  // Exactly the tenant's resources of this kind that it did not take.
  ghost predicate GivesUp(tenant: string, kind: Kind, store: Store, taken: set<Key>, keys: set<Key>) {
    forall k :: k in keys <==> k in store && k.kind == kind && store[k].owner == tenant && k !in taken
  }

  lemma TakesKeys(client: Client, kind: Kind, selectors: seq<Selector>, store: Store, items: seq<Resource>,
                  owner: string)
    requires Keyed(store) && Current(store, items) && AllOwnedBy(owner, items) && AllOfKind(kind, items)
    requires Covers(client, store, kind, selectors, items, owner)
    requires forall x | x in items :: Matched(client.matches, selectors, x.key.id.namespace)
    ensures Takes(client, kind, selectors, store, KeysOf(items), owner)
  {
    hide Matched;
    forall k | k in store && k.kind == kind && store[k].owner == owner
               && Matched(client.matches, selectors, k.id.namespace)
      ensures k in KeysOf(items)
    {
      assert store[k] in items && store[k].key == k;
    }
  }

  lemma GivesUpKeys(tenant: string, kind: Kind, store: Store, taken: set<Key>, rest: seq<Resource>)
    requires Current(store, rest) && AllOwnedBy(tenant, rest) && AllOfKind(kind, rest) && KeysOf(rest) !! taken
    requires forall k | k in store && k.kind == kind && k !in taken :: store[k].owner == tenant ==> k in KeysOf(rest)
    ensures GivesUp(tenant, kind, store, taken, KeysOf(rest))
  {
  }

  // The tenant's owners and states after it took and gave up.
  lemma TakenOver(client: Client, kind: Kind, selectors: seq<Selector>, s0: Store, s1: Store, s2: Store, s3: Store,
                  owned: set<Key>, updates: set<Key>, rest: set<Key>)
    requires client.tenant != "" && SameOwners(s0, s1) && OnlyDisputesChanged(client.tenant, kind, s0, s1)
    requires Takes(client, kind, selectors, s1, owned, client.tenant) && Takes(client, kind, selectors, s1, updates, "")
    requires Rewritten(s1, s2, updates, client.tenant) && Rewritten(s2, s3, rest, "")
    requires GivesUp(client.tenant, kind, s2, owned + updates, rest)
    ensures PassedOver(client, kind, selectors, s0, s3) && Kept(client.tenant, kind, s0, s3)
    ensures forall k :: k in owned + updates <==> k in s3 && k.kind == kind && s3[k].owner == client.tenant
  {
    hide Matched, AtMostFailed;
  }

  // In a calm run what other tenants own at most becomes failed.
  ghost predicate OthersAtMostFail(tenant: string, before: Store, after: Store) {
    && after.Keys == before.Keys
    && forall k | k in before && !Undisputed(tenant, before[k]) :: AtMostFailed(before[k], after[k])
  }

  lemma OthersThrough(tenant: string, first: Store, second: Store, third: Store)
    requires OthersAtMostFail(tenant, first, second) && OthersAtMostFail(tenant, second, third)
    ensures OthersAtMostFail(tenant, first, third)
  {
  }

  lemma OthersWhenTaken(tenant: string, kind: Kind, s0: Store, s1: Store, s2: Store, s3: Store, updates: set<Key>,
                        rest: set<Key>)
    requires tenant != "" && OnlyDisputesChanged(tenant, kind, s0, s1)
    requires Rewritten(s1, s2, updates, tenant) && Rewritten(s2, s3, rest, "")
    requires forall k | k in updates :: k in s1 && s1[k].owner == ""
    requires forall k | k in rest :: k in s2 && s2[k].owner == tenant
    ensures OthersAtMostFail(tenant, s0, s3)
  {
    forall k | k in s0 && !Undisputed(tenant, s0[k])
      ensures AtMostFailed(s0[k], s3[k])
    {
      assert s1[k].owner == s0[k].owner && s3[k] == s1[k];
    }
  }

  lemma DisputesStillFailed(client: Client, kind: Kind, selectors: seq<Selector>, s1: Store, s2: Store, s3: Store,
                            updates: set<Key>, rest: set<Key>)
    requires client.tenant != "" && DisputesFailed(client, kind, selectors, s1)
    requires Rewritten(s1, s2, updates, client.tenant) && Rewritten(s2, s3, rest, "")
    ensures DisputesFailed(client, kind, selectors, s3)
  {
    hide Matched;
  }

  // A pass changes no other kind, and what the tenant owns afterwards keeps its state.
  ghost predicate Kept(tenant: string, kind: Kind, before: Store, after: Store) {
    && after.Keys == before.Keys
    && forall k | k in after ::
         if k.kind == kind then after[k].owner == tenant ==> after[k].state == before[k].state
         else after[k] == before[k]
  }

  ghost predicate KnownIn(init: Store, log: seq<Event>, calls: seq<Call>, items: seq<Resource>) {
    forall x | x in items :: WasStored(init, log, x) && (Saw(x) in calls || Wrote(x) in calls)
  }

  lemma KnownNow(client: Client, items: seq<Resource>)
    ensures KnownIn(client.init, client.log, client.calls, items) <==> Known(client, items)
  {
  }

  lemma KnownLater(client: Client, items: seq<Resource>, log: seq<Event>, calls: seq<Call>)
    requires KnownIn(client.init, log, calls, items) && log <= client.log && calls <= client.calls
    ensures Known(client, items)
  {
    WasStoredLater(client.init, log, client.log);
  }

  lemma KnownTogether(client: Client, a: seq<Resource>, b: seq<Resource>)
    requires Known(client, a) && Known(client, b)
    ensures Known(client, a + b)
  {
  }

  lemma WhatIsListed(client: Client, kind: Kind, selectors: seq<Selector>, namespaces: seq<string>,
                     listed: seq<Resource>,
                     owner: string)
    requires Known(client, listed) && NoDupKeys(listed) && InNamespaces(kind, namespaces, listed)
    requires AllSeenSelected(client.calls, selectors, namespaces)
    ensures var items := WithOwner(owner, listed);
            && Known(client, items) && NoDupKeys(items) && AllOwnedBy(owner, items) && AllOfKind(kind, items)
            && AllInSelected(client.calls, selectors, items)
            && forall x | x in items :: x.key.id.namespace in namespaces
  {
    hide SeenSelected;
    WithOwnerMembers(owner, listed);
  }

  lemma OwnersDiffer(listed: seq<Resource>, a: string, b: string)
    requires NoDupKeys(listed) && a != b
    ensures KeysOf(WithOwner(a, listed)) !! KeysOf(WithOwner(b, listed))
  {
    WithOwnerMembers(a, listed);
    WithOwnerMembers(b, listed);
  }

  lemma Together(a: seq<Resource>, b: seq<Resource>, keys: set<Key>)
    requires NoDupKeys(a) && NoDupKeys(b) && KeysOf(b) <= keys && KeysOf(a) !! keys
    ensures NoDupKeys(a + b) && KeysOf(a + b) == KeysOf(a) + KeysOf(b)
  {
    var both := a + b;
    forall i, j | 0 <= i < j < |both|
      ensures both[i].key != both[j].key
    {
      if i < |a| && |a| <= j {
        assert a[i].key in KeysOf(a);
        assert b[j - |a|] in b && b[j - |a|].key in KeysOf(b);
      }
    }
  }

  lemma UpdatedInSelected(calls: seq<Call>, more: seq<Call>, selectors: seq<Selector>, owned: seq<Resource>,
                          updates: seq<Resource>, updated: seq<Resource>)
    requires AllInSelected(calls, selectors, owned) && AllInSelected(calls, selectors, updates) && calls <= more
    requires KeysOf(updated) <= KeysOf(updates)
    ensures AllInSelected(more, selectors, owned + updated)
  {
    forall x | x in owned + updated
      ensures SeenSelected(more, selectors, x.key.id.namespace)
    {
      if x in updated {
        assert x.key in KeysOf(updates);
      }
      assert SeenSelected(calls, selectors, x.key.id.namespace);
      var c :| c in calls && c.SawNamespaces? && c.selector in selectors && x.key.id.namespace in c.names;
      assert c in more;
    }
  }

  lemma StillInSelected(calls: seq<Call>, more: seq<Call>, selectors: seq<Selector>, items: seq<Resource>)
    requires AllInSelected(calls, selectors, items) && calls <= more
    ensures AllInSelected(more, selectors, items)
  {
    UpdatedInSelected(calls, more, selectors, items, [], []);
    assert items + [] == items;
  }

  lemma OfOneKind(kind: Kind, owned: seq<Resource>, updates: seq<Resource>, updated: seq<Resource>)
    requires AllOfKind(kind, owned) && AllOfKind(kind, updates) && KeysOf(updated) <= KeysOf(updates)
    ensures AllOfKind(kind, owned + updated)
  {
    forall x | x in updated
      ensures x.key.kind == kind
    {
      assert x.key in KeysOf(updates);
    }
  }

  lemma CurrentStill(before: Store, after: Store, items: seq<Resource>, keys: set<Key>, owner: string)
    requires Current(before, items) && Rewritten(before, after, keys, owner) && KeysOf(items) !! keys
    ensures Current(after, items)
  {
    assert forall x | x in items :: x.key in KeysOf(items);
  }

  lemma CurrentThrough(before: Store, after: Store, owned: seq<Resource>, updated: seq<Resource>, keys: set<Key>,
                       owner: string)
    requires Current(before, owned) && Current(after, updated) && Rewritten(before, after, keys, owner)
    requires KeysOf(owned) !! keys
    ensures Current(after, owned + updated)
  {
    CurrentStill(before, after, owned, keys, owner);
  }

  lemma OwnersOfKeys(store: Store, items: seq<Resource>, owner: string)
    requires Current(store, items) && AllOwnedBy(owner, items)
    ensures forall k | k in KeysOf(items) :: k in store && store[k].owner == owner
  {
  }

  lemma NamesAnswered(kind: Kind, namespaces: seq<string>, listed: seq<Resource>, answers: seq<Call>)
    requires InNamespaces(kind, namespaces, listed) && forall n :: n in namespaces <==> Answered(answers, n)
    ensures forall x | x in listed :: Answered(answers, x.key.id.namespace)
  {
    hide Answered;
  }

  lemma NowTookOver(tenant: string, selectors: seq<Selector>, t: Takeover, resources: seq<Resource>,
                    rest: seq<Resource>)
    requires AnswersTo(selectors, t.answers)
    requires forall x | x in t.listed :: Answered(t.answers, x.key.id.namespace)
    requires Attempts(t.marks, Failing(Disputed(tenant, t.listed)))
    requires Attempts(t.adoptions, Reowned(tenant, WithOwner("", t.listed)))
    requires resources == WithOwner(tenant, t.listed) + WrittenIn(t.adoptions)
    requires rest == NotSelected(resources, t.referring) && Attempts(t.disownings, Reowned("", rest))
    ensures TookOver(tenant, selectors, t, resources)
  {
  }

  // Everything the run asked and tried for one kind: the namespaces it was told of, what it listed in them, the marks
  // on disputed resources, the adoptions, what referred to the tenant, and the resources given up.
  datatype Takeover = Takeover(
    answers: seq<Call>,
    listed: seq<Resource>,
    marks: seq<Call>,
    adoptions: seq<Call>,
    referring: seq<Resource>,
    disownings: seq<Call>)
  {
    function Calls(): seq<Call> {
      answers + Seen(listed) + marks + adoptions + Seen(referring) + disownings
    }
  }

  // Every selector was asked for, every dispute was marked, every free resource was tried, the result is what the
  // tenant owned and what was adopted, and everything else that referred to the tenant was tried to be given up.
  ghost predicate TookOver(tenant: string, selectors: seq<Selector>, t: Takeover, resources: seq<Resource>) {
    && AnswersTo(selectors, t.answers)
    && (forall x | x in t.listed :: Answered(t.answers, x.key.id.namespace))
    && Attempts(t.marks, Failing(Disputed(tenant, t.listed)))
    && Attempts(t.adoptions, Reowned(tenant, WithOwner("", t.listed)))
    && resources == WithOwner(tenant, t.listed) + WrittenIn(t.adoptions)
    && Attempts(t.disownings, Reowned("", NotSelected(resources, t.referring)))
  }

  // Nothing was listed about bridges since then.
  predicate NoBridgesSince(calls: seq<Call>, more: seq<Call>) {
    calls <= more && forall i | |calls| <= i < |more| :: !more[i].SawBridges?
  }

  lemma NoBridgesTaken(tenant: string, selectors: seq<Selector>, calls: seq<Call>, t: Takeover,
                       resources: seq<Resource>)
    requires TookOver(tenant, selectors, t, resources)
    ensures NoBridgesSince(calls, calls + t.Calls())
  {
    hide Disputed, WithOwner, NotSelected, WrittenIn, Answered, KeysOf;
    assert forall c | c in t.Calls() :: !c.SawBridges?;
    var more := calls + t.Calls();
    forall i | |calls| <= i < |more|
      ensures !more[i].SawBridges?
    {
      assert more[i] == t.Calls()[i - |calls|];
    }
  }

  method TakeOwnership(client: Client, kind: Kind, selectors: seq<Selector>)
    returns (err: Option<Failure>, resources: seq<Resource>, ghost taken: Takeover)
    requires client.Valid()
    modifies client`log, client`store, client`calls
    ensures client.Valid() && client.Continues()
    ensures err.None? ==> client.calls == old(client.calls) + taken.Calls()
                          && TookOver(client.tenant, selectors, taken, resources)
    ensures err.None? ==> NoBridgesSince(old(client.calls), client.calls)
    ensures err.None? ==> Known(client, resources) && NoDupKeys(resources)
    ensures err.None? ==> AllOwnedBy(client.tenant, resources) && AllOfKind(kind, resources)
    ensures err.None? ==> AllInSelected(client.calls, selectors, resources)
    ensures err.Some? ==> err.value == ResourcesUnavailable(kind, Unavailable)
                          && ReadFailedSince(old(client.calls), client.calls)
    ensures client.calm ==> err.None? && PassedOver(client, kind, selectors, old(client.store), client.store)
    ensures client.calm ==> Kept(client.tenant, kind, old(client.store), client.store)
    ensures client.calm ==> forall k :: k in KeysOf(resources) <==>
              k in client.store && k.kind == kind && client.store[k].owner == client.tenant
    ensures client.calm ==> Current(client.store, resources)
    ensures client.calm ==> DisputesFailed(client, kind, selectors, client.store)
    ensures client.calm ==> OthersAtMostFail(client.tenant, old(client.store), client.store)
  {
    hide Client.Valid;
    hide Known, NoDupKeys, AllInSelected, Matched, WithOwner, InNamespaces, SeenSelected, AllSeenSelected, Sorted,
         NoDup, Covers, Rewritten, OnlyDisputesChanged, PassedOver, Kept, Takes, GivesUp, KeysOf, MarkedFailed,
         SameOwners, NotSelected, Disputed, DisputesFailed, Answered, AnswersTo, Attempts, Failing, Reowned,
         WrittenIn, Seen, OthersAtMostFail, TookOver, NoBridgesSince;
    resources, taken := [], Takeover([], [], [], [], [], []);
    ghost var s0, start := client.store, client.calls;
    var failed, owned, updates, namespaces, answers, listed, marks := GetResourceOwnedByTenant(client, kind, selectors);
    if failed.Some? {
      return Some(ResourcesUnavailable(kind, failed.value)), [], taken;
    }
    ghost var s1, log, calls := client.store, client.log, client.calls;
    WhatIsListed(client, kind, selectors, namespaces, listed, client.tenant);
    WhatIsListed(client, kind, selectors, namespaces, listed, "");
    client.StoreIsKeyed();
    OwnersDiffer(listed, client.tenant, "");
    if client.calm {
      TakesKeys(client, kind, selectors, s1, owned, client.tenant);
      TakesKeys(client, kind, selectors, s1, updates, "");
    }
    KnownNow(client, owned);

    var updated, adoptions := UpdateResourcesForTenant(client, updates);
    resources := owned + updated;
    ghost var s2 := client.store;
    KnownLater(client, owned, log, calls);
    KnownTogether(client, owned, updated);
    Together(owned, updated, KeysOf(updates));
    UpdatedInSelected(calls, client.calls, selectors, owned, updates, updated);
    OfOneKind(kind, owned, updates, updated);
    KnownNow(client, resources);
    log, calls := client.log, client.calls;
    if client.calm {
      CurrentThrough(s1, s2, owned, updated, KeysOf(updates), client.tenant);
    }

    var unlisted, rest, referring := GetResourcesReferencingTenantButNotSelected(client, kind, resources);
    if unlisted.Some? {
      FailedSince(start, calls, client.calls);
      return Some(ResourcesUnavailable(kind, unlisted.value)), [], taken;
    }
    if client.calm {
      GivesUpKeys(client.tenant, kind, s2, KeysOf(resources), rest);
    }
    var disownings := DisownResources(client, rest);
    taken := Takeover(answers, listed, marks, adoptions, referring, disownings);
    NamesAnswered(kind, namespaces, listed, answers);
    NowTookOver(client.tenant, selectors, taken, resources, rest);
    assert client.calls == start + taken.Calls();
    NoBridgesTaken(client.tenant, selectors, start, taken, resources);
    KnownLater(client, resources, log, calls);
    StillInSelected(calls, client.calls, selectors, resources);
    if client.calm {
      TakenOver(client, kind, selectors, s0, s1, s2, client.store, KeysOf(owned), KeysOf(updates), KeysOf(rest));
      DisputesStillFailed(client, kind, selectors, s1, s2, client.store, KeysOf(updates), KeysOf(rest));
      OwnersOfKeys(s1, updates, "");
      OwnersOfKeys(s2, rest, client.tenant);
      OthersWhenTaken(client.tenant, kind, s0, s1, s2, client.store, KeysOf(updates), KeysOf(rest));
      CurrentStill(s2, client.store, resources, KeysOf(rest), "");
    }
    err := None;
  }

  // ---------------------------------------------------------------------------
  // The tenant and what its status may claim

  class TenantObject {
    const name: string
    const logSourceSelectors: seq<Selector>
    const subscriptionSelectors: seq<Selector>
    var status: TenantStatus

    constructor (name: string, logSourceSelectors: seq<Selector>, subscriptionSelectors: seq<Selector>,
                 status: TenantStatus)
      ensures this.name == name && this.status == status
      ensures this.logSourceSelectors == logSourceSelectors && this.subscriptionSelectors == subscriptionSelectors
    {
      this.name, this.logSourceSelectors, this.subscriptionSelectors := name, logSourceSelectors, subscriptionSelectors;
      this.status := status;
    }
  }

  // This run saw the output, owned by the tenant and in a selected namespace.
  ghost predicate OutputSeen(calls: seq<Call>, tenant: string, selectors: seq<Selector>, o: NamespacedName) {
    && SeenSelected(calls, selectors, o.namespace)
    && exists x :: (Saw(x) in calls || Wrote(x) in calls) && x.key == Key(OutputKind, o) && x.owner == tenant
  }

  // This run wrote the subscription ready, with all its outputs, each of which it saw owned by the tenant.
  ghost predicate EarnedBy(calls: seq<Call>, tenant: string, selectors: seq<Selector>, s: NamespacedName, w: Resource) {
    && Wrote(w) in calls && w.key == Key(SubscriptionKind, s) && w.owner == tenant && w.state.Ready?
    && SeenSelected(calls, selectors, s.namespace)
    && w.statusOutputs == SortNames(w.specOutputs)
    && forall o | o in w.specOutputs :: OutputSeen(calls, tenant, selectors, o)
  }

  ghost predicate Earned(calls: seq<Call>, tenant: string, selectors: seq<Selector>, s: NamespacedName) {
    exists w :: EarnedBy(calls, tenant, selectors, s, w)
  }

  ghost predicate SubscriptionsEarned(calls: seq<Call>, tenant: string, selectors: seq<Selector>,
                                      subscriptions: Slice<NamespacedName>)
  {
    && subscriptions.Items?
    && Sorted(StringKey(), subscriptions.items) && NoDup(subscriptions.items)
    && forall s | s in subscriptions.items :: Earned(calls, tenant, selectors, s)
  }

  lemma SeenSelectedLater(calls: seq<Call>, more: seq<Call>, selectors: seq<Selector>, namespace: string)
    requires SeenSelected(calls, selectors, namespace) && calls <= more
    ensures SeenSelected(more, selectors, namespace)
  {
    var c :| c in calls && c.SawNamespaces? && c.selector in selectors && namespace in c.names;
    assert c in more;
  }

  lemma OutputSeenLater(calls: seq<Call>, more: seq<Call>, tenant: string, selectors: seq<Selector>, o: NamespacedName)
    requires OutputSeen(calls, tenant, selectors, o) && calls <= more
    ensures OutputSeen(more, tenant, selectors, o)
  {
    SeenSelectedLater(calls, more, selectors, o.namespace);
    var x :| (Saw(x) in calls || Wrote(x) in calls) && x.key == Key(OutputKind, o) && x.owner == tenant;
    assert Saw(x) in more || Wrote(x) in more;
  }

  lemma EarnedLater(calls: seq<Call>, more: seq<Call>, tenant: string, selectors: seq<Selector>,
                    subscriptions: Slice<NamespacedName>)
    requires SubscriptionsEarned(calls, tenant, selectors, subscriptions) && calls <= more
    ensures SubscriptionsEarned(more, tenant, selectors, subscriptions)
  {
    hide SeenSelected, OutputSeen;
    forall s | s in subscriptions.items
      ensures Earned(more, tenant, selectors, s)
    {
      var w :| EarnedBy(calls, tenant, selectors, s, w);
      SeenSelectedLater(calls, more, selectors, s.namespace);
      forall o | o in w.specOutputs
        ensures OutputSeen(more, tenant, selectors, o)
      {
        OutputSeenLater(calls, more, tenant, selectors, o);
      }
      assert EarnedBy(more, tenant, selectors, s, w);
    }
  }

  lemma CachedIsSeen(client: Client, selectors: seq<Selector>, outputs: seq<Resource>, o: NamespacedName)
    requires Known(client, outputs) && AllOwnedBy(client.tenant, outputs) && AllOfKind(OutputKind, outputs)
    requires AllInSelected(client.calls, selectors, outputs) && o in ByName(outputs)
    ensures OutputSeen(client.calls, client.tenant, selectors, o)
  {
    hide SeenSelected;
    ByNameHolds(outputs);
    var x := ByName(outputs)[o];
    assert x in outputs && x.key == Key(OutputKind, o);
  }

  lemma JudgedIsEarned(client: Client, selectors: seq<Selector>, outputs: seq<Resource>, subscription: Resource,
                       w: Resource)
    requires Known(client, outputs) && AllOwnedBy(client.tenant, outputs) && AllOfKind(OutputKind, outputs)
    requires AllInSelected(client.calls, selectors, outputs)
    requires Judged(client.calls, ByName(outputs), subscription, w) && !w.state.Failed?
    requires subscription.key.kind.SubscriptionKind? && subscription.owner == client.tenant
    requires SeenSelected(client.calls, selectors, subscription.key.id.namespace)
    ensures Earned(client.calls, client.tenant, selectors, subscription.key.id)
  {
    hide SeenSelected, OutputSeen, ByName, Known, AllInSelected;
    ReadyMeansAllOutputs(client.calls, ByName(outputs), subscription, w);
    SortNamesKeeps(w.specOutputs);
    forall o | o in w.specOutputs
      ensures OutputSeen(client.calls, client.tenant, selectors, o)
    {
      assert Reaches(ByName(outputs), client.tenant, o);
      CachedIsSeen(client, selectors, outputs, o);
    }
    assert EarnedBy(client.calls, client.tenant, selectors, subscription.key.id, w) by {
      hide SortNames;
    }
  }

  // ---------------------------------------------------------------------------
  // The steps of a run

  lemma SortTwice(names: seq<string>)
    requires Sorted(Identity(), names)
    ensures Sort(Identity(), names) == names
  {
    SortSorts(Identity(), names);
    SortUnique(Identity(), Sort(Identity(), names), names);
  }

  method HandleLogSourceNamespaces(client: Client, tenant: TenantObject) returns (err: Option<Failure>)
    requires client.Valid() && tenant.name == client.tenant
    modifies client`log, client`store, client`calls, tenant
    ensures client.Valid() && client.Continues()
    ensures err.None? ==> LogSourcesSeen(client.calls, tenant.logSourceSelectors, tenant.status.logSourceNamespaces)
    ensures err.None? ==> ListsLogSources(old(client.calls), client.calls, tenant.logSourceSelectors,
                                          tenant.status.logSourceNamespaces)
    ensures err.None? ==> NoBridgesSince(old(client.calls), client.calls)
    ensures err.Some? ==> err.value == NamespacesUnavailable(Unavailable)
                          && Cause(err.value, tenant.name, client.calls)
    ensures tenant.status == old(tenant.status).(logSourceNamespaces := tenant.status.logSourceNamespaces)
    ensures client.calm ==> err.None? && client.store == old(client.store)
    ensures client.calm ==>
              tenant.status.logSourceNamespaces.Items?
              && forall n :: n in tenant.status.logSourceNamespaces.items
                             <==> Matched(client.matches, tenant.logSourceSelectors, n)
  {
    var namespaces, answers := GetNamespacesForSelectorSlice(client, tenant.logSourceSelectors);
    if namespaces.Err? {
      FailedReadIsCause(old(client.calls), client.calls, tenant.name);
      return Some(NamespacesUnavailable(namespaces.error));
    }
    assert client.calls[|old(client.calls)|..] == answers && answers[..|answers|] == answers;
    SortTwice(namespaces.value);
    tenant.status := tenant.status.(logSourceNamespaces := Items(Sort(Identity(), namespaces.value)));
    err := None;
  }

  ghost predicate LogSourcesSeen(calls: seq<Call>, selectors: seq<Selector>, namespaces: Slice<string>) {
    && namespaces.Items?
    && Sorted(Identity(), namespaces.items) && NoDup(namespaces.items)
    && AllSeenSelected(calls, selectors, namespaces.items)
  }

  // After these calls every selector for log sources was asked for, and the status names what was answered.
  ghost predicate ListsLogSources(calls: seq<Call>, more: seq<Call>, selectors: seq<Selector>,
                                  namespaces: Slice<string>)
  {
    && calls <= more && |calls| + |selectors| <= |more| && namespaces.Items?
    && var answers := more[|calls|..][..|selectors|];
       AnswersTo(selectors, answers) && forall n :: n in namespaces.items <==> Answered(answers, n)
  }

  lemma ListsLogSourcesLater(calls: seq<Call>, more: seq<Call>, most: seq<Call>, selectors: seq<Selector>,
                             namespaces: Slice<string>)
    requires ListsLogSources(calls, more, selectors, namespaces) && more <= most
    ensures ListsLogSources(calls, most, selectors, namespaces)
  {
    hide Answered;
    assert most[|calls|..][..|selectors|] == more[|calls|..][..|selectors|];
  }

  method FirstFailed(resources: seq<Resource>) returns (failed: Option<Key>)
    ensures failed.None? <==> forall x | x in resources :: !x.state.Failed?
    ensures failed.Some? ==> exists i | 0 <= i < |resources| ::
              && failed.value == resources[i].key && resources[i].state.Failed?
              && forall j | 0 <= j < i :: !resources[j].state.Failed?
  {
    for i := 0 to |resources|
      invariant forall x | x in resources[..i] :: !x.state.Failed?
    {
      assert resources[..i + 1] == resources[..i] + [resources[i]];
      if resources[i].state.Failed? {
        assert resources[i] in resources;
        return Some(resources[i].key);
      }
    }
    assert resources[..|resources|] == resources;
    return None;
  }

  function NamesOf(resources: seq<Resource>): seq<NamespacedName> {
    seq(|resources|, i requires 0 <= i < |resources| => resources[i].key.id)
  }

  lemma NamesAreDistinct(kind: Kind, resources: seq<Resource>)
    requires NoDupKeys(resources) && AllOfKind(kind, resources)
    ensures NoDup(NamesOf(resources))
    ensures forall n :: n in NamesOf(resources) <==> Key(kind, n) in KeysOf(resources)
  {
    var names := NamesOf(resources);
    forall i, j | 0 <= i < j < |names|
      ensures names[i] != names[j]
    {
      assert resources[i] in resources && resources[j] in resources;
    }
    forall n
      ensures n in names <==> Key(kind, n) in KeysOf(resources)
    {
      if n in names {
        var i :| 0 <= i < |names| && names[i] == n;
        assert resources[i] in resources;
      }
      if Key(kind, n) in KeysOf(resources) {
        var x :| x in resources && x.key == Key(kind, n);
        var i :| 0 <= i < |resources| && resources[i] == x;
        assert names[i] == n;
      }
    }
  }

  // A failed output that the tenant owns, or is about to adopt.
  ghost predicate Blocked(client: Client, selectors: seq<Selector>, store: Store) {
    exists k :: k in store && IsBlocking(client, selectors, store, k)
  }

  ghost predicate IsBlocking(client: Client, selectors: seq<Selector>, store: Store, k: Key)
    requires k in store
  {
    && k.kind == OutputKind && store[k].state.Failed?
    && Undisputed(client.tenant, store[k]) && Matched(client.matches, selectors, k.id.namespace)
  }

  ghost predicate SubscriptionsUntouched(before: Store, after: Store) {
    && after.Keys == before.Keys
    && forall k | k in before && k.kind == SubscriptionKind :: after[k] == before[k]
  }

  // The Output pass decides whether the tenant is blocked, and a blocked tenant stays blocked.
  lemma OutputPass(client: Client, selectors: seq<Selector>, before: Store, after: Store, outputs: seq<Resource>)
    requires client.tenant != "" && PassedOver(client, OutputKind, selectors, before, after)
    requires Kept(client.tenant, OutputKind, before, after) && Current(after, outputs)
    requires forall k :: k in KeysOf(outputs) <==> k in after && k.kind == OutputKind && after[k].owner == client.tenant
    ensures Blocked(client, selectors, before) <==> exists x :: x in outputs && x.state.Failed?
    ensures Blocked(client, selectors, before) ==> Blocked(client, selectors, after)
    ensures SubscriptionsUntouched(before, after)
  {
    hide Matched;
    if Blocked(client, selectors, before) {
      var k :| k in before && IsBlocking(client, selectors, before, k);
      assert k in KeysOf(outputs) && IsBlocking(client, selectors, after, k);
      var x :| x in outputs && x.key == k;
    }
    if x :| x in outputs && x.state.Failed? {
      assert x.key in KeysOf(outputs);
      assert IsBlocking(client, selectors, before, x.key);
    }
  }

  // Both passes, and whatever validation wrote after them.
  lemma BothPasses(client: Client, selectors: seq<Selector>, s0: Store, s1: Store, s2: Store, s3: Store, keys: set<Key>)
    requires PassedOver(client, OutputKind, selectors, s0, s1)
             && PassedOver(client, SubscriptionKind, selectors, s1, s2)
    requires UnchangedBut(s2, s3, keys)
    ensures KindPassedOver(client, OutputKind, selectors, s0, s3)
    ensures KindPassedOver(client, SubscriptionKind, selectors, s0, s3)
    ensures SameOwners(s2, s3)
  {
    hide Matched;
  }

  lemma DisputedOutputsFailed(client: Client, selectors: seq<Selector>, s1: Store, s2: Store, s3: Store,
                              outputs: set<Key>, subscriptions: set<Key>)
    requires DisputesFailed(client, OutputKind, selectors, s1) && Kept(client.tenant, SubscriptionKind, s1, s2)
    requires UnchangedBut(s2, s3, outputs + subscriptions)
    requires forall k | k in outputs :: k in s1 && s1[k].owner == client.tenant
    requires forall k | k in subscriptions :: k.kind == SubscriptionKind
    ensures DisputesFailed(client, OutputKind, selectors, s3)
  {
    hide Matched;
  }

  lemma OnePass(client: Client, kind: Kind, selectors: seq<Selector>, before: Store, after: Store)
    requires PassedOver(client, kind, selectors, before, after)
    ensures KindPassedOver(client, kind, selectors, before, after)
  {
    hide Matched;
  }

  // The status lists the tenant's subscriptions and no other.
  ghost predicate ListsOwned(tenant: string, store: Store, subscriptions: Slice<NamespacedName>) {
    && subscriptions.Items?
    && forall s :: s in subscriptions.items <==>
         Key(SubscriptionKind, s) in store && store[Key(SubscriptionKind, s)].owner == tenant
  }

  lemma AllListed(tenant: string, before: Store, after: Store, subscriptions: seq<Resource>)
    requires NoDupKeys(subscriptions) && AllOfKind(SubscriptionKind, subscriptions) && SameOwners(before, after)
    requires forall k :: k in KeysOf(subscriptions) <==>
               k in before && k.kind == SubscriptionKind && before[k].owner == tenant
    ensures ListsOwned(tenant, after, Items(SortNames(NamesOf(subscriptions))))
  {
    NamesAreDistinct(SubscriptionKind, subscriptions);
    SortNamesKeeps(NamesOf(subscriptions));
  }

  lemma AllEarned(client: Client, selectors: seq<Selector>, outputs: seq<Resource>, subscriptions: seq<Resource>,
                  written: seq<Resource>)
    requires Known(client, outputs) && AllOwnedBy(client.tenant, outputs) && AllOfKind(OutputKind, outputs)
    requires AllInSelected(client.calls, selectors, outputs) && AllInSelected(client.calls, selectors, subscriptions)
    requires NoDupKeys(subscriptions) && AllOfKind(SubscriptionKind, subscriptions)
    requires AllOwnedBy(client.tenant, subscriptions)
    requires AllJudged(client.calls, ByName(outputs), subscriptions, written)
    requires forall x | x in written :: !x.state.Failed?
    ensures SubscriptionsEarned(client.calls, client.tenant, selectors, Items(SortNames(NamesOf(subscriptions))))
  {
    hide SeenSelected, ByName, Known, Judged, Earned;
    var names := NamesOf(subscriptions);
    NamesAreDistinct(SubscriptionKind, subscriptions);
    SortSorts(StringKey(), names);
    SortKeepsNoDup(StringKey(), names);
    SortNamesKeeps(names);
    forall s | s in SortNames(names)
      ensures Earned(client.calls, client.tenant, selectors, s)
    {
      var i :| 0 <= i < |names| && names[i] == s;
      assert subscriptions[i] in subscriptions && written[i] in written;
      JudgedIsEarned(client, selectors, outputs, subscriptions[i], written[i]);
    }
  }

  // What a calm run does to the store. The owners of Outputs go through one pass, disputed Outputs are failed, and
  // resources of other tenants at most become failed. A failed Output of the tenant ends the run before the
  // Subscription pass and stays failed; otherwise the owners of Subscriptions go through one pass too.
  ghost predicate CalmOutcome(client: Client, selectors: seq<Selector>, before: Store, after: Store,
                              err: Option<Failure>)
  {
    && KindPassedOver(client, OutputKind, selectors, before, after)
    && DisputesFailed(client, OutputKind, selectors, after)
    && OthersAtMostFail(client.tenant, before, after)
    && if Blocked(client, selectors, before)
       then err.Some? && err.value.ResourceFailed? && Blocked(client, selectors, after)
            && Kept(client.tenant, OutputKind, before, after) && SubscriptionsUntouched(before, after)
       else KindPassedOver(client, SubscriptionKind, selectors, before, after)
  }

  lemma OutcomeStands(client: Client, selectors: seq<Selector>, before: Store, after: Store, err: Option<Failure>)
    requires CalmOutcome(client, selectors, before, after, None)
    ensures CalmOutcome(client, selectors, before, after, err) && !Blocked(client, selectors, before)
  {
    hide KindPassedOver, DisputesFailed, OthersAtMostFail, Blocked;
  }

  lemma BlockedOutcome(client: Client, selectors: seq<Selector>, before: Store, after: Store, k: Key)
    requires PassedOver(client, OutputKind, selectors, before, after) && Kept(client.tenant, OutputKind, before, after)
    requires DisputesFailed(client, OutputKind, selectors, after) && OthersAtMostFail(client.tenant, before, after)
    requires Blocked(client, selectors, before) && Blocked(client, selectors, after)
    requires SubscriptionsUntouched(before, after)
    ensures CalmOutcome(client, selectors, before, after, Some(ResourceFailed(k)))
  {
    hide DisputesFailed, OthersAtMostFail, Blocked, Kept, PassedOver;
    OnePass(client, OutputKind, selectors, before, after);
  }

  lemma OthersUnlessOwn(tenant: string, s1: Store, s2: Store, s3: Store, outputs: set<Key>, subscriptions: set<Key>)
    requires tenant != "" && Kept(tenant, SubscriptionKind, s1, s2) && UnchangedBut(s2, s3, outputs + subscriptions)
    requires forall k | k in outputs :: k in s1 && k.kind == OutputKind && s1[k].owner == tenant
    requires forall k | k in subscriptions :: k in s2 && s2[k].owner == tenant
    ensures OthersAtMostFail(tenant, s2, s3)
  {
  }

  lemma OwnersStand(before: Store, after: Store, keys: set<Key>)
    requires UnchangedBut(before, after, keys)
    ensures SameOwners(before, after)
  {
  }

  // The outcome of a run that no failed Output ended, whatever came of validation.
  lemma OpenOutcome(client: Client, selectors: seq<Selector>, s0: Store, s1: Store, s2: Store, s3: Store,
                    outputs: set<Key>, subscriptions: set<Key>)
    requires client.tenant != "" && !Blocked(client, selectors, s0)
    requires PassedOver(client, OutputKind, selectors, s0, s1)
             && PassedOver(client, SubscriptionKind, selectors, s1, s2)
    requires UnchangedBut(s2, s3, outputs + subscriptions) && Kept(client.tenant, SubscriptionKind, s1, s2)
    requires DisputesFailed(client, OutputKind, selectors, s1)
    requires OthersAtMostFail(client.tenant, s0, s1) && OthersAtMostFail(client.tenant, s1, s2)
    requires forall k :: k in outputs <==> k in s1 && k.kind == OutputKind && s1[k].owner == client.tenant
    requires forall k :: k in subscriptions <==> k in s2 && k.kind == SubscriptionKind && s2[k].owner == client.tenant
    ensures forall e :: CalmOutcome(client, selectors, s0, s3, e)
  {
    hide Blocked, PassedOver, KindPassedOver, UnchangedBut, Kept, DisputesFailed, OthersAtMostFail;
    BothPasses(client, selectors, s0, s1, s2, s3, outputs + subscriptions);
    DisputedOutputsFailed(client, selectors, s1, s2, s3, outputs, subscriptions);
    OthersUnlessOwn(client.tenant, s1, s2, s3, outputs, subscriptions);
    OthersThrough(client.tenant, s0, s1, s2);
    OthersThrough(client.tenant, s0, s2, s3);
  }

  // Outputs first, so that the subscriptions can be checked against them. A failed output ends the run here.
  method HandleOwnedResources(client: Client, tenant: TenantObject) returns (err: Option<Failure>)
    requires client.Valid() && tenant.name == client.tenant
    modifies client`log, client`store, client`calls, tenant
    ensures client.Valid() && client.Continues()
    ensures tenant.status == old(tenant.status).(subscriptions := tenant.status.subscriptions)
    ensures err.None? ==>
              SubscriptionsEarned(client.calls, tenant.name, tenant.subscriptionSelectors, tenant.status.subscriptions)
    ensures err.None? ==> NoBridgesSince(old(client.calls), client.calls)
    ensures err.Some? ==> IsResourceFailure(err.value) && Cause(err.value, tenant.name, client.calls)
    ensures client.calm ==> CalmOutcome(client, tenant.subscriptionSelectors, old(client.store), client.store, err)
    ensures client.calm ==>
              if Blocked(client, tenant.subscriptionSelectors, old(client.store))
              then tenant.status == old(tenant.status)
              else ListsOwned(client.tenant, client.store, tenant.status.subscriptions)
  {
    hide Client.Valid;
    hide Client.Stored;
    hide KnownIn, Known, NoDupKeys, AllInSelected, AllOfKind, AllOwnedBy, PassedOver, KindPassedOver, Kept, Current,
         KeysOf, Blocked, SubscriptionsUntouched, SubscriptionsEarned, AllJudged, SameOwners, ByName, NamesOf,
         SortNames, ListsOwned, DisputesFailed, UnchangedBut, OthersAtMostFail, CalmOutcome, TookOver, OwnerKept,
         MissesOutput, JudgedInVain, IsVerdict, WroteInVain, NoBridgesSince, Cause, ReadFailedSince, Takeover.Calls;
    ghost var s0, start := client.store, client.calls;
    client.StoreIsKeyed();
    var unlisted, outputs, takenOutputs := TakeOwnership(client, OutputKind, tenant.subscriptionSelectors);
    if unlisted.Some? {
      FailedReadIsCause(start, client.calls, tenant.name);
      return unlisted;
    }
    ghost var s1, log, calls := client.store, client.log, client.calls;
    KnownNow(client, outputs);
    if client.calm {
      OutputPass(client, tenant.subscriptionSelectors, s0, s1, outputs);
    }
    var failed := FirstFailed(outputs);
    if failed.Some? {
      if client.calm {
        BlockedOutcome(client, tenant.subscriptionSelectors, s0, s1, failed.value);
      }
      FailedResourceIsCause(client, outputs, failed.value);
      return Some(ResourceFailed(failed.value));
    }

    var subscriptions;
    ghost var takenSubscriptions;
    unlisted, subscriptions, takenSubscriptions :=
      TakeOwnership(client, SubscriptionKind, tenant.subscriptionSelectors);
    if unlisted.Some? {
      FailedReadIsCause(calls, client.calls, tenant.name);
      return unlisted;
    }
    ghost var s2, log2, calls2 := client.store, client.log, client.calls;
    KnownNow(client, subscriptions);
    tenant.status := tenant.status.(subscriptions := Items(SortNames(NamesOf(subscriptions))));
    KnownLater(client, subscriptions, log2, calls2);
    KnownLater(client, outputs, log, calls);
    var written;
    err, written := ValidateSubscriptionOutputs(client, subscriptions, outputs);
    if client.calm {
      OpenOutcome(client, tenant.subscriptionSelectors, s0, s1, s2, client.store, KeysOf(outputs),
                  KeysOf(subscriptions));
      OwnersStand(s2, client.store, KeysOf(outputs) + KeysOf(subscriptions));
      AllListed(client.tenant, s2, client.store, subscriptions);
    }
    if err.Some? {
      OwnedMember(client.tenant, subscriptions, |written|);
      VainIsCause(client.calls, client.tenant, outputs, subscriptions[|written|]);
      return;
    }
    failed := FirstFailed(written);
    if failed.Some? {
      ghost var i :| 0 <= i < |written| && failed.value == written[i].key && written[i].state.Failed?;
      OwnedMember(client.tenant, subscriptions, i);
      FailedVerdictIsCause(client.calls, client.tenant, outputs, subscriptions[i], written[i]);
      return Some(ResourceFailed(failed.value));
    }
    assert subscriptions[..|written|] == subscriptions;
    KnownLater(client, outputs, log, calls);
    StillInSelected(calls, client.calls, tenant.subscriptionSelectors, outputs);
    StillInSelected(calls2, client.calls, tenant.subscriptionSelectors, subscriptions);
    AllEarned(client, tenant.subscriptionSelectors, outputs, subscriptions, written);
    NoBridgesAmong(start, calls, calls2, client.calls, client.tenant);
  }

  lemma OwnedMember(owner: string, items: seq<Resource>, i: nat)
    requires AllOwnedBy(owner, items) && i < |items|
    ensures items[i].owner == owner
  {
    assert items[i] in items;
  }

  lemma NoBridgesAmong(first: seq<Call>, second: seq<Call>, third: seq<Call>, fourth: seq<Call>, owner: string)
    requires NoBridgesSince(first, second) && NoBridgesSince(second, third) && OwnerKept(third, fourth, owner)
    ensures NoBridgesSince(first, fourth)
  {
  }

  // ---------------------------------------------------------------------------
  // Why a run fails

  ghost predicate HasEnd(calls: seq<Call>, bridge: string, tenant: string) {
    exists b :: ToldOf(calls, b) && b.bridge.name == bridge && (b.bridge.source == tenant || b.bridge.target == tenant)
  }

  // Failures of the second step, and those of a single bridge.
  predicate IsResourceFailure(err: Failure) {
    err.ResourcesUnavailable? || err.ResourceFailed? || err.SubscriptionNotWritten?
  }

  predicate IsBridgeFailure(err: Failure) {
    err.DanglingReference? || err.TenantsUnavailable? || err.BridgeNotWritten?
  }

  // A failure has its cause among the calls of the run: a read that failed, a failed resource of the tenant, a tenant
  // at the end of a bridge that does not exist or could not be asked for, or a write that was refused.
  ghost predicate Cause(err: Failure, tenant: string, calls: seq<Call>) {
    match err
    case NamespacesUnavailable(e) => e == Unavailable && ReadFailed in calls
    case ResourcesUnavailable(_, e) => e == Unavailable && ReadFailed in calls
    case BridgesUnavailable(e) => e == Unavailable && ReadFailed in calls
    case ResourceFailed(k) =>
      exists x :: (Saw(x) in calls || Wrote(x) in calls) && x.key == k && x.owner == tenant && x.state.Failed?
    case SubscriptionNotWritten(s) => exists x :: Refused(x) in calls && x.key.id == s && x.owner == tenant
    case DanglingReference(b, t) =>
      && t != tenant && HasEnd(calls, b, t)
      && (AskedTenant(t, Ok(false)) in calls || AskedTenant(t, Err(NotFound)) in calls)
    case TenantsUnavailable(b, e) =>
      e == Unavailable && exists t :: t != tenant && HasEnd(calls, b, t) && AskedTenant(t, Err(Unavailable)) in calls
    case BridgeNotWritten(b) => exists w :: RefusedBridge(w) in calls && w.bridge.name == b
  }

  lemma CauseStays(calls: seq<Call>, more: seq<Call>, tenant: string)
    requires calls <= more
    ensures forall err | Cause(err, tenant, calls) :: Cause(err, tenant, more)
  {
    hide ToldOf;
    assert forall c | c in calls :: c in more;
    ToldLater(calls, more);
    forall err | Cause(err, tenant, calls)
      ensures Cause(err, tenant, more)
    {
      match err
      case DanglingReference(b, t) => EndStays(calls, more, b, t);
      case TenantsUnavailable(b, e) =>
        var t :| t != tenant && HasEnd(calls, b, t) && AskedTenant(t, Err(Unavailable)) in calls;
        EndStays(calls, more, b, t);
      case _ =>
    }
  }

  lemma EndStays(calls: seq<Call>, more: seq<Call>, bridge: string, tenant: string)
    requires calls <= more && HasEnd(calls, bridge, tenant)
    ensures HasEnd(more, bridge, tenant)
  {
    ToldLater(calls, more);
  }

  lemma FailedReadIsCause(calls: seq<Call>, more: seq<Call>, tenant: string)
    requires ReadFailedSince(calls, more)
    ensures Cause(NamespacesUnavailable(Unavailable), tenant, more)
    ensures Cause(BridgesUnavailable(Unavailable), tenant, more)
    ensures forall kind :: Cause(ResourcesUnavailable(kind, Unavailable), tenant, more)
  {
    assert more == more[..|calls|] + more[|calls|..];
  }

  lemma UnconnectedIsCause(calls: seq<Call>, more: seq<Call>, tenant: string, b: StoredBridge, err: Failure)
    requires calls <= more && ToldOf(more, b) && Unconnected(more[|calls|..], tenant, b.bridge, err)
    ensures Cause(err, tenant, more) && (err.DanglingReference? || err.TenantsUnavailable?)
  {
    hide ToldOf;
    assert more == more[..|calls|] + more[|calls|..];
    assert HasEnd(more, b.bridge.name, b.bridge.source) && HasEnd(more, b.bridge.name, b.bridge.target);
  }

  lemma RefusalIsCause(calls: seq<Call>, tenant: string, b: StoredBridge)
    requires RefusedBridge(b) in calls
    ensures Cause(BridgeNotWritten(b.bridge.name), tenant, calls)
  {
  }

  lemma FailedResourceIsCause(client: Client, resources: seq<Resource>, k: Key)
    requires Known(client, resources) && AllOwnedBy(client.tenant, resources)
    requires exists x :: x in resources && x.key == k && x.state.Failed?
    ensures Cause(ResourceFailed(k), client.tenant, client.calls)
  {
  }

  lemma FailedVerdictIsCause(calls: seq<Call>, tenant: string, outputs: seq<Resource>, subscription: Resource,
                             w: Resource)
    requires Wrote(w) in calls && IsVerdict(calls, outputs, subscription, w) && subscription.owner == tenant
    requires w.state.Failed?
    ensures Cause(ResourceFailed(w.key), tenant, calls)
  {
  }

  lemma VainIsCause(calls: seq<Call>, tenant: string, outputs: seq<Resource>, subscription: Resource)
    requires WroteInVain(calls, outputs, subscription) && subscription.owner == tenant
    ensures Cause(SubscriptionNotWritten(subscription.key.id), tenant, calls)
  {
  }

  // ---------------------------------------------------------------------------
  // Bridges

  // The lists of bridges among these calls.
  function BridgeLists(calls: seq<Call>): seq<Call> {
    if calls == [] then []
    else
      var n := |calls| - 1;
      BridgeLists(calls[..n]) + if calls[n].SawBridges? then [calls[n]] else []
  }

  lemma {:induction false} BridgeListsTogether(a: seq<Call>, b: seq<Call>)
    ensures BridgeLists(a + b) == BridgeLists(a) + BridgeLists(b)
  {
    if b == [] {
      assert a + b == a;
    } else {
      var n := |b| - 1;
      assert (a + b)[..|a| + n] == a + b[..n];
      BridgeListsTogether(a, b[..n]);
    }
  }

  lemma {:induction false} NoBridgeLists(calls: seq<Call>)
    requires forall c | c in calls :: !c.SawBridges?
    ensures BridgeLists(calls) == []
  {
    if calls != [] {
      NoBridgeLists(calls[..|calls| - 1]);
    }
  }

  function BothLists(tenant: string, starting: seq<StoredBridge>, ending: seq<StoredBridge>): seq<Call> {
    [SawBridges(tenant, true, starting), SawBridges(tenant, false, ending)]
  }

  lemma BothAreLists(tenant: string, starting: seq<StoredBridge>, ending: seq<StoredBridge>)
    ensures BridgeLists(BothLists(tenant, starting, ending)) == BothLists(tenant, starting, ending)
  {
    var lists := BothLists(tenant, starting, ending);
    assert lists[..1] == [lists[0]] && [lists[0]][..0] == [];
    assert BridgeLists([lists[0]]) == [lists[0]];
  }

  // Since these calls the bridges that start at the tenant were listed, and those that end there, once each, and
  // these are all their names, sorted; a bridge of a tenant to itself comes twice.
  ghost predicate ListsBridges(calls: seq<Call>, more: seq<Call>, tenant: string, names: Slice<string>) {
    && calls <= more && names.Items? && Sorted(Identity(), names.items)
    && exists starting, ending ::
         BridgeLists(more[|calls|..]) == BothLists(tenant, starting, ending)
         && multiset(names.items) == multiset(BridgeNames(starting + ending))
  }

  lemma ListedEarlier(calls: seq<Call>, more: seq<Call>, most: seq<Call>, tenant: string, names: Slice<string>)
    requires NoBridgesSince(calls, more) && ListsBridges(more, most, tenant, names)
    ensures ListsBridges(calls, most, tenant, names)
  {
    assert most[|calls|..] == more[|calls|..] + most[|more|..];
    BridgeListsTogether(more[|calls|..], most[|more|..]);
    NoBridgeLists(more[|calls|..]);
    assert [] + BridgeLists(most[|more|..]) == BridgeLists(most[|more|..]);
  }

  lemma NowListed(calls: seq<Call>, more: seq<Call>, most: seq<Call>, tenant: string, bridges: seq<StoredBridge>,
                  n: nat)
    requires n <= |bridges| && more == calls + BothLists(tenant, bridges[..n], bridges[n..])
    requires NoBridgesSince(more, most)
    ensures ListsBridges(calls, most, tenant, Items(Sort(Identity(), BridgeNames(bridges))))
  {
    assert most[|calls|..] == BothLists(tenant, bridges[..n], bridges[n..]) + most[|more|..];
    BridgeListsTogether(BothLists(tenant, bridges[..n], bridges[n..]), most[|more|..]);
    BothAreLists(tenant, bridges[..n], bridges[n..]);
    NoBridgeLists(most[|more|..]);
    assert bridges[..n] + bridges[n..] == bridges;
    SortSorts(Identity(), BridgeNames(bridges));
  }

  // In particular a name is listed exactly if a bridge of that name was.
  lemma ListedNames(calls: seq<Call>, more: seq<Call>, tenant: string, names: Slice<string>)
    requires ListsBridges(calls, more, tenant, names)
    ensures forall n :: n in names.items <==> exists b :: ToldOf(more[|calls|..], b) && b.bridge.name == n
  {
    var since := more[|calls|..];
    var starting, ending :| BridgeLists(since) == BothLists(tenant, starting, ending)
                            && multiset(names.items) == multiset(BridgeNames(starting + ending));
    var all := BridgeNames(starting + ending);
    SamePresence(names.items, all);
    forall b
      ensures ToldOf(since, b) <==> b in starting + ending
    {
      BridgeListsHold(since, b);
      assert ToldOf(BothLists(tenant, starting, ending), b) <==> b in starting + ending by {
        assert BothLists(tenant, starting, ending)[0] == SawBridges(tenant, true, starting);
        assert BothLists(tenant, starting, ending)[1] == SawBridges(tenant, false, ending);
      }
    }
    forall n
      ensures n in all <==> exists b: StoredBridge :: b in starting + ending && b.bridge.name == n
    {
      if b: StoredBridge :| b in starting + ending && b.bridge.name == n {
        var i :| 0 <= i < |starting + ending| && (starting + ending)[i] == b;
        assert all[i] == n;
      }
    }
  }

  lemma {:induction false} BridgeListsHold(calls: seq<Call>, b: StoredBridge)
    ensures ToldOf(BridgeLists(calls), b) <==> ToldOf(calls, b)
  {
    if calls != [] {
      var n := |calls| - 1;
      BridgeListsHold(calls[..n], b);
      assert calls == calls[..n] + [calls[n]];
    }
  }

  // The run was told of this bridge.
  predicate ToldOf(calls: seq<Call>, b: StoredBridge) {
    exists c :: c in calls && c.SawBridges? && b in c.bridges
  }

  lemma ToldLater(calls: seq<Call>, more: seq<Call>)
    requires calls <= more
    ensures forall b | ToldOf(calls, b) :: ToldOf(more, b)
  {
    forall b | ToldOf(calls, b)
      ensures ToldOf(more, b)
    {
      var c :| c in calls && c.SawBridges? && b in c.bridges;
      assert c in more;
    }
  }

  // The bridges that start at the tenant, then those that end there; a bridge of a tenant to itself is listed twice.
  method GetBridgesForTenant(client: Client) returns (r: Result<seq<StoredBridge>, ListError>, ghost n: nat)
    requires client.Valid()
    modifies client`log, client`store, client`calls
    ensures client.Valid() && client.Continues()
    ensures r.Ok? ==> n <= |r.value|
                      && client.calls == old(client.calls) + BothLists(client.tenant, r.value[..n], r.value[n..])
    ensures r.Ok? ==> forall b | b in r.value :: b.bridge.source == client.tenant || b.bridge.target == client.tenant
    ensures r.Err? ==> r.error == Unavailable && ReadFailedSince(old(client.calls), client.calls)
    ensures client.calm ==> client.store == old(client.store)
  {
    hide Client.Valid;
    hide Client.Stored;
    ghost var start := client.calls;
    var sources := client.ListBridges(client.tenant, true);
    if sources.Err? && sources.error != NotFound {
      FailedSince(start, start, client.calls);
      return Err(sources.error), 0;
    }
    var first := if sources.Ok? then sources.value else [];
    ghost var calls := client.calls;
    var targets := client.ListBridges(client.tenant, false);
    if targets.Err? && targets.error != NotFound {
      FailedSince(start, calls, client.calls);
      return Err(targets.error), 0;
    }
    var second := if targets.Ok? then targets.value else [];
    assert client.calls == start + BothLists(client.tenant, first, second);
    var bridges := first + second;
    var owned: seq<StoredBridge> := [];
    for i := 0 to |bridges|
      invariant owned == bridges[..i]
      modifies {}
    {
      assert bridges[..i + 1] == bridges[..i] + [bridges[i]];
      assert bridges[i] in bridges;
      if bridges[i].bridge.source == client.tenant || bridges[i].bridge.target == client.tenant {
        owned := owned + [bridges[i]];
      }
    }
    assert owned == bridges && bridges[..|first|] == first && bridges[|first|..] == second;
    r, n := Ok(owned), |first|;
  }

  // The run itself stands for its own tenant; every other tenant must have been seen.
  predicate TenantExists(calls: seq<Call>, tenant: string, name: string) {
    name == tenant || AskedTenant(name, Ok(true)) in calls
  }

  predicate Connected(calls: seq<Call>, tenant: string, bridge: Bridge) {
    TenantExists(calls, tenant, bridge.source) && TenantExists(calls, tenant, bridge.target)
  }

  // An end of the bridge that the server does not know, or that it could not be asked about.
  predicate Unconnected(calls: seq<Call>, tenant: string, bridge: Bridge, err: Failure) {
    match err
    case DanglingReference(b, t) =>
      && b == bridge.name && t != tenant && (t == bridge.source || t == bridge.target)
      && (AskedTenant(t, Ok(false)) in calls || AskedTenant(t, Err(NotFound)) in calls)
    case TenantsUnavailable(b, e) =>
      && b == bridge.name && e == Unavailable
      && ((bridge.source != tenant && AskedTenant(bridge.source, Err(Unavailable)) in calls)
          || (bridge.target != tenant && AskedTenant(bridge.target, Err(Unavailable)) in calls))
    case _ => false
  }

  method ValidateBridgeConnection(client: Client, bridge: Bridge) returns (err: Option<Failure>)
    requires client.Valid()
    modifies client`log, client`store, client`calls
    ensures client.Valid() && client.Continues()
    ensures err.None? ==> Connected(client.calls, client.tenant, bridge)
    ensures err.Some? ==> Unconnected(client.calls[|old(client.calls)|..], client.tenant, bridge, err.value)
    ensures OnlyAsked(old(client.calls), client.calls)
    ensures client.calm ==> client.store == old(client.store)
  {
    hide Client.Valid;
    hide Client.Stored;
    var references := [bridge.source, bridge.target];
    ghost var start := client.calls;
    for i := 0 to 2
      invariant client.Valid() && client.Continues()
      invariant forall j | 0 <= j < i :: TenantExists(client.calls, client.tenant, references[j])
      invariant OnlyAsked(start, client.calls)
      invariant client.calm ==> client.store == old(client.store)
    {
      ghost var calls := client.calls;
      if references[i] != client.tenant {
        var found := client.FindTenants(references[i]);
        assert client.calls[|start|..] == calls[|start|..] + [AskedTenant(references[i], found)];
        assert AskedTenant(references[i], found) in client.calls[|start|..];
        if found.Err? && found.error != NotFound {
          return Some(TenantsUnavailable(bridge.name, found.error));
        }
        if found != Ok(true) {
          assert found.Ok? ==> !found.value;
          assert found.Err? ==> found == Err(NotFound);
          assert found.Ok? ==> found == Ok(false);
          return Some(DanglingReference(bridge.name, references[i]));
        }
        assert client.calls[|calls|] == AskedTenant(references[i], found);
      }
    }
    assert references[0] == bridge.source && references[1] == bridge.target;
    err := None;
  }

  // Since these calls, tenants were asked for and nothing else.
  predicate OnlyAsked(calls: seq<Call>, more: seq<Call>) {
    calls <= more && forall i | |calls| <= i < |more| :: more[i].AskedTenant?
  }

  lemma OnlyAskedSince(calls: seq<Call>, more: seq<Call>)
    requires OnlyAsked(calls, more)
    ensures TriedSince(calls, more) == [] && NoBridgesSince(calls, more)
  {
    NothingTried(more[|calls|..]);
  }

  lemma {:induction false} NothingTried(calls: seq<Call>)
    requires forall c | c in calls :: c.AskedTenant?
    ensures BridgeWrites(calls) == []
  {
    if calls != [] {
      assert calls[|calls| - 1] in calls;
      NothingTried(calls[..|calls| - 1]);
    }
  }

  function BridgeWrites(calls: seq<Call>): seq<Call> {
    if calls == [] then []
    else
      var n := |calls| - 1;
      BridgeWrites(calls[..n]) + if calls[n].WroteBridge? || calls[n].RefusedBridge? then [calls[n]] else []
  }

  // The bridge statuses that were tried to be written after these calls.
  function TriedSince(calls: seq<Call>, more: seq<Call>): seq<Call>
    requires |calls| <= |more|
  {
    BridgeWrites(more[|calls|..])
  }

  lemma TriedNext(calls: seq<Call>, more: seq<Call>, call: Call)
    requires calls <= more
    ensures TriedSince(calls, calls) == []
    ensures TriedSince(calls, more + [call])
            == TriedSince(calls, more) + if call.WroteBridge? || call.RefusedBridge? then [call] else []
  {
    assert (more + [call])[|calls|..] == more[|calls|..] + [call];
    assert (more[|calls|..] + [call])[..|more| - |calls|] == more[|calls|..];
  }

  const READY := BridgeStatus(Ready, Items([]))

  // This run saw the bridge, at one of whose ends the tenant is, saw the tenant at the other end, and wrote the
  // bridge ready unless it was.
  ghost predicate BridgeEarned(calls: seq<Call>, tenant: string, name: string) {
    exists b :: ToldOf(calls, b) && IsEarnedBridge(calls, tenant, name, b)
  }

  ghost predicate IsEarnedBridge(calls: seq<Call>, tenant: string, name: string, b: StoredBridge) {
    && b.bridge.name == name && (b.bridge.source == tenant || b.bridge.target == tenant)
    && Connected(calls, tenant, b.bridge)
    && (b.status == READY || WroteBridge(StoredBridge(b.bridge, READY)) in calls)
  }

  function AddProblem(problems: Slice<Failure>, problem: Failure): Slice<Failure> {
    if problem in problems.Elements() then problems else Items(problems.Elements() + [problem])
  }

  // A problem is listed once, after those that were there.
  predicate ProblemAdded(before: seq<Failure>, after: seq<Failure>, problem: Failure) {
    && before <= after && problem in after
    && if problem in before then after == before else |after| == |before| + 1
  }

  // The one write that a bridge calls for: ready unless it was, or failed with the reason.
  predicate TriesStatus(b: StoredBridge, err: Option<Failure>, tries: seq<Call>) {
    var ready := StoredBridge(b.bridge, READY);
    if err.None? then tries == if b.status == READY then [] else [WroteBridge(ready)]
    else if err.value.BridgeNotWritten? then tries == [RefusedBridge(ready)]
    else
      var failed := StoredBridge(b.bridge, BridgeStatus(Failed, AddProblem(b.status.problems, err.value)));
      && ProblemAdded(b.status.problems.Elements(), failed.status.problems.Elements(), err.value)
      && (tries == [WroteBridge(failed)] || tries == [RefusedBridge(failed)])
  }

  // One bridge: its status becomes ready, or failed with a problem. The problems of a status that was read are never
  // an empty list, so a valid bridge is always written.
  method HandleBridge(client: Client, b: StoredBridge) returns (err: Option<Failure>)
    requires client.Valid() && ToldOf(client.calls, b)
    requires b.bridge.source == client.tenant || b.bridge.target == client.tenant
    modifies client`log, client`store, client`calls
    ensures client.Valid() && client.Continues()
    ensures err.None? ==> BridgeEarned(client.calls, client.tenant, b.bridge.name)
    ensures err.Some? ==> IsBridgeFailure(err.value) && Cause(err.value, client.tenant, client.calls)
    ensures NoBridgesSince(old(client.calls), client.calls)
    ensures TriesStatus(b, err, TriedSince(old(client.calls), client.calls))
    ensures b.status.problems.AsReadFromApi() && err.None? ==>
              TriedSince(old(client.calls), client.calls) == [WroteBridge(StoredBridge(b.bridge, READY))]
    ensures client.calm ==> client.store == old(client.store)
  {
    hide Client.Valid;
    hide Client.Stored;
    hide TriedSince, BridgeEarned, Unconnected, ToldOf, Cause;
    ghost var start := client.calls;
    err := ValidateBridgeConnection(client, b.bridge);
    ghost var calls := client.calls;
    OnlyAskedSince(start, calls);
    ToldLater(start, calls);
    if err.Some? {
      UnconnectedIsCause(start, calls, client.tenant, b, err.value);
      var failed := StoredBridge(b.bridge, BridgeStatus(Failed, AddProblem(b.status.problems, err.value)));
      TriedNext(start, calls, WroteBridge(failed));
      TriedNext(start, calls, RefusedBridge(failed));
      var _ := client.UpdateBridgeStatus(failed);
      CauseStays(calls, client.calls, client.tenant);
      return;
    }
    TriedNext(start, calls, WroteBridge(StoredBridge(b.bridge, READY)));
    TriedNext(start, calls, RefusedBridge(StoredBridge(b.bridge, READY)));
    if b.status != READY {
      var ok := client.UpdateBridgeStatus(StoredBridge(b.bridge, READY));
      if !ok {
        assert client.calls[|calls|] == RefusedBridge(StoredBridge(b.bridge, READY));
        RefusalIsCause(client.calls, client.tenant, StoredBridge(b.bridge, READY));
        return Some(BridgeNotWritten(b.bridge.name));
      }
      assert client.calls[|calls|] == WroteBridge(StoredBridge(b.bridge, READY));
    }
    ToldLater(calls, client.calls);
    BridgeIsEarned(client.calls, client.tenant, b);
  }

  lemma BridgeIsEarned(calls: seq<Call>, tenant: string, b: StoredBridge)
    requires ToldOf(calls, b) && IsEarnedBridge(calls, tenant, b.bridge.name, b)
    ensures BridgeEarned(calls, tenant, b.bridge.name)
  {
  }

  function BridgeNames(bridges: seq<StoredBridge>): seq<string> {
    seq(|bridges|, i requires 0 <= i < |bridges| => bridges[i].bridge.name)
  }

  ghost predicate BridgesEarned(calls: seq<Call>, tenant: string, names: Slice<string>) {
    && names.Items? && Sorted(Identity(), names.items)
    && forall n | n in names.items :: BridgeEarned(calls, tenant, n)
  }

  ghost predicate AllBridgesEarned(calls: seq<Call>, tenant: string, bridges: seq<StoredBridge>) {
    forall b | b in bridges :: BridgeEarned(calls, tenant, b.bridge.name)
  }

  lemma NextBridgeEarned(calls: seq<Call>, more: seq<Call>, tenant: string, bridges: seq<StoredBridge>, n: nat)
    requires n < |bridges| && AllBridgesEarned(calls, tenant, bridges[..n]) && calls <= more
    requires BridgeEarned(more, tenant, bridges[n].bridge.name)
    ensures AllBridgesEarned(more, tenant, bridges[..n + 1])
  {
    assert bridges[..n + 1] == bridges[..n] + [bridges[n]];
    forall x | x in bridges[..n]
      ensures BridgeEarned(more, tenant, x.bridge.name)
    {
      var b :| ToldOf(calls, b) && IsEarnedBridge(calls, tenant, x.bridge.name, b);
      ToldLater(calls, more);
      assert IsEarnedBridge(more, tenant, x.bridge.name, b);
    }
  }

  lemma NoBridges(calls: seq<Call>, tenant: string, bridges: seq<StoredBridge>)
    ensures AllBridgesEarned(calls, tenant, bridges[..0])
  {
  }

  lemma ToldOfEach(calls: seq<Call>, tenant: string, bridges: seq<StoredBridge>, n: nat)
    requires n <= |bridges|
    ensures forall b | b in bridges :: ToldOf(calls + BothLists(tenant, bridges[..n], bridges[n..]), b)
  {
    var more := calls + BothLists(tenant, bridges[..n], bridges[n..]);
    assert more[|calls|] == SawBridges(tenant, true, bridges[..n]);
    assert more[|calls| + 1] == SawBridges(tenant, false, bridges[n..]);
    assert bridges == bridges[..n] + bridges[n..];
  }

  method HandleBridgeResources(client: Client, tenant: TenantObject) returns (err: Option<Failure>)
    requires client.Valid() && tenant.name == client.tenant
    modifies client`log, client`store, client`calls, tenant
    ensures client.Valid() && client.Continues()
    ensures tenant.status == old(tenant.status).(connectedBridges := tenant.status.connectedBridges)
    ensures err.None? ==> BridgesEarned(client.calls, tenant.name, tenant.status.connectedBridges)
    ensures err.Some? ==> err.value == BridgesUnavailable(Unavailable) || IsBridgeFailure(err.value)
    ensures if err.Some? && err.value.BridgesUnavailable? then tenant.status == old(tenant.status)
            else ListsBridges(old(client.calls), client.calls, tenant.name, tenant.status.connectedBridges)
    ensures err.Some? ==> Cause(err.value, tenant.name, client.calls)
    ensures client.calm ==> client.store == old(client.store)
  {
    hide Client.Valid;
    hide Client.Stored;
    hide BridgeEarned, AllBridgesEarned, BridgesEarned, BothLists, TriesStatus, TriedSince, ToldOf, ListsBridges, Cause;
    var listed, n := GetBridgesForTenant(client);
    if listed.Err? {
      FailedReadIsCause(old(client.calls), client.calls, tenant.name);
      return Some(BridgesUnavailable(listed.error));
    }
    var bridges := listed.value;
    ToldOfEach(old(client.calls), client.tenant, bridges, n);
    ghost var seen := client.calls;
    var names := Sort(Identity(), BridgeNames(bridges));
    tenant.status := tenant.status.(connectedBridges := Items(names));
    NoBridges(client.calls, client.tenant, bridges);
    for i := 0 to |bridges|
      invariant client.Valid() && client.Continues() && NoBridgesSince(seen, client.calls)
      invariant tenant.status == old(tenant.status).(connectedBridges := Items(names))
      invariant AllBridgesEarned(client.calls, client.tenant, bridges[..i])
      invariant client.calm ==> client.store == old(client.store)
    {
      assert bridges[i] in bridges;
      ghost var calls := client.calls;
      ToldLater(seen, calls);
      err := HandleBridge(client, bridges[i]);
      if err.Some? {
        NowListed(old(client.calls), seen, client.calls, client.tenant, bridges, n);
        return;
      }
      NextBridgeEarned(calls, client.calls, client.tenant, bridges, i);
    }
    assert bridges[..|bridges|] == bridges;
    NamesEarned(client.calls, client.tenant, bridges);
    NowListed(old(client.calls), seen, client.calls, client.tenant, bridges, n);
    err := None;
  }

  lemma NamesEarned(calls: seq<Call>, tenant: string, bridges: seq<StoredBridge>)
    requires AllBridgesEarned(calls, tenant, bridges)
    ensures BridgesEarned(calls, tenant, Items(Sort(Identity(), BridgeNames(bridges))))
  {
    hide BridgeEarned;
    var names := BridgeNames(bridges);
    SortSorts(Identity(), names);
    SortKeepsElements(Identity(), names);
    forall n | n in Sort(Identity(), names)
      ensures BridgeEarned(calls, tenant, n)
    {
      var i :| 0 <= i < |names| && names[i] == n;
      assert bridges[i] in bridges;
    }
  }

  // ---------------------------------------------------------------------------
  // A run

  // All that a Ready status of the tenant claims was seen, or written, by the run with these calls.
  ghost predicate ReadyEarned(calls: seq<Call>, tenant: TenantObject, status: TenantStatus) {
    && status.state.Ready? && status.problems == Items([])
    && LogSourcesSeen(calls, tenant.logSourceSelectors, status.logSourceNamespaces)
    && SubscriptionsEarned(calls, tenant.name, tenant.subscriptionSelectors, status.subscriptions)
    && BridgesEarned(calls, tenant.name, status.connectedBridges)
  }

  // The status names all that the selectors for log sources were answered, if they were, and every bridge listed, if
  // the run came to list them.
  ghost predicate Complete(calls: seq<Call>, more: seq<Call>, tenant: TenantObject, status: TenantStatus,
                           err: Option<Failure>)
  {
    && (err.None? || !err.value.NamespacesUnavailable? ==>
          ListsLogSources(calls, more, tenant.logSourceSelectors, status.logSourceNamespaces))
    && (err.None? || IsBridgeFailure(err.value) ==> ListsBridges(calls, more, tenant.name, status.connectedBridges))
  }

  lemma LogSourcesSeenLater(calls: seq<Call>, more: seq<Call>, selectors: seq<Selector>, namespaces: Slice<string>)
    requires LogSourcesSeen(calls, selectors, namespaces) && calls <= more
    ensures LogSourcesSeen(more, selectors, namespaces)
  {
    hide SeenSelected;
    StillSeenSelected(calls, more, selectors, namespaces.items);
  }

  method HandleTenantReconcileError(client: Client, tenant: TenantObject, err: Failure) returns (persisted: bool)
    requires client.Valid()
    modifies client`log, client`store, client`tried, client`written, tenant
    ensures client.Valid() && client.Continues()
    ensures tenant.status
            == old(tenant.status).(problems := AddProblem(old(tenant.status).problems, err), state := Failed)
    ensures ProblemAdded(old(tenant.status).problems.Elements(), tenant.status.problems.Elements(), err)
    ensures client.tried == old(client.tried) + [tenant.status]
    ensures client.written == old(client.written) + if persisted then [tenant.status] else []
    ensures client.calm ==> client.store == old(client.store)
  {
    tenant.status := tenant.status.(problems := AddProblem(tenant.status.problems, err));
    tenant.status := tenant.status.(state := Failed);
    persisted := client.UpdateTenantStatus(tenant.status);
  }

  // The three steps, in order; the first that fails ends the run.
  method RunSteps(client: Client, tenant: TenantObject) returns (err: Option<Failure>)
    requires client.Valid() && tenant.name == client.tenant
    modifies client`log, client`store, client`calls, tenant
    ensures client.Valid() && client.Continues()
    ensures err.None? ==> ReadyEarned(client.calls, tenant, tenant.status.(state := Ready, problems := Items([])))
    ensures Complete(old(client.calls), client.calls, tenant, tenant.status, err)
    ensures err.Some? ==> Cause(err.value, tenant.name, client.calls)
    ensures tenant.status.problems == old(tenant.status).problems && tenant.status.state == old(tenant.status).state
    ensures client.calm ==> CalmOutcome(client, tenant.subscriptionSelectors, old(client.store), client.store, err)
    ensures client.calm && !Blocked(client, tenant.subscriptionSelectors, old(client.store)) ==>
              ListsOwned(client.tenant, client.store, tenant.status.subscriptions)
  {
    hide Client.Valid;
    hide Client.Stored;
    hide Blocked, CalmOutcome, SubscriptionsEarned, BridgesEarned, LogSourcesSeen, Matched, ListsOwned, Cause,
         ListsLogSources, ListsBridges;
    ghost var start := client.calls;
    err := HandleLogSourceNamespaces(client, tenant);
    if err.Some? {
      return;
    }
    ghost var calls := client.calls;
    err := HandleOwnedResources(client, tenant);
    ListsLogSourcesLater(start, calls, client.calls, tenant.logSourceSelectors, tenant.status.logSourceNamespaces);
    LogSourcesSeenIfAny(calls, client.calls, tenant.logSourceSelectors, tenant.status.logSourceNamespaces);
    if err.Some? {
      return;
    }
    NoBridgesThrough(start, calls, client.calls);
    calls := client.calls;
    err := HandleBridgeResources(client, tenant);
    ListsLogSourcesLater(start, calls, client.calls, tenant.logSourceSelectors, tenant.status.logSourceNamespaces);
    if err.None? || IsBridgeFailure(err.value) {
      ListedEarlier(start, calls, client.calls, tenant.name, tenant.status.connectedBridges);
    }
    if client.calm {
      OutcomeStands(client, tenant.subscriptionSelectors, old(client.store), client.store, err);
    }
    LogSourcesSeenLater(calls, client.calls, tenant.logSourceSelectors, tenant.status.logSourceNamespaces);
    EarnedLater(calls, client.calls, tenant.name, tenant.subscriptionSelectors, tenant.status.subscriptions);
  }

  lemma NoBridgesThrough(calls: seq<Call>, more: seq<Call>, most: seq<Call>)
    requires NoBridgesSince(calls, more) && NoBridgesSince(more, most)
    ensures NoBridgesSince(calls, most)
  {
  }

  lemma LogSourcesSeenIfAny(calls: seq<Call>, more: seq<Call>, selectors: seq<Selector>, namespaces: Slice<string>)
    requires calls <= more
    ensures LogSourcesSeen(calls, selectors, namespaces) ==> LogSourcesSeen(more, selectors, namespaces)
  {
    if LogSourcesSeen(calls, selectors, namespaces) {
      LogSourcesSeenLater(calls, more, selectors, namespaces);
    }
  }

  // Ready is earned: a run that writes the tenant Ready saw or wrote everything that status claims. A run that
  // fails claims nothing. Clearing the problems leaves an empty list where the API reads back none, so the status
  // of a successful run always differs from what was read, and is always written.
  method Reconcile(client: Client, tenant: TenantObject) returns (err: Option<Failure>, persisted: bool)
    requires client.Valid() && tenant.name == client.tenant
    modifies client`log, client`store, client`calls, client`tried, client`written, tenant
    ensures client.Valid() && client.Continues()
    ensures err.None? ==> ReadyEarned(client.calls, tenant, tenant.status)
    ensures Complete(old(client.calls), client.calls, tenant, tenant.status, err)
    ensures err.Some? ==> Cause(err.value, tenant.name, client.calls)
    ensures err.Some? ==> tenant.status.state.Failed?
                          && ProblemAdded(old(tenant.status).problems.Elements(),
                                          tenant.status.problems.Elements(), err.value)
    ensures client.tried == old(client.tried)
                            + if err.None? && tenant.status == old(tenant.status) then [] else [tenant.status]
    ensures old(tenant.status).problems.AsReadFromApi() ==> client.tried == old(client.tried) + [tenant.status]
    ensures client.tried == old(client.tried) ==> persisted
    ensures client.written == old(client.written)
                              + if persisted && client.tried != old(client.tried) then [tenant.status] else []
    ensures client.calm ==> CalmOutcome(client, tenant.subscriptionSelectors, old(client.store), client.store, err)
    ensures client.calm && !Blocked(client, tenant.subscriptionSelectors, old(client.store)) ==>
              ListsOwned(client.tenant, client.store, tenant.status.subscriptions)
  {
    hide Client.Valid;
    hide Client.Stored;
    hide Blocked, CalmOutcome, SubscriptionsEarned, BridgesEarned, LogSourcesSeen, ListsOwned, Cause,
         ListsLogSources, ListsBridges;
    var originalTenantStatus := tenant.status;
    err := RunSteps(client, tenant);
    if err.Some? {
      persisted := HandleTenantReconcileError(client, tenant, err.value);
      return;
    }
    tenant.status := tenant.status.(state := Ready, problems := Items([]));
    persisted := true;
    if originalTenantStatus != tenant.status {
      persisted := client.UpdateTenantStatus(tenant.status);
    }
  }

  // An output that a second tenant selects too: once a run of that tenant has marked it, its owner is blocked.
  lemma DisputeBlocksOwner(other: Client, others: seq<Selector>, owner: Client, owners: seq<Selector>, store: Store,
                           k: Key)
    requires DisputesFailed(other, OutputKind, others, store) && k in store && k.kind == OutputKind
    requires store[k].owner == owner.tenant && owner.tenant != "" && owner.tenant != other.tenant
    requires Matched(other.matches, others, k.id.namespace) && Matched(owner.matches, owners, k.id.namespace)
    ensures Blocked(owner, owners, store)
  {
    assert IsBlocking(owner, owners, store, k);
  }
}
