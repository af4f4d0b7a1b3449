/** TenantResourceManager: how one run of a tenant adopts, disputes and gives up Outputs and Subscriptions. */
module TenantResources {
  import opened Names
  import opened Ordering
  import opened Api
  import opened Ownership
  import opened ApiClient

  // ---------------------------------------------------------------------------
  // Namespaces

  function Identity(): string -> string {
    (s: string) => s
  }

  // Overlapping selectors name a namespace once.
  method NormalizeNamespaceSlice(input: seq<string>) returns (unique: seq<string>)
    ensures Sorted(Identity(), unique) && NoDup(unique)
    ensures forall n :: n in unique <==> n in input
  {
    var allKeys: set<string> := {};
    var list: seq<string> := [];
    for i := 0 to |input|
      invariant forall n :: n in allKeys <==> n in input[..i]
      invariant forall n :: n in list <==> n in allKeys
      invariant NoDup(list)
    {
      assert input[..i + 1] == input[..i] + [input[i]];
      if input[i] !in allKeys {
        allKeys := allKeys + {input[i]};
        list := list + [input[i]];
      }
    }
    assert input[..|input|] == input;
    unique := Sort(Identity(), list);
    SortSorts(Identity(), list);
    SortKeepsElements(Identity(), list);
    SortKeepsNoDup(Identity(), list);
  }

  predicate Matched(matches: map<Selector, set<string>>, selectors: seq<Selector>, namespace: string) {
    exists s :: s in selectors && s in matches && namespace in matches[s]
  }

  // This run was told that one of these selectors matches the namespace.
  predicate SeenSelected(calls: seq<Call>, selectors: seq<Selector>, namespace: string) {
    exists c :: c in calls && c.SawNamespaces? && c.selector in selectors && namespace in c.names
  }

  predicate AllSeenSelected(calls: seq<Call>, selectors: seq<Selector>, namespaces: seq<string>) {
    forall n | n in namespaces :: SeenSelected(calls, selectors, n)
  }

  lemma NamespacesSeen(calls: seq<Call>, selectors: seq<Selector>, earlier: seq<string>, selector: Selector,
                       names: seq<string>)
    requires AllSeenSelected(calls, selectors, earlier) && selector in selectors
    ensures AllSeenSelected(calls + [SawNamespaces(selector, names)], selectors, earlier + names)
  {
    var more := calls + [SawNamespaces(selector, names)];
    forall n | n in earlier + names
      ensures SeenSelected(more, selectors, n)
    {
      if n in earlier {
        var c :| c in calls && c.SawNamespaces? && c.selector in selectors && n in c.names;
        assert c in more;
      } else {
        assert more[|calls|] == SawNamespaces(selector, names);
      }
    }
  }

  lemma StillSeenSelected(calls: seq<Call>, more: seq<Call>, selectors: seq<Selector>, namespaces: seq<string>)
    requires AllSeenSelected(calls, selectors, namespaces) && calls <= more
    ensures AllSeenSelected(more, selectors, namespaces)
  {
    forall n | n in namespaces
      ensures SeenSelected(more, selectors, n)
    {
      var c :| c in calls && c.SawNamespaces? && c.selector in selectors && n in c.names;
      assert c in more;
    }
  }

  ghost predicate Answered(answers: seq<Call>, namespace: string) {
    exists c :: c in answers && c.SawNamespaces? && namespace in c.names
  }

  lemma OneMoreAnswer(answers: seq<Call>, selector: Selector, names: seq<string>, namespace: string)
    ensures Answered(answers + [SawNamespaces(selector, names)], namespace) <==>
            Answered(answers, namespace) || namespace in names
  {
    var c := SawNamespaces(selector, names);
    var more := answers + [c];
    assert c in more && forall d :: d in more <==> d in answers || d == c;
  }

  // The answers that were asked for, selector by selector; a selector that is not found matches nothing.
  predicate AnswersTo(selectors: seq<Selector>, answers: seq<Call>) {
    |answers| == |selectors|
    && forall i | 0 <= i < |answers| :: answers[i].SawNamespaces? && answers[i].selector == selectors[i]
  }

  // Every selector is asked for, every namespace in an answer is kept, and no other.
  method GetNamespacesForSelectorSlice(client: Client, selectors: seq<Selector>)
    returns (r: Result<seq<string>, ListError>, ghost answers: seq<Call>)
    requires client.Valid()
    modifies client`log, client`store, client`calls
    ensures client.Valid() && client.Continues()
    ensures client.calls == old(client.calls) + answers
    ensures r.Ok? ==> AnswersTo(selectors, answers)
    ensures r.Err? ==> r.error == Unavailable && ReadFailedSince(old(client.calls), client.calls)
    ensures r.Ok? ==> Sorted(Identity(), r.value) && NoDup(r.value)
    ensures r.Ok? ==> forall n :: n in r.value <==> Answered(answers, n)
    ensures r.Ok? ==> AllSeenSelected(client.calls, selectors, r.value)
    ensures client.calm ==> r.Ok? && client.store == old(client.store)
    ensures client.calm ==> forall n :: n in r.value <==> Matched(client.matches, selectors, n)
  {
    hide SeenSelected, Answered;
    var namespaces: seq<string> := [];
    answers := [];
    NoAnswers();
    for i := 0 to |selectors|
      invariant client.Valid() && client.Continues()
      invariant client.calls == old(client.calls) + answers && AnswersTo(selectors[..i], answers)
      invariant AllSeenSelected(client.calls, selectors, namespaces)
      invariant forall n :: n in namespaces <==> Answered(answers, n)
      invariant client.calm ==> client.store == old(client.store)
      invariant client.calm ==> forall n :: n in namespaces <==> Matched(client.matches, selectors[..i], n)
    {
      ghost var calls := client.calls;
      var page := client.ListNamespaces(selectors[i]);
      if page.Err? && page.error != NotFound {
        FailedSince(old(client.calls), calls, client.calls);
        return Err(page.error), answers + [ReadFailed];
      }
      ghost var names := if page.Ok? then page.value else [];
      NamespacesSeen(calls, selectors, namespaces, selectors[i], names);
      forall n
        ensures Answered(answers + [SawNamespaces(selectors[i], names)], n) <==> Answered(answers, n) || n in names
      {
        OneMoreAnswer(answers, selectors[i], names, n);
      }
      answers := answers + [SawNamespaces(selectors[i], names)];
      assert namespaces + [] == namespaces;
      if page.Ok? {
        namespaces := namespaces + page.value;
      }
      assert selectors[..i + 1] == selectors[..i] + [selectors[i]];
    }
    assert selectors[..|selectors|] == selectors;
    var unique := NormalizeNamespaceSlice(namespaces);
    r := Ok(unique);
  }

  lemma NoAnswers()
    ensures forall n :: !Answered([], n)
  {
  }

  // ---------------------------------------------------------------------------
  // Resources in the selected namespaces

  predicate InNamespaces(kind: Kind, namespaces: seq<string>, items: seq<Resource>) {
    forall x | x in items :: x.key.kind == kind && x.key.id.namespace in namespaces
  }

  ghost predicate Known(client: Client, items: seq<Resource>)
    reads client
  {
    forall x | x in items :: client.Stored(x) && (Saw(x) in client.calls || Wrote(x) in client.calls)
  }

  // The copies are what is stored now.
  ghost predicate Current(store: Store, items: seq<Resource>) {
    forall x | x in items :: x.key in store && store[x.key] == x
  }

  lemma PagesAreDisjoint(all: seq<Resource>, kind: Kind, namespaces: seq<string>, n: string, page: seq<Resource>)
    requires NoDupKeys(all) && NoDupKeys(page) && n !in namespaces
    requires InNamespaces(kind, namespaces, all)
    requires forall x | x in page :: Selected(kind, Some(n), None, x)
    ensures NoDupKeys(all + page) && InNamespaces(kind, namespaces + [n], all + page)
  {
    var both := all + page;
    forall i, j | 0 <= i < j < |both|
      ensures both[i].key != both[j].key
    {
      if i < |all| && |all| <= j {
        assert all[i] in all && page[j - |all|] in page;
      }
    }
  }

  lemma SeenKnown(client: Client, items: seq<Resource>, earlier: seq<Call>)
    requires client.calls == earlier + Seen(items)
    ensures forall x | x in items :: Saw(x) in client.calls
  {
    forall x | x in items
      ensures Saw(x) in client.calls
    {
      var i :| 0 <= i < |items| && items[i] == x;
      assert client.calls[|earlier| + i] == Saw(x);
    }
  }

  lemma SeenTogether(calls: seq<Call>, a: seq<Resource>, b: seq<Resource>)
    ensures calls + Seen(a) + Seen(b) == calls + Seen(a + b)
    ensures Seen([]) == [] && calls + [] == calls
  {
    assert Seen(a + b) == Seen(a) + Seen(b);
  }

  // What the server lists is kept, whatever it leaves out.
  method ListInNamespaces(client: Client, kind: Kind, namespaces: seq<string>)
    returns (r: Result<seq<Resource>, ListError>)
    requires client.Valid() && NoDup(namespaces)
    modifies client`log, client`store, client`calls
    ensures client.Valid() && client.Continues()
    ensures r.Ok? ==> client.calls == old(client.calls) + Seen(r.value)
    ensures r.Err? ==> r.error == Unavailable && ReadFailedSince(old(client.calls), client.calls)
    ensures r.Ok? ==> NoDupKeys(r.value) && InNamespaces(kind, namespaces, r.value) && Known(client, r.value)
    ensures client.calm ==> r.Ok? && client.store == old(client.store) && Current(client.store, r.value)
    ensures client.calm ==> forall k | k in client.store && k.kind == kind && k.id.namespace in namespaces ::
              client.store[k] in r.value
  {
    hide Seen;
    var all: seq<Resource> := [];
    SeenTogether(client.calls, [], []);
    for i := 0 to |namespaces|
      invariant client.Valid() && client.Continues()
      invariant client.calls == old(client.calls) + Seen(all)
      invariant NoDupKeys(all) && InNamespaces(kind, namespaces[..i], all) && Known(client, all)
      invariant client.calm ==> client.store == old(client.store) && Current(client.store, all)
      invariant client.calm ==> forall k | k in client.store && k.kind == kind && k.id.namespace in namespaces[..i] ::
                  client.store[k] in all
    {
      assert namespaces[..i + 1] == namespaces[..i] + [namespaces[i]];
      assert namespaces[i] !in namespaces[..i];
      ghost var earlier := client.calls;
      var page := client.List(kind, Some(namespaces[i]), None);
      if page.Err? && page.error != NotFound {
        FailedSince(old(client.calls), earlier, client.calls);
        return Err(page.error);
      }
      SeenTogether(earlier, [], []);
      if page.Ok? {
        SeenTogether(old(client.calls), all, page.value);
        SeenKnown(client, page.value, earlier);
        PagesAreDisjoint(all, kind, namespaces[..i], namespaces[i], page.value);
        client.StoreIsKeyed();
        all := all + page.value;
      }
    }
    assert namespaces[..|namespaces|] == namespaces;
    r := Ok(all);
  }

  function WithOwner(owner: string, items: seq<Resource>): seq<Resource> {
    if items == [] then []
    else
      var n := |items| - 1;
      WithOwner(owner, items[..n]) + if items[n].owner == owner then [items[n]] else []
  }

  function Disputed(tenant: string, items: seq<Resource>): seq<Resource> {
    if items == [] then []
    else
      var n := |items| - 1;
      Disputed(tenant, items[..n])
      + if items[n].owner != "" && items[n].owner != tenant then [items[n]] else []
  }

  ghost predicate SameOwners(a: Store, b: Store) {
    a.Keys == b.Keys && forall k | k in a :: a[k].owner == b[k].owner
  }

  lemma {:induction false} WithOwnerMembers(owner: string, items: seq<Resource>)
    ensures forall x :: x in WithOwner(owner, items) <==> x in items && x.owner == owner
    ensures NoDupKeys(items) ==> NoDupKeys(WithOwner(owner, items))
  {
    if items != [] {
      var n := |items| - 1;
      assert items == items[..n] + [items[n]];
      WithOwnerMembers(owner, items[..n]);
      if NoDupKeys(items) {
        assert forall x | x in items[..n] :: x.key != items[n].key;
      }
    }
  }

  lemma {:induction false} DisputedMembers(tenant: string, items: seq<Resource>)
    ensures forall x :: x in Disputed(tenant, items) <==> x in items && x.owner != "" && x.owner != tenant
  {
    if items != [] {
      var n := |items| - 1;
      assert items == items[..n] + [items[n]];
      DisputedMembers(tenant, items[..n]);
    }
  }

  // Every listed resource is owned, to adopt or disputed, and only one of these.
  lemma {:induction false} CountedOnce(tenant: string, items: seq<Resource>)
    requires tenant != ""
    ensures multiset(items) == multiset(WithOwner(tenant, items)) + multiset(WithOwner("", items))
                               + multiset(Disputed(tenant, items))
  {
    if items != [] {
      var n := |items| - 1;
      assert items == items[..n] + [items[n]];
      CountedOnce(tenant, items[..n]);
    }
  }

  // ---------------------------------------------------------------------------
  // Adopting

  predicate Undisputed(tenant: string, r: Resource) {
    r.owner == "" || r.owner == tenant
  }

  // In the selected namespaces nothing of this kind that has this owner is missing.
  ghost predicate Covers(client: Client, store: Store, kind: Kind, selectors: seq<Selector>, items: seq<Resource>,
                         owner: string)
  {
    forall k | k in store && k.kind == kind && Matched(client.matches, selectors, k.id.namespace)
      :: store[k].owner == owner ==> store[k] in items
  }

  // In a calm cluster marking the first n disputes changed no owner, and all other copies are still current.
  ghost predicate Marked(tenant: string, before: Store, now: Store, items: seq<Resource>, n: nat) {
    && SameOwners(before, now)
    && (forall j | 0 <= j < |items| && (n <= j || Undisputed(tenant, items[j])) ::
          items[j].key in now && now[items[j].key] == items[j])
    && forall j | 0 <= j < n && j < |items| && !Undisputed(tenant, items[j]) :: MarkedFailed(now, items[j])
  }

  ghost predicate MarkedFailed(now: Store, r: Resource) {
    r.key in now && now[r.key] == r.(state := Failed, version := now[r.key].version)
  }

  lemma MarkedStep(tenant: string, before: Store, now: Store, items: seq<Resource>, n: nat, marked: Resource)
    requires n < |items| && NoDupKeys(items) && Marked(tenant, before, now, items, n)
    requires !Undisputed(tenant, items[n]) && marked == items[n].(state := Failed, version := marked.version)
    ensures Marked(tenant, before, now[items[n].key := marked], items, n + 1)
  {
    assert items[n].key in now;
  }

  // The resource is as it was, or it became failed.
  predicate AtMostFailed(before: Resource, now: Resource) {
    now == before || now == before.(state := Failed, version := now.version)
  }

  // Marking disputes leaves alone whatever the tenant owns or could own, and every other kind; a disputed resource
  // at most becomes failed.
  ghost predicate OnlyDisputesChanged(tenant: string, kind: Kind, before: Store, now: Store) {
    && now.Keys == before.Keys
    && forall k | k in before ::
         if k.kind != kind || Undisputed(tenant, before[k]) then now[k] == before[k]
         else AtMostFailed(before[k], now[k])
  }

  lemma DisputeChanged(tenant: string, kind: Kind, before: Store, now: Store, items: seq<Resource>, n: nat,
                       marked: Resource)
    requires n < |items| && Marked(tenant, before, now, items, n) && OnlyDisputesChanged(tenant, kind, before, now)
    requires AllOfKind(kind, items) && !Undisputed(tenant, items[n])
    requires marked == items[n].(state := Failed, version := marked.version)
    ensures OnlyDisputesChanged(tenant, kind, before, now[items[n].key := marked])
  {
    assert items[n] in items;
    assert before[items[n].key].owner == now[items[n].key].owner;
  }

  lemma NothingMarked(tenant: string, kind: Kind, before: Store, items: seq<Resource>)
    requires Current(before, items)
    ensures Marked(tenant, before, before, items, 0) && OnlyDisputesChanged(tenant, kind, before, before)
  {
    assert forall j | 0 <= j < |items| :: items[j] in items;
  }

  lemma MarkedNext(tenant: string, before: Store, now: Store, items: seq<Resource>, n: nat)
    requires n < |items| && Marked(tenant, before, now, items, n)
    ensures items[n].key in now && now[items[n].key] == items[n]
    ensures Undisputed(tenant, items[n]) ==> Marked(tenant, before, now, items, n + 1)
  {
  }

  // Whatever of this kind another tenant owns in the selected namespaces is failed.
  ghost predicate DisputesFailed(client: Client, kind: Kind, selectors: seq<Selector>, store: Store) {
    forall k | k in store && k.kind == kind && Matched(client.matches, selectors, k.id.namespace)
      && !Undisputed(client.tenant, store[k]) :: store[k].state.Failed?
  }

  lemma MarkedFails(client: Client, kind: Kind, selectors: seq<Selector>, before: Store, now: Store,
                    items: seq<Resource>)
    requires Marked(client.tenant, before, now, items, |items|)
    requires forall k | k in before && k.kind == kind && Matched(client.matches, selectors, k.id.namespace) ::
               before[k] in items
    requires forall k | k in before :: before[k].key == k
    ensures DisputesFailed(client, kind, selectors, now)
  {
    hide Matched;
    forall k | k in now && k.kind == kind && Matched(client.matches, selectors, k.id.namespace)
               && !Undisputed(client.tenant, now[k])
      ensures now[k].state.Failed?
    {
      var j :| 0 <= j < |items| && items[j] == before[k];
      assert MarkedFailed(now, items[j]);
    }
  }

  lemma MarkedCovers(client: Client, kind: Kind, selectors: seq<Selector>, before: Store, items: seq<Resource>,
                     owner: string)
    requires NoDupKeys(items) && Marked(client.tenant, before, client.store, items, |items|)
    requires owner == "" || owner == client.tenant
    requires forall k | k in before && k.kind == kind && Matched(client.matches, selectors, k.id.namespace) ::
               before[k] in items
    requires forall k | k in before :: before[k].key == k
    ensures SameOwners(before, client.store)
    ensures forall x | x in Disputed(client.tenant, items) :: MarkedFailed(client.store, x)
    ensures Covers(client, client.store, kind, selectors, WithOwner(owner, items), owner)
    ensures Current(client.store, WithOwner(owner, items))
  {
    WithOwnerMembers(owner, items);
    DisputedMembers(client.tenant, items);
    forall k | k in client.store && k.kind == kind && Matched(client.matches, selectors, k.id.namespace)
      ensures client.store[k].owner == owner ==> client.store[k] in WithOwner(owner, items)
    {
      assert before[k] in items;
    }
  }

  // ---------------------------------------------------------------------------
  // Writes that were tried

  predicate IsAttempt(c: Call, r: Resource) {
    c == Refused(r) || (c.Wrote? && c.res == r.(version := c.res.version))
  }

  // One attempt for each resource, in order.
  predicate Attempts(attempts: seq<Call>, items: seq<Resource>) {
    |attempts| == |items| && forall i | 0 <= i < |items| :: IsAttempt(attempts[i], items[i])
  }

  function WrittenIn(attempts: seq<Call>): seq<Resource> {
    if attempts == [] then []
    else
      var n := |attempts| - 1;
      WrittenIn(attempts[..n]) + if attempts[n].Wrote? then [attempts[n].res] else []
  }

  function Reowned(owner: string, items: seq<Resource>): seq<Resource> {
    seq(|items|, i requires 0 <= i < |items| => items[i].(owner := owner))
  }

  function Failing(items: seq<Resource>): seq<Resource> {
    seq(|items|, i requires 0 <= i < |items| => items[i].(state := Failed))
  }

  lemma OneMoreAttempt(attempts: seq<Call>, items: seq<Resource>, c: Call, r: Resource)
    requires Attempts(attempts, items) && IsAttempt(c, r)
    ensures Attempts(attempts + [c], items + [r])
    ensures WrittenIn(attempts + [c]) == WrittenIn(attempts) + if c.Wrote? then [c.res] else []
  {
    assert (attempts + [c])[..|attempts|] == attempts;
  }

  lemma ReownedNext(owner: string, items: seq<Resource>, n: nat)
    requires n < |items|
    ensures Reowned(owner, items[..n + 1]) == Reowned(owner, items[..n]) + [items[n].(owner := owner)]
  {
  }

  lemma FailingNext(items: seq<Resource>, r: Resource)
    ensures Failing(items + [r]) == Failing(items) + [r.(state := Failed)]
  {
  }

  lemma NoAttempts(owner: string, items: seq<Resource>)
    ensures Attempts([], Reowned(owner, items[..0])) && Attempts([], Failing([])) && WrittenIn([]) == []
  {
  }

  // ---------------------------------------------------------------------------
  // Sorting by owner

  // A resource of another tenant is marked as failed; it keeps its owner.
  method MarkDisputed(client: Client, res: Resource, ghost items: seq<Resource>) returns (ghost attempt: Call)
    requires client.Valid() && Known(client, items) && res in items
    requires !Undisputed(client.tenant, res)
    requires client.calm ==> res.key in client.store && client.store[res.key] == res
    modifies client`log, client`store, client`calls
    ensures client.Valid() && client.Continues() && Known(client, items)
    ensures client.calls == old(client.calls) + [attempt] && IsAttempt(attempt, res.(state := Failed))
    ensures client.calm ==> client.store == old(client.store)[res.key := res.(state := Failed, version := |client.log|)]
  {
    var ok, stored := client.UpdateStatus(res.(state := Failed), res);
    attempt := if ok then Wrote(stored) else Refused(res.(state := Failed));
  }

  lemma ClassifyNext(tenant: string, items: seq<Resource>, n: nat)
    requires tenant != "" && n < |items|
    ensures WithOwner(tenant, items[..n + 1])
            == WithOwner(tenant, items[..n]) + if items[n].owner == tenant then [items[n]] else []
    ensures WithOwner("", items[..n + 1])
            == WithOwner("", items[..n]) + if items[n].owner == "" then [items[n]] else []
    ensures Disputed(tenant, items[..n + 1])
            == Disputed(tenant, items[..n]) + if Undisputed(tenant, items[n]) then [] else [items[n]]
    ensures Disputed(tenant, items[..n]) + [] == Disputed(tenant, items[..n])
    ensures WithOwner(tenant, items[..n]) + [] == WithOwner(tenant, items[..n])
    ensures WithOwner("", items[..n]) + [] == WithOwner("", items[..n])
  {
    assert items[..n + 1][..n] == items[..n];
  }

  lemma NothingClassified(tenant: string, items: seq<Resource>)
    ensures WithOwner(tenant, items[..0]) == [] && WithOwner("", items[..0]) == [] && Disputed(tenant, items[..0]) == []
  {
  }

  // Sorts the listed resources by owner and tries to mark those that another tenant owns.
  method ClassifyResources(client: Client, kind: Kind, listed: seq<Resource>)
    returns (owned: seq<Resource>, updates: seq<Resource>, ghost marks: seq<Call>)
    requires client.Valid() && NoDupKeys(listed) && Known(client, listed) && AllOfKind(kind, listed)
    requires client.calm ==> Current(client.store, listed)
    modifies client`log, client`store, client`calls
    ensures client.Valid() && client.Continues() && Known(client, listed)
    ensures client.calls == old(client.calls) + marks && Attempts(marks, Failing(Disputed(client.tenant, listed)))
    ensures owned == WithOwner(client.tenant, listed) && updates == WithOwner("", listed)
    ensures client.calm ==> Marked(client.tenant, old(client.store), client.store, listed, |listed|)
                            && OnlyDisputesChanged(client.tenant, kind, old(client.store), client.store)
  {
    hide Known, NoDupKeys, Marked, MarkedFailed, OnlyDisputesChanged, AllOfKind, Attempts, Failing, WithOwner, Disputed,
         IsAttempt;
    owned, updates, marks := [], [], [];
    ghost var before := client.store;
    client.StoreIsKeyed();
    NothingClassified(client.tenant, listed);
    NoAttempts("", listed);
    if client.calm {
      NothingMarked(client.tenant, kind, before, listed);
    }
    for i := 0 to |listed|
      invariant client.Valid() && client.Continues() && Known(client, listed)
      invariant client.calls == old(client.calls) + marks
      invariant Attempts(marks, Failing(Disputed(client.tenant, listed[..i])))
      invariant owned == WithOwner(client.tenant, listed[..i]) && updates == WithOwner("", listed[..i])
      invariant client.calm ==> Marked(client.tenant, before, client.store, listed, i)
                                && OnlyDisputesChanged(client.tenant, kind, before, client.store)
    {
      var res := listed[i];
      ClassifyNext(client.tenant, listed, i);
      if client.calm {
        MarkedNext(client.tenant, before, client.store, listed, i);
      }
      if res.owner != "" && res.owner != client.tenant {
        ghost var now, disputed := client.store, Disputed(client.tenant, listed[..i]);
        var attempt := MarkDisputed(client, res, listed);
        OneMoreAttempt(marks, Failing(disputed), attempt, res.(state := Failed));
        FailingNext(disputed, res);
        marks := marks + [attempt];
        if client.calm {
          var marked := res.(state := Failed, version := |client.log|);
          MarkedStep(client.tenant, before, now, listed, i, marked);
          DisputeChanged(client.tenant, kind, before, now, listed, i, marked);
        }
      } else if res.owner == "" {
        updates := updates + [res];
      } else {
        owned := owned + [res];
      }
    }
    assert listed[..|listed|] == listed;
  }

  // Everything of a kind in the selected namespaces.
  method ListSelected(client: Client, kind: Kind, selectors: seq<Selector>)
    returns (r: Result<seq<Resource>, ListError>, ghost namespaces: seq<string>, ghost answers: seq<Call>)
    requires client.Valid()
    modifies client`log, client`store, client`calls
    ensures client.Valid() && client.Continues()
    ensures r.Ok? ==> client.calls == old(client.calls) + answers + Seen(r.value)
    ensures r.Err? ==> r.error == Unavailable && ReadFailedSince(old(client.calls), client.calls)
    ensures r.Ok? ==> AnswersTo(selectors, answers) && forall n :: n in namespaces <==> Answered(answers, n)
    ensures r.Ok? ==> Known(client, r.value) && NoDupKeys(r.value) && InNamespaces(kind, namespaces, r.value)
    ensures r.Ok? ==> Sorted(Identity(), namespaces) && NoDup(namespaces)
    ensures r.Ok? ==> AllSeenSelected(client.calls, selectors, namespaces)
    ensures client.calm ==> r.Ok? && client.store == old(client.store) && Current(client.store, r.value)
    ensures client.calm ==> forall n :: n in namespaces <==> Matched(client.matches, selectors, n)
    ensures client.calm ==> forall k | k in client.store && k.kind == kind
              && Matched(client.matches, selectors, k.id.namespace) :: client.store[k] in r.value
  {
    hide Known, Sorted, NoDup, NoDupKeys, AllSeenSelected, Matched, Answered, AnswersTo, Seen;
    namespaces := [];
    var found;
    found, answers := GetNamespacesForSelectorSlice(client, selectors);
    if found.Err? {
      return Err(found.error), [], answers;
    }
    namespaces := found.value;
    ghost var calls := client.calls;
    r := ListInNamespaces(client, kind, found.value);
    FailedSince(old(client.calls), calls, client.calls);
    StillSeenSelected(calls, client.calls, selectors, namespaces);
  }

  lemma ListedKind(kind: Kind, namespaces: seq<string>, items: seq<Resource>)
    requires InNamespaces(kind, namespaces, items)
    ensures AllOfKind(kind, items)
  {
  }

  method GetResourceOwnedByTenant(client: Client, kind: Kind, selectors: seq<Selector>)
    returns (err: Option<ListError>, owned: seq<Resource>, updates: seq<Resource>,
             ghost namespaces: seq<string>, ghost answers: seq<Call>, ghost listed: seq<Resource>,
             ghost marks: seq<Call>)
    requires client.Valid()
    modifies client`log, client`store, client`calls
    ensures client.Valid() && client.Continues()
    ensures err.None? ==> client.calls == old(client.calls) + answers + Seen(listed) + marks
    ensures err.None? ==> AnswersTo(selectors, answers) && forall n :: n in namespaces <==> Answered(answers, n)
    ensures err.Some? ==> err.value == Unavailable && ReadFailedSince(old(client.calls), client.calls)
    ensures err.None? ==> Attempts(marks, Failing(Disputed(client.tenant, listed)))
    ensures err.None? ==> Known(client, listed) && NoDupKeys(listed) && InNamespaces(kind, namespaces, listed)
    ensures err.None? ==> Sorted(Identity(), namespaces) && NoDup(namespaces)
    ensures err.None? ==> AllSeenSelected(client.calls, selectors, namespaces)
    ensures err.None? ==> owned == WithOwner(client.tenant, listed) && updates == WithOwner("", listed)
    ensures client.calm ==> err.None? && SameOwners(old(client.store), client.store)
    ensures client.calm ==> OnlyDisputesChanged(client.tenant, kind, old(client.store), client.store)
    ensures client.calm ==> forall n :: n in namespaces <==> Matched(client.matches, selectors, n)
    ensures client.calm ==> Current(client.store, owned) && Current(client.store, updates)
    ensures client.calm ==> forall x | x in Disputed(client.tenant, listed) :: MarkedFailed(client.store, x)
    ensures client.calm ==> DisputesFailed(client, kind, selectors, client.store)
    ensures client.calm ==> Covers(client, client.store, kind, selectors, owned, client.tenant)
                            && Covers(client, client.store, kind, selectors, updates, "")
  {
    hide Known, Sorted, NoDup, NoDupKeys, InNamespaces, AllSeenSelected, Matched, Marked, MarkedFailed, Disputed,
         Covers, SameOwners, WithOwner, OnlyDisputesChanged, DisputesFailed, Answered, Attempts, Failing, Seen;
    owned, updates, listed, marks := [], [], [], [];
    var all;
    all, namespaces, answers := ListSelected(client, kind, selectors);
    if all.Err? {
      return Some(all.error), [], [], namespaces, answers, [], [];
    }
    listed := all.value;
    ghost var before, calls := client.store, client.calls;
    client.StoreIsKeyed();
    ListedKind(kind, namespaces, listed);
    owned, updates, marks := ClassifyResources(client, kind, all.value);
    StillSeenSelected(calls, client.calls, selectors, namespaces);
    if client.calm {
      MarkedFails(client, kind, selectors, before, client.store, listed);
      MarkedCovers(client, kind, selectors, before, listed, client.tenant);
      MarkedCovers(client, kind, selectors, before, listed, "");
    }
    err := None;
  }

  // ---------------------------------------------------------------------------
  // Changing owners

  function KeysOf(items: seq<Resource>): set<Key> {
    set x | x in items :: x.key
  }

  // These resources got a new owner and nothing else changed.
  ghost predicate Rewritten(before: Store, now: Store, keys: set<Key>, owner: string) {
    && now.Keys == before.Keys
    && forall k | k in now ::
         now[k] == if k in keys then before[k].(owner := owner, version := now[k].version) else before[k]
  }

  lemma RewrittenStep(before: Store, now: Store, items: seq<Resource>, n: nat, owner: string)
    requires n < |items| && NoDupKeys(items) && Current(before, items)
    requires Rewritten(before, now, KeysOf(items[..n]), owner)
    ensures KeysOf(items[..n + 1]) == KeysOf(items[..n]) + {items[n].key}
    ensures items[n].key !in KeysOf(items[..n])
    ensures items[n].key in now && now[items[n].key] == items[n]
    ensures forall version: nat ::
              Rewritten(before, now[items[n].key := items[n].(owner := owner, version := version)],
                        KeysOf(items[..n + 1]), owner)
  {
    assert items[..n + 1] == items[..n] + [items[n]];
    assert items[n] in items;
  }

  lemma KeysOfPrefix(items: seq<Resource>, n: nat)
    requires n < |items| && NoDupKeys(items)
    ensures KeysOf(items[..n + 1]) == KeysOf(items[..n]) + {items[n].key}
    ensures items[n].key !in KeysOf(items[..n])
  {
    assert items[..n + 1] == items[..n] + [items[n]];
  }

  lemma AppendKey(items: seq<Resource>, x: Resource)
    ensures KeysOf(items + [x]) == KeysOf(items) + {x.key}
    ensures NoDupKeys(items) && x.key !in KeysOf(items) ==> NoDupKeys(items + [x])
  {
    if NoDupKeys(items) && x.key !in KeysOf(items) {
      assert forall y | y in items :: y.key != x.key;
    }
  }

  lemma NothingRewritten(before: Store, owner: string)
    ensures Rewritten(before, before, {}, owner)
  {
  }

  lemma AppendNothing()
    ensures KeysOf([]) == {} && NoDupKeys([])
  {
  }

  lemma CurrentKept(before: Store, items: seq<Resource>, stored: Resource)
    requires Current(before, items) && stored.key !in KeysOf(items)
    ensures Current(before[stored.key := stored], items + [stored])
  {
    assert forall x | x in items :: x.key in KeysOf(items);
  }

  predicate AllOwnedBy(owner: string, items: seq<Resource>) {
    forall x | x in items :: x.owner == owner
  }

  predicate AllOfKind(kind: Kind, items: seq<Resource>) {
    forall x | x in items :: x.key.kind == kind
  }

  // Adoption: every resource is tried, and what cannot be written is left out of the result, and not fatal.
  method UpdateResourcesForTenant(client: Client, resources: seq<Resource>)
    returns (updated: seq<Resource>, ghost adoptions: seq<Call>)
    requires client.Valid() && NoDupKeys(resources) && Known(client, resources) && AllOwnedBy("", resources)
    requires client.calm ==> Current(client.store, resources)
    modifies client`log, client`store, client`calls
    ensures client.Valid() && client.Continues()
    ensures client.calls == old(client.calls) + adoptions && Attempts(adoptions, Reowned(client.tenant, resources))
    ensures updated == WrittenIn(adoptions)
    ensures NoDupKeys(updated) && Known(client, updated) && AllOwnedBy(client.tenant, updated)
    ensures KeysOf(updated) <= KeysOf(resources)
    ensures client.calm ==> KeysOf(updated) == KeysOf(resources) && Current(client.store, updated)
    ensures client.calm ==> Rewritten(old(client.store), client.store, KeysOf(resources), client.tenant)
  {
    hide KeysOf, Rewritten, NoDupKeys, Attempts, Reowned, WrittenIn;
    updated, adoptions := [], [];
    ghost var before := client.store;
    NothingRewritten(before, client.tenant);
    AppendNothing();
    NoAttempts(client.tenant, resources);
    for i := 0 to |resources|
      invariant client.Valid() && client.Continues()
      invariant client.calls == old(client.calls) + adoptions
      invariant Attempts(adoptions, Reowned(client.tenant, resources[..i])) && updated == WrittenIn(adoptions)
      invariant NoDupKeys(updated) && Known(client, updated) && AllOwnedBy(client.tenant, updated)
      invariant Known(client, resources)
      invariant KeysOf(updated) <= KeysOf(resources[..i])
      invariant client.calm ==> KeysOf(updated) == KeysOf(resources[..i]) && Current(client.store, updated)
      invariant client.calm ==> Rewritten(before, client.store, KeysOf(resources[..i]), client.tenant)
    {
      var res := resources[i];
      KeysOfPrefix(resources, i);
      if client.calm {
        RewrittenStep(before, client.store, resources, i, client.tenant);
      }
      ghost var earlier := client.store;
      var ok, stored := client.UpdateStatus(res.(owner := client.tenant), res);
      ghost var attempt := if ok then Wrote(stored) else Refused(res.(owner := client.tenant));
      ReownedNext(client.tenant, resources, i);
      OneMoreAttempt(adoptions, Reowned(client.tenant, resources[..i]), attempt, res.(owner := client.tenant));
      adoptions := adoptions + [attempt];
      if ok {
        AppendKey(updated, stored);
        if client.calm {
          CurrentKept(earlier, updated, stored);
        }
        updated := updated + [stored];
      } else {
        assert updated + [] == updated;
      }
    }
    assert resources[..|resources|] == resources;
  }

  // ---------------------------------------------------------------------------
  // Disowning

  function NotSelected(selected: seq<Resource>, items: seq<Resource>): seq<Resource> {
    if items == [] then []
    else
      var n := |items| - 1;
      NotSelected(selected, items[..n]) + if items[n].key in KeysOf(selected) then [] else [items[n]]
  }

  lemma {:induction false} NotSelectedMembers(selected: seq<Resource>, items: seq<Resource>)
    ensures forall x :: x in NotSelected(selected, items) <==> x in items && x.key !in KeysOf(selected)
    ensures NoDupKeys(items) ==> NoDupKeys(NotSelected(selected, items))
  {
    if items != [] {
      var n := |items| - 1;
      assert items == items[..n] + [items[n]];
      NotSelectedMembers(selected, items[..n]);
      if NoDupKeys(items) {
        assert forall x | x in items[..n] :: x.key != items[n].key;
      }
    }
  }

  method IndexOfKey(items: seq<Resource>, key: Key) returns (found: bool)
    ensures found <==> key in KeysOf(items)
  {
    for i := 0 to |items|
      invariant forall x | x in items[..i] :: x.key != key
    {
      assert items[..i + 1] == items[..i] + [items[i]];
      if items[i].key == key {
        assert items[i] in items;
        return true;
      }
    }
    assert items[..|items|] == items;
    return false;
  }

  // What still names the tenant as its owner but was not selected in this run.
  method GetResourcesReferencingTenantButNotSelected(client: Client, kind: Kind, selected: seq<Resource>)
    returns (err: Option<ListError>, referencing: seq<Resource>, ghost listed: seq<Resource>)
    requires client.Valid()
    modifies client`log, client`store, client`calls
    ensures client.Valid() && client.Continues()
    ensures err.None? ==> client.calls == old(client.calls) + Seen(listed)
    ensures err.Some? ==> err.value == Unavailable && ReadFailedSince(old(client.calls), client.calls)
    ensures err.None? ==> Known(client, referencing) && referencing == NotSelected(selected, listed)
    ensures err.None? ==> NoDupKeys(referencing) && AllOfKind(kind, referencing)
    ensures err.None? ==> AllOwnedBy(client.tenant, referencing)
    ensures err.None? ==> KeysOf(referencing) !! KeysOf(selected)
    ensures client.calm ==> err.None? && client.store == old(client.store) && Current(client.store, referencing)
    ensures client.calm ==> forall k | k in client.store && k.kind == kind && k !in KeysOf(selected) ::
              client.store[k].owner == client.tenant ==> k in KeysOf(referencing)
  {
    hide Seen;
    referencing, listed := [], [];
    ghost var earlier := client.calls;
    SeenTogether(earlier, [], []);
    var page := client.List(kind, None, Some(client.tenant));
    if page.Err? && page.error != NotFound {
      FailedSince(earlier, earlier, client.calls);
      return Some(page.error), [], [];
    }
    var all := if page.Ok? then page.value else [];
    if page.Ok? {
      SeenKnown(client, all, earlier);
    }
    listed := all;
    client.StoreIsKeyed();
    for i := 0 to |all|
      invariant referencing == NotSelected(selected, listed[..i])
      modifies {}
    {
      assert listed[..i + 1] == listed[..i] + [all[i]];
      var isSelected := IndexOfKey(selected, all[i].key);
      if !isSelected {
        referencing := referencing + [all[i]];
      }
    }
    assert listed[..|listed|] == listed;
    NotSelectedMembers(selected, listed);
    err := None;
  }

  // Giving up: every resource is tried; a failed write is not fatal.
  method DisownResources(client: Client, resources: seq<Resource>) returns (ghost disownings: seq<Call>)
    requires client.Valid() && NoDupKeys(resources) && Known(client, resources) && AllOwnedBy(client.tenant, resources)
    requires client.calm ==> Current(client.store, resources)
    modifies client`log, client`store, client`calls
    ensures client.Valid() && client.Continues()
    ensures client.calls == old(client.calls) + disownings && Attempts(disownings, Reowned("", resources))
    ensures client.calm ==> Rewritten(old(client.store), client.store, KeysOf(resources), "")
  {
    hide KeysOf, Rewritten, NoDupKeys, Attempts, Reowned;
    ghost var before := client.store;
    disownings := [];
    NothingRewritten(before, "");
    AppendNothing();
    NoAttempts("", resources);
    for i := 0 to |resources|
      invariant client.Valid() && client.Continues() && Known(client, resources)
      invariant client.calls == old(client.calls) + disownings
      invariant Attempts(disownings, Reowned("", resources[..i]))
      invariant client.calm ==> Rewritten(before, client.store, KeysOf(resources[..i]), "")
    {
      var res := resources[i];
      KeysOfPrefix(resources, i);
      if client.calm {
        RewrittenStep(before, client.store, resources, i, "");
      }
      var ok, stored := client.UpdateStatus(res.(owner := ""), res);
      ghost var attempt := if ok then Wrote(stored) else Refused(res.(owner := ""));
      ReownedNext("", resources, i);
      OneMoreAttempt(disownings, Reowned("", resources[..i]), attempt, res.(owner := ""));
      disownings := disownings + [attempt];
    }
    assert resources[..|resources|] == resources;
  }
}
