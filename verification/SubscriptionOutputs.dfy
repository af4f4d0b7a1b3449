/** Validation of the outputs that a tenant's subscriptions refer to. */
module SubscriptionOutputs {
  import opened Names
  import opened Ordering
  import opened Api
  import opened Ownership
  import opened ApiClient
  import opened TenantResources

  // The tenant's outputs by name; the copies are updated as they are validated.
  type Cache = map<NamespacedName, Resource>

  // A copy that differs from a stored one in nothing but its state and its outputs.
  predicate Agrees(base: Resource, id: NamespacedName, r: Resource) {
    && r.key == base.key == Key(OutputKind, id) && r.version == base.version
    && r.specOutputs == base.specOutputs && r.authenticated == base.authenticated
    && r.owner == base.owner && r.owner != ""
  }

  ghost predicate AllAgree(bases: Cache, cache: Cache) {
    cache.Keys == bases.Keys && forall id | id in cache :: Agrees(bases[id], id, cache[id])
  }

  ghost predicate AllStored(client: Client, bases: Cache)
    reads client
  {
    forall id | id in bases :: client.Stored(bases[id])
  }

  ghost predicate SameOutputs(a: Cache, b: Cache) {
    a.Keys == b.Keys
    && forall id | id in a :: a[id].owner == b[id].owner && a[id].authenticated == b[id].authenticated
  }

  // The output is cached, and its owner is the owner of the subscription.
  predicate Reaches(cache: Cache, owner: string, output: NamespacedName) {
    output in cache && cache[output].owner == owner
  }

  // A reference is valid if its output is reached and has the secret it needs, and invalid otherwise.
  ghost predicate Justified(calls: seq<Call>, cache: Cache, owner: string, output: NamespacedName, verdict: bool) {
    if verdict then Reaches(cache, owner, output) && (cache[output].authenticated ==> SawSecret(output) in calls)
    else Rejects(calls, cache, owner, output)
  }

  ghost predicate Rejects(calls: seq<Call>, cache: Cache, owner: string, output: NamespacedName) {
    !Reaches(cache, owner, output) || (cache[output].authenticated && MissedSecret(output) in calls)
  }

  ghost predicate AllJustified(calls: seq<Call>, cache: Cache, owner: string, outputs: seq<NamespacedName>,
                               verdicts: seq<bool>)
  {
    && |verdicts| == |outputs|
    && forall i | 0 <= i < |outputs| :: Justified(calls, cache, owner, outputs[i], verdicts[i])
  }

  // The owners are the same, and only these resources may have changed.
  ghost predicate UnchangedBut(before: Store, after: Store, keys: set<Key>) {
    SameOwners(before, after) && forall k | k in after && k !in keys :: after[k] == before[k]
  }

  lemma UnchangedThrough(first: Store, second: Store, third: Store, a: set<Key>, b: set<Key>, keys: set<Key>)
    requires UnchangedBut(first, second, a) && UnchangedBut(second, third, b) && a <= keys && b <= keys
    ensures UnchangedBut(first, third, keys)
  {
  }

  lemma UnchangedAtAll(store: Store, keys: set<Key>)
    ensures UnchangedBut(store, store, keys)
  {
  }

  function CacheKeys(cache: Cache): set<Key> {
    set id | id in cache :: Key(OutputKind, id)
  }

  function Keep(outputs: seq<NamespacedName>, verdicts: seq<bool>, verdict: bool): seq<NamespacedName>
    requires |verdicts| == |outputs|
  {
    if outputs == [] then []
    else
      var n := |outputs| - 1;
      Keep(outputs[..n], verdicts[..n], verdict) + if verdicts[n] == verdict then [outputs[n]] else []
  }

  lemma {:induction false} NothingRejected(outputs: seq<NamespacedName>, verdicts: seq<bool>)
    requires |verdicts| == |outputs| && Keep(outputs, verdicts, false) == []
    ensures Keep(outputs, verdicts, true) == outputs && forall i | 0 <= i < |outputs| :: verdicts[i]
  {
    if outputs != [] {
      var n := |outputs| - 1;
      NothingRejected(outputs[..n], verdicts[..n]);
      assert outputs == outputs[..n] + [outputs[n]];
      assert forall i | 0 <= i < n :: verdicts[..n][i] == verdicts[i];
    }
  }

  lemma KeepStep(outputs: seq<NamespacedName>, verdicts: seq<bool>, n: nat, verdict: bool)
    requires n < |outputs| && |verdicts| == n
    ensures Keep(outputs[..n + 1], verdicts + [verdict], true)
            == Keep(outputs[..n], verdicts, true) + if verdict then [outputs[n]] else []
    ensures Keep(outputs[..n + 1], verdicts + [verdict], false)
            == Keep(outputs[..n], verdicts, false) + if verdict then [] else [outputs[n]]
  {
    assert outputs[..n + 1][..n] == outputs[..n];
    assert (verdicts + [verdict])[..n] == verdicts;
  }

  lemma JustifiedStep(calls: seq<Call>, more: seq<Call>, cache: Cache, owner: string, outputs: seq<NamespacedName>,
                      n: nat, verdicts: seq<bool>, verdict: bool)
    requires calls <= more && n < |outputs| && AllJustified(calls, cache, owner, outputs[..n], verdicts)
    requires Justified(more, cache, owner, outputs[n], verdict)
    ensures AllJustified(more, cache, owner, outputs[..n + 1], verdicts + [verdict])
  {
    forall i | 0 <= i < n + 1
      ensures Justified(more, cache, owner, outputs[..n + 1][i], (verdicts + [verdict])[i])
    {
      if i < n {
        assert Justified(calls, cache, owner, outputs[..n][i], verdicts[i]);
      }
    }
  }

  lemma CacheStep(bases: Cache, cache: Cache, id: NamespacedName, base: Resource, checked: Resource)
    requires AllAgree(bases, cache) && id in cache && Agrees(base, id, checked)
    requires checked.owner == cache[id].owner && checked.authenticated == cache[id].authenticated
    ensures AllAgree(bases[id := base], cache[id := checked]) && SameOutputs(cache, cache[id := checked])
  {
  }

  lemma NothingYet(calls: seq<Call>, cache: Cache, owner: string, outputs: seq<NamespacedName>)
    ensures AllJustified(calls, cache, owner, outputs[..0], []) && SameOutputs(cache, cache)
    ensures forall verdict :: Keep(outputs[..0], [], verdict) == []
  {
  }

  lemma SameKeys(a: Cache, b: Cache, bases: Cache)
    requires SameOutputs(a, b) && AllAgree(bases, b)
    ensures a.Keys == b.Keys == bases.Keys
  {
  }

  lemma AgreesAt(bases: Cache, cache: Cache, id: NamespacedName)
    requires AllAgree(bases, cache) && id in cache
    ensures id in bases && Agrees(bases[id], id, cache[id])
  {
  }

  lemma SameThrough(first: Cache, second: Cache, third: Cache)
    requires SameOutputs(first, second) && SameOutputs(second, third)
    ensures SameOutputs(first, third)
  {
  }

  lemma SameAgain(calls: seq<Call>, first: Cache, second: Cache, owner: string, id: NamespacedName, verdict: bool)
    requires SameOutputs(first, second) && id in second
    requires if verdict then second[id].owner == owner && (second[id].authenticated ==> SawSecret(id) in calls)
             else second[id].owner != owner || (second[id].authenticated && MissedSecret(id) in calls)
    ensures Justified(calls, first, owner, id, verdict)
  {
  }

  predicate IsWrite(c: Call) {
    c.Wrote? || c.Refused?
  }

  predicate IsQuery(c: Call) {
    c.SawSecret? || c.MissedSecret?
  }

  // Since these calls, secrets were asked for and cached outputs were tried to be written, with their owners.
  ghost predicate OwnersKept(calls: seq<Call>, more: seq<Call>, cache: Cache) {
    && calls <= more
    && forall i | |calls| <= i < |more| && !IsQuery(more[i]) ::
         IsWrite(more[i]) && more[i].res.key.id in cache && more[i].res.key.kind == OutputKind
         && more[i].res.owner == cache[more[i].res.key.id].owner
  }

  lemma NothingWritten(calls: seq<Call>, cache: Cache)
    ensures OwnersKept(calls, calls, cache)
  {
  }

  lemma WritesTogether(calls: seq<Call>, more: seq<Call>, asked: seq<Call>, attempt: Call, first: Cache, cache: Cache,
                       id: NamespacedName)
    requires OwnersKept(calls, more, first) && SameOutputs(first, cache) && id in cache
    requires cache[id].key == Key(OutputKind, id)
    requires asked == [] || asked == [SawSecret(id)] || asked == [MissedSecret(id)]
    requires exists state :: IsAttempt(attempt, cache[id].(state := state))
    ensures OwnersKept(calls, more + asked + [attempt], first)
  {
  }

  lemma OwnersKeptThrough(calls: seq<Call>, more: seq<Call>, most: seq<Call>, cache: Cache)
    requires OwnersKept(calls, more, cache) && OwnersKept(more, most, cache)
    ensures OwnersKept(calls, most, cache)
  {
  }

  // Since these calls, secrets were asked for and writes were tried that name this owner.
  ghost predicate OwnerKept(calls: seq<Call>, more: seq<Call>, owner: string) {
    && calls <= more
    && forall i | |calls| <= i < |more| && !IsQuery(more[i]) :: IsWrite(more[i]) && more[i].res.owner == owner
  }

  lemma OwnerKeptThrough(calls: seq<Call>, more: seq<Call>, most: seq<Call>, owner: string)
    requires OwnerKept(calls, more, owner) && OwnerKept(more, most, owner)
    ensures OwnerKept(calls, most, owner)
  {
  }

  lemma CachedOwnerKept(calls: seq<Call>, more: seq<Call>, original: Cache, cache: Cache, owner: string)
    requires OwnersKept(calls, more, cache) && SameOutputs(original, cache)
    requires forall id | id in original :: original[id].owner == owner
    ensures OwnerKept(calls, more, owner)
  {
  }

  lemma CachedKey(cache: Cache, id: NamespacedName)
    requires id in cache
    ensures {Key(OutputKind, id)} <= CacheKeys(cache)
  {
  }

  lemma NotCached(calls: seq<Call>, cache: Cache, owner: string, id: NamespacedName)
    requires id !in cache
    ensures Justified(calls, cache, owner, id, false)
  {
  }

  // One referenced output: its verdict is written to its state. A failed write leaves the copy failed,
  // but does not change the verdict.
  method CheckOutput(client: Client, owner: string, id: NamespacedName, o: Resource, ghost base: Resource)
    returns (valid: bool, checked: Resource, ghost newBase: Resource, ghost wrote: bool, ghost asked: seq<Call>,
             ghost attempt: Call)
    requires client.Valid() && client.Stored(base) && Agrees(base, id, o)
    modifies client`log, client`store, client`calls
    ensures client.Valid() && client.Continues()
    ensures client.Stored(newBase) && Agrees(newBase, id, checked)
    ensures checked.owner == o.owner && checked.authenticated == o.authenticated
    ensures valid ==> o.owner == owner && (o.authenticated ==> SawSecret(id) in client.calls)
    ensures !valid ==> o.owner != owner || (o.authenticated && MissedSecret(id) in client.calls)
    ensures checked.state == if valid && wrote then Ready else Failed
    ensures wrote ==> client.calls != [] && client.calls[|client.calls| - 1] == Wrote(checked)
    ensures client.calls == old(client.calls) + asked + [attempt] && |asked| == if o.authenticated then 1 else 0
    ensures asked == [] || asked == [SawSecret(id)] || asked == [MissedSecret(id)]
    ensures IsAttempt(attempt, o.(state := if valid then Ready else Failed)) && (wrote <==> attempt.Wrote?)
    ensures client.calm ==> UnchangedBut(old(client.store), client.store, {Key(OutputKind, id)})
  {
    hide Client.Valid;
    hide Client.Stored;
    valid, asked := o.owner == owner, [];
    if o.authenticated {
      ghost var calls := client.calls;
      var found := client.QuerySecret(id);
      asked := [if found then SawSecret(id) else MissedSecret(id)];
      assert client.calls[|calls|] == asked[0];
      if !found {
        valid := false;
      }
    }
    ghost var calls := client.calls;
    var verdict := o.(state := if valid then Ready else Failed);
    var ok, stored := client.UpdateStatus(verdict, base);
    assert calls <= client.calls;
    wrote, attempt := ok, if ok then Wrote(stored) else Refused(verdict);
    if ok {
      checked, newBase := stored, stored;
    } else {
      checked, newBase := o.(state := Failed), base;
    }
  }

  // One reference, which need not be cached.
  method CheckReference(client: Client, owner: string, id: NamespacedName, outputMap: Cache, ghost original: Cache,
                        ghost bases: Cache)
    returns (valid: bool, cache: Cache, ghost newBases: Cache)
    requires client.Valid() && AllStored(client, bases) && AllAgree(bases, outputMap)
             && SameOutputs(original, outputMap)
    modifies client`log, client`store, client`calls
    ensures client.Valid() && client.Continues()
    ensures AllStored(client, newBases) && AllAgree(newBases, cache) && SameOutputs(original, cache)
    ensures Justified(client.calls, original, owner, id, valid)
    ensures OwnersKept(old(client.calls), client.calls, original)
    ensures client.calm ==> UnchangedBut(old(client.store), client.store, CacheKeys(original))
  {
    hide AllAgree, Agrees, SameOutputs, Justified, UnchangedBut, CacheKeys, OwnersKept, IsAttempt;
    valid, cache, newBases := false, outputMap, bases;
    SameKeys(original, outputMap, bases);
    NothingWritten(client.calls, original);
    UnchangedAtAll(client.store, CacheKeys(original));
    if id in outputMap {
      AgreesAt(bases, outputMap, id);
      ghost var calls, store := client.calls, client.store;
      var checked;
      ghost var base, wrote, asked, attempt;
      valid, checked, base, wrote, asked, attempt := CheckOutput(client, owner, id, outputMap[id], bases[id]);
      WritesTogether(calls, calls, asked, attempt, original, outputMap, id);
      SameAgain(client.calls, original, outputMap, owner, id, valid);
      CacheStep(bases, outputMap, id, base, checked);
      SameThrough(original, outputMap, outputMap[id := checked]);
      if client.calm {
        CachedKey(original, id);
        UnchangedThrough(store, store, client.store, CacheKeys(original), {Key(OutputKind, id)}, CacheKeys(original));
      }
      cache, newBases := outputMap[id := checked], bases[id := base];
    } else {
      NotCached(client.calls, original, owner, id);
    }
  }

  method ValidateSubscriptionReferencedOutputsWithCache(client: Client, subscription: Resource, outputMap: Cache,
                                                        ghost bases: Cache)
    returns (validOutputs: seq<NamespacedName>, invalidOutputs: seq<NamespacedName>, cache: Cache,
             ghost verdicts: seq<bool>, ghost newBases: Cache)
    requires client.Valid() && AllStored(client, bases) && AllAgree(bases, outputMap)
    modifies client`log, client`store, client`calls
    ensures client.Valid() && client.Continues()
    ensures AllStored(client, newBases) && AllAgree(newBases, cache) && SameOutputs(outputMap, cache)
    ensures AllJustified(client.calls, outputMap, subscription.owner, subscription.specOutputs, verdicts)
    ensures validOutputs == Keep(subscription.specOutputs, verdicts, true)
    ensures invalidOutputs == Keep(subscription.specOutputs, verdicts, false)
    ensures OwnersKept(old(client.calls), client.calls, outputMap)
    ensures client.calm ==> UnchangedBut(old(client.store), client.store, CacheKeys(outputMap))
  {
    hide AllAgree, Agrees, SameOutputs, Justified, Keep, AllJustified, UnchangedBut, CacheKeys, OwnersKept;
    var outputs := subscription.specOutputs;
    validOutputs, invalidOutputs, cache, verdicts, newBases := [], [], outputMap, [], bases;
    NothingYet(client.calls, outputMap, subscription.owner, outputs);
    ghost var start := client.store;
    NothingWritten(client.calls, outputMap);
    UnchangedAtAll(start, CacheKeys(outputMap));
    for i := 0 to |outputs|
      invariant client.Valid() && client.Continues()
      invariant AllStored(client, newBases) && AllAgree(newBases, cache) && SameOutputs(outputMap, cache)
      invariant |verdicts| == i && AllJustified(client.calls, outputMap, subscription.owner, outputs[..i], verdicts)
      invariant validOutputs == Keep(outputs[..i], verdicts, true)
      invariant invalidOutputs == Keep(outputs[..i], verdicts, false)
      invariant OwnersKept(old(client.calls), client.calls, outputMap)
      invariant client.calm ==> UnchangedBut(start, client.store, CacheKeys(outputMap))
    {
      var id := outputs[i];
      ghost var calls, between := client.calls, client.store;
      var valid;
      valid, cache, newBases := CheckReference(client, subscription.owner, id, cache, outputMap, newBases);
      OwnersKeptThrough(old(client.calls), calls, client.calls, outputMap);
      if client.calm {
        UnchangedThrough(start, between, client.store, CacheKeys(outputMap), CacheKeys(outputMap),
                         CacheKeys(outputMap));
      }
      KeepStep(outputs, verdicts, i, valid);
      JustifiedStep(calls, client.calls, outputMap, subscription.owner, outputs, i, verdicts, valid);
      if valid {
        validOutputs := validOutputs + [id];
      } else {
        invalidOutputs := invalidOutputs + [id];
      }
      verdicts := verdicts + [valid];
    }
    assert outputs[..|outputs|] == outputs;
  }

  // ---------------------------------------------------------------------------
  // All subscriptions of a tenant

  // A subscription is ready if none of its outputs was rejected, and its status lists the valid ones in order.
  function WithVerdicts(subscription: Resource, verdicts: seq<bool>): Resource
    requires |verdicts| == |subscription.specOutputs|
  {
    subscription.(state := if Keep(subscription.specOutputs, verdicts, false) == [] then Ready else Failed,
                  statusOutputs := SortNames(Keep(subscription.specOutputs, verdicts, true)))
  }

  // The resource is the subscription as the verdicts on its outputs make it.
  ghost predicate IsJudgement(calls: seq<Call>, cache: Cache, subscription: Resource, judged: Resource) {
    exists verdicts ::
      AllJustified(calls, cache, subscription.owner, subscription.specOutputs, verdicts)
      && judged == WithVerdicts(subscription, verdicts).(version := judged.version)
  }

  ghost predicate Judged(calls: seq<Call>, cache: Cache, subscription: Resource, written: Resource) {
    Wrote(written) in calls && IsJudgement(calls, cache, subscription, written)
  }

  ghost predicate AllJudged(calls: seq<Call>, cache: Cache, subscriptions: seq<Resource>, written: seq<Resource>) {
    && |written| == |subscriptions|
    && forall i | 0 <= i < |written| :: Judged(calls, cache, subscriptions[i], written[i])
  }

  lemma JudgedLater(calls: seq<Call>, more: seq<Call>, cache: Cache, subscription: Resource, written: Resource)
    requires Judged(calls, cache, subscription, written) && calls <= more
    ensures Judged(more, cache, subscription, written)
  {
    var verdicts :| AllJustified(calls, cache, subscription.owner, subscription.specOutputs, verdicts)
                    && written == WithVerdicts(subscription, verdicts).(version := written.version);
    JustifiedLater(calls, more, cache, subscription.owner, subscription.specOutputs, verdicts);
  }

  lemma JustifiedLater(calls: seq<Call>, more: seq<Call>, cache: Cache, owner: string, outputs: seq<NamespacedName>,
                       verdicts: seq<bool>)
    requires AllJustified(calls, cache, owner, outputs, verdicts) && calls <= more
    ensures AllJustified(more, cache, owner, outputs, verdicts)
  {
    forall i | 0 <= i < |outputs|
      ensures Justified(more, cache, owner, outputs[i], verdicts[i])
    {
      assert Justified(calls, cache, owner, outputs[i], verdicts[i]);
    }
  }

  lemma AllJudgedStep(calls: seq<Call>, more: seq<Call>, cache: Cache, subscriptions: seq<Resource>, n: nat,
                      written: seq<Resource>, w: Resource)
    requires calls <= more && n < |subscriptions| && AllJudged(calls, cache, subscriptions[..n], written)
    requires Judged(more, cache, subscriptions[n], w)
    ensures AllJudged(more, cache, subscriptions[..n + 1], written + [w])
  {
    forall i | 0 <= i < n + 1
      ensures Judged(more, cache, subscriptions[..n + 1][i], (written + [w])[i])
    {
      if i < n {
        assert Judged(calls, cache, subscriptions[..n][i], written[i]);
        JudgedLater(calls, more, cache, subscriptions[i], written[i]);
      }
    }
  }

  // Whether ready or failed, the status lists every output that was not rejected, sorted, and no other. A ready
  // subscription lists all the outputs it asks for, a failed one has one that was rejected.
  lemma ReadyMeansAllOutputs(calls: seq<Call>, cache: Cache, subscription: Resource, judged: Resource)
    requires IsJudgement(calls, cache, subscription, judged)
    ensures judged == subscription.(state := judged.state, statusOutputs := judged.statusOutputs,
                                    version := judged.version)
    ensures judged.state.Ready? || judged.state.Failed?
    ensures Sorted(StringKey(), judged.statusOutputs)
            && multiset(judged.statusOutputs) <= multiset(judged.specOutputs)
    ensures forall o | o in judged.statusOutputs :: o in judged.specOutputs && Reaches(cache, judged.owner, o)
    ensures forall o | o in judged.specOutputs && !Rejects(calls, cache, judged.owner, o) :: o in judged.statusOutputs
    ensures judged.state.Ready? ==> judged.statusOutputs == SortNames(judged.specOutputs)
    ensures judged.state.Failed? ==> exists o :: o in judged.specOutputs && Rejects(calls, cache, judged.owner, o)
  {
    hide Justified, Rejects, Keep, Reaches, SortNames, Sorted;
    var outputs := subscription.specOutputs;
    var verdicts :| AllJustified(calls, cache, subscription.owner, outputs, verdicts)
                    && judged == WithVerdicts(subscription, verdicts).(version := judged.version);
    var kept := Keep(outputs, verdicts, true);
    SortNamesKeeps(kept);
    SortedNames(kept);
    KeepsAtMost(outputs, verdicts, true);
    AcceptedOutputs(calls, cache, subscription.owner, outputs, verdicts);
    if Keep(outputs, verdicts, false) == [] {
      NothingRejected(outputs, verdicts);
    } else {
      RejectedOutput(calls, cache, subscription.owner, outputs, verdicts);
    }
  }

  lemma SortedNames(names: seq<NamespacedName>)
    ensures Sorted(StringKey(), SortNames(names)) && multiset(SortNames(names)) == multiset(names)
  {
    SortSorts(StringKey(), names);
  }

  lemma {:induction false} KeepsAtMost(outputs: seq<NamespacedName>, verdicts: seq<bool>, verdict: bool)
    requires |verdicts| == |outputs|
    ensures multiset(Keep(outputs, verdicts, verdict)) <= multiset(outputs)
  {
    if outputs != [] {
      var n := |outputs| - 1;
      KeepsAtMost(outputs[..n], verdicts[..n], verdict);
      assert outputs == outputs[..n] + [outputs[n]];
    }
  }

  lemma AcceptedOutputs(calls: seq<Call>, cache: Cache, owner: string, outputs: seq<NamespacedName>,
                        verdicts: seq<bool>)
    requires AllJustified(calls, cache, owner, outputs, verdicts)
    ensures forall o | o in Keep(outputs, verdicts, true) :: o in outputs && Reaches(cache, owner, o)
    ensures forall o | o in outputs && !Rejects(calls, cache, owner, o) :: o in Keep(outputs, verdicts, true)
  {
    KeptAre(outputs, verdicts, true);
    forall o | o in Keep(outputs, verdicts, true)
      ensures o in outputs && Reaches(cache, owner, o)
    {
      var i :| 0 <= i < |outputs| && outputs[i] == o && verdicts[i] == true;
      assert Justified(calls, cache, owner, outputs[i], verdicts[i]);
    }
    forall o | o in outputs && !Rejects(calls, cache, owner, o)
      ensures o in Keep(outputs, verdicts, true)
    {
      var i :| 0 <= i < |outputs| && outputs[i] == o;
      assert Justified(calls, cache, owner, outputs[i], verdicts[i]);
      KeptIfVerdict(outputs, verdicts, true, i);
    }
  }

  lemma {:induction false} KeptIfVerdict(outputs: seq<NamespacedName>, verdicts: seq<bool>, verdict: bool, i: nat)
    requires |verdicts| == |outputs| && i < |outputs| && verdicts[i] == verdict
    ensures outputs[i] in Keep(outputs, verdicts, verdict)
  {
    var n := |outputs| - 1;
    if i < n {
      KeptIfVerdict(outputs[..n], verdicts[..n], verdict, i);
    }
  }

  lemma RejectedOutput(calls: seq<Call>, cache: Cache, owner: string, outputs: seq<NamespacedName>, verdicts: seq<bool>)
    requires AllJustified(calls, cache, owner, outputs, verdicts) && Keep(outputs, verdicts, false) != []
    ensures exists o :: o in outputs && Rejects(calls, cache, owner, o)
  {
    KeptAre(outputs, verdicts, false);
    var o := Keep(outputs, verdicts, false)[0];
    assert o in Keep(outputs, verdicts, false);
    var i :| 0 <= i < |outputs| && outputs[i] == o && verdicts[i] == false;
    assert Justified(calls, cache, owner, outputs[i], verdicts[i]);
  }

  lemma {:induction false} KeptAre(outputs: seq<NamespacedName>, verdicts: seq<bool>, verdict: bool)
    requires |verdicts| == |outputs|
    ensures forall o | o in Keep(outputs, verdicts, verdict) ::
              exists i :: 0 <= i < |outputs| && outputs[i] == o && verdicts[i] == verdict
  {
    if outputs != [] {
      var n := |outputs| - 1;
      KeptAre(outputs[..n], verdicts[..n], verdict);
      forall o | o in Keep(outputs, verdicts, verdict)
        ensures exists i :: 0 <= i < |outputs| && outputs[i] == o && verdicts[i] == verdict
      {
        if o in Keep(outputs[..n], verdicts[..n], verdict) {
          var i :| 0 <= i < n && outputs[..n][i] == o && verdicts[..n][i] == verdict;
          assert outputs[i] == o && verdicts[i] == verdict;
        } else {
          assert outputs[n] == o && verdicts[n] == verdict;
        }
      }
    }
  }

  function ByName(outputs: seq<Resource>): Cache {
    if outputs == [] then map[]
    else ByName(outputs[..|outputs| - 1])[outputs[|outputs| - 1].key.id := outputs[|outputs| - 1]]
  }

  lemma {:induction false} ByNameHolds(outputs: seq<Resource>)
    ensures forall id | id in ByName(outputs) :: ByName(outputs)[id] in outputs && ByName(outputs)[id].key.id == id
    ensures forall x | x in outputs :: x.key.id in ByName(outputs)
  {
    if outputs != [] {
      var n := |outputs| - 1;
      assert outputs == outputs[..n] + [outputs[n]];
      ByNameHolds(outputs[..n]);
    }
  }

  lemma TenantsCache(client: Client, outputs: seq<Resource>)
    requires client.tenant != "" && Known(client, outputs)
    requires AllOwnedBy(client.tenant, outputs) && AllOfKind(OutputKind, outputs)
    ensures AllStored(client, ByName(outputs)) && AllAgree(ByName(outputs), ByName(outputs))
    ensures forall id | id in ByName(outputs) :: ByName(outputs)[id].owner == client.tenant
  {
    ByNameHolds(outputs);
  }

  lemma EmptyCache(outputs: seq<Resource>, subscriptions: seq<Resource>, calls: seq<Call>)
    ensures forall cache :: AllJudged(calls, cache, subscriptions[..0], [])
  {
  }

  lemma ByNameStep(outputs: seq<Resource>, n: nat)
    requires n < |outputs|
    ensures ByName(outputs[..n + 1]) == ByName(outputs[..n])[outputs[n].key.id := outputs[n]]
  {
    assert outputs[..n + 1][..n] == outputs[..n];
  }

  lemma SameAsItself(cache: Cache)
    ensures SameOutputs(cache, cache)
  {
  }

  lemma OriginallyJustified(calls: seq<Call>, original: Cache, cache: Cache, owner: string,
                            outputs: seq<NamespacedName>, verdicts: seq<bool>)
    requires SameOutputs(original, cache) && AllJustified(calls, cache, owner, outputs, verdicts)
    ensures AllJustified(calls, original, owner, outputs, verdicts)
  {
    forall i | 0 <= i < |outputs|
      ensures Justified(calls, original, owner, outputs[i], verdicts[i])
    {
      assert Justified(calls, cache, owner, outputs[i], verdicts[i]);
    }
  }

  lemma NowJudged(calls: seq<Call>, more: seq<Call>, cache: Cache, subscription: Resource, verdicts: seq<bool>,
                  written: Resource)
    requires AllJustified(calls, cache, subscription.owner, subscription.specOutputs, verdicts)
    requires calls <= more && Wrote(written) in more
    requires written == WithVerdicts(subscription, verdicts).(version := written.version)
    ensures Judged(more, cache, subscription, written)
  {
    JustifiedLater(calls, more, cache, subscription.owner, subscription.specOutputs, verdicts);
  }

  lemma StatusKeepsOwners(before: Store, after: Store, written: Resource, ok: bool)
    requires ok ==> written.key in before && before[written.key].owner == written.owner
    requires after == if ok then before[written.key := written] else before
    ensures UnchangedBut(before, after, {written.key})
  {
  }

  lemma NothingMissing(calls: seq<Call>, cache: Cache, subscription: Resource, verdicts: seq<bool>)
    requires AllJustified(calls, cache, subscription.owner, subscription.specOutputs, verdicts)
    ensures |verdicts| == |subscription.specOutputs|
  {
  }

  lemma SameCacheKeys(outputs: seq<Resource>, original: Cache, cache: Cache)
    requires AllOfKind(OutputKind, outputs) && original == ByName(outputs) && SameOutputs(original, cache)
    ensures CacheKeys(cache) <= KeysOf(outputs)
  {
    ByNameHolds(outputs);
    forall id | id in cache
      ensures Key(OutputKind, id) in KeysOf(outputs)
    {
      assert original[id] in outputs;
    }
  }

  lemma KeyAmong(items: seq<Resource>, x: Resource)
    requires x in items
    ensures x.key in KeysOf(items)
  {
  }

  // The status of a subscription was judged, and the last write, which is this one, was refused.
  ghost predicate JudgedInVain(calls: seq<Call>, cache: Cache, subscription: Resource) {
    && calls != [] && calls[|calls| - 1].Refused? && calls[|calls| - 1].res.version == subscription.version
    && IsJudgement(calls, cache, subscription, calls[|calls| - 1].res)
  }

  // The run rejects one of its own outputs only for the lack of a secret; the owner cannot be the reason.
  ghost predicate MissesOutput(calls: seq<Call>, outputs: seq<Resource>, o: NamespacedName) {
    || Key(OutputKind, o) !in KeysOf(outputs)
    || (MissedSecret(o) in calls && exists x :: x in outputs && x.key.id == o && x.authenticated)
  }

  // What the tenant's run writes of one of its subscriptions: the outputs that it does not miss, sorted.
  ghost predicate IsVerdict(calls: seq<Call>, outputs: seq<Resource>, subscription: Resource, written: Resource) {
    && written == subscription.(state := written.state, statusOutputs := written.statusOutputs,
                                version := written.version)
    && (written.state.Ready? || written.state.Failed?)
    && Sorted(StringKey(), written.statusOutputs)
    && multiset(written.statusOutputs) <= multiset(subscription.specOutputs)
    && (forall o | o in written.statusOutputs :: Key(OutputKind, o) in KeysOf(outputs))
    && (forall o | o in subscription.specOutputs && !MissesOutput(calls, outputs, o) :: o in written.statusOutputs)
    && (written.state.Ready? ==> written.statusOutputs == SortNames(subscription.specOutputs))
    && (written.state.Failed? ==> exists o :: o in subscription.specOutputs && MissesOutput(calls, outputs, o))
  }

  ghost predicate WroteInVain(calls: seq<Call>, outputs: seq<Resource>, subscription: Resource) {
    && calls != [] && calls[|calls| - 1].Refused? && calls[|calls| - 1].res.version == subscription.version
    && IsVerdict(calls, outputs, subscription, calls[|calls| - 1].res)
  }

  lemma WhyFailed(calls: seq<Call>, outputs: seq<Resource>, subscription: Resource, judged: Resource)
    requires IsJudgement(calls, ByName(outputs), subscription, judged)
    requires AllOwnedBy(subscription.owner, outputs) && AllOfKind(OutputKind, outputs)
    ensures IsVerdict(calls, outputs, subscription, judged)
  {
    hide IsJudgement, ByName, Sorted, SortNames, MissesOutput, Rejects;
    ReadyMeansAllOutputs(calls, ByName(outputs), subscription, judged);
    forall o
      ensures Rejects(calls, ByName(outputs), subscription.owner, o) ==> MissesOutput(calls, outputs, o)
      ensures Reaches(ByName(outputs), subscription.owner, o) ==> Key(OutputKind, o) in KeysOf(outputs)
    {
      RejectedIsMissed(calls, outputs, subscription.owner, o);
    }
  }

  lemma RejectedIsMissed(calls: seq<Call>, outputs: seq<Resource>, owner: string, o: NamespacedName)
    requires AllOwnedBy(owner, outputs) && AllOfKind(OutputKind, outputs)
    ensures Reaches(ByName(outputs), owner, o) <==> Key(OutputKind, o) in KeysOf(outputs)
    ensures Rejects(calls, ByName(outputs), owner, o) ==> MissesOutput(calls, outputs, o)
  {
    hide ByName;
    ByNameHolds(outputs);
    if Key(OutputKind, o) in KeysOf(outputs) {
      var x :| x in outputs && x.key == Key(OutputKind, o);
      assert x.key.id in ByName(outputs);
    }
  }

  // Every subscription's status is written, whether or not it changed: the comparison that should prevent this
  // compares a pointer with a value. The first write that is refused ends the step.
  method ValidateSubscriptionOutputs(client: Client, subscriptions: seq<Resource>, outputs: seq<Resource>)
    returns (err: Option<Failure>, written: seq<Resource>)
    requires client.Valid()
    requires Known(client, outputs) && AllOwnedBy(client.tenant, outputs) && AllOfKind(OutputKind, outputs)
    requires Known(client, subscriptions) && AllOwnedBy(client.tenant, subscriptions)
    modifies client`log, client`store, client`calls
    ensures client.Valid() && client.Continues()
    ensures |written| <= |subscriptions|
    ensures AllJudged(client.calls, ByName(outputs), subscriptions[..|written|], written)
    ensures forall i | 0 <= i < |written| ::
              Wrote(written[i]) in client.calls && IsVerdict(client.calls, outputs, subscriptions[i], written[i])
    ensures err.None? <==> |written| == |subscriptions|
    ensures err.Some? ==> err.value == SubscriptionNotWritten(subscriptions[|written|].key.id)
                          && WroteInVain(client.calls, outputs, subscriptions[|written|])
    ensures OwnerKept(old(client.calls), client.calls, client.tenant)
    ensures client.calm ==>
              UnchangedBut(old(client.store), client.store, KeysOf(outputs) + KeysOf(subscriptions))
  {
    hide AllAgree, SameOutputs, AllJustified, Keep, Judged, AllJudged, ByName, UnchangedBut, CacheKeys, KeysOf,
         OwnerKept, JudgedInVain, MissesOutput, IsVerdict;
    var outputMap := CacheOutputs(outputs);
    TenantsCache(client, outputs);
    ghost var original, bases := outputMap, outputMap;
    SameAsItself(outputMap);
    EmptyCache(outputs, subscriptions, client.calls);
    written := [];
    ghost var start, keys := client.store, KeysOf(outputs) + KeysOf(subscriptions);
    UnchangedAtAll(start, keys);
    NoneWritten(client.calls, client.tenant);
    for i := 0 to |subscriptions|
      invariant client.Valid() && client.Continues() && Known(client, subscriptions)
      invariant AllStored(client, bases) && AllAgree(bases, outputMap) && SameOutputs(original, outputMap)
      invariant |written| == i && AllJudged(client.calls, original, subscriptions[..i], written)
      invariant OwnerKept(old(client.calls), client.calls, client.tenant)
      invariant client.calm ==> UnchangedBut(start, client.store, keys)
    {
      var subscription := subscriptions[i];
      ghost var calls, between := client.calls, client.store;
      SameCacheKeys(outputs, original, outputMap);
      KeyAmong(subscriptions, subscription);
      ghost var changed := CacheKeys(outputMap) + {subscription.key};
      var ok, w;
      ok, w, outputMap, bases := ValidateSubscription(client, subscription, outputMap, original, bases);
      OwnerKeptThrough(old(client.calls), calls, client.calls, client.tenant);
      if client.calm {
        UnchangedThrough(start, between, client.store, keys, changed, keys);
      }
      if !ok {
        AllJudgedLater(calls, client.calls, original, subscriptions[..i], written);
        AllVerdicts(client.calls, outputs, subscriptions[..i], written, client.tenant);
        VainVerdict(client.calls, outputs, subscription, client.tenant);
        return Some(SubscriptionNotWritten(subscription.key.id)), written;
      }
      AllJudgedStep(calls, client.calls, original, subscriptions, i, written, w);
      written := written + [w];
    }
    assert subscriptions[..|subscriptions|] == subscriptions;
    AllVerdicts(client.calls, outputs, subscriptions, written, client.tenant);
    err := None;
  }

  lemma NoneWritten(calls: seq<Call>, owner: string)
    ensures OwnerKept(calls, calls, owner)
  {
  }

  lemma AllJudgedLater(calls: seq<Call>, more: seq<Call>, cache: Cache, subscriptions: seq<Resource>,
                       written: seq<Resource>)
    requires AllJudged(calls, cache, subscriptions, written) && calls <= more
    ensures AllJudged(more, cache, subscriptions, written)
  {
    forall i | 0 <= i < |written|
      ensures Judged(more, cache, subscriptions[i], written[i])
    {
      JudgedLater(calls, more, cache, subscriptions[i], written[i]);
    }
  }

  lemma AllVerdicts(calls: seq<Call>, outputs: seq<Resource>, subscriptions: seq<Resource>, written: seq<Resource>,
                    owner: string)
    requires AllJudged(calls, ByName(outputs), subscriptions, written) && AllOwnedBy(owner, subscriptions)
    requires AllOwnedBy(owner, outputs) && AllOfKind(OutputKind, outputs)
    ensures forall i | 0 <= i < |written| ::
              Wrote(written[i]) in calls && IsVerdict(calls, outputs, subscriptions[i], written[i])
  {
    hide IsJudgement, IsVerdict, ByName;
    forall i | 0 <= i < |written|
      ensures Wrote(written[i]) in calls && IsVerdict(calls, outputs, subscriptions[i], written[i])
    {
      assert subscriptions[i] in subscriptions && Judged(calls, ByName(outputs), subscriptions[i], written[i]);
      WhyFailed(calls, outputs, subscriptions[i], written[i]);
    }
  }

  lemma VainVerdict(calls: seq<Call>, outputs: seq<Resource>, subscription: Resource, owner: string)
    requires JudgedInVain(calls, ByName(outputs), subscription) && subscription.owner == owner
    requires AllOwnedBy(owner, outputs) && AllOfKind(OutputKind, outputs)
    ensures WroteInVain(calls, outputs, subscription)
  {
    hide IsJudgement, IsVerdict, ByName;
    WhyFailed(calls, outputs, subscription, calls[|calls| - 1].res);
  }

  method CacheOutputs(outputs: seq<Resource>) returns (outputMap: Cache)
    ensures outputMap == ByName(outputs)
  {
    outputMap := map[];
    for i := 0 to |outputs|
      invariant outputMap == ByName(outputs[..i])
    {
      ByNameStep(outputs, i);
      outputMap := outputMap[outputs[i].key.id := outputs[i]];
    }
    assert outputs[..|outputs|] == outputs;
  }

  method ValidateSubscription(client: Client, subscription: Resource, outputMap: Cache, ghost original: Cache,
                              ghost bases: Cache)
    returns (ok: bool, written: Resource, cache: Cache, ghost newBases: Cache)
    requires client.Valid() && client.Stored(subscription) && subscription.owner == client.tenant
    requires AllStored(client, bases) && AllAgree(bases, outputMap) && SameOutputs(original, outputMap)
    requires forall id | id in original :: original[id].owner == client.tenant
    modifies client`log, client`store, client`calls
    ensures client.Valid() && client.Continues()
    ensures AllStored(client, newBases) && AllAgree(newBases, cache) && SameOutputs(original, cache)
    ensures ok ==> Judged(client.calls, original, subscription, written)
    ensures !ok ==> JudgedInVain(client.calls, original, subscription)
    ensures OwnerKept(old(client.calls), client.calls, client.tenant)
    ensures client.calm ==>
              UnchangedBut(old(client.store), client.store, CacheKeys(outputMap) + {subscription.key})
  {
    hide Client.Valid;
    hide Client.Stored;
    hide AllAgree, SameOutputs, AllJustified, Keep, Judged, UnchangedBut, CacheKeys, OwnersKept, OwnerKept,
         JudgedInVain;
    var validOutputs, invalidOutputs;
    ghost var verdicts;
    validOutputs, invalidOutputs, cache, verdicts, newBases :=
      ValidateSubscriptionReferencedOutputsWithCache(client, subscription, outputMap, bases);
    SameThrough(original, outputMap, cache);
    OriginallyJustified(client.calls, original, outputMap, subscription.owner, subscription.specOutputs, verdicts);
    NothingMissing(client.calls, original, subscription, verdicts);
    CachedOwnerKept(old(client.calls), client.calls, original, outputMap, client.tenant);
    ghost var calls, between := client.calls, client.store;
    var judged := subscription.(state := if invalidOutputs == [] then Ready else Failed,
                                statusOutputs := SortNames(validOutputs));
    ok, written := client.UpdateStatus(judged, subscription);
    ghost var attempt := if ok then Wrote(written) else Refused(judged);
    OneMoreWrite(calls, attempt, client.tenant);
    OwnerKeptThrough(old(client.calls), calls, client.calls, client.tenant);
    if ok {
      assert client.calls[|calls|] == Wrote(written);
      NowJudged(calls, client.calls, original, subscription, verdicts, written);
    } else {
      NowInVain(calls, original, subscription, verdicts);
    }
    if client.calm {
      StatusKeepsOwners(between, client.store, written, ok);
      UnchangedThrough(old(client.store), between, client.store, CacheKeys(outputMap), {subscription.key},
                       CacheKeys(outputMap) + {subscription.key});
    }
  }

  lemma OneMoreWrite(calls: seq<Call>, attempt: Call, owner: string)
    requires IsWrite(attempt) && attempt.res.owner == owner
    ensures OwnerKept(calls, calls + [attempt], owner)
  {
  }

  lemma NowInVain(calls: seq<Call>, cache: Cache, subscription: Resource, verdicts: seq<bool>)
    requires AllJustified(calls, cache, subscription.owner, subscription.specOutputs, verdicts)
    ensures JudgedInVain(calls + [Refused(WithVerdicts(subscription, verdicts))], cache, subscription)
  {
    var more := calls + [Refused(WithVerdicts(subscription, verdicts))];
    JustifiedLater(calls, more, cache, subscription.owner, subscription.specOutputs, verdicts);
    assert more[|more| - 1].res == WithVerdicts(subscription, verdicts);
  }
}
