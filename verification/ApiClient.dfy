/** The API server as one run of a tenant's reconciler meets it: reads may be stale, other runs write in
    between, a status write needs a current version and may fail all the same. */
module ApiClient {
  import opened Names
  import opened Api
  import opened Ownership

  datatype ListError = NotFound | Unavailable

  // Label selectors are opaque.
  datatype Selector = Selector(labels: string)

  // Why a step of a run failed. Problems in a status name these instead of quoting error messages.
  datatype Failure =
    | NamespacesUnavailable(error: ListError)
    | ResourcesUnavailable(kind: Kind, error: ListError)
    | ResourceFailed(key: Key)
    | SubscriptionNotWritten(id: NamespacedName)
    | BridgesUnavailable(error: ListError)
    | TenantsUnavailable(bridge: string, error: ListError)
    | DanglingReference(bridge: string, tenant: string)
    | BridgeNotWritten(bridge: string)

  datatype TenantStatus = TenantStatus(
    logSourceNamespaces: Slice<string>,
    subscriptions: Slice<NamespacedName>,
    connectedBridges: Slice<string>,
    state: State,
    problems: Slice<Failure>)

  datatype BridgeStatus = BridgeStatus(state: State, problems: Slice<Failure>)

  datatype StoredBridge = StoredBridge(bridge: Bridge, status: BridgeStatus)

  // What this run saw, what it wrote, and which of its reads and writes failed. A list that is not found counts as
  // an empty one.
  datatype Call =
    | Saw(res: Resource)
    | Wrote(res: Resource)
    | Refused(res: Resource)
    | SawNamespaces(selector: Selector, names: seq<string>)
    | SawSecret(output: NamespacedName)
    | MissedSecret(output: NamespacedName)
    | SawBridges(tenant: string, atSource: bool, bridges: seq<StoredBridge>)
    | WroteBridge(stored: StoredBridge)
    | RefusedBridge(stored: StoredBridge)
    | AskedTenant(name: string, answer: Result<bool, ListError>)
    | ReadFailed

  predicate NoDupKeys(items: seq<Resource>) {
    forall i, j | 0 <= i < j < |items| :: items[i].key != items[j].key
  }

  // What a list request asks for: a kind, in one namespace or in all, of one owner or of any.
  predicate Selected(kind: Kind, namespace: Option<string>, owner: Option<string>, r: Resource) {
    && r.key.kind == kind
    && (namespace.Some? ==> r.key.id.namespace == namespace.value)
    && (owner.Some? ==> r.owner == owner.value)
  }

  predicate SameSpec(a: Resource, b: Resource) {
    a.key == b.key && a.specOutputs == b.specOutputs && a.authenticated == b.authenticated
  }

  function Seen(items: seq<Resource>): seq<Call> {
    seq(|items|, i requires 0 <= i < |items| => Saw(items[i]))
  }

  // A read failed since then.
  predicate ReadFailedSince(calls: seq<Call>, more: seq<Call>) {
    calls <= more && ReadFailed in more[|calls|..]
  }

  lemma FailedSince(calls: seq<Call>, more: seq<Call>, most: seq<Call>)
    requires calls <= more
    ensures ReadFailedSince(more, most) ==> ReadFailedSince(calls, most)
    ensures most == more + [ReadFailed] ==> ReadFailedSince(more, most)
  {
    if ReadFailedSince(more, most) {
      assert most[|calls|..] == more[|calls|..] + most[|more|..];
    }
    if most == more + [ReadFailed] {
      assert most[|more|..] == [ReadFailed];
    }
  }

  // The history ends with this write, and the version it was made from was the current one.
  ghost predicate Accepted(init: Store, log: seq<Event>, tenant: string, res: Resource) {
    && log != [] && log[|log| - 1] == StatusWritten(tenant, res)
    && var before := StoreAt(init, log, |log| - 1);
       res.key in before && before[res.key].version == res.version
  }

  class Client {
    const tenant: string
    // In a calm cluster reads are current, writes of current copies succeed and nobody else writes.
    const calm: bool
    const matches: map<Selector, set<string>>
    const init: Store
    var log: seq<Event>
    var store: Store
    var calls: seq<Call>
    // The statuses that were tried to be written for the tenant itself, and those that were.
    var tried: seq<TenantStatus>
    var written: seq<TenantStatus>

    ghost predicate Valid()
      reads this
    {
      && tenant != ""
      && LegalLog(init, log)
      && store == StoreAt(init, log, |log|)
    }

    ghost predicate Stored(r: Resource)
      reads this
    {
      WasStored(init, log, r)
    }

    // The history only grows, so what was stored at some time remains so.
    twostate predicate Continues()
      reads this
    {
      && old(log) <= log
      && old(calls) <= calls
      && forall r :: old(Stored(r)) ==> Stored(r)
    }

    // A run starts at some moment of the history.
    constructor (tenant: string, calm: bool, matches: map<Selector, set<string>>, init: Store, log: seq<Event>)
      requires tenant != "" && LegalLog(init, log)
      ensures Valid() && calls == [] && tried == [] && written == []
      ensures this.tenant == tenant && this.calm == calm && this.matches == matches
      ensures this.init == init && this.log == log
    {
      this.tenant, this.calm, this.matches, this.init := tenant, calm, matches, init;
      this.log, this.store, this.calls, this.tried, this.written := log, StoreAt(init, log, |log|), [], [], [];
    }

    // Other runs and users act.
    method Interfere()
      requires Valid()
      modifies `log, `store
      ensures Valid() && Continues()
      ensures calm ==> store == old(store) && log == old(log)
    {
      if !calm {
        var later: seq<Event> :| log <= later && LegalLog(init, later);
        WasStoredLater(init, log, later);
        log := later;
        store := StoreAt(init, log, |log|);
      }
    }

    lemma StoreIsKeyed()
      requires Valid()
      ensures tenant != ""
      ensures forall k | k in store :: store[k].key == k && Stored(store[k])
    {
      forall k | k in store
        ensures store[k].key == k && Stored(store[k])
      {
        VersionsAreOld(init, log, |log|, k);
      }
    }

    method Current(keys: set<Key>) returns (items: seq<Resource>)
      requires Valid() && keys <= store.Keys
      ensures NoDupKeys(items)
      ensures forall x | x in items :: x.key in keys && store[x.key] == x
      ensures forall k | k in keys :: store[k] in items
    {
      StoreIsKeyed();
      items := [];
      var remaining := keys;
      while remaining != {}
        invariant remaining <= keys
        invariant NoDupKeys(items)
        invariant forall x | x in items :: x.key in keys && x.key !in remaining && store[x.key] == x
        invariant forall k | k in keys && k !in remaining :: store[k] in items
      {
        var k :| k in remaining;
        items := items + [store[k]];
        remaining := remaining - {k};
      }
    }

    // Any mixture of current and outdated copies, each resource at most once.
    method Stale(kind: Kind, namespace: Option<string>, owner: Option<string>) returns (items: seq<Resource>)
      requires Valid()
      ensures NoDupKeys(items)
      ensures forall x | x in items :: Selected(kind, namespace, owner, x) && Stored(x)
    {
      items :| NoDupKeys(items)
               && forall x | x in items :: Selected(kind, namespace, owner, x) && WasStored(init, log, x);
    }

    // The resources of a kind in a namespace, or with an owner.
    method List(kind: Kind, namespace: Option<string>,
                owner: Option<string>) returns (r: Result<seq<Resource>, ListError>)
      requires Valid()
      modifies `log, `store, `calls
      ensures Valid() && Continues()
      ensures r.Ok? ==> NoDupKeys(r.value)
      ensures r.Ok? ==> forall x | x in r.value :: Selected(kind, namespace, owner, x) && Stored(x)
      ensures calls == old(calls) + if r.Ok? then Seen(r.value) else if r.error.Unavailable? then [ReadFailed] else []
      ensures calm ==> r.Ok? && store == old(store)
      ensures calm ==> forall k | k in store && Selected(kind, namespace, owner, store[k]) :: store[k] in r.value
      ensures calm ==> forall x | x in r.value :: x.key in store && store[x.key] == x
    {
      Interfere();
      var fails, missing := false, false;
      if !calm {
        fails, missing := *, *;
      }
      if fails {
        calls := calls + if missing then [] else [ReadFailed];
        return Err(if missing then NotFound else Unavailable);
      }
      var items: seq<Resource>;
      if calm {
        var keys := set k | k in store && Selected(kind, namespace, owner, store[k]);
        items := Current(keys);
        StoreIsKeyed();
      } else {
        items := Stale(kind, namespace, owner);
      }
      calls := calls + Seen(items);
      r := Ok(items);
    }

    // The namespaces a selector matches; the selector may be malformed.
    method ListNamespaces(selector: Selector) returns (r: Result<seq<string>, ListError>)
      requires Valid()
      modifies `log, `store, `calls
      ensures Valid() && Continues()
      ensures calls == old(calls) + [if r.Err? && r.error.Unavailable? then ReadFailed
                                     else SawNamespaces(selector, if r.Ok? then r.value else [])]
      ensures calm ==> store == old(store)
      ensures calm ==> r.Ok? && forall n :: n in r.value <==> selector in matches && n in matches[selector]
    {
      Interfere();
      var names: seq<string> := [];
      if calm {
        var remaining := if selector in matches then matches[selector] else {};
        ghost var all := remaining;
        while remaining != {}
          invariant remaining <= all
          invariant forall n :: n in names <==> n in all && n !in remaining
        {
          var n :| n in remaining;
          names := names + [n];
          remaining := remaining - {n};
        }
      } else {
        var fails, missing: bool := *, *;
        if fails {
          calls := calls + [if missing then SawNamespaces(selector, []) else ReadFailed];
          return Err(if missing then NotFound else Unavailable);
        }
        names := *;
      }
      calls := calls + [SawNamespaces(selector, names)];
      r := Ok(names);
    }

    // Whether the one secret an output refers to can be fetched.
    method QuerySecret(output: NamespacedName) returns (found: bool)
      requires Valid()
      modifies `log, `store, `calls
      ensures Valid() && Continues()
      ensures calls == old(calls) + [if found then SawSecret(output) else MissedSecret(output)]
      ensures calm ==> store == old(store)
    {
      Interfere();
      found := *;
      calls := calls + [if found then SawSecret(output) else MissedSecret(output)];
    }

    // The bridges that start at a tenant, or that end there.
    method ListBridges(tenantName: string, atSource: bool) returns (r: Result<seq<StoredBridge>, ListError>)
      requires Valid()
      modifies `log, `store, `calls
      ensures Valid() && Continues()
      ensures r.Ok? ==> forall b | b in r.value :: tenantName == if atSource then b.bridge.source else b.bridge.target
      ensures calls == old(calls) + [if r.Err? && r.error.Unavailable? then ReadFailed
                                     else SawBridges(tenantName, atSource, if r.Ok? then r.value else [])]
      ensures calm ==> store == old(store)
    {
      Interfere();
      var fails, missing: bool := *, *;
      if fails {
        calls := calls + [if missing then SawBridges(tenantName, atSource, []) else ReadFailed];
        return Err(if missing then NotFound else Unavailable);
      }
      var found: seq<StoredBridge> :| forall b | b in found ::
        tenantName == if atSource then b.bridge.source else b.bridge.target;
      calls := calls + [SawBridges(tenantName, atSource, found)];
      r := Ok(found);
    }

    // Whether a tenant of this name exists.
    method FindTenants(name: string) returns (r: Result<bool, ListError>)
      requires Valid()
      modifies `log, `store, `calls
      ensures Valid() && Continues()
      ensures calls == old(calls) + [AskedTenant(name, r)]
      ensures calm ==> store == old(store)
    {
      Interfere();
      var fails, missing, found: bool := *, *, *;
      r := if !fails then Ok(found) else if missing then Err(NotFound) else Err(Unavailable);
      calls := calls + [AskedTenant(name, r)];
    }

    method UpdateBridgeStatus(b: StoredBridge) returns (ok: bool)
      requires Valid()
      modifies `log, `store, `calls
      ensures Valid() && Continues()
      ensures calls == old(calls) + [if ok then WroteBridge(b) else RefusedBridge(b)]
      ensures calm ==> store == old(store)
    {
      Interfere();
      ok := *;
      calls := calls + [if ok then WroteBridge(b) else RefusedBridge(b)];
    }

    method UpdateTenantStatus(status: TenantStatus) returns (ok: bool)
      requires Valid()
      modifies `log, `store, `tried, `written
      ensures Valid() && Continues()
      ensures tried == old(tried) + [status]
      ensures written == old(written) + if ok then [status] else []
      ensures calm ==> store == old(store)
    {
      Interfere();
      tried := tried + [status];
      ok := *;
      if ok {
        written := written + [status];
      }
    }

    lemma WriteIsLegal(res: Resource, base: Resource)
      requires Valid() && Stored(base) && base.version == res.version && SameSpec(base, res)
      requires RunMayWrite(tenant, base.owner, res.owner)
      requires res.key in store && store[res.key].version == res.version
      ensures var more := log + [StatusWritten(tenant, res)];
              && LegalLog(init, more) && Accepted(init, more, tenant, res)
              && StoreAt(init, more, |more|) == store[res.key := res.(version := |log| + 1)]
              && WasStored(init, more, res.(version := |log| + 1))
              && forall r :: WasStored(init, log, r) ==> WasStored(init, more, r)
    {
      var e := StatusWritten(tenant, res);
      var more := log + [e];
      var i :| 0 <= i <= |log| && base.key in StoreAt(init, log, i) && StoreAt(init, log, i)[base.key] == base;
      StoreAtPrefix(init, log, more, i);
      StoreAtPrefix(init, log, more, |log|);
      assert WrittenFromCopy(init, more, |log|, tenant, res);
      LegalPrefix(init, log, e);
      VersionsIdentify(init, log, i, |log|, res.key);
      WasStoredLater(init, log, more);
    }

    lemma CurrentVersion(base: Resource)
      requires Valid() && Stored(base)
      ensures base.key in store && store[base.key].version == base.version ==> store[base.key] == base
    {
      if base.key in store && store[base.key].version == base.version {
        var i :| 0 <= i <= |log| && base.key in StoreAt(init, log, i) && StoreAt(init, log, i)[base.key] == base;
        VersionsIdentify(init, log, i, |log|, base.key);
      }
    }

    // A status write from a copy of `base`. An accepted write is the last event of the history, and its version was
    // current; the copy gets its new version.
    method UpdateStatus(res: Resource, ghost base: Resource) returns (ok: bool, stored: Resource)
      requires Valid() && Stored(base) && base.version == res.version && SameSpec(base, res)
      requires RunMayWrite(tenant, base.owner, res.owner)
      modifies `log, `store, `calls
      ensures Valid() && Continues()
      ensures stored == if ok then res.(version := |log|) else res
      ensures ok ==> Stored(stored) && Accepted(init, log, tenant, res)
      ensures calls == old(calls) + [if ok then Wrote(stored) else Refused(res)]
      ensures calm ==> store == if ok then old(store)[res.key := stored] else old(store)
      ensures calm ==> (ok <==> res.key in old(store) && old(store)[res.key] == base)
    {
      Interfere();
      CurrentVersion(base);
      var accepted := true;
      if !calm {
        accepted := *;
      }
      stored := res;
      ok := accepted && res.key in store && store[res.key].version == res.version;
      if ok {
        WriteIsLegal(res, base);
        stored := res.(version := |log| + 1);
        log := log + [StatusWritten(tenant, res)];
        store := store[res.key := stored];
      }
      calls := calls + [if ok then Wrote(stored) else Refused(res)];
    }
  }
}
