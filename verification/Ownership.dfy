/** The API server's history of Outputs and Subscriptions, and who may change the owner of one.
    Runs of different tenants interleave freely, read stale copies, and write with a version check. */
module Ownership {
  import opened Names
  import opened Api

  datatype Kind = OutputKind | SubscriptionKind

  datatype Key = Key(kind: Kind, id: NamespacedName)

  // An Output or a Subscription. `owner` is status.tenant, empty while nobody owns the resource.
  datatype Resource = Resource(
    key: Key,
    version: nat,
    specOutputs: seq<NamespacedName>,
    authenticated: bool,
    owner: string,
    state: State,
    statusOutputs: seq<NamespacedName>)

  type Store = map<Key, Resource>

  // Users create, edit and delete resources; only runs of tenants write their status.
  datatype Event =
    | Created(key: Key, specOutputs: seq<NamespacedName>, authenticated: bool)
    | Edited(key: Key, specOutputs: seq<NamespacedName>, authenticated: bool)
    | Deleted(key: Key)
    | StatusWritten(tenant: string, res: Resource)

  // Every accepted write gets a version that was never used before.
  function Apply(store: Store, n: nat, e: Event): Store {
    match e
    case Created(k, outputs, auth) => store[k := Resource(k, n + 1, outputs, auth, "", NoState, [])]
    case Edited(k, outputs, auth) =>
      if k in store then store[k := store[k].(version := n + 1, specOutputs := outputs, authenticated := auth)]
      else store
    case Deleted(k) => store - {k}
    case StatusWritten(_, r) =>
      if r.key in store then
        store[r.key := store[r.key].(version := n + 1, owner := r.owner, state := r.state,
                                     statusOutputs := r.statusOutputs)]
      else store
  }

  function StoreAt(init: Store, log: seq<Event>, n: nat): Store
    requires n <= |log|
  {
    if n == 0 then init else Apply(StoreAt(init, log, n - 1), n - 1, log[n - 1])
  }

  // What a run of a tenant makes of the owner it read: it adopts what nobody owns, it may give up its own,
  // and it leaves the owner of everything else alone.
  predicate RunMayWrite(tenant: string, from: string, to: string) {
    if from == "" then to == tenant
    else if from == tenant then to == tenant || to == ""
    else to == from
  }

  // The run read the copy it writes back at some earlier moment, maybe long ago.
  predicate WrittenFromCopy(init: Store, log: seq<Event>, n: nat, tenant: string, r: Resource)
    requires n <= |log|
  {
    exists i | 0 <= i <= n ::
      var then_ := StoreAt(init, log, i);
      r.key in then_ && then_[r.key].version == r.version && RunMayWrite(tenant, then_[r.key].owner, r.owner)
  }

  predicate LegalEvent(init: Store, log: seq<Event>, n: nat)
    requires n < |log|
  {
    var now := StoreAt(init, log, n);
    match log[n]
    case Created(k, _, _) => k !in now
    case Edited(k, _, _) => k in now
    case Deleted(k) => k in now
    case StatusWritten(t, r) =>
      && t != "" && r.key in now && now[r.key].version == r.version
      && WrittenFromCopy(init, log, n, t, r)
  }

  predicate Initial(init: Store) {
    forall k | k in init :: init[k].key == k && init[k].version == 0
  }

  predicate LegalLog(init: Store, log: seq<Event>) {
    Initial(init) && forall n | 0 <= n < |log| :: LegalEvent(init, log, n)
  }

  // ---------------------------------------------------------------------------
  // Versions

  lemma {:induction false} VersionsAreOld(init: Store, log: seq<Event>, n: nat, k: Key)
    requires LegalLog(init, log) && n <= |log| && k in StoreAt(init, log, n)
    ensures StoreAt(init, log, n)[k].version <= n && StoreAt(init, log, n)[k].key == k
  {
    if n > 0 {
      assert LegalEvent(init, log, n - 1);
      if k in StoreAt(init, log, n - 1) {
        VersionsAreOld(init, log, n - 1, k);
      }
    }
  }

  // A version names one content: that is what makes the version check work.
  lemma {:induction false} VersionsIdentify(init: Store, log: seq<Event>, i: nat, j: nat, k: Key)
    requires LegalLog(init, log) && i <= j <= |log|
    requires k in StoreAt(init, log, i) && k in StoreAt(init, log, j)
    requires StoreAt(init, log, i)[k].version == StoreAt(init, log, j)[k].version
    ensures StoreAt(init, log, i)[k] == StoreAt(init, log, j)[k]
  {
    if i < j {
      assert LegalEvent(init, log, j - 1);
      VersionsAreOld(init, log, i, k);
      var before := StoreAt(init, log, j - 1);
      assert k in before && StoreAt(init, log, j)[k] == before[k];
      VersionsIdentify(init, log, i, j - 1, k);
    }
  }

  // ---------------------------------------------------------------------------
  // Ownership

  function OwnerAt(init: Store, log: seq<Event>, n: nat, k: Key): string
    requires n <= |log| && k in StoreAt(init, log, n)
  {
    StoreAt(init, log, n)[k].owner
  }

  // Whatever the run read, the owner it replaces is the owner that is current.
  lemma StatusWriteFollowsCurrentOwner(init: Store, log: seq<Event>, n: nat)
    requires LegalLog(init, log) && n < |log| && log[n].StatusWritten?
    ensures var k := log[n].res.key;
            && k in StoreAt(init, log, n) && k in StoreAt(init, log, n + 1)
            && OwnerAt(init, log, n + 1, k) == log[n].res.owner
            && RunMayWrite(log[n].tenant, OwnerAt(init, log, n, k), OwnerAt(init, log, n + 1, k))
  {
    assert LegalEvent(init, log, n);
    var t, r := log[n].tenant, log[n].res;
    var i :| 0 <= i <= n && r.key in StoreAt(init, log, i) && StoreAt(init, log, i)[r.key].version == r.version
             && RunMayWrite(t, StoreAt(init, log, i)[r.key].owner, r.owner);
    VersionsIdentify(init, log, i, n, r.key);
  }

  // An owner changes only from nobody to the tenant whose run writes, or from that tenant to nobody.
  lemma OwnershipSafety(init: Store, log: seq<Event>, n: nat, k: Key)
    requires LegalLog(init, log) && n < |log|
    requires k in StoreAt(init, log, n) && k in StoreAt(init, log, n + 1)
    requires OwnerAt(init, log, n, k) != OwnerAt(init, log, n + 1, k)
    ensures log[n].StatusWritten? && log[n].res.key == k
    ensures var from, to := OwnerAt(init, log, n, k), OwnerAt(init, log, n + 1, k);
            (from == "" && to == log[n].tenant) || (from == log[n].tenant && to == "")
  {
    assert LegalEvent(init, log, n);
    if log[n].StatusWritten? {
      StatusWriteFollowsCurrentOwner(init, log, n);
    }
  }

  // Between two different owners there is a moment when nobody owns the resource, or it does not exist.
  lemma {:induction false} HandoverPassesThroughUnowned(init: Store, log: seq<Event>, i: nat, j: nat, k: Key)
    returns (n: nat)
    requires LegalLog(init, log) && i <= j <= |log|
    requires k in StoreAt(init, log, i) && k in StoreAt(init, log, j)
    requires OwnerAt(init, log, i, k) != "" && OwnerAt(init, log, j, k) != ""
    requires OwnerAt(init, log, i, k) != OwnerAt(init, log, j, k)
    ensures i < n < j && (k !in StoreAt(init, log, n) || OwnerAt(init, log, n, k) == "")
  {
    if k !in StoreAt(init, log, j - 1) || OwnerAt(init, log, j - 1, k) == "" {
      n := j - 1;
    } else {
      if OwnerAt(init, log, j - 1, k) != OwnerAt(init, log, j, k) {
        OwnershipSafety(init, log, j - 1, k);
        assert false;
      }
      n := HandoverPassesThroughUnowned(init, log, i, j - 1, k);
    }
  }

  // A resource starts without an owner.
  lemma CreatedUnowned(init: Store, log: seq<Event>, n: nat, k: Key)
    requires LegalLog(init, log) && n < |log|
    requires k !in StoreAt(init, log, n) && k in StoreAt(init, log, n + 1)
    ensures OwnerAt(init, log, n + 1, k) == ""
  {
    assert LegalEvent(init, log, n);
  }

  // ---------------------------------------------------------------------------
  // Copies

  predicate WasStored(init: Store, log: seq<Event>, r: Resource) {
    exists i | 0 <= i <= |log| :: r.key in StoreAt(init, log, i) && StoreAt(init, log, i)[r.key] == r
  }

  lemma {:induction false} StoreAtPrefix(init: Store, log: seq<Event>, more: seq<Event>, n: nat)
    requires log <= more && n <= |log|
    ensures StoreAt(init, log, n) == StoreAt(init, more, n)
  {
    if n > 0 {
      StoreAtPrefix(init, log, more, n - 1);
    }
  }

  lemma WasStoredLater(init: Store, log: seq<Event>, more: seq<Event>)
    requires log <= more
    ensures forall r :: WasStored(init, log, r) ==> WasStored(init, more, r)
  {
    forall r | WasStored(init, log, r)
      ensures WasStored(init, more, r)
    {
      var i :| 0 <= i <= |log| && r.key in StoreAt(init, log, i) && StoreAt(init, log, i)[r.key] == r;
      StoreAtPrefix(init, log, more, i);
    }
  }

  lemma LegalPrefix(init: Store, log: seq<Event>, e: Event)
    requires LegalLog(init, log) && LegalEvent(init, log + [e], |log|)
    ensures LegalLog(init, log + [e])
    ensures StoreAt(init, log + [e], |log|) == StoreAt(init, log, |log|)
  {
    var more := log + [e];
    StoreAtPrefix(init, log, more, |log|);
    forall n | 0 <= n < |log|
      ensures LegalEvent(init, more, n)
    {
      assert LegalEvent(init, log, n);
      StoreAtPrefix(init, log, more, n);
      if log[n].StatusWritten? {
        var t, r := log[n].tenant, log[n].res;
        var i :| 0 <= i <= n && r.key in StoreAt(init, log, i) && StoreAt(init, log, i)[r.key].version == r.version
                 && RunMayWrite(t, StoreAt(init, log, i)[r.key].owner, r.owner);
        StoreAtPrefix(init, log, more, i);
        assert WrittenFromCopy(init, more, n, t, r);
      }
    }
  }
}
