/** Runs of several tenants, one after the other, in a calm cluster: their effect on the store is a sequence of passes,
    so owners converge, and a failed Output keeps its owner from ever being Ready. */
module Rounds {
  import opened Names
  import opened Ownership
  import opened ApiClient
  import opened TenantResources
  import opened Convergence
  import opened RouteController

  function Now(init: Store, log: seq<Event>): Store {
    StoreAt(init, log, |log|)
  }

  // A failed Output that the tenant selects, and owns or could own: its run will not get past it.
  ghost predicate Stops(sel: Selection, t: string, store: Store, k: Key) {
    && k in store && k.kind == OutputKind && store[k].state.Failed?
    && Undisputed(t, store[k]) && sel.Selects(t, k)
  }

  ghost predicate Stopped(sel: Selection, t: string, store: Store) {
    exists k :: Stops(sel, t, store, k)
  }

  // A failed Output with an owner that selects it.
  ghost predicate Stuck(sel: Selection, store: Store, k: Key) {
    && k in store && k.kind == OutputKind && store[k].state.Failed?
    && store[k].owner != "" && sel.Selects(store[k].owner, k)
  }

  ghost predicate StaysStuck(sel: Selection, before: Store, after: Store) {
    forall k | Stuck(sel, before, k) :: Stuck(sel, after, k) && after[k].owner == before[k].owner
  }

  predicate NeverReady(written: seq<TenantStatus>) {
    forall s | s in written :: !s.state.Ready?
  }

  // What one run does.
  ghost predicate RunEffect(sel: Selection, t: string, before: Store, after: Store, written: seq<TenantStatus>) {
    && OwnersOf(OutputKind, after) == Pass(sel, t, OwnersOf(OutputKind, before))
    && StaysStuck(sel, before, after)
    && (forall k | k in after && k.kind == OutputKind && sel.Selects(t, k) && !Undisputed(t, after[k]) ::
          after[k].state.Failed?)
    && if Stopped(sel, t, before)
       then NeverReady(written) && OwnersOf(SubscriptionKind, after) == OwnersOf(SubscriptionKind, before)
       else OwnersOf(SubscriptionKind, after) == Pass(sel, t, OwnersOf(SubscriptionKind, before))
  }

  lemma StoppedIsBlocked(client: Client, sel: Selection, store: Store)
    requires client.matches == sel.matches && client.tenant in sel.tenants
    ensures Stopped(sel, client.tenant, store) <==> Blocked(client, sel.tenants[client.tenant], store)
  {
    hide Matched;
    if Stopped(sel, client.tenant, store) {
      var k :| Stops(sel, client.tenant, store, k);
      assert IsBlocking(client, sel.tenants[client.tenant], store, k);
    }
    if Blocked(client, sel.tenants[client.tenant], store) {
      var k :| k in store && IsBlocking(client, sel.tenants[client.tenant], store, k);
      assert Stops(sel, client.tenant, store, k);
    }
  }

  lemma UntouchedOwners(before: Store, after: Store)
    requires SubscriptionsUntouched(before, after)
    ensures OwnersOf(SubscriptionKind, after) == OwnersOf(SubscriptionKind, before)
  {
    assert OwnersOf(SubscriptionKind, after).Keys == OwnersOf(SubscriptionKind, before).Keys;
  }

  // Nobody heals a failed Output: its owner's run stops at it, and other runs can only mark it failed again.
  lemma NobodyHeals(client: Client, sel: Selection, before: Store, after: Store, err: Option<Failure>, k: Key)
    requires client.matches == sel.matches && client.tenant in sel.tenants
    requires CalmOutcome(client, sel.tenants[client.tenant], before, after, err) && Stuck(sel, before, k)
    ensures Stuck(sel, after, k) && after[k].owner == before[k].owner
  {
    hide Matched;
    if before[k].owner == client.tenant {
      assert IsBlocking(client, sel.tenants[client.tenant], before, k);
      assert Kept(client.tenant, OutputKind, before, after);
    } else {
      assert AtMostFailed(before[k], after[k]);
    }
  }

  lemma OutcomeIsEffect(client: Client, sel: Selection, before: Store, after: Store, err: Option<Failure>,
                        written: seq<TenantStatus>)
    requires client.matches == sel.matches && client.tenant in sel.tenants
    requires CalmOutcome(client, sel.tenants[client.tenant], before, after, err)
    requires err.Some? ==> NeverReady(written)
    ensures RunEffect(sel, client.tenant, before, after, written)
  {
    hide Matched, KindPassedOver, Kept, OthersAtMostFail, Blocked, Stopped, OwnersOf, Pass, SubscriptionsUntouched,
         Stuck;
    var t := client.tenant;
    StoppedIsBlocked(client, sel, before);
    KindPassedOverIsPass(client, OutputKind, sel, before, after);
    forall k | Stuck(sel, before, k)
      ensures Stuck(sel, after, k) && k in after && k in before && after[k].owner == before[k].owner
    {
      NobodyHeals(client, sel, before, after, err, k);
      StuckIsStored(sel, before, k);
      StuckIsStored(sel, after, k);
    }
    if Stopped(sel, t, before) {
      UntouchedOwners(before, after);
    } else {
      KindPassedOverIsPass(client, SubscriptionKind, sel, before, after);
    }
  }

  lemma StuckIsStored(sel: Selection, store: Store, k: Key)
    requires Stuck(sel, store, k)
    ensures k in store
  {
  }

  // One run of one tenant, from whatever status was read.
  method Run(sel: Selection, t: string, init: Store, log: seq<Event>)
    returns (after: seq<Event>, written: seq<TenantStatus>)
    requires LegalLog(init, log) && t != "" && t in sel.tenants
    ensures log <= after && LegalLog(init, after)
    ensures RunEffect(sel, t, Now(init, log), Now(init, after), written)
  {
    hide CalmOutcome, RunEffect, ReadyEarned, ListsOwned, LegalLog;
    var client := new Client(t, true, sel.matches, init, log);
    var logSources: seq<Selector>, status: TenantStatus := *, *;
    var tenant := new TenantObject(t, logSources, sel.tenants[t], status);
    var err, _ := Reconcile(client, tenant);
    after, written := client.log, client.written;
    OutcomeIsEffect(client, sel, Now(init, log), Now(init, after), err, written);
  }

  datatype Written = Written(tenant: string, statuses: seq<TenantStatus>)

  // Runs of these tenants, in this order. The owners of Outputs go through the passes of the order; those of
  // Subscriptions do so too if no run is stopped; and a stuck Output stays stuck, its owner never Ready.
  method RunAll(sel: Selection, order: seq<string>, init: Store, log: seq<Event>)
    returns (after: seq<Event>, written: seq<Written>, ghost stores: seq<Store>)
    requires LegalLog(init, log) && "" !in sel.tenants && forall t | t in order :: t in sel.tenants
    ensures log <= after && LegalLog(init, after)
    ensures |stores| == |order| + 1 && stores[0] == Now(init, log) && stores[|order|] == Now(init, after)
    ensures AreRuns(sel, OutputKind, order, stores)
    ensures OwnersOf(OutputKind, Now(init, after)) == Passes(sel, order, OwnersOf(OutputKind, Now(init, log)))
    ensures (forall i | 0 <= i < |order| :: !Stopped(sel, order[i], stores[i])) ==>
              AreRuns(sel, SubscriptionKind, order, stores)
              && OwnersOf(SubscriptionKind, Now(init, after))
                 == Passes(sel, order, OwnersOf(SubscriptionKind, Now(init, log)))
    ensures StaysStuck(sel, Now(init, log), Now(init, after))
    ensures |written| == |order| && forall i | 0 <= i < |order| :: written[i].tenant == order[i]
    ensures forall i, k | 0 <= i < |order| && Stuck(sel, stores[0], k) && stores[0][k].owner == order[i] ::
              NeverReady(written[i].statuses)
  {
    hide LegalLog, OwnersOf, Pass, Passes, RunEffect, Stuck, Stopped, NeverReady, Now;
    after, written, stores := log, [], [Now(init, log)];
    for n := 0 to |order|
      invariant log <= after && LegalLog(init, after)
      invariant |stores| == n + 1 && stores[0] == Now(init, log) && stores[n] == Now(init, after)
      invariant |written| == n && forall i | 0 <= i < n :: written[i].tenant == order[i]
      invariant forall i | 0 <= i < n :: RunEffect(sel, order[i], stores[i], stores[i + 1], written[i].statuses)
    {
      var statuses;
      ghost var before := stores;
      after, statuses := Run(sel, order[n], init, after);
      written := written + [Written(order[n], statuses)];
      stores := stores + [Now(init, after)];
      assert forall i | 0 <= i <= n :: stores[i] == before[i];
    }
    EffectsAreRuns(sel, order, stores, written);
    RunsArePasses(sel, OutputKind, order, stores);
    if forall i | 0 <= i < |order| :: !Stopped(sel, order[i], stores[i]) {
      RunsArePasses(sel, SubscriptionKind, order, stores);
    }
    EffectsStayStuck(sel, order, stores, written, |order|);
    OwnersNeverReady(sel, order, stores, written);
  }

  // What each of these runs did.
  ghost predicate Effects(sel: Selection, order: seq<string>, stores: seq<Store>, written: seq<Written>) {
    && |stores| == |order| + 1 && |written| == |order|
    && forall i | 0 <= i < |order| :: RunEffect(sel, order[i], stores[i], stores[i + 1], written[i].statuses)
  }

  lemma EffectsAreRuns(sel: Selection, order: seq<string>, stores: seq<Store>, written: seq<Written>)
    requires Effects(sel, order, stores, written)
    ensures AreRuns(sel, OutputKind, order, stores)
    ensures (forall i | 0 <= i < |order| :: !Stopped(sel, order[i], stores[i])) ==>
              AreRuns(sel, SubscriptionKind, order, stores)
  {
    hide OwnersOf, Pass, Stopped, Stuck, NeverReady, StaysStuck;
  }

  lemma {:induction false} EffectsStayStuck(sel: Selection, order: seq<string>, stores: seq<Store>,
                                            written: seq<Written>, n: nat)
    requires Effects(sel, order, stores, written) && n <= |order|
    ensures StaysStuck(sel, stores[0], stores[n])
  {
    hide OwnersOf, Pass, Stopped, NeverReady;
    if n > 0 {
      EffectsStayStuck(sel, order, stores, written, n - 1);
      assert RunEffect(sel, order[n - 1], stores[n - 1], stores[n], written[n - 1].statuses);
    }
  }

  lemma OwnersNeverReady(sel: Selection, order: seq<string>, stores: seq<Store>, written: seq<Written>)
    requires Effects(sel, order, stores, written)
    ensures forall i, k | 0 <= i < |order| && Stuck(sel, stores[0], k) && stores[0][k].owner == order[i] ::
              NeverReady(written[i].statuses)
  {
    hide OwnersOf, Pass, NeverReady;
    forall i, k | 0 <= i < |order| && Stuck(sel, stores[0], k) && stores[0][k].owner == order[i]
      ensures NeverReady(written[i].statuses)
    {
      EffectsStayStuck(sel, order, stores, written, i);
      assert Stops(sel, order[i], stores[i], k);
      assert RunEffect(sel, order[i], stores[i], stores[i + 1], written[i].statuses);
    }
  }

  // Two rounds of runs over all tenants, in any orders, settle the owners of Outputs, and no later run changes one;
  // the owners of Subscriptions settle too if no run is stopped.
  method TwoRounds(sel: Selection, first: seq<string>, second: seq<string>, later: seq<string>, init: Store,
                   log: seq<Event>)
    returns (after: seq<Event>, ghost stores: seq<Store>)
    requires LegalLog(init, log) && IsRound(sel, first) && IsRound(sel, second)
    requires forall t | t in later :: t in sel.tenants
    requires OwnersExist(sel, OwnersOf(OutputKind, Now(init, log)))
    requires OwnersExist(sel, OwnersOf(SubscriptionKind, Now(init, log)))
    ensures log <= after && LegalLog(init, after)
    ensures |stores| == |first| + |second| + |later| + 1
    ensures stores[0] == Now(init, log) && stores[|stores| - 1] == Now(init, after)
    ensures Stable(sel, OwnersOf(OutputKind, stores[|first| + |second|]))
    ensures OwnersOf(OutputKind, Now(init, after)) == OwnersOf(OutputKind, stores[|first| + |second|])
    ensures (forall i | 0 <= i < |stores| - 1 :: !Stopped(sel, (first + second + later)[i], stores[i])) ==>
              Stable(sel, OwnersOf(SubscriptionKind, stores[|first| + |second|]))
              && OwnersOf(SubscriptionKind, Now(init, after))
                 == OwnersOf(SubscriptionKind, stores[|first| + |second|])
  {
    hide LegalLog, OwnersOf, Stable, AreRuns, Stopped, StaysStuck, Stuck, Now, Passes;
    var order := first + second + later;
    var written;
    after, written, stores := RunAll(sel, order, init, log);
    RunsConverge(sel, OutputKind, first, second, later, stores);
    if forall i | 0 <= i < |order| :: !Stopped(sel, order[i], stores[i]) {
      RunsConverge(sel, SubscriptionKind, first, second, later, stores);
    }
  }

  // Two tenants that select the same Output: after a run of the one that does not own it, the owner is never written
  // Ready again, whatever runs follow.
  method DisputeStopsOwner(sel: Selection, other: string, order: seq<string>, k: Key, init: Store, log: seq<Event>)
    returns (after: seq<Event>, written: seq<Written>)
    requires LegalLog(init, log) && "" !in sel.tenants && other in sel.tenants
             && forall t | t in order :: t in sel.tenants
    requires k in Now(init, log) && k.kind == OutputKind
    requires Now(init, log)[k].owner != "" && Now(init, log)[k].owner != other
    requires sel.Selects(Now(init, log)[k].owner, k) && sel.Selects(other, k)
    ensures log <= after && LegalLog(init, after)
    ensures k in Now(init, after) && Now(init, after)[k].owner == Now(init, log)[k].owner
    ensures Now(init, after)[k].state.Failed?
    ensures |written| == |order| && forall i | 0 <= i < |order| :: written[i].tenant == order[i]
    ensures forall w | w in written && w.tenant == Now(init, log)[k].owner :: NeverReady(w.statuses)
  {
    hide LegalLog, NeverReady, Now, AreRuns, Passes, Stopped;
    var between, statuses := Run(sel, other, init, log);
    assert k in OwnersOf(OutputKind, Now(init, log));
    assert Pass(sel, other, OwnersOf(OutputKind, Now(init, log)))[k] == Now(init, log)[k].owner;
    assert k in OwnersOf(OutputKind, Now(init, between));
    assert Stuck(sel, Now(init, between), k);
    ghost var stores;
    after, written, stores := RunAll(sel, order, init, between);
    forall w | w in written && w.tenant == Now(init, log)[k].owner
      ensures NeverReady(w.statuses)
    {
      var i :| 0 <= i < |written| && written[i] == w;
    }
  }
}
