/** FindTenantForOutput: which tenant an output's queue storage belongs to. */
module Owners {
  import opened Names
  import Ordering
  import opened Api
  import opened Meaning

  function FindTenant(tenants: seq<Tenant>, name: string): (r: Option<Tenant>)
    ensures r.Some? <==> exists t :: t in tenants && t.name == name
    ensures r.Some? ==> r.value in tenants && r.value.name == name
  {
    if tenants == [] then None
    else if tenants[0].name == name then
      assert tenants[0] in tenants;
      Some(tenants[0])
    else
      assert forall t :: t in tenants <==> t == tenants[0] || t in tenants[1..];
      FindTenant(tenants[1..], name)
  }

  method GetTenantByName(tenants: seq<Tenant>, name: string) returns (r: Option<Tenant>)
    ensures r == FindTenant(tenants, name)
  {
    for i := 0 to |tenants|
      invariant FindTenant(tenants, name) == FindTenant(tenants[i..], name)
    {
      if tenants[i].name == name {
        return Some(tenants[i]);
      }
      assert tenants[i..][1..] == tenants[i + 1..];
    }
    return None;
  }

  ghost predicate Owns(input: ConfigInput, tenant: string, output: NamespacedName) {
    exists s :: Subscribes(input, tenant, s, output)
  }

  // The result depends on the order in which the tenant map is traversed; a dangling tenant name ends the search.
  ghost function OwnerIn(input: ConfigInput, order: seq<string>, output: NamespacedName): Option<Tenant> {
    if order == [] then None
    else if Owns(input, order[0], output) then FindTenant(input.tenants, order[0])
    else OwnerIn(input, order[1..], output)
  }

  method FindTenantForOutput(input: ConfigInput, order: seq<string>, output: NamespacedName) returns (r: Option<Tenant>)
    ensures r == OwnerIn(input, order, output)
  {
    hide FindTenant;
    for i := 0 to |order|
      invariant OwnerIn(input, order, output) == OwnerIn(input, order[i..], output)
    {
      var subscriptions := input.SubscriptionsOf(order[i]);
      for j := 0 to |subscriptions|
        invariant forall k | 0 <= k < j :: output !in input.OutputsOf(subscriptions[k])
      {
        if output in input.OutputsOf(subscriptions[j]) {
          assert Subscribes(input, order[i], subscriptions[j], output);
          r := GetTenantByName(input.tenants, order[i]);
          return;
        }
      }
      assert !Owns(input, order[i], output);
      assert order[i..][1..] == order[i + 1..];
    }
    return None;
  }

  // Whatever the order, the tenant found owns the output, and one is found whenever there is one.
  lemma {:induction false} OwnerInOwns(input: ConfigInput, order: seq<string>, output: NamespacedName)
    requires forall t | t in order :: FindTenant(input.tenants, t).Some?
    ensures var r := OwnerIn(input, order, output);
            && (r.Some? <==> exists t :: t in order && Owns(input, t, output))
            && (r.Some? ==> r.value in input.tenants && r.value.name in order && Owns(input, r.value.name, output))
  {
    hide FindTenant;
    if order != [] {
      assert order == [order[0]] + order[1..];
      OwnerInOwns(input, order[1..], output);
    }
  }

  function Without(order: seq<string>, x: string): seq<string> {
    if order == [] then []
    else (if order[0] == x then [] else [order[0]]) + Without(order[1..], x)
  }

  lemma {:induction false} WithoutKeepsOthers(order: seq<string>, x: string)
    ensures forall k :: k in Without(order, x) <==> k in order && k != x
    ensures Ordering.NoDup(order) ==> Ordering.NoDup(Without(order, x))
  {
    if order != [] {
      WithoutKeepsOthers(order[1..], x);
      assert order == [order[0]] + order[1..];
      if Ordering.NoDup(order) {
        assert order[0] !in order[1..];
        assert Ordering.NoDup(order[1..]);
      }
    }
  }

  lemma MoveToFront(order: seq<string>, keys: set<string>, x: string)
    requires Enumerates(order, keys) && x in keys
    ensures Enumerates([x] + Without(order, x), keys)
  {
    WithoutKeepsOthers(order, x);
    var front := [x] + Without(order, x);
    var listed, reordered := set k | k in order, set k | k in front;
    forall k
      ensures k in reordered <==> k in keys
    {
      assert k in listed <==> k in order;
      assert k in reordered <==> k in front;
    }
    assert reordered == keys;
  }

  ghost predicate SameForEveryOrder(input: ConfigInput, output: NamespacedName) {
    forall a, b | Enumerates(a, input.tenantSubscriptions.Keys) && Enumerates(b, input.tenantSubscriptions.Keys) ::
      OwnerIn(input, a, output) == OwnerIn(input, b, output)
  }

  ghost predicate AtMostOneOwner(input: ConfigInput, output: NamespacedName) {
    forall s, t | s in input.tenantSubscriptions && t in input.tenantSubscriptions
                  && Owns(input, s, output) && Owns(input, t, output) :: s == t
  }

  lemma NamesAreFound(input: ConfigInput, order: seq<string>)
    requires TenantsIndexed(input) && Enumerates(order, input.tenantSubscriptions.Keys)
    ensures forall t | t in order :: FindTenant(input.tenants, t).Some?
  {
    forall t | t in order
      ensures FindTenant(input.tenants, t).Some?
    {
      assert t in input.tenantSubscriptions.Keys;
    }
  }

  lemma FrontOwnerWins(input: ConfigInput, order: seq<string>, x: string, output: NamespacedName)
    requires TenantsIndexed(input) && Enumerates(order, input.tenantSubscriptions.Keys)
    requires x in input.tenantSubscriptions && Owns(input, x, output)
    ensures Enumerates([x] + Without(order, x), input.tenantSubscriptions.Keys)
    ensures var r := OwnerIn(input, [x] + Without(order, x), output); r.Some? && r.value.name == x
  {
    MoveToFront(order, input.tenantSubscriptions.Keys, x);
    NamesAreFound(input, [x] + Without(order, x));
    assert x in [x] + Without(order, x);
  }

  // The owner is the same for every traversal order exactly when no two tenants subscribe to the output.
  lemma OwnerIsWellDefined(input: ConfigInput, order: seq<string>, output: NamespacedName)
    requires TenantsIndexed(input) && Enumerates(order, input.tenantSubscriptions.Keys)
    ensures SameForEveryOrder(input, output) <==> AtMostOneOwner(input, output)
  {
    hide OwnerIn;
    hide Owns;
    hide TenantsIndexed;
    hide Enumerates;
    if SameForEveryOrder(input, output) {
      forall s, t | s in input.tenantSubscriptions && t in input.tenantSubscriptions
                    && Owns(input, s, output) && Owns(input, t, output)
        ensures s == t
      {
        FrontOwnerWins(input, order, s, output);
        FrontOwnerWins(input, order, t, output);
      }
    }
    if AtMostOneOwner(input, output) {
      forall a, b | Enumerates(a, input.tenantSubscriptions.Keys) && Enumerates(b, input.tenantSubscriptions.Keys)
        ensures OwnerIn(input, a, output) == OwnerIn(input, b, output)
      {
        SameOwner(input, a, b, output);
      }
    }
  }

  lemma OwnerInIsUnique(input: ConfigInput, order: seq<string>, output: NamespacedName, x: string)
    requires TenantsIndexed(input) && AtMostOneOwner(input, output)
    requires Enumerates(order, input.tenantSubscriptions.Keys)
    requires x in input.tenantSubscriptions && Owns(input, x, output)
    ensures OwnerIn(input, order, output) == FindTenant(input.tenants, x)
  {
    hide FindTenant;
    hide OwnerIn;
    hide Owns;
    NamesAreFound(input, order);
    OwnerInOwns(input, order, output);
    assert forall t :: t in order <==> t in input.tenantSubscriptions.Keys;
    var found := FindTenant(input.tenants, x);
    assert x in order;
    UniqueTenant(input.tenants, OwnerIn(input, order, output).value, found.value);
  }

  lemma UniqueTenant(tenants: seq<Tenant>, s: Tenant, t: Tenant)
    requires UniqueTenants(tenants) && s in tenants && t in tenants && s.name == t.name
    ensures s == t
  {
    var i :| 0 <= i < |tenants| && tenants[i] == s;
    var j :| 0 <= j < |tenants| && tenants[j] == t;
  }

  lemma SameOwner(input: ConfigInput, a: seq<string>, b: seq<string>, output: NamespacedName)
    requires TenantsIndexed(input) && AtMostOneOwner(input, output)
    requires Enumerates(a, input.tenantSubscriptions.Keys) && Enumerates(b, input.tenantSubscriptions.Keys)
    ensures OwnerIn(input, a, output) == OwnerIn(input, b, output)
  {
    hide OwnerIn;
    hide Owns;
    hide TenantsIndexed;
    if x :| x in input.tenantSubscriptions && Owns(input, x, output) {
      OwnerInIsUnique(input, a, output, x);
      OwnerInIsUnique(input, b, output, x);
    } else {
      NoOwner(input, a, output);
      NoOwner(input, b, output);
    }
  }

  lemma NoOwner(input: ConfigInput, order: seq<string>, output: NamespacedName)
    requires TenantsIndexed(input) && Enumerates(order, input.tenantSubscriptions.Keys)
    requires forall t | t in input.tenantSubscriptions :: !Owns(input, t, output)
    ensures OwnerIn(input, order, output) == None
  {
    hide Owns;
    NamesAreFound(input, order);
    OwnerInOwns(input, order, output);
    assert forall t :: t in order <==> t in input.tenantSubscriptions.Keys;
  }
}
