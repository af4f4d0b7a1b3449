/** Maps keyed by generated component names, and which components they define. */
module Tables {
  import opened Names

  // m defines exactly the components in ids, each with an acceptable value.
  ghost predicate Defines<V>(m: map<string, V>, ids: iset<ComponentId>, ok: (ComponentId, V) -> bool) {
    && (forall c | c in ids :: IsComponentId(c) && ComponentName(c) in m && ok(c, m[ComponentName(c)]))
    && forall k | k in m :: exists c :: c in ids && ComponentName(c) == k
  }

  // Writing one component; others keep an acceptable value under the new relation.
  lemma DefinesPut<V(!new)>(m: map<string, V>, ids: iset<ComponentId>, ok: (ComponentId, V) -> bool,
                            c: ComponentId, v: V, ok': (ComponentId, V) -> bool)
    requires Defines(m, ids, ok) && IsComponentId(c) && ok'(c, v)
    requires forall d, w | d in ids && d != c && ok(d, w) :: ok'(d, w)
    ensures Defines(m[ComponentName(c) := v], ids + iset{c}, ok')
  {
    hide ComponentName;
    var m' := m[ComponentName(c) := v];
    forall d | d in ids + iset{c}
      ensures IsComponentId(d) && ComponentName(d) in m' && ok'(d, m'[ComponentName(d)])
    {
      if d != c && ComponentName(d) == ComponentName(c) {
        ComponentNameInjective(d, c);
      }
    }
    assert c in ids + iset{c};
  }

  lemma DefinesSame<V(!new)>(m: map<string, V>, ids: iset<ComponentId>, ok: (ComponentId, V) -> bool,
                             ids': iset<ComponentId>, ok': (ComponentId, V) -> bool)
    requires Defines(m, ids, ok) && ids == ids'
    requires forall d, w | d in ids && ok(d, w) :: ok'(d, w)
    ensures Defines(m, ids', ok')
  {
    hide ComponentName;
  }

  lemma DefinedIffMember<V>(m: map<string, V>, ids: iset<ComponentId>, ok: (ComponentId, V) -> bool, c: ComponentId)
    requires Defines(m, ids, ok) && IsComponentId(c)
    ensures ComponentName(c) in m <==> c in ids
  {
    hide ComponentName;
    if ComponentName(c) in m {
      var d :| d in ids && ComponentName(d) == ComponentName(c);
      ComponentNameInjective(c, d);
    }
  }

  // maps.Copy: entries of the second map win.
  lemma DefinesUnion<V(!new)>(m: map<string, V>, ids: iset<ComponentId>, n: map<string, V>, ids': iset<ComponentId>,
                              ok: (ComponentId, V) -> bool)
    requires Defines(m, ids, ok) && Defines(n, ids', ok)
    ensures Defines(m + n, ids + ids', ok)
  {
    hide ComponentName;
    forall c | c in ids + ids'
      ensures ok(c, (m + n)[ComponentName(c)])
    {
      DefinedIffMember(n, ids', ok, c);
    }
  }
}
