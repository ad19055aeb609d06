/** Rewriting RBAC rules, subjects and role references so that a tenant's grants keep their meaning on the
    shared cluster (pkg/convert/role.go and pkg/convert/rolebinding.go).
 */
module Rbac {
  import opened Names
  import opened Wrappers

  // ------------------------------------------------------------------ rules

  const ALL := "*"

  datatype Rule = Rule(verbs: seq<string>, groups: seq<string>, resources: seq<string>, names: seq<string>)

  /** What is asked of the authorizer, and how the resource is served: as one of the tenant's own custom
      resources or a native one, cluster-scoped or namespaced. */
  datatype Ask = Ask(verb: string, group: string, resource: string, name: string, custom: bool, clusterScoped: bool)

  predicate Listed(list: seq<string>, x: string) {
    ALL in list || x in list
  }

  predicate NameListed(names: seq<string>, x: string) {
    names == [] || x in names
  }

  predicate Matches(r: Rule, q: Ask) {
    && Listed(r.verbs, q.verb)
    && Listed(r.groups, q.group)
    && Listed(r.resources, q.resource)
    && NameListed(r.names, q.name)
  }

  /** The request the upstream authorizer is asked about. */
  function Translated(t: TenantId, q: Ask): Ask {
    q.(group := if q.custom then AddTenantIDPrefix(t, q.group) else q.group,
       name := if q.clusterScoped && q.name != "" then AddTenantIDPrefix(t, q.name) else q.name)
  }

  /** The API groups of the tenant's CRDs, in their upstream spelling. */
  type Crds = set<string>

  function UpstreamGroup(crds: Crds, t: TenantId, g: string): string {
    if AddTenantIDPrefix(t, g) in crds then AddTenantIDPrefix(t, g) else g
  }

  function UpstreamGroups(crds: Crds, t: TenantId, gs: seq<string>): (ups: seq<string>)
    ensures |ups| == |gs| && forall i :: 0 <= i < |gs| ==> ups[i] == UpstreamGroup(crds, t, gs[i])
  {
    seq(|gs|, i requires 0 <= i < |gs| => UpstreamGroup(crds, t, gs[i]))
  }

  function TenantGroups(t: TenantId, gs: seq<string>): (own: seq<string>)
    ensures |own| == |gs| && forall i :: 0 <= i < |gs| ==> own[i] == TrimTenantIDPrefix(t, gs[i])
  {
    seq(|gs|, i requires 0 <= i < |gs| => TrimTenantIDPrefix(t, gs[i]))
  }

  function PrefixAll(t: TenantId, ns: seq<string>): (ups: seq<string>)
    ensures |ups| == |ns| && forall i :: 0 <= i < |ns| ==> ups[i] == AddTenantIDPrefix(t, ns[i])
  {
    seq(|ns|, i requires 0 <= i < |ns| => AddTenantIDPrefix(t, ns[i]))
  }

  /** The names that do not carry the tenant's prefix, in order. */
  function Unprefixed(t: TenantId, ns: seq<string>): seq<string> {
    if ns == [] then []
    else
      var front := Unprefixed(t, ns[..|ns| - 1]);
      if Carries(t, ns[|ns| - 1]) then front else front + [ns[|ns| - 1]]
  }

  function ForwardRule(crds: Crds, t: TenantId, r: Rule): Rule {
    r.(groups := UpstreamGroups(crds, t, r.groups), names := r.names + PrefixAll(t, r.names))
  }

  function BackwardRule(t: TenantId, r: Rule): Rule {
    r.(groups := TenantGroups(t, r.groups), names := Unprefixed(t, r.names))
  }

  /** A rule, rewritten in place. */
  class PolicyRule {
    const verbs: seq<string>
    const resources: seq<string>
    const apiGroups: array<string>
    var resourceNames: seq<string>

    constructor (r: Rule)
      ensures Value() == r && fresh(apiGroups)
    {
      verbs, resources, resourceNames := r.verbs, r.resources, r.names;
      var groups := new string[|r.groups|](i requires 0 <= i < |r.groups| => r.groups[i]);
      apiGroups := groups;
      new;
      assert apiGroups[..] == r.groups;
    }

    ghost function Value(): Rule
      reads this, apiGroups
    {
      Rule(verbs, apiGroups[..], resources, resourceNames)
    }

    method ToUpstream(crds: Crds, t: TenantId)
      modifies this, apiGroups
      ensures Value() == ForwardRule(crds, t, old(Value()))
    {
      for i := 0 to apiGroups.Length
        invariant forall j :: 0 <= j < i ==> apiGroups[j] == UpstreamGroup(crds, t, old(apiGroups[j]))
        invariant forall j :: i <= j < apiGroups.Length ==> apiGroups[j] == old(apiGroups[j])
        modifies apiGroups
      {
        if AddTenantIDPrefix(t, apiGroups[i]) in crds {
          apiGroups[i] := AddTenantIDPrefix(t, apiGroups[i]);
        }
      }
      assert apiGroups[..] == UpstreamGroups(crds, t, old(apiGroups[..]));
      var added: seq<string> := [];
      for i := 0 to |resourceNames|
        invariant |added| == i && forall j :: 0 <= j < i ==> added[j] == AddTenantIDPrefix(t, resourceNames[j])
        modifies {}
      {
        added := added + [AddTenantIDPrefix(t, resourceNames[i])];
      }
      assert added == PrefixAll(t, resourceNames);
      resourceNames := resourceNames + added;
    }

    method ToTenant(t: TenantId)
      modifies this, apiGroups
      ensures Value() == BackwardRule(t, old(Value()))
    {
      for i := 0 to apiGroups.Length
        invariant forall j :: 0 <= j < i ==> apiGroups[j] == TrimTenantIDPrefix(t, old(apiGroups[j]))
        invariant forall j :: i <= j < apiGroups.Length ==> apiGroups[j] == old(apiGroups[j])
        modifies apiGroups
      {
        apiGroups[i] := TrimTenantIDPrefix(t, apiGroups[i]);
      }
      assert apiGroups[..] == TenantGroups(t, old(apiGroups[..]));
      var kept: seq<string> := [];
      for i := 0 to |resourceNames|
        invariant kept == Unprefixed(t, resourceNames[..i])
        modifies {}
      {
        assert resourceNames[..i + 1][..i] == resourceNames[..i];
        if !StartsWith(resourceNames[i], t + "-") {
          kept := kept + [resourceNames[i]];
        }
      }
      assert resourceNames[..|resourceNames|] == resourceNames;
      resourceNames := kept;
    }
  }

  // ------------------------------------------------------------------ rules keep their meaning

  /** The forwarded names match the translated name exactly when the names the tenant wrote match the name
      it uses, or one of the two is already spelled with the tenant's prefix. */
  lemma NamesKeepMeaning(t: TenantId, names: seq<string>, name: string, clusterScoped: bool)
    ensures NameListed(names + PrefixAll(t, names),
              if clusterScoped && name != "" then AddTenantIDPrefix(t, name) else name)
            <==> || NameListed(names, name)
                 || (clusterScoped && name != "" && AddTenantIDPrefix(t, name) in names)
                 || (!clusterScoped && Carries(t, name) && TrimTenantIDPrefix(t, name) in names)
  {
    var all := names + PrefixAll(t, names);
    var x := if clusterScoped && name != "" then AddTenantIDPrefix(t, name) else name;
    assert all == [] <==> names == [];
    InPrefixed(t, names, x);
    TrimUndoesAdd(t, name);
  }

  lemma InPrefixed(t: TenantId, names: seq<string>, x: string)
    ensures x in PrefixAll(t, names) <==> Carries(t, x) && TrimTenantIDPrefix(t, x) in names
  {
    if x in PrefixAll(t, names) {
      var i :| 0 <= i < |names| && AddTenantIDPrefix(t, names[i]) == x;
      TrimUndoesAdd(t, names[i]);
    }
    if Carries(t, x) && TrimTenantIDPrefix(t, x) in names {
      var i :| 0 <= i < |names| && names[i] == TrimTenantIDPrefix(t, x);
      AddUndoesTrim(t, x);
      assert PrefixAll(t, names)[i] == x;
    }
  }

  /** Nobody owns a CRD whose group is the wildcard. */
  ghost predicate Sane(crds: Crds, t: TenantId) {
    AddTenantIDPrefix(t, ALL) !in crds && ALL !in crds
  }

  /** A custom group is matched as the tenant wrote it, or if the tenant wrote its upstream spelling. */
  lemma CustomGroupsKeepMeaning(crds: Crds, t: TenantId, groups: seq<string>, g: string)
    requires Sane(crds, t) && AddTenantIDPrefix(t, g) in crds
    ensures Listed(UpstreamGroups(crds, t, groups), AddTenantIDPrefix(t, g))
            <==> || Listed(groups, g)
                 || (AddTenantIDPrefix(t, g) in groups && AddTenantIDPrefix(t, AddTenantIDPrefix(t, g)) !in crds)
  {
    var ups, pg := UpstreamGroups(crds, t, groups), AddTenantIDPrefix(t, g);
    WildcardStays(crds, t, groups);
    TrimUndoesAdd(t, g);
    if pg in ups {
      var i :| 0 <= i < |groups| && UpstreamGroup(crds, t, groups[i]) == pg;
      TrimUndoesAdd(t, groups[i]);
    }
    if g in groups {
      var i :| 0 <= i < |groups| && groups[i] == g;
      assert ups[i] == pg;
    }
    if pg in groups && AddTenantIDPrefix(t, pg) !in crds {
      var i :| 0 <= i < |groups| && groups[i] == pg;
      assert ups[i] == pg;
    }
  }

  /** A native group is matched as the tenant wrote it, unless the tenant also has a CRD in it. */
  lemma NativeGroupsKeepMeaning(crds: Crds, t: TenantId, groups: seq<string>, g: string)
    requires Sane(crds, t) && !Carries(t, g)
    ensures Listed(UpstreamGroups(crds, t, groups), g)
            <==> ALL in groups || (g in groups && AddTenantIDPrefix(t, g) !in crds)
  {
  }

  lemma WildcardStays(crds: Crds, t: TenantId, groups: seq<string>)
    requires Sane(crds, t)
    ensures ALL in UpstreamGroups(crds, t, groups) <==> ALL in groups
  {
  }

  ghost predicate OwnSpelled(t: TenantId, list: seq<string>) {
    exists i :: 0 <= i < |list| && Carries(t, list[i])
  }

  ghost predicate PlainRule(t: TenantId, r: Rule) {
    !OwnSpelled(t, r.groups) && !OwnSpelled(t, r.names)
  }

  /** A request for a custom resource is for a group the tenant has a CRD in; neither name nor group is
      spelled with the tenant's prefix. */
  ghost predicate PlainAsk(crds: Crds, t: TenantId, q: Ask) {
    && !Carries(t, q.group) && !Carries(t, q.name)
    && (q.custom ==> AddTenantIDPrefix(t, q.group) in crds)
  }

  /** A native request in a group the tenant also has a CRD in. */
  predicate Shadowed(crds: Crds, t: TenantId, q: Ask) {
    !q.custom && AddTenantIDPrefix(t, q.group) in crds
  }

  /** The translated request matches the forwarded rule if and only if the tenant's request matches the
      tenant's rule. */
  lemma RulesKeepMeaning(crds: Crds, t: TenantId, r: Rule, q: Ask)
    requires Sane(crds, t) && PlainRule(t, r) && PlainAsk(crds, t, q) && !Shadowed(crds, t, q)
    ensures Matches(ForwardRule(crds, t, r), Translated(t, q)) <==> Matches(r, q)
  {
    NamesKeepMeaning(t, r.names, q.name, q.clusterScoped);
    TrimUndoesAdd(t, q.name);
    TrimUndoesAdd(t, q.group);
    if q.custom {
      CustomGroupsKeepMeaning(crds, t, r.groups, q.group);
    } else {
      NativeGroupsKeepMeaning(crds, t, r.groups, q.group);
    }
  }

  /** A request keeps its answer under every rule exactly when it is not shadowed: a rule that names the
      group of a shadowed request no longer grants it. */
  lemma EveryRuleKeepsMeaningIff(crds: Crds, t: TenantId, q: Ask)
    requires Sane(crds, t) && PlainAsk(crds, t, q) && q.group != ALL
    ensures (forall r :: PlainRule(t, r) ==> (Matches(ForwardRule(crds, t, r), Translated(t, q)) <==> Matches(r, q)))
            <==> !Shadowed(crds, t, q)
  {
    if Shadowed(crds, t, q) {
      var r := Rule([ALL], [q.group], [ALL], []);
      assert q.group in r.groups;
      NativeGroupsKeepMeaning(crds, t, r.groups, q.group);
      assert PlainRule(t, r) && Matches(r, q) && !Matches(ForwardRule(crds, t, r), Translated(t, q));
    } else {
      forall r | PlainRule(t, r)
        ensures Matches(ForwardRule(crds, t, r), Translated(t, q)) <==> Matches(r, q)
      {
        RulesKeepMeaning(crds, t, r, q);
      }
    }
  }

  // ------------------------------------------------------------------ rules come back

  lemma {:induction false} UnprefixedOfConcat(t: TenantId, a: seq<string>, b: seq<string>)
    ensures Unprefixed(t, a + b) == Unprefixed(t, a) + Unprefixed(t, b)
    decreases |b|
  {
    if b == [] {
      assert a + b == a;
    } else {
      assert (a + b)[..|a + b| - 1] == a + b[..|b| - 1];
      UnprefixedOfConcat(t, a, b[..|b| - 1]);
    }
  }

  lemma {:induction false} NothingUnprefixed(t: TenantId, ns: seq<string>)
    requires forall i :: 0 <= i < |ns| ==> Carries(t, ns[i])
    ensures Unprefixed(t, ns) == []
    decreases |ns|
  {
    if ns != [] {
      NothingUnprefixed(t, ns[..|ns| - 1]);
    }
  }

  lemma {:induction false} UnprefixedIsAllIff(t: TenantId, ns: seq<string>)
    ensures |Unprefixed(t, ns)| <= |ns|
    ensures Unprefixed(t, ns) == ns <==> !OwnSpelled(t, ns)
    decreases |ns|
  {
    if ns != [] {
      var front, last := ns[..|ns| - 1], ns[|ns| - 1];
      UnprefixedIsAllIff(t, front);
      assert ns == front + [last];
      if OwnSpelled(t, ns) && !Carries(t, last) {
        var i :| 0 <= i < |ns| && Carries(t, ns[i]);
        assert Carries(t, front[i]);
        assert Unprefixed(t, ns)[..|Unprefixed(t, ns)| - 1] == Unprefixed(t, front);
      }
      if !OwnSpelled(t, ns) {
        forall i | 0 <= i < |front| ensures !Carries(t, front[i]) {
          assert front[i] == ns[i];
        }
      }
    }
  }

  lemma GroupsComeBackIff(crds: Crds, t: TenantId, gs: seq<string>)
    ensures TenantGroups(t, UpstreamGroups(crds, t, gs)) == gs
            <==> forall i :: 0 <= i < |gs| && Carries(t, gs[i]) ==> AddTenantIDPrefix(t, gs[i]) in crds
  {
  }

  /** Reading back a forwarded rule gives the rule that was written, exactly when none of its resource names
      and none of its native groups is spelled with the tenant's own prefix. */
  lemma RulesComeBackIff(crds: Crds, t: TenantId, r: Rule)
    ensures BackwardRule(t, ForwardRule(crds, t, r)) == r
            <==> && !OwnSpelled(t, r.names)
                 && (forall i :: 0 <= i < |r.groups| && Carries(t, r.groups[i]) ==> AddTenantIDPrefix(t, r.groups[i]) in crds)
  {
    var added := PrefixAll(t, r.names);
    forall i | 0 <= i < |added| ensures Carries(t, added[i]) {
      TrimUndoesAdd(t, r.names[i]);
    }
    UnprefixedOfConcat(t, r.names, added);
    NothingUnprefixed(t, added);
    assert Unprefixed(t, r.names + added) == Unprefixed(t, r.names);
    UnprefixedIsAllIff(t, r.names);
    GroupsComeBackIff(crds, t, r.groups);
  }
}
