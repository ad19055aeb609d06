/** Confining the namespace selectors of a NetworkPolicy to the tenant (pkg/convert/networkpolicy.go).
 */
module NetworkPolicy {
  import opened Names
  import opened Wrappers

  type Labels = map<string, string>

  const NAME_LABEL := "kubernetes.io/metadata.name"

  // ------------------------------------------------------------------ selecting namespaces

  /** An expression on one label, given by what it makes of the label's value, if the label is there. */
  datatype Expression = Expression(key: string, meets: Option<string> -> bool)

  /** `matchLabels` may be absent, which matches like an empty one but is not the same object. */
  datatype Selector = Selector(matchLabels: Option<Labels>, expressions: seq<Expression>)

  function Wanted(s: Selector): Labels {
    if s.matchLabels.Some? then s.matchLabels.value else map[]
  }

  function Label(labels: Labels, key: string): Option<string> {
    if key in labels then Some(labels[key]) else None
  }

  predicate Has(labels: Labels, wanted: Labels) {
    forall k :: k in wanted ==> k in labels && labels[k] == wanted[k]
  }

  predicate Meets(labels: Labels, expressions: seq<Expression>) {
    forall i :: 0 <= i < |expressions| ==> expressions[i].meets(Label(labels, expressions[i].key))
  }

  predicate Selects(s: Selector, labels: Labels) {
    Has(labels, Wanted(s)) && Meets(labels, s.expressions)
  }

  datatype Namespace = Namespace(name: string, labels: Labels)

  /** A namespace of the shared cluster is labelled with its name, and with the tenant its name says. */
  ghost predicate NamespaceOk(u: Namespace) {
    NAME_LABEL in u.labels && u.labels[NAME_LABEL] == u.name && LabelledByName(u.name, u.labels)
  }

  /** One of the tenant's namespaces, as the tenant knows it. */
  function AsTenantSees(t: TenantId, u: Namespace): Namespace {
    var name := TrimTenantIDPrefix(t, u.name);
    Namespace(name, (u.labels - {TENANT_LABEL})[NAME_LABEL := name])
  }

  // ------------------------------------------------------------------ confining and releasing

  function Renamed(t: TenantId, wanted: Labels): Labels {
    if NAME_LABEL in wanted && wanted[NAME_LABEL] != "" then
      wanted[NAME_LABEL := UpstreamNamespace(t, wanted[NAME_LABEL])]
    else wanted
  }

  function Confined(t: TenantId, s: Selector): Selector {
    s.(matchLabels := Some(Renamed(t, Wanted(s))[TENANT_LABEL := t]))
  }

  function Unnamed(t: TenantId, wanted: Labels): Labels {
    if NAME_LABEL in wanted && wanted[NAME_LABEL] != "" then
      wanted[NAME_LABEL := TrimTenantIDPrefix(t, wanted[NAME_LABEL])]
    else wanted
  }

  function Released(t: TenantId, s: Selector): Selector {
    if s.matchLabels.None? then s
    else
      var left := Unnamed(t, s.matchLabels.value) - {TENANT_LABEL};
      s.(matchLabels := if left == map[] then None else Some(left))
  }

  /** A peer: some of the pods of some namespaces, or of the policy's own one; or a block of addresses. */
  datatype Peer = Pods(pods: string -> bool, namespaces: Option<Selector>) | Block(contains: string -> bool)

  function ForwardPeer(t: TenantId, p: Peer): Peer {
    if p.Block? || p.namespaces.None? then p else p.(namespaces := Some(Confined(t, p.namespaces.value)))
  }

  function BackwardPeer(t: TenantId, p: Peer): Peer {
    if p.Block? || p.namespaces.None? then p else p.(namespaces := Some(Released(t, p.namespaces.value)))
  }

  /** One list of peers per rule. */
  type Rules = seq<seq<Peer>>

  datatype Policy = Policy(ingress: Rules, egress: Rules)

  ghost predicate EachPeer(rules: Rules, others: Rules, f: Peer -> Peer) {
    |others| == |rules|
    && forall i :: 0 <= i < |rules| ==>
         |others[i]| == |rules[i]| && forall j :: 0 <= j < |rules[i]| ==> others[i][j] == f(rules[i][j])
  }

  /** Every peer of every rule is visited, once. */
  method VisitPeers(rules: Rules, visit: Peer -> Peer) returns (visited: Rules)
    ensures EachPeer(rules, visited, visit)
  {
    visited := [];
    for i := 0 to |rules|
      invariant |visited| == i
      invariant forall a :: 0 <= a < i ==>
                  |visited[a]| == |rules[a]| && forall j :: 0 <= j < |rules[a]| ==> visited[a][j] == visit(rules[a][j])
    {
      var peers: seq<Peer> := [];
      for j := 0 to |rules[i]|
        invariant |peers| == j && forall b :: 0 <= b < j ==> peers[b] == visit(rules[i][b])
      {
        peers := peers + [visit(rules[i][j])];
      }
      visited := visited + [peers];
    }
  }

  method Forward(t: TenantId, policy: Policy) returns (up: Policy)
    ensures EachPeer(policy.ingress, up.ingress, p => ForwardPeer(t, p))
    ensures EachPeer(policy.egress, up.egress, p => ForwardPeer(t, p))
  {
    var ingress := VisitPeers(policy.ingress, p => ForwardPeer(t, p));
    var egress := VisitPeers(policy.egress, p => ForwardPeer(t, p));
    return Policy(ingress, egress);
  }

  method Backward(t: TenantId, up: Policy) returns (policy: Policy)
    ensures EachPeer(up.ingress, policy.ingress, p => BackwardPeer(t, p))
    ensures EachPeer(up.egress, policy.egress, p => BackwardPeer(t, p))
  {
    var ingress := VisitPeers(up.ingress, p => BackwardPeer(t, p));
    var egress := VisitPeers(up.egress, p => BackwardPeer(t, p));
    return Policy(ingress, egress);
  }

  // ------------------------------------------------------------------ what is selected

  /** Whatever a tenant writes, only its own namespaces are selected. */
  lemma ConfinedSelectsOnlyTheTenants(t: TenantId, s: Selector, u: Namespace)
    requires NamespaceOk(u) && Selects(Confined(t, s), u.labels)
    ensures Carries(t, u.name)
  {
  }

  /** No expression is about a label that is different upstream. */
  ghost predicate PlainExpressions(s: Selector) {
    forall i :: 0 <= i < |s.expressions| ==> s.expressions[i].key != NAME_LABEL && s.expressions[i].key != TENANT_LABEL
  }

  lemma ExpressionsKeepMeaning(t: TenantId, s: Selector, u: Namespace)
    requires PlainExpressions(s)
    ensures Meets(u.labels, s.expressions) <==> Meets(AsTenantSees(t, u).labels, s.expressions)
  {
  }

  /** What the selector comes to once the tenant label and the tenant's prefix on a name are read past. */
  function Understood(t: TenantId, s: Selector): Labels {
    Unnamed(t, Wanted(s)) - {TENANT_LABEL}
  }

  lemma NameKeepsMeaning(t: TenantId, wanted: string, u: Namespace)
    requires NamespaceOk(u) && Carries(t, u.name)
    ensures u.name == (if wanted != "" then UpstreamNamespace(t, wanted) else wanted)
            <==> TrimTenantIDPrefix(t, u.name) == (if wanted != "" then TrimTenantIDPrefix(t, wanted) else wanted)
  {
  }

  /** A confined selector selects exactly the tenant's own namespaces that the selector, so understood, selects
      among the namespaces the tenant knows. */
  lemma ConfinedSelectsExactly(t: TenantId, s: Selector, u: Namespace)
    requires NamespaceOk(u) && PlainExpressions(s)
    ensures Selects(Confined(t, s), u.labels)
            <==> Carries(t, u.name) && Has(AsTenantSees(t, u).labels, Understood(t, s))
                 && Meets(AsTenantSees(t, u).labels, s.expressions)
  {
    ExpressionsKeepMeaning(t, s, u);
    if Carries(t, u.name) {
      HasKeepsMeaning(t, s, u);
    } else if Selects(Confined(t, s), u.labels) {
      ConfinedSelectsOnlyTheTenants(t, s, u);
    }
  }

  lemma HasKeepsMeaning(t: TenantId, s: Selector, u: Namespace)
    requires NamespaceOk(u) && Carries(t, u.name)
    ensures Has(u.labels, Wanted(Confined(t, s))) <==> Has(AsTenantSees(t, u).labels, Understood(t, s))
  {
    var up, own := Wanted(Confined(t, s)), Understood(t, s);
    if NAME_LABEL in Wanted(s) {
      NameKeepsMeaning(t, Wanted(s)[NAME_LABEL], u);
    }
    forall k | k in up
      ensures (k in u.labels && u.labels[k] == up[k])
              <==> (k in own ==> k in AsTenantSees(t, u).labels && AsTenantSees(t, u).labels[k] == own[k])
    {
    }
    assert forall k :: k in own ==> k in up;
  }

  /** The selector says what it says in the tenant's own terms: it names no upstream spelling, and not the
      tenant label. */
  predicate PlainLabels(t: TenantId, s: Selector) {
    TENANT_LABEL !in Wanted(s) && (NAME_LABEL in Wanted(s) ==> !Carries(t, Wanted(s)[NAME_LABEL]))
  }

  /** A forwarded selector selects exactly the upstream images of the tenant's namespaces that the selector
      the tenant wrote selects. */
  lemma SelectorsKeepMeaning(t: TenantId, s: Selector, u: Namespace)
    requires NamespaceOk(u) && PlainExpressions(s) && PlainLabels(t, s)
    ensures Selects(Confined(t, s), u.labels) <==> Carries(t, u.name) && Selects(s, AsTenantSees(t, u).labels)
  {
  }

  /** Where traffic comes from or goes to: a pod, in a namespace of the cluster, or somewhere outside. */
  datatype Source = Source(home: Option<Namespace>, pod: string, address: string)

  predicate Admits(p: Peer, policyNamespace: string, from: Source) {
    match p
    case Block(contains) => contains(from.address)
    case Pods(pods, namespaces) =>
      && from.home.Some? && pods(from.pod)
      && if namespaces.None? then from.home.value.name == policyNamespace
         else Selects(namespaces.value, from.home.value.labels)
  }

  /** A rule without peers admits everything. */
  predicate RuleAdmits(peers: seq<Peer>, policyNamespace: string, from: Source) {
    peers == [] || exists j :: 0 <= j < |peers| && Admits(peers[j], policyNamespace, from)
  }

  predicate RulesAdmit(rules: Rules, policyNamespace: string, from: Source) {
    exists i :: 0 <= i < |rules| && RuleAdmits(rules[i], policyNamespace, from)
  }

  ghost predicate SourceOk(from: Source) {
    from.home.Some? ==> NamespaceOk(from.home.value)
  }

  predicate Inside(t: TenantId, from: Source) {
    from.home.Some? && Carries(t, from.home.value.name)
  }

  /** To a tenant, whatever is not in one of its own namespaces is outside its cluster. */
  function SeenBy(t: TenantId, from: Source): Source {
    from.(home := if Inside(t, from) then Some(AsTenantSees(t, from.home.value)) else None)
  }

  ghost predicate PlainPeer(t: TenantId, p: Peer) {
    p.Pods? && p.namespaces.Some? ==> PlainExpressions(p.namespaces.value) && PlainLabels(t, p.namespaces.value)
  }

  ghost predicate PlainRules(t: TenantId, rules: Rules) {
    forall i, j :: 0 <= i < |rules| && 0 <= j < |rules[i]| ==> PlainPeer(t, rules[i][j])
  }

  /** A forwarded peer admits upstream exactly what the peer the tenant wrote admits in the tenant's view. */
  lemma PeersKeepMeaning(t: TenantId, p: Peer, policyNamespace: string, from: Source)
    requires SourceOk(from) && PlainPeer(t, p)
    ensures Admits(ForwardPeer(t, p), AddTenantIDPrefix(t, policyNamespace), from)
            <==> Admits(p, policyNamespace, SeenBy(t, from))
  {
    TrimUndoesAdd(t, policyNamespace);
    if p.Pods? && from.home.Some? {
      var u := from.home.value;
      if Carries(t, u.name) {
        AddUndoesTrim(t, u.name);
      }
      if p.namespaces.Some? {
        SelectorsKeepMeaning(t, p.namespaces.value, u);
      }
    }
  }

  /** And so a forwarded policy lets through, in each direction, exactly what the tenant's policy says: of
      the tenant's own pods those it says, and of anything else, other tenants' pods included, what it says
      of the world outside. */
  lemma PoliciesKeepMeaning(t: TenantId, rules: Rules, up: Rules, policyNamespace: string, from: Source)
    requires SourceOk(from) && PlainRules(t, rules) && EachPeer(rules, up, p => ForwardPeer(t, p))
    ensures RulesAdmit(up, AddTenantIDPrefix(t, policyNamespace), from)
            <==> RulesAdmit(rules, policyNamespace, SeenBy(t, from))
  {
    forall i | 0 <= i < |rules|
      ensures RuleAdmits(up[i], AddTenantIDPrefix(t, policyNamespace), from)
              <==> RuleAdmits(rules[i], policyNamespace, SeenBy(t, from))
    {
      forall j | 0 <= j < |rules[i]|
        ensures Admits(up[i][j], AddTenantIDPrefix(t, policyNamespace), from)
                <==> Admits(rules[i][j], policyNamespace, SeenBy(t, from))
      {
        PeersKeepMeaning(t, rules[i][j], policyNamespace, from);
      }
    }
  }

  /** A rule that says nothing about namespaces: one without peers, or with a block of addresses. */
  predicate Opens(peers: seq<Peer>, address: string) {
    peers == [] || exists j :: 0 <= j < |peers| && peers[j].Block? && peers[j].contains(address)
  }

  /** Whatever selectors a tenant writes, a forwarded policy admits from outside the tenant exactly what a
      rule without peers or an address block admits. */
  lemma OutsidersAreAdmittedIff(t: TenantId, rules: Rules, up: Rules, policyNamespace: string, from: Source)
    requires SourceOk(from) && !Inside(t, from) && EachPeer(rules, up, p => ForwardPeer(t, p))
    ensures RulesAdmit(up, AddTenantIDPrefix(t, policyNamespace), from)
            <==> exists i :: 0 <= i < |rules| && Opens(rules[i], from.address)
  {
    TrimUndoesAdd(t, policyNamespace);
    forall i | 0 <= i < |rules|
      ensures RuleAdmits(up[i], AddTenantIDPrefix(t, policyNamespace), from) <==> Opens(rules[i], from.address)
    {
      forall j | 0 <= j < |rules[i]|
        ensures Admits(up[i][j], AddTenantIDPrefix(t, policyNamespace), from)
                <==> rules[i][j].Block? && rules[i][j].contains(from.address)
      {
        if rules[i][j].Pods? && rules[i][j].namespaces.Some? && Admits(up[i][j], AddTenantIDPrefix(t, policyNamespace), from) {
          ConfinedSelectsOnlyTheTenants(t, rules[i][j].namespaces.value, from.home.value);
        }
      }
    }
  }

  /** Another namespace than the tenant's, on any cluster. */
  const ELSEWHERE := Namespace("default", map[NAME_LABEL := "default"])

  lemma ElsewhereIsOk()
    ensures NamespaceOk(ELSEWHERE) && forall t: TenantId :: !Carries(t, ELSEWHERE.name)
  {
    forall t: TenantId ensures !Carries(t, ELSEWHERE.name) {
      assert "default"[TENANT_ID_LENGTH] != '-';
    }
  }

  ghost predicate IsConfined(t: TenantId, up: Rules, policyNamespace: string) {
    forall from: Source :: SourceOk(from) && RulesAdmit(up, AddTenantIDPrefix(t, policyNamespace), from) ==> Inside(t, from)
  }

  /** So one direction of a forwarded policy is confined to the tenant exactly when none of its rules is
      without peers, and none names a block with an address in it. */
  lemma ForwardedIsConfinedIff(t: TenantId, rules: Rules, up: Rules, policyNamespace: string)
    requires EachPeer(rules, up, p => ForwardPeer(t, p))
    ensures IsConfined(t, up, policyNamespace)
            <==> forall i, address :: 0 <= i < |rules| ==> !Opens(rules[i], address)
  {
    if i, address :| 0 <= i < |rules| && Opens(rules[i], address) {
      var from := Source(Some(ELSEWHERE), "", address);
      ElsewhereIsOk();
      OutsidersAreAdmittedIff(t, rules, up, policyNamespace, from);
      assert SourceOk(from) && RulesAdmit(up, AddTenantIDPrefix(t, policyNamespace), from) && !Inside(t, from);
    } else {
      forall from: Source | SourceOk(from) && RulesAdmit(up, AddTenantIDPrefix(t, policyNamespace), from)
        ensures Inside(t, from)
      {
        if !Inside(t, from) {
          OutsidersAreAdmittedIff(t, rules, up, policyNamespace, from);
        }
      }
    }
  }

  /** The rule that says nothing at all is forwarded as it is, and admits every other tenant. */
  lemma EmptyRuleAdmitsEverybody(t: TenantId, policyNamespace: string, from: Source)
    ensures EachPeer([[]], [[]], p => ForwardPeer(t, p)) && RulesAdmit([[]], policyNamespace, from)
    ensures !IsConfined(t, [[]], policyNamespace)
  {
    var rules: Rules := [[]];
    assert RuleAdmits(rules[0], policyNamespace, from);
    assert Opens(rules[0], "");
    ForwardedIsConfinedIff(t, rules, rules, policyNamespace);
  }

  // ------------------------------------------------------------------ when the meaning is lost

  /** The namespace that has the labels a confined selector asks for, and nothing more. */
  function Chosen(t: TenantId, s: Selector): Namespace {
    var name := if NAME_LABEL in Wanted(s) then UpstreamNamespace(t, Wanted(s)[NAME_LABEL]) else AddTenantIDPrefix(t, "x");
    Namespace(name, Wanted(s)[NAME_LABEL := name][TENANT_LABEL := t])
  }

  lemma ChosenIsOk(t: TenantId, s: Selector)
    requires NAME_LABEL in Wanted(s) ==> !Unnameable(t, Wanted(s)[NAME_LABEL])
    ensures NamespaceOk(Chosen(t, s)) && Carries(t, Chosen(t, s).name)
  {
    var u := Chosen(t, s);
    TrimUndoesAdd(t, "x");
    if NAME_LABEL in Wanted(s) {
      UpstreamNamespaceResolves(t, Wanted(s)[NAME_LABEL], Wanted(s)[NAME_LABEL]);
    }
    forall other: TenantId | Carries(other, u.name) ensures other == t {
      PrefixesAreDisjoint(other, t, u.name);
    }
  }

  /** A name no namespace of a tenant's can have. */
  predicate Unnameable(t: TenantId, name: string) {
    var own := TrimTenantIDPrefix(t, name);
    own == "" || Carries(t, own)
  }

  ghost predicate SelectsNothing(t: TenantId, s: Selector) {
    forall u: Namespace :: NamespaceOk(u) ==> !Selects(Confined(t, s), u.labels)
  }

  ghost predicate KeepsMeaning(t: TenantId, s: Selector) {
    forall u: Namespace :: NamespaceOk(u) ==>
      (Selects(Confined(t, s), u.labels) <==> Carries(t, u.name) && Selects(s, AsTenantSees(t, u).labels))
  }

  /** A selector that is not plain selects nothing among the namespaces the tenant knows. */
  lemma UnplainSelectsNothing(t: TenantId, s: Selector, u: Namespace)
    requires NamespaceOk(u) && Carries(t, u.name) && !PlainLabels(t, s)
    ensures !Selects(s, AsTenantSees(t, u).labels)
  {
    if TENANT_LABEL in Wanted(s) {
      assert TENANT_LABEL !in AsTenantSees(t, u).labels;
    } else {
      assert AsTenantSees(t, u).labels[NAME_LABEL] == TrimTenantIDPrefix(t, u.name);
    }
  }

  /** Whatever its expressions on other labels, a selector keeps its meaning on every cluster exactly when it
      is plain, or selects nothing upstream whatever there is. */
  lemma SelectorsKeepMeaningIff(t: TenantId, s: Selector)
    requires PlainExpressions(s)
    ensures KeepsMeaning(t, s) <==> PlainLabels(t, s) || SelectsNothing(t, s)
  {
    if PlainLabels(t, s) {
      forall u: Namespace | NamespaceOk(u)
        ensures Selects(Confined(t, s), u.labels) <==> Carries(t, u.name) && Selects(s, AsTenantSees(t, u).labels)
      {
        SelectorsKeepMeaning(t, s, u);
      }
    } else {
      forall u: Namespace | NamespaceOk(u)
        ensures Carries(t, u.name) ==> !Selects(s, AsTenantSees(t, u).labels)
        ensures Selects(Confined(t, s), u.labels) ==> Carries(t, u.name)
      {
        if Carries(t, u.name) {
          UnplainSelectsNothing(t, s, u);
        }
        if Selects(Confined(t, s), u.labels) {
          ConfinedSelectsOnlyTheTenants(t, s, u);
        }
      }
    }
  }

  /** Without expressions, it selects nothing exactly when it names a namespace no tenant can have. */
  lemma SelectsNothingIff(t: TenantId, s: Selector)
    requires s.expressions == []
    ensures SelectsNothing(t, s) <==> NAME_LABEL in Wanted(s) && Unnameable(t, Wanted(s)[NAME_LABEL])
  {
    if NAME_LABEL in Wanted(s) && Unnameable(t, Wanted(s)[NAME_LABEL]) {
      forall u: Namespace | NamespaceOk(u) ensures !Selects(Confined(t, s), u.labels) {
        if Carries(t, u.name) {
          NameKeepsMeaning(t, Wanted(s)[NAME_LABEL], u);
          HasKeepsMeaning(t, s, u);
          assert NAME_LABEL in Understood(t, s);
        } else if Selects(Confined(t, s), u.labels) {
          ConfinedSelectsOnlyTheTenants(t, s, u);
        }
      }
    } else {
      ChosenIsOk(t, s);
      assert Selects(Confined(t, s), Chosen(t, s).labels);
    }
  }

  /** An expression on the name is forwarded as it is, and so does not find the tenant's namespace. */
  lemma ExpressionOnTheNameLosesItsMeaning(t: TenantId)
    ensures var s := Selector(None, [Expression(NAME_LABEL, (v: Option<string>) => v == Some("default"))]);
            var u := Chosen(t, Selector(Some(map[NAME_LABEL := "default"]), []));
            NamespaceOk(u) && Selects(s, AsTenantSees(t, u).labels) && !Selects(Confined(t, s), u.labels)
  {
    var wanted := Selector(Some(map[NAME_LABEL := "default"]), []);
    var s := Selector(None, [Expression(NAME_LABEL, (v: Option<string>) => v == Some("default"))]);
    var u := Chosen(t, wanted);
    assert "default"[TENANT_ID_LENGTH] != '-';
    TrimUndoesAdd(t, "default");
    ChosenIsOk(t, wanted);
    assert u.name == AddTenantIDPrefix(t, "default");
    assert !s.expressions[0].meets(Label(u.labels, NAME_LABEL));
  }

  // ------------------------------------------------------------------ selectors come back

  /** What the tenant reads back is what it wrote, exactly when that is plain and not an empty map spelled
      out; a peer without a selector always comes back. */
  lemma SelectorComesBackIff(t: TenantId, s: Selector)
    ensures Released(t, Confined(t, s)) == s <==> PlainLabels(t, s) && s.matchLabels != Some(map[])
  {
    var wanted := Wanted(s);
    var up := Renamed(t, wanted)[TENANT_LABEL := t];
    var left := Unnamed(t, up) - {TENANT_LABEL};
    if NAME_LABEL in wanted && wanted[NAME_LABEL] != "" {
      var name := wanted[NAME_LABEL];
      UpstreamNamespaceResolves(t, name, name);
      assert up[NAME_LABEL] == UpstreamNamespace(t, name) && up[NAME_LABEL] != "";
      assert left[NAME_LABEL] == TrimTenantIDPrefix(t, name);
      assert TrimTenantIDPrefix(t, name) == name <==> !Carries(t, name);
    }
    assert left == wanted <==> PlainLabels(t, s) by {
      if PlainLabels(t, s) {
        assert left == wanted;
      } else if TENANT_LABEL in wanted {
        assert TENANT_LABEL !in left;
      }
    }
  }
}
