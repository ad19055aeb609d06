/** Subjects and role references of a RoleBinding (pkg/convert/rolebinding.go), and the authorization
    decision that a binding and its role come to together.
 */
module RbacBindings {
  import opened Names
  import opened Rbac
  import opened Wrappers

  const ACCOUNT_USER := "system:serviceaccount:"
  const ACCOUNT_GROUP := "system:serviceaccounts:"

  datatype Kind = User | ServiceAccount | Group

  datatype Subject = Subject(kind: Kind, namespace: string, name: string)

  function ForwardSubject(t: TenantId, s: Subject): Subject {
    match s.kind
    case User => if |s.name| > 0 then s.(name := AddTenantIDPrefix(t, s.name)) else s
    case ServiceAccount =>
      if |s.namespace| > 0 then s.(namespace := AddTenantIDPrefix(t, s.namespace)) else s
    case Group =>
      if StartsWith(s.name, ACCOUNT_GROUP) && |s.name| > |ACCOUNT_GROUP| then
        s.(name := ACCOUNT_GROUP + AddTenantIDPrefix(t, s.name[|ACCOUNT_GROUP|..]))
      else if |s.name| > 0 then s.(name := AddTenantIDPrefix(t, s.name))
      else s
  }

  /** None for a subject that is refused because it is not the tenant's. */
  function BackwardSubject(t: TenantId, s: Subject): Option<Subject> {
    match s.kind
    case User =>
      if !StartsWith(s.name, t) then None else Some(s.(name := TrimTenantIDPrefix(t, s.name)))
    case ServiceAccount =>
      if s.namespace == "" then Some(s)
      else if !StartsWith(s.namespace, t) then None
      else Some(s.(namespace := TrimTenantIDPrefix(t, s.namespace)))
    case Group =>
      if StartsWith(s.name, ACCOUNT_GROUP) then
        var namespace := s.name[|ACCOUNT_GROUP|..];
        if !StartsWith(namespace, t) then None
        else Some(s.(name := ACCOUNT_GROUP + TrimTenantIDPrefix(t, namespace)))
      else if StartsWith(s.name, t) then Some(s.(name := TrimTenantIDPrefix(t, s.name)))
      else Some(s)
  }

  function ForwardSubjects(t: TenantId, ss: seq<Subject>): (ups: seq<Subject>)
    ensures |ups| == |ss| && forall i :: 0 <= i < |ss| ==> ups[i] == ForwardSubject(t, ss[i])
  {
    seq(|ss|, i requires 0 <= i < |ss| => ForwardSubject(t, ss[i]))
  }

  /** transformSubjectList, towards upstream: never an error. */
  method SubjectsToUpstream(t: TenantId, subjects: array<Subject>)
    modifies subjects
    ensures subjects[..] == ForwardSubjects(t, old(subjects[..]))
  {
    for i := 0 to subjects.Length
      invariant forall j :: 0 <= j < i ==> subjects[j] == ForwardSubject(t, old(subjects[j]))
      invariant forall j :: i <= j < subjects.Length ==> subjects[j] == old(subjects[j])
    {
      subjects[i] := ForwardSubject(t, subjects[i]);
    }
  }

  /** transformSubjectList, towards the tenant: stops at the first subject that is refused. */
  method SubjectsToTenant(t: TenantId, subjects: array<Subject>) returns (ok: bool)
    modifies subjects
    ensures ok <==> forall i :: 0 <= i < subjects.Length ==> BackwardSubject(t, old(subjects[i])).Some?
    ensures ok ==> forall i :: 0 <= i < subjects.Length ==> BackwardSubject(t, old(subjects[i])) == Some(subjects[i])
  {
    for i := 0 to subjects.Length
      invariant forall j :: 0 <= j < i ==> BackwardSubject(t, old(subjects[j])) == Some(subjects[j])
      invariant forall j :: i <= j < subjects.Length ==> subjects[j] == old(subjects[j])
    {
      var back := BackwardSubject(t, subjects[i]);
      if back.None? {
        return false;
      }
      subjects[i] := back.value;
    }
    return true;
  }

  // ------------------------------------------------------------------ subjects come back

  lemma AccountGroupSplits(namespace: string)
    ensures StartsWith(ACCOUNT_GROUP + namespace, ACCOUNT_GROUP)
    ensures (ACCOUNT_GROUP + namespace)[|ACCOUNT_GROUP|..] == namespace
  {
  }

  /** A prefixed name is never spelled like a service account or its group: the seventh character of one is
      a dash and of the other a colon. */
  lemma PrefixedIsNoAccount(t: TenantId, s: string)
    ensures StartsWith(AddTenantIDPrefix(t, s), t)
    ensures !StartsWith(AddTenantIDPrefix(t, s), ACCOUNT_GROUP) && !StartsWith(AddTenantIDPrefix(t, s), ACCOUNT_USER)
  {
    var up := AddTenantIDPrefix(t, s);
    assert up[TENANT_ID_LENGTH] == '-';
    assert ACCOUNT_GROUP[TENANT_ID_LENGTH] == ':' && ACCOUNT_USER[TENANT_ID_LENGTH] == ':';
  }

  /** Reading back a forwarded subject gives the subject that was written, except for a user without a name:
      that one is stored, and then refused on every read. */
  lemma SubjectComesBackIff(t: TenantId, s: Subject)
    ensures BackwardSubject(t, ForwardSubject(t, s)) == if s.kind.User? && s.name == "" then None else Some(s)
  {
    match s.kind
    case User =>
      TrimUndoesAdd(t, s.name);
      PrefixedIsNoAccount(t, s.name);
    case ServiceAccount =>
      TrimUndoesAdd(t, s.namespace);
      PrefixedIsNoAccount(t, s.namespace);
    case Group =>
      TrimUndoesAdd(t, s.name);
      PrefixedIsNoAccount(t, s.name);
      if StartsWith(s.name, ACCOUNT_GROUP) {
        var namespace := s.name[|ACCOUNT_GROUP|..];
        assert s.name == ACCOUNT_GROUP + namespace;
        AccountGroupSplits(AddTenantIDPrefix(t, namespace));
        TrimUndoesAdd(t, namespace);
        PrefixedIsNoAccount(t, namespace);
      }
  }

  // ------------------------------------------------------------------ subjects keep their meaning

  /** Who asks: a person with the groups it was authenticated with, or a service account. */
  datatype Who = Person(user: string, groups: set<string>) | Account(namespace: string, name: string)

  /** Authenticators give names that are not empty and do not look like a service account's. */
  ghost predicate Real(who: Who) {
    match who
    case Person(user, groups) => user != "" && forall g :: g in groups ==> g != "" && !StartsWith(g, ACCOUNT_GROUP)
    case Account(namespace, _) => namespace != ""
  }

  function UserName(who: Who): string {
    match who
    case Person(user, _) => user
    case Account(namespace, name) => ACCOUNT_USER + namespace + ":" + name
  }

  function GroupsOf(who: Who): set<string> {
    match who
    case Person(_, groups) => groups
    case Account(namespace, _) => {ACCOUNT_GROUP + namespace}
  }

  /** The same one, as the upstream cluster knows it. */
  function Upstream(t: TenantId, who: Who): Who {
    match who
    case Person(user, groups) => Person(AddTenantIDPrefix(t, user), set g | g in groups :: AddTenantIDPrefix(t, g))
    case Account(namespace, name) => Account(AddTenantIDPrefix(t, namespace), name)
  }

  /** Whether a subject of a binding in a namespace is this one. */
  predicate Means(s: Subject, bindingNamespace: string, who: Who) {
    match s.kind
    case User => s.name == UserName(who)
    case Group => s.name in GroupsOf(who)
    case ServiceAccount =>
      who.Account? && who.name == s.name
      && who.namespace == if s.namespace == "" then bindingNamespace else s.namespace
  }

  lemma InPrefixedGroups(t: TenantId, groups: set<string>, g: string)
    ensures AddTenantIDPrefix(t, g) in (set h | h in groups :: AddTenantIDPrefix(t, h)) <==> g in groups
  {
    forall h | h in groups && AddTenantIDPrefix(t, h) == AddTenantIDPrefix(t, g) ensures h == g {
      AddIsInjective(t, h, g);
    }
  }

  lemma AccountGroupKeepsMeaning(t: TenantId, namespace: string, who: Who)
    requires Real(who)
    ensures ACCOUNT_GROUP + AddTenantIDPrefix(t, namespace) in GroupsOf(Upstream(t, who))
            <==> ACCOUNT_GROUP + namespace in GroupsOf(who)
  {
    var up := ACCOUNT_GROUP + AddTenantIDPrefix(t, namespace);
    AccountGroupSplits(namespace);
    AccountGroupSplits(AddTenantIDPrefix(t, namespace));
    match who
    case Person(_, groups) =>
      forall h | h in groups ensures AddTenantIDPrefix(t, h) != up {
        PrefixedIsNoAccount(t, h);
      }
    case Account(other, _) =>
      AccountGroupSplits(other);
      AccountGroupSplits(AddTenantIDPrefix(t, other));
      if AddTenantIDPrefix(t, namespace) == AddTenantIDPrefix(t, other) {
        AddIsInjective(t, namespace, other);
      }
  }

  lemma PlainGroupKeepsMeaning(t: TenantId, g: string, who: Who)
    requires Real(who) && g != "" && !(StartsWith(g, ACCOUNT_GROUP) && |g| > |ACCOUNT_GROUP|)
    ensures AddTenantIDPrefix(t, g) in GroupsOf(Upstream(t, who)) <==> g in GroupsOf(who)
  {
    PrefixedIsNoAccount(t, g);
    match who
    case Person(_, groups) => InPrefixedGroups(t, groups, g);
    case Account(other, _) =>
      AccountGroupSplits(other);
      AccountGroupSplits(AddTenantIDPrefix(t, other));
  }

  /** A forwarded subject means, of the tenant's own people and accounts, exactly whom the subject the
      tenant wrote means; save that naming a service account as a user means nobody upstream. */
  lemma SubjectKeepsMeaning(t: TenantId, s: Subject, bindingNamespace: string, who: Who)
    requires Real(who)
    ensures Means(ForwardSubject(t, s), AddTenantIDPrefix(t, bindingNamespace), Upstream(t, who))
            <==> Means(s, bindingNamespace, who) && !(s.kind.User? && who.Account?)
  {
    match s.kind
    case User =>
      PrefixedIsNoAccount(t, s.name);
      match who {
        case Person(user, _) =>
          if AddTenantIDPrefix(t, s.name) == AddTenantIDPrefix(t, user) { AddIsInjective(t, s.name, user); }
        case Account(namespace, name) =>
          assert StartsWith(UserName(Upstream(t, who)), ACCOUNT_USER);
      }
    case Group =>
      if StartsWith(s.name, ACCOUNT_GROUP) && |s.name| > |ACCOUNT_GROUP| {
        assert s.name == ACCOUNT_GROUP + s.name[|ACCOUNT_GROUP|..];
        AccountGroupKeepsMeaning(t, s.name[|ACCOUNT_GROUP|..], who);
      } else if s.name != "" {
        PlainGroupKeepsMeaning(t, s.name, who);
      } else {
        EmptyGroupMeansNobody(who);
        EmptyGroupMeansNobody(Upstream(t, who));
      }
    case ServiceAccount =>
      if who.Account? {
        var namespace := if s.namespace == "" then bindingNamespace else s.namespace;
        if AddTenantIDPrefix(t, namespace) == AddTenantIDPrefix(t, who.namespace) {
          AddIsInjective(t, namespace, who.namespace);
        }
      }
  }

  lemma EmptyGroupMeansNobody(who: Who)
    requires who.Account? || forall g :: g in who.groups ==> g != ""
    ensures "" !in GroupsOf(who)
  {
  }

  /** A name on the upstream cluster that belongs to the tenant. */
  predicate InsideUser(t: TenantId, user: string) {
    Carries(t, user) || StartsWith(user, ACCOUNT_USER + Prefix(t))
  }

  predicate InsideGroup(t: TenantId, group: string) {
    Carries(t, group) || StartsWith(group, ACCOUNT_GROUP + Prefix(t))
  }

  /** Whoever a forwarded subject means, of everybody on the upstream cluster, it means by a name or a group
      of the tenant's. */
  lemma ForwardedMeansOnlyInsiders(t: TenantId, s: Subject, bindingNamespace: string, anyone: Who)
    requires s.name != "" && Carries(t, bindingNamespace)
    requires Means(ForwardSubject(t, s), bindingNamespace, anyone)
    ensures InsideUser(t, UserName(anyone)) || exists g :: g in GroupsOf(anyone) && InsideGroup(t, g)
  {
  }

  // ------------------------------------------------------------------ bindings and grants

  datatype RoleRef = ClusterRole(name: string) | LocalRole(name: string)

  datatype Binding = Binding(namespace: string, roleRef: RoleRef, subjects: seq<Subject>)

  function ForwardRoleRef(t: TenantId, ref: RoleRef): RoleRef {
    if ref.ClusterRole? && |ref.name| > 0 then ClusterRole(AddTenantIDPrefix(t, ref.name)) else ref
  }

  function BackwardRoleRef(t: TenantId, ref: RoleRef): RoleRef {
    if ref.ClusterRole? && StartsWith(ref.name, t) then ClusterRole(TrimTenantIDPrefix(t, ref.name)) else ref
  }

  lemma RoleRefComesBack(t: TenantId, ref: RoleRef)
    ensures BackwardRoleRef(t, ForwardRoleRef(t, ref)) == ref
  {
  }

  function ForwardBinding(t: TenantId, b: Binding): Binding {
    Binding(AddTenantIDPrefix(t, b.namespace), ForwardRoleRef(t, b.roleRef), ForwardSubjects(t, b.subjects))
  }

  /** The roles of a cluster: cluster roles by name, local ones by namespace and name. */
  datatype Roles = Roles(cluster: map<string, seq<Rule>>, local: map<(string, string), seq<Rule>>)

  function RulesOf(roles: Roles, b: Binding): seq<Rule> {
    match b.roleRef
    case ClusterRole(name) => if name in roles.cluster then roles.cluster[name] else []
    case LocalRole(name) => if (b.namespace, name) in roles.local then roles.local[(b.namespace, name)] else []
  }

  predicate AnyMatches(rules: seq<Rule>, q: Ask) {
    exists i :: 0 <= i < |rules| && Matches(rules[i], q)
  }

  predicate AnyMeans(b: Binding, who: Who) {
    exists i :: 0 <= i < |b.subjects| && Means(b.subjects[i], b.namespace, who)
  }

  /** The decision: the binding means this one, and its role allows that. */
  predicate Grants(roles: Roles, b: Binding, who: Who, q: Ask) {
    AnyMeans(b, who) && AnyMatches(RulesOf(roles, b), q)
  }

  function ForwardRules(crds: Crds, t: TenantId, rules: seq<Rule>): (ups: seq<Rule>)
    ensures |ups| == |rules| && forall i :: 0 <= i < |rules| ==> ups[i] == ForwardRule(crds, t, rules[i])
  {
    seq(|rules|, i requires 0 <= i < |rules| => ForwardRule(crds, t, rules[i]))
  }

  /** The upstream cluster holds the tenant's roles, under their upstream names, and perhaps others. */
  ghost predicate Holds(crds: Crds, t: TenantId, tenant: Roles, up: Roles) {
    && (forall n: string :: AddTenantIDPrefix(t, n) in up.cluster <==> n in tenant.cluster)
    && (forall n :: n in tenant.cluster ==> up.cluster[AddTenantIDPrefix(t, n)] == ForwardRules(crds, t, tenant.cluster[n]))
    && (forall ns: string, n: string :: (AddTenantIDPrefix(t, ns), n) in up.local <==> (ns, n) in tenant.local)
    && (forall k :: k in tenant.local ==>
          up.local[(AddTenantIDPrefix(t, k.0), k.1)] == ForwardRules(crds, t, tenant.local[k]))
  }

  ghost predicate PlainRules(t: TenantId, rules: seq<Rule>) {
    forall i :: 0 <= i < |rules| ==> PlainRule(t, rules[i])
  }

  /** No user is named by the user name of a service account. */
  ghost predicate PlainSubjects(b: Binding) {
    forall i :: 0 <= i < |b.subjects| && b.subjects[i].kind.User? ==> !StartsWith(b.subjects[i].name, ACCOUNT_USER)
  }

  lemma RulesOfForwarded(crds: Crds, t: TenantId, tenant: Roles, up: Roles, b: Binding)
    requires Holds(crds, t, tenant, up) && b.roleRef.name != ""
    ensures RulesOf(up, ForwardBinding(t, b)) == ForwardRules(crds, t, RulesOf(tenant, b))
  {
  }

  lemma AnyMatchesForwarded(crds: Crds, t: TenantId, rules: seq<Rule>, q: Ask)
    requires Sane(crds, t) && PlainRules(t, rules) && PlainAsk(crds, t, q) && !Shadowed(crds, t, q)
    ensures AnyMatches(ForwardRules(crds, t, rules), Translated(t, q)) <==> AnyMatches(rules, q)
  {
    var ups := ForwardRules(crds, t, rules);
    forall i | 0 <= i < |rules|
      ensures Matches(ups[i], Translated(t, q)) <==> Matches(rules[i], q)
    {
      RulesKeepMeaning(crds, t, rules[i], q);
    }
  }

  lemma AnyMeansForwarded(t: TenantId, b: Binding, who: Who)
    requires Real(who) && PlainSubjects(b)
    ensures AnyMeans(ForwardBinding(t, b), Upstream(t, who)) <==> AnyMeans(b, who)
  {
    var up := ForwardBinding(t, b);
    forall i | 0 <= i < |b.subjects|
      ensures Means(up.subjects[i], up.namespace, Upstream(t, who)) <==> Means(b.subjects[i], b.namespace, who)
    {
      SubjectKeepsMeaning(t, b.subjects[i], b.namespace, who);
      if who.Account? {
        assert StartsWith(UserName(who), ACCOUNT_USER);
      }
    }
  }

  /** The authorizer of the shared cluster, asked about the translated request of one of the tenant's people
      or accounts, answers what the tenant's own cluster would have answered. */
  lemma GrantsAreKept(crds: Crds, t: TenantId, tenant: Roles, up: Roles, b: Binding, who: Who, q: Ask)
    requires Sane(crds, t) && Holds(crds, t, tenant, up) && b.roleRef.name != ""
    requires PlainRules(t, RulesOf(tenant, b)) && PlainSubjects(b)
    requires Real(who) && PlainAsk(crds, t, q) && !Shadowed(crds, t, q)
    ensures Grants(up, ForwardBinding(t, b), Upstream(t, who), Translated(t, q)) <==> Grants(tenant, b, who, q)
  {
    RulesOfForwarded(crds, t, tenant, up, b);
    AnyMatchesForwarded(crds, t, RulesOf(tenant, b), q);
    AnyMeansForwarded(t, b, who);
  }
}
