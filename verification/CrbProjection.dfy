/** ClusterRoleBindings as RoleBindings: one record in the tenant's kube-system and a copy in every other
    namespace the tenant owns (pkg/proxy/crbprojection.go).
 */
module CrbProjection {
  import opened Metadata
  import opened Names
  import opened RbacBindings
  import Rbac

  const PROJECTION := "kubezoo:clusterrolebinding:"
  const PROJECTION_LABEL := "kubezoo.io/clusterrolebinding"
  const CANONICAL := "kube-system"

  type Labels = map<string, string>

  datatype Error = Invalid | BadRequest | AlreadyExists | NotFound

  datatype Result<T> = Ok(value: T) | Err(error: Error)

  function ProjectedName(name: string): string {
    PROJECTION + name
  }

  predicate IsProjectedName(name: string) {
    StartsWith(name, PROJECTION)
  }

  function TrimProjectedName(name: string): string {
    if IsProjectedName(name) then name[|PROJECTION|..] else name
  }

  lemma ProjectedNameComesBack(name: string)
    ensures IsProjectedName(ProjectedName(name)) && TrimProjectedName(ProjectedName(name)) == name
  {
  }

  lemma ProjectedNameIsOnto(name: string)
    requires IsProjectedName(name)
    ensures ProjectedName(TrimProjectedName(name)) == name
  {
  }

  // ------------------------------------------------------------------ the record and what it presents

  /** A binding in the tenant's terms: a ClusterRoleBinding, or the RoleBinding that records one. */
  datatype Binding = Binding(
    name: string,
    generateName: string,
    namespace: string,
    labels: Labels,
    roleRef: RoleRef,
    subjects: seq<Subject>)

  predicate Homeless(s: Subject) {
    s.kind.ServiceAccount? && s.namespace == ""
  }

  predicate AnyHomeless(subjects: seq<Subject>) {
    exists i :: 0 <= i < |subjects| && Homeless(subjects[i])
  }

  function AsRecord(crb: Binding): Result<Binding> {
    if AnyHomeless(crb.subjects) then Err(Invalid)
    else if crb.name == "" && crb.generateName == "" then Err(BadRequest)
    else Ok(crb.(
      name := if crb.name != "" then ProjectedName(crb.name) else "",
      generateName := if crb.name != "" then "" else ProjectedName(crb.generateName),
      namespace := CANONICAL,
      labels := crb.labels[PROJECTION_LABEL := "true"]))
  }

  method AsRoleBinding(crb: Binding) returns (record: Result<Binding>)
    ensures record == AsRecord(crb)
  {
    for i := 0 to |crb.subjects|
      invariant forall j :: 0 <= j < i ==> !Homeless(crb.subjects[j])
    {
      if crb.subjects[i].kind.ServiceAccount? && crb.subjects[i].namespace == "" {
        return Err(Invalid);
      }
    }
    var it := crb;
    if it.name != "" {
      it := it.(name := ProjectedName(it.name), generateName := "");
    } else if it.generateName != "" {
      it := it.(name := "", generateName := ProjectedName(it.generateName));
    } else {
      return Err(BadRequest);
    }
    it := it.(namespace := CANONICAL);
    it := it.(labels := it.labels[PROJECTION_LABEL := "true"]);
    return Ok(it);
  }

  function Presented(record: Binding): Binding {
    record.(
      name := TrimProjectedName(record.name),
      generateName := if record.generateName != "" then TrimProjectedName(record.generateName) else "",
      namespace := "",
      labels := record.labels - {PROJECTION_LABEL})
  }

  /** What a tenant reads back is what it wrote, without what a ClusterRoleBinding cannot carry: a namespace,
      a generateName beside a name, and the projection label. */
  lemma RecordPresentsWhatWasWritten(crb: Binding)
    requires AsRecord(crb).Ok?
    ensures Presented(AsRecord(crb).value)
            == crb.(generateName := if crb.name != "" then "" else crb.generateName,
                    namespace := "", labels := crb.labels - {PROJECTION_LABEL})
  {
  }

  ghost predicate IsRecord(record: Binding) {
    && IsProjectedName(record.name) && record.name != PROJECTION && record.generateName == ""
    && record.namespace == CANONICAL
    && PROJECTION_LABEL in record.labels && record.labels[PROJECTION_LABEL] == "true"
    && !AnyHomeless(record.subjects)
  }

  /** Writing back what was read gives the same record. */
  lemma PresentedIsWrittenBack(record: Binding)
    requires IsRecord(record)
    ensures AsRecord(Presented(record)) == Ok(record)
  {
    ProjectedNameIsOnto(record.name);
    var labels := (record.labels - {PROJECTION_LABEL})[PROJECTION_LABEL := "true"];
    assert labels == record.labels;
  }

  // ------------------------------------------------------------------ the upstream store

  /** What a RoleBinding on the upstream cluster says. */
  datatype Content = Content(labels: Labels, roleRef: RoleRef, subjects: seq<Subject>)

  type Key = (string, string)
  type Store = map<Key, Content>

  function At(store: Store, k: Key): Result<Content> {
    if k in store then Ok(store[k]) else Err(NotFound)
  }

  /** The upstream form of a binding with these labels, roles and subjects. */
  function Upstreamed(t: TenantId, b: Binding): Content {
    Content(b.labels[PROJECTION_LABEL := "true"], ForwardRoleRef(t, b.roleRef), ForwardSubjects(t, b.subjects))
  }

  /** The same for a binding that is there already: of the hidden labels, those that are stored. */
  function UpstreamedOver(t: TenantId, hides: string -> bool, stored: Labels, b: Binding): Content {
    Upstreamed(t, b).(labels := Visible(hides, b.labels[PROJECTION_LABEL := "true"]) + Hidden(hides, stored))
  }

  /** An update upstream: the role a binding refers to cannot be changed. */
  predicate Updatable(store: Store, k: Key, c: Content) {
    k in store && store[k].roleRef == c.roleRef
  }

  function CanonicalNamespace(t: TenantId): string {
    AddTenantIDPrefix(t, CANONICAL)
  }

  /** One namespace's copy: created, or brought up to date if it is there already. */
  function CopyTo(t: TenantId, store: Store, ns: string, name: string, c: Content): Store {
    if ns == CanonicalNamespace(t) then store
    else if (ns, name) !in store || Updatable(store, (ns, name), c) then store[(ns, name) := c]
    else store
  }

  function CopyFrom(t: TenantId, store: Store, namespaces: seq<string>, i: nat, name: string, c: Content): Store
    requires i <= |namespaces|
    decreases |namespaces| - i
  {
    if i == |namespaces| then store
    else CopyFrom(t, CopyTo(t, store, namespaces[i], name, c), namespaces, i + 1, name, c)
  }

  /** project: nothing happens if the record cannot be read back. */
  function Project(t: TenantId, store: Store, namespaces: seq<string>, name: string): Store {
    var k := (CanonicalNamespace(t), name);
    if k in store then CopyFrom(t, store, namespaces, 0, name, store[k]) else store
  }

  function Unproject(store: Store, namespaces: seq<string>, name: string): Store {
    map k | k in store && !(k.1 == name && k.0 in namespaces) :: store[k]
  }

  // ------------------------------------------------------------------ the operations

  /** `suffix` is what the upstream server appends to a generateName. */
  datatype Operation =
    | Create(crb: Binding, suffix: string)
    | Update(name: string, now: Binding)
    | Delete(name: string)

  /** The name a ClusterRoleBinding gets. */
  function ResolvedName(crb: Binding, suffix: string): string {
    if crb.name != "" then crb.name else crb.generateName + suffix
  }

  datatype Outcome = Outcome(store: Store, answer: Result<string>)

  function Created(t: TenantId, namespaces: seq<string>, store: Store, crb: Binding, suffix: string): Outcome {
    var record := AsRecord(crb);
    if record.Err? then Outcome(store, Err(record.error))
    else
      var name := if record.value.name != "" then record.value.name else record.value.generateName + suffix;
      var k := (CanonicalNamespace(t), name);
      if k in store then Outcome(store, Err(AlreadyExists))
      else Outcome(Project(t, store[k := Upstreamed(t, crb)], namespaces, name), Ok(TrimProjectedName(name)))
  }

  /** `now` is what the tenant makes of the ClusterRoleBinding it reads. */
  function Updated(t: TenantId, hides: string -> bool, namespaces: seq<string>, store: Store, name: string,
                   now: Binding): Outcome
  {
    var k := (CanonicalNamespace(t), ProjectedName(name));
    if k !in store then Outcome(store, Err(NotFound))
    else if AsRecord(now).Err? then Outcome(store, Err(AsRecord(now).error))
    else if now.name != name then Outcome(store, Err(BadRequest))
    else
      var c := UpstreamedOver(t, hides, store[k].labels, now);
      if !Updatable(store, k, c) then Outcome(store, Err(Invalid))
      else Outcome(Project(t, store[k := c], namespaces, ProjectedName(name)), Ok(name))
  }

  function Deleted(t: TenantId, namespaces: seq<string>, store: Store, name: string): Outcome {
    var k := (CanonicalNamespace(t), ProjectedName(name));
    if k !in store then Outcome(store, Err(NotFound))
    else Outcome(Unproject(store - {k}, namespaces, ProjectedName(name)), Ok(name))
  }

  /** The storage as the source runs it, over a fixed set of namespaces. */
  class Projection {
    const t: TenantId
    const hides: string -> bool
    const namespaces: seq<string>
    var store: Store

    constructor (t: TenantId, hides: string -> bool, namespaces: seq<string>, store: Store)
      ensures this.t == t && this.hides == hides && this.namespaces == namespaces && this.store == store
    {
      this.t, this.hides, this.namespaces, this.store := t, hides, namespaces, store;
    }

    method ProjectRecord(name: string)
      modifies this
      ensures store == Project(t, old(store), namespaces, name)
    {
      var k := (CanonicalNamespace(t), name);
      if k !in store {
        return;
      }
      var record := store[k];
      for i := 0 to |namespaces|
        invariant CopyFrom(t, store, namespaces, i, name, record) == Project(t, old(store), namespaces, name)
      {
        if namespaces[i] == CanonicalNamespace(t) {
          continue;
        }
        var copy := (namespaces[i], name);
        if copy !in store {
          store := store[copy := record];
          continue;
        }
        if Updatable(store, copy, record) {
          store := store[copy := record];
        }
      }
    }

    method UnprojectRecord(name: string)
      modifies this
      ensures store == Unproject(old(store), namespaces, name)
    {
      for i := 0 to |namespaces|
        invariant forall k :: k in store <==> k in old(store) && !(k.1 == name && k.0 in namespaces[..i])
        invariant forall k :: k in store ==> store[k] == old(store)[k]
      {
        store := store - {(namespaces[i], name)};
        assert namespaces[..i + 1] == namespaces[..i] + [namespaces[i]];
      }
      assert namespaces[..|namespaces|] == namespaces;
    }

    method CreateBinding(crb: Binding, suffix: string) returns (answer: Result<string>)
      modifies this
      ensures Outcome(store, answer) == Created(t, namespaces, old(store), crb, suffix)
    {
      var record := AsRoleBinding(crb);
      if record.Err? {
        return Err(record.error);
      }
      var name := if record.value.name != "" then record.value.name else record.value.generateName + suffix;
      var k := (CanonicalNamespace(t), name);
      if k in store {
        return Err(AlreadyExists);
      }
      store := store[k := Upstreamed(t, crb)];
      ProjectRecord(name);
      return Ok(TrimProjectedName(name));
    }

    method UpdateBinding(name: string, now: Binding) returns (answer: Result<string>)
      modifies this
      ensures Outcome(store, answer) == Updated(t, hides, namespaces, old(store), name, now)
    {
      var k := (CanonicalNamespace(t), ProjectedName(name));
      if k !in store {
        return Err(NotFound);
      }
      var record := AsRoleBinding(now);
      if record.Err? {
        return Err(record.error);
      }
      if now.name != name {
        return Err(BadRequest);
      }
      var c := UpstreamedOver(t, hides, store[k].labels, now);
      if !Updatable(store, k, c) {
        return Err(Invalid);
      }
      store := store[k := c];
      ProjectRecord(ProjectedName(name));
      return Ok(name);
    }

    method DeleteBinding(name: string) returns (answer: Result<string>)
      modifies this
      ensures Outcome(store, answer) == Deleted(t, namespaces, old(store), name)
    {
      var k := (CanonicalNamespace(t), ProjectedName(name));
      if k !in store {
        return Err(NotFound);
      }
      store := store - {k};
      UnprojectRecord(ProjectedName(name));
      return Ok(name);
    }
  }

  // ------------------------------------------------------------------ copies, namespace by namespace

  /** The copies are written, to every namespace but the canonical one, and nothing else is. */
  lemma {:induction false} CopyFromAt(t: TenantId, store: Store, namespaces: seq<string>, i: nat, name: string,
                                      c: Content, k: Key)
    requires i <= |namespaces|
    requires forall j :: i <= j < |namespaces| && (namespaces[j], name) in store
                         ==> store[(namespaces[j], name)].roleRef == c.roleRef
    ensures At(CopyFrom(t, store, namespaces, i, name, c), k)
            == if k.1 == name && k.0 in namespaces[i..] && k.0 != CanonicalNamespace(t) then Ok(c) else At(store, k)
    decreases |namespaces| - i
  {
    if i < |namespaces| {
      CopyFromAt(t, CopyTo(t, store, namespaces[i], name, c), namespaces, i + 1, name, c, k);
      assert namespaces[i..] == [namespaces[i]] + namespaces[i + 1..];
    }
  }

  // ------------------------------------------------------------------ what the tenant means by all this

  /** The tenant's ClusterRoleBindings, as a cluster of its own would hold them. */
  type Live = map<string, Binding>

  function Over(hides: string -> bool, stored: Labels, now: Binding): Binding {
    now.(labels := Visible(hides, now.labels) + Hidden(hides, stored))
  }

  datatype Meaning = Meaning(live: Live, answer: Result<string>)

  /** The hidden labels of a binding are the platform's: an update leaves them as they are. */
  function Meant(hides: string -> bool, live: Live, op: Operation): Meaning {
    match op
    case Create(crb, suffix) =>
      var name := ResolvedName(crb, suffix);
      if AsRecord(crb).Err? then Meaning(live, Err(AsRecord(crb).error))
      else if name in live then Meaning(live, Err(AlreadyExists))
      else Meaning(live[name := crb], Ok(name))
    case Update(name, now) =>
      if name !in live then Meaning(live, Err(NotFound))
      else if AsRecord(now).Err? then Meaning(live, Err(AsRecord(now).error))
      else if now.name != name then Meaning(live, Err(BadRequest))
      else if now.roleRef != live[name].roleRef then Meaning(live, Err(Invalid))
      else Meaning(live[name := Over(hides, live[name].labels, now)], Ok(name))
    case Delete(name) =>
      if name !in live then Meaning(live, Err(NotFound)) else Meaning(live - {name}, Ok(name))
  }

  function Perform(t: TenantId, hides: string -> bool, namespaces: seq<string>, store: Store, op: Operation): Outcome {
    match op
    case Create(crb, suffix) => Created(t, namespaces, store, crb, suffix)
    case Update(name, now) => Updated(t, hides, namespaces, store, name, now)
    case Delete(name) => Deleted(t, namespaces, store, name)
  }

  /** The tenant, what is hidden from it, the namespaces it owns, and what the cluster held before its first ClusterRoleBinding. */
  datatype Setting = Setting(t: TenantId, hides: string -> bool, namespaces: seq<string>, base: Store)

  ghost predicate SettingOk(s: Setting) {
    && CanonicalNamespace(s.t) in s.namespaces
    && (forall k :: k in s.base && k.0 in s.namespaces ==> !IsProjectedName(k.1))
  }

  /** Every namespace of the tenant's holds, under the projected name, each live binding and no other; and
      everything else is as it was. */
  function Expected(s: Setting, live: Live, k: Key): Result<Content> {
    if k.0 in s.namespaces && IsProjectedName(k.1) then
      var name := TrimProjectedName(k.1);
      if name in live then Ok(Upstreamed(s.t, live[name])) else Err(NotFound)
    else At(s.base, k)
  }

  ghost predicate Represents(s: Setting, store: Store, live: Live) {
    forall k: Key {:trigger At(store, k)} :: At(store, k) == Expected(s, live, k)
  }

  lemma BaseRepresentsNothing(s: Setting)
    requires SettingOk(s)
    ensures Represents(s, s.base, map[])
  {
  }

  /** The record is written and the copies follow it. */
  lemma ProjectRepresents(s: Setting, store: Store, live: Live, name: string, b: Binding)
    requires SettingOk(s) && Represents(s, store, live)
    requires name in live ==> ForwardRoleRef(s.t, live[name].roleRef) == ForwardRoleRef(s.t, b.roleRef)
    ensures var k := (CanonicalNamespace(s.t), ProjectedName(name));
            Represents(s, Project(s.t, store[k := Upstreamed(s.t, b)], s.namespaces, ProjectedName(name)), live[name := b])
  {
    var pn, c := ProjectedName(name), Upstreamed(s.t, b);
    var written := store[(CanonicalNamespace(s.t), pn) := c];
    ProjectedNameComesBack(name);
    forall j | 0 <= j < |s.namespaces| && (s.namespaces[j], pn) in written
      ensures written[(s.namespaces[j], pn)].roleRef == c.roleRef
    {
      assert At(store, (s.namespaces[j], pn)) == Expected(s, live, (s.namespaces[j], pn));
    }
    forall k: Key
      ensures At(Project(s.t, written, s.namespaces, pn), k) == Expected(s, live[name := b], k)
    {
      CopyFromAt(s.t, written, s.namespaces, 0, pn, c, k);
      assert s.namespaces[0..] == s.namespaces;
      assert At(store, k) == Expected(s, live, k);
      if IsProjectedName(k.1) {
        ProjectedNameIsOnto(k.1);
      }
    }
  }

  lemma RoleRefsAgree(t: TenantId, a: RoleRef, b: RoleRef)
    ensures ForwardRoleRef(t, a) == ForwardRoleRef(t, b) <==> a == b
  {
    RoleRefComesBack(t, a);
    RoleRefComesBack(t, b);
  }

  lemma CreateRepresents(s: Setting, store: Store, live: Live, crb: Binding, suffix: string)
    requires SettingOk(s) && Represents(s, store, live)
    ensures var done, meant := Created(s.t, s.namespaces, store, crb, suffix), Meant(s.hides, live, Create(crb, suffix));
            done.answer == meant.answer && Represents(s, done.store, meant.live)
  {
    if AsRecord(crb).Ok? {
      var name := ResolvedName(crb, suffix);
      ProjectedNameComesBack(name);
      var record := AsRecord(crb).value;
      assert (if record.name != "" then record.name else record.generateName + suffix) == ProjectedName(name);
      var k := (CanonicalNamespace(s.t), ProjectedName(name));
      assert At(store, k) == Expected(s, live, k);
      if name !in live {
        ProjectRepresents(s, store, live, name, crb);
      }
    }
  }

  /** The record keeps its own mark and the platform's labels, and takes the tenant's. */
  lemma OverIsUpstreamed(t: TenantId, hides: string -> bool, was: Binding, now: Binding)
    ensures UpstreamedOver(t, hides, Upstreamed(t, was).labels, now) == Upstreamed(t, Over(hides, was.labels, now))
  {
    var labels := Visible(hides, now.labels[PROJECTION_LABEL := "true"]) + Hidden(hides, was.labels[PROJECTION_LABEL := "true"]);
    assert labels == (Visible(hides, now.labels) + Hidden(hides, was.labels))[PROJECTION_LABEL := "true"];
  }

  lemma UpdateRepresents(s: Setting, store: Store, live: Live, name: string, now: Binding)
    requires SettingOk(s) && Represents(s, store, live)
    ensures var done, meant := Updated(s.t, s.hides, s.namespaces, store, name, now), Meant(s.hides, live, Update(name, now));
            done.answer == meant.answer && Represents(s, done.store, meant.live)
  {
    var k := (CanonicalNamespace(s.t), ProjectedName(name));
    ProjectedNameComesBack(name);
    assert At(store, k) == Expected(s, live, k);
    if name in live {
      RoleRefsAgree(s.t, live[name].roleRef, now.roleRef);
      OverIsUpstreamed(s.t, s.hides, live[name], now);
      if live[name].roleRef == now.roleRef {
        ProjectRepresents(s, store, live, name, Over(s.hides, live[name].labels, now));
      }
    }
  }

  lemma DeleteRepresents(s: Setting, store: Store, live: Live, name: string)
    requires SettingOk(s) && Represents(s, store, live)
    ensures var done, meant := Deleted(s.t, s.namespaces, store, name), Meant(s.hides, live, Delete(name));
            done.answer == meant.answer && Represents(s, done.store, meant.live)
  {
    var at := (CanonicalNamespace(s.t), ProjectedName(name));
    ProjectedNameComesBack(name);
    assert At(store, at) == Expected(s, live, at);
    if name in live {
      var left := Unproject(store - {at}, s.namespaces, ProjectedName(name));
      forall k: Key
        ensures At(left, k) == Expected(s, live - {name}, k)
      {
        assert At(store, k) == Expected(s, live, k);
        if IsProjectedName(k.1) {
          ProjectedNameIsOnto(k.1);
        }
      }
    }
  }

  lemma OperationRepresents(s: Setting, store: Store, live: Live, op: Operation)
    requires SettingOk(s) && Represents(s, store, live)
    ensures var done, meant := Perform(s.t, s.hides, s.namespaces, store, op), Meant(s.hides, live, op);
            done.answer == meant.answer && Represents(s, done.store, meant.live)
  {
    match op
    case Create(crb, suffix) => CreateRepresents(s, store, live, crb, suffix);
    case Update(name, now) => UpdateRepresents(s, store, live, name, now);
    case Delete(name) => DeleteRepresents(s, store, live, name);
  }

  function After(t: TenantId, hides: string -> bool, namespaces: seq<string>, store: Store, ops: seq<Operation>): Store
    decreases |ops|
  {
    if ops == [] then store
    else Perform(t, hides, namespaces, After(t, hides, namespaces, store, ops[..|ops| - 1]), ops[|ops| - 1]).store
  }

  function LiveAfter(hides: string -> bool, ops: seq<Operation>): Live
    decreases |ops|
  {
    if ops == [] then map[] else Meant(hides, LiveAfter(hides, ops[..|ops| - 1]), ops[|ops| - 1]).live
  }

  /** After any sequence of creates, updates and deletes, whichever of them succeed, every namespace of the
      tenant's holds exactly one copy of each live ClusterRoleBinding, with its roleRef and subjects, none of
      a deleted one, and nothing else on the cluster has changed. */
  lemma {:induction false} CopiesFollowTheRecords(s: Setting, ops: seq<Operation>)
    requires SettingOk(s)
    ensures Represents(s, After(s.t, s.hides, s.namespaces, s.base, ops), LiveAfter(s.hides, ops))
    decreases |ops|
  {
    if ops == [] {
      BaseRepresentsNothing(s);
    } else {
      CopiesFollowTheRecords(s, ops[..|ops| - 1]);
      OperationRepresents(s, After(s.t, s.hides, s.namespaces, s.base, ops[..|ops| - 1]), LiveAfter(s.hides, ops[..|ops| - 1]), ops[|ops| - 1]);
    }
  }

  /** And every answer is the one a cluster of the tenant's own would have given. */
  lemma AnswersAreTheTenantsOwn(s: Setting, ops: seq<Operation>, op: Operation)
    requires SettingOk(s)
    ensures Perform(s.t, s.hides, s.namespaces, After(s.t, s.hides, s.namespaces, s.base, ops), op).answer == Meant(s.hides, LiveAfter(s.hides, ops), op).answer
  {
    CopiesFollowTheRecords(s, ops);
    OperationRepresents(s, After(s.t, s.hides, s.namespaces, s.base, ops), LiveAfter(s.hides, ops), op);
  }

  // ------------------------------------------------------------------ what the copies grant

  /** A ClusterRoleBinding read as a binding in one namespace; where, is of no account unless a subject is
      without a namespace of its own. */
  function InNamespace(b: Binding, ns: string): RbacBindings.Binding {
    RbacBindings.Binding(ns, b.roleRef, b.subjects)
  }

  function CopyAsBinding(ns: string, c: Content): RbacBindings.Binding {
    RbacBindings.Binding(ns, c.roleRef, c.subjects)
  }

  lemma NamespaceIsOfNoAccount(b: Binding, ns: string, roles: Roles, who: Who, q: Rbac.Ask)
    requires !AnyHomeless(b.subjects) && b.roleRef.ClusterRole?
    ensures Grants(roles, InNamespace(b, ns), who, q) <==> Grants(roles, InNamespace(b, ""), who, q)
  {
  }

  /** In each of the tenant's namespaces the copy decides about the translated request of one of the tenant's
      own what the live ClusterRoleBinding says about the request. */
  lemma CopiesGrantWhatTheBindingGrants(s: Setting, ops: seq<Operation>, name: string, ns: string,
                                        crds: Rbac.Crds, tenant: Roles, up: Roles, who: Who, q: Rbac.Ask)
    requires SettingOk(s) && name in LiveAfter(s.hides, ops) && AddTenantIDPrefix(s.t, ns) in s.namespaces
    requires var b := LiveAfter(s.hides, ops)[name];
             && b.roleRef.ClusterRole? && b.roleRef.name != ""
             && PlainRules(s.t, RulesOf(tenant, InNamespace(b, ""))) && PlainSubjects(InNamespace(b, ""))
    requires Rbac.Sane(crds, s.t) && Holds(crds, s.t, tenant, up)
    requires Real(who) && Rbac.PlainAsk(crds, s.t, q) && !Rbac.Shadowed(crds, s.t, q)
    ensures var k := (AddTenantIDPrefix(s.t, ns), ProjectedName(name));
            var store := After(s.t, s.hides, s.namespaces, s.base, ops);
            && k in store
            && (Grants(up, CopyAsBinding(k.0, store[k]), Upstream(s.t, who), Rbac.Translated(s.t, q))
                <==> Grants(tenant, InNamespace(LiveAfter(s.hides, ops)[name], ""), who, q))
  {
    var b := LiveAfter(s.hides, ops)[name];
    var k := (AddTenantIDPrefix(s.t, ns), ProjectedName(name));
    var store := After(s.t, s.hides, s.namespaces, s.base, ops);
    CopiesFollowTheRecords(s, ops);
    ProjectedNameComesBack(name);
    assert At(store, k) == Expected(s, LiveAfter(s.hides, ops), k);
    assert CopyAsBinding(k.0, store[k]) == ForwardBinding(s.t, InNamespace(b, ns));
    GrantsAreKept(crds, s.t, tenant, up, InNamespace(b, ns), who, q);
    LiveBindingsAreWellFormed(s.hides, ops, name);
    NamespaceIsOfNoAccount(b, ns, tenant, who, q);
  }

  /** Every live binding can be read so: none has a subject without a namespace. */
  lemma {:induction false} LiveBindingsAreWellFormed(hides: string -> bool, ops: seq<Operation>, name: string)
    requires name in LiveAfter(hides, ops)
    ensures AsRecord(LiveAfter(hides, ops)[name]).Ok?
    decreases |ops|
  {
    var before := LiveAfter(hides, ops[..|ops| - 1]);
    if name in before {
      LiveBindingsAreWellFormed(hides, ops[..|ops| - 1], name);
    }
  }
}
