/** One shared store, many private ones: how the gateway maps the requests of a tenant onto the upstream
    cluster (pkg/convert/default.go, ownerreference.go and namespace.go; Get, Create, Update, Delete and
    list of pkg/proxy/proxy.go; tenantNamespaces of pkg/proxy/fanout.go).
 */
module TenantStores {
  import opened Metadata
  import opened Names
  import opened Wrappers

  const ENFORCE_LABEL := "pod-security.kubernetes.io/enforce"
  const VERSION_LABEL := "pod-security.kubernetes.io/enforce-version"

  /** What the platform hides, and the pod security level it pins on every namespace. */
  datatype Platform = Platform(hides: string -> bool, level: string, version: string)

  /** The tenant label is among what is hidden, and the pod security labels are not. */
  ghost predicate Sane(p: Platform) {
    p.hides(TENANT_LABEL) && !p.hides(ENFORCE_LABEL) && !p.hides(VERSION_LABEL)
  }

  // ------------------------------------------------------------------ objects

  /** A kind, whether its objects live in namespaces, and whether it is one of the tenant's own CRDs. */
  datatype Kind = Kind(name: string, namespaced: bool, custom: bool)

  const NAMESPACE := Kind("Namespace", false, false)

  datatype Key = Cluster(kind: Kind, name: string) | In(kind: Kind, namespace: string, name: string)

  datatype Owner = Owner(kind: Kind, apiVersion: string, name: string)

  datatype Object = Object(labels: Pairs, owners: seq<Owner>, body: string)

  type Store = map<Key, Object>

  function At(store: Store, k: Key): Option<Object> {
    if k in store then Some(store[k]) else None
  }

  function NamespaceKey(ns: string): Key {
    Cluster(NAMESPACE, ns)
  }

  // ------------------------------------------------------------------ any API server

  datatype Error = NotFound | AlreadyExists | Refused

  /** A list is of one kind, in one namespace or in all there are. */
  datatype Request =
    | Get(key: Key)
    | Create(key: Key, value: Object)
    | Update(key: Key, value: Object)
    | Delete(key: Key)
    | List(kind: Kind, namespace: Option<string>)

  datatype Answer = Failed(error: Error) | One(key: Key, value: Object) | Many(items: set<(Key, Object)>)

  datatype Reply = Reply(store: Store, answer: Answer)

  predicate Selected(kind: Kind, namespace: Option<string>, k: Key) {
    k.kind == kind && (namespace.Some? ==> k.In? && k.namespace == namespace.value)
  }

  /** Deleting a namespace deletes what is in it. */
  predicate GoesWith(k: Key, deleted: Key) {
    k == deleted || (k.In? && deleted == NamespaceKey(k.namespace))
  }

  function Without(store: Store, deleted: Key): Store {
    map k | k in store && !GoesWith(k, deleted) :: store[k]
  }

  function Serve(store: Store, r: Request): Reply {
    match r
    case Get(k) =>
      Reply(store, if k in store then One(k, store[k]) else Failed(NotFound))
    case Create(k, o) =>
      if k in store then Reply(store, Failed(AlreadyExists))
      else if k.In? && NamespaceKey(k.namespace) !in store then Reply(store, Failed(NotFound))
      else Reply(store[k := o], One(k, o))
    case Update(k, o) =>
      if k !in store then Reply(store, Failed(NotFound)) else Reply(store[k := o], One(k, o))
    case Delete(k) =>
      if k !in store then Reply(store, Failed(NotFound)) else Reply(Without(store, k), One(k, store[k]))
    case List(kind, namespace) =>
      Reply(store, Many(set k | k in store && Selected(kind, namespace, k) :: (k, store[k])))
  }

  // ------------------------------------------------------------------ names both ways

  /** Where a tenant's request is sent. */
  function ToUpstream(t: TenantId, k: Key): Key {
    match k
    case Cluster(kind, name) => Cluster(kind, AddTenantIDPrefix(t, name))
    case In(kind, ns, name) => In(kind, UpstreamNamespace(t, ns), name)
  }

  function ToTenant(t: TenantId, k: Key): Key {
    match k
    case Cluster(kind, name) => Cluster(kind, TrimTenantIDPrefix(t, name))
    case In(kind, ns, name) => In(kind, TrimTenantIDPrefix(t, ns), name)
  }

  /** echoRequestNamespace: the answer is in the caller's spelling, if it is about the namespace it named. */
  function Echoed(t: TenantId, requested: Option<string>, k: Key): Key {
    if requested.Some? && k.In? && k.namespace != requested.value
       && UpstreamNamespace(t, k.namespace) == UpstreamNamespace(t, requested.value)
    then k.(namespace := requested.value)
    else k
  }

  function Requested(k: Key): Option<string> {
    if k.In? then Some(k.namespace) else None
  }

  /** The name of a cluster-scoped owner and the group of a custom one carry the prefix upstream. */
  function OwnerForward(t: TenantId, o: Owner): Owner {
    o.(name := if o.kind.namespaced || o.name == "" then o.name else AddTenantIDPrefix(t, o.name),
       apiVersion := if o.kind.custom && o.apiVersion != "" then AddTenantIDPrefix(t, o.apiVersion) else o.apiVersion)
  }

  function OwnerBackward(t: TenantId, o: Owner): Owner {
    o.(name := if o.kind.namespaced then o.name else TrimTenantIDPrefix(t, o.name),
       apiVersion := if o.kind.custom then TrimTenantIDPrefix(t, o.apiVersion) else o.apiVersion)
  }

  function OwnersForward(t: TenantId, os: seq<Owner>): (r: seq<Owner>)
    ensures |r| == |os| && forall i :: 0 <= i < |os| ==> r[i] == OwnerForward(t, os[i])
  {
    seq(|os|, i requires 0 <= i < |os| => OwnerForward(t, os[i]))
  }

  function OwnersBackward(t: TenantId, os: seq<Owner>): (r: seq<Owner>)
    ensures |r| == |os| && forall i :: 0 <= i < |os| ==> r[i] == OwnerBackward(t, os[i])
  {
    seq(|os|, i requires 0 <= i < |os| => OwnerBackward(t, os[i]))
  }

  /** The loop of the default convertor over the owner references. */
  method ForwardOwners(t: TenantId, owners: array<Owner>)
    modifies owners
    ensures owners[..] == OwnersForward(t, old(owners[..]))
  {
    for i := 0 to owners.Length
      invariant forall j :: 0 <= j < i ==> owners[j] == OwnerForward(t, old(owners[j]))
      invariant forall j :: i <= j < owners.Length ==> owners[j] == old(owners[j])
    {
      if !owners[i].kind.namespaced && |owners[i].name| != 0 {
        owners[i] := owners[i].(name := AddTenantIDPrefix(t, owners[i].name));
      }
      if owners[i].kind.custom && |owners[i].apiVersion| != 0 {
        owners[i] := owners[i].(apiVersion := AddTenantIDPrefix(t, owners[i].apiVersion));
      }
    }
  }

  lemma OwnersComeBack(t: TenantId, os: seq<Owner>)
    ensures OwnersBackward(t, OwnersForward(t, os)) == os
  {
    forall i | 0 <= i < |os| ensures OwnerBackward(t, OwnerForward(t, os[i])) == os[i] {
      TrimUndoesAdd(t, os[i].name);
      TrimUndoesAdd(t, os[i].apiVersion);
    }
  }

  // ------------------------------------------------------------------ objects both ways

  function Pinned(p: Platform, labels: Pairs): Pairs {
    labels[ENFORCE_LABEL := p.level][VERSION_LABEL := p.version]
  }

  predicate IsNamespace(k: Key) {
    k.Cluster? && k.kind == NAMESPACE
  }

  function Forward(p: Platform, t: TenantId, k: Key, o: Object): Object {
    Object(if IsNamespace(k) then Pinned(p, o.labels[TENANT_LABEL := t]) else o.labels, OwnersForward(t, o.owners), o.body)
  }

  function View(p: Platform, t: TenantId, o: Object): Object {
    Object(Visible(p.hides, o.labels), OwnersBackward(t, o.owners), o.body)
  }

  /** A namespace must not be named with the tenant's prefix, nor be labelled as another tenant's. */
  predicate Admitted(t: TenantId, k: Key, o: Object) {
    IsNamespace(k) ==> !Carries(t, k.name) && (TENANT_LABEL in o.labels ==> o.labels[TENANT_LABEL] == t)
  }

  // ------------------------------------------------------------------ the gateway

  /** Which of the stored objects a list is made of: in all namespaces, those of the namespaces that carry the
      tenant's label; of a cluster-scoped kind, those that carry its prefix. */
  predicate Gathered(t: TenantId, store: Store, kind: Kind, namespace: Option<string>, k: Key) {
    && k in store && k.kind == kind
    && match k
       case Cluster(_, name) => namespace.None? && Carries(t, name)
       case In(_, ns, _) =>
         if namespace.Some? then ns == UpstreamNamespace(t, namespace.value)
         else
           var home := At(store, NamespaceKey(ns));
           home.Some? && TENANT_LABEL in home.value.labels && home.value.labels[TENANT_LABEL] == t
  }

  function Answered(p: Platform, t: TenantId, requested: Option<string>, a: Answer): Answer {
    match a
    case Failed(e) => Failed(e)
    case One(k, o) => One(Echoed(t, requested, ToTenant(t, k)), View(p, t, o))
    case Many(items) => Many(set i | i in items :: (Echoed(t, requested, ToTenant(t, i.0)), View(p, t, i.1)))
  }

  function Gateway(p: Platform, t: TenantId, store: Store, r: Request): Reply {
    match r
    case Get(k) =>
      Reply(store, Answered(p, t, Requested(k), Serve(store, Get(ToUpstream(t, k))).answer))
    case Create(k, o) =>
      if !Admitted(t, k, o) then Reply(store, Failed(Refused))
      else
        var reply := Serve(store, Create(ToUpstream(t, k), Forward(p, t, k, o)));
        Reply(reply.store, Answered(p, t, Requested(k), reply.answer))
    case Update(k, o) =>
      var stored := At(store, ToUpstream(t, k));
      if stored.None? then Reply(store, Failed(NotFound))
      else
        var restored := o.(labels := Visible(p.hides, o.labels) + Hidden(p.hides, stored.value.labels));
        if !Admitted(t, k, restored) then Reply(store, Failed(Refused))
        else
          var reply := Serve(store, Update(ToUpstream(t, k), Forward(p, t, k, restored)));
          Reply(reply.store, Answered(p, t, Requested(k), reply.answer))
    case Delete(k) =>
      var reply := Serve(store, Delete(ToUpstream(t, k)));
      Reply(reply.store, Answered(p, t, Requested(k), reply.answer))
    case List(kind, namespace) =>
      Reply(store, Answered(p, t, namespace,
        Many(set k | k in store && Gathered(t, store, kind, namespace, k) :: (k, store[k]))))
  }

  // ------------------------------------------------------------------ a cluster of the tenant's own

  /** The namespace of a request, whichever of its two spellings the caller used. */
  function Canonical(t: TenantId, k: Key): Key {
    if k.In? then k.(namespace := TrimTenantIDPrefix(t, k.namespace)) else k
  }

  function Respelled(requested: Option<string>, a: Answer): Answer {
    match a
    case Failed(e) => Failed(e)
    case One(k, o) => One(Spelled(requested, k), o)
    case Many(items) => Many(set i | i in items :: (Spelled(requested, i.0), i.1))
  }

  function Spelled(requested: Option<string>, k: Key): Key {
    if requested.Some? && k.In? then k.(namespace := requested.value) else k
  }

  /** What the tenant's own cluster stores: no hidden labels, and a namespace with its level pinned. */
  function Own(p: Platform, k: Key, o: Object): Object {
    o.(labels := if IsNamespace(k) then Pinned(p, Visible(p.hides, o.labels)) else Visible(p.hides, o.labels))
  }

  /** The same requests on a cluster of the tenant's own, with the same rules on namespaces. */
  function Alone(p: Platform, t: TenantId, store: Store, r: Request): Reply {
    match r
    case Get(k) =>
      Reply(store, Respelled(Requested(k), Serve(store, Get(Canonical(t, k))).answer))
    case Create(k, o) =>
      if !Admitted(t, k, o) then Reply(store, Failed(Refused))
      else
        var reply := Serve(store, Create(Canonical(t, k), Own(p, k, o)));
        Reply(reply.store, Respelled(Requested(k), reply.answer))
    case Update(k, o) =>
      var reply := Serve(store, Update(Canonical(t, k), Own(p, k, o)));
      Reply(reply.store, Respelled(Requested(k), reply.answer))
    case Delete(k) =>
      var reply := Serve(store, Delete(Canonical(t, k)));
      Reply(reply.store, Respelled(Requested(k), reply.answer))
    case List(kind, namespace) =>
      var own := if namespace.Some? then Some(TrimTenantIDPrefix(t, namespace.value)) else None;
      Reply(store, Respelled(namespace, Serve(store, List(kind, own)).answer))
  }
}
